/** Progress of the lock-step protocol: no barrier is ever stuck, and every started token comes to its end. */
module LockStepProgress {
  import opened Linear
  import opened BatchedExec
  import opened LockStep
  import opened LockStepInv
  import opened LockStepSafety

  // ----- No barrier is stuck -----

  /** A step of the aggregator or of the worker that holds an active slot: bystanders do not count. */
  predicate Serves(s: State, l: Label) {
    match l
    case ATakeLeaves => true
    case ATakeJoins => true
    case APublish => true
    case AWaitDone => true
    case AMidLeave => true
    case AMidPublish => true
    case AFetch => true
    case AFetchDone => true
    case AStoreTail => true
    case AExecute => true
    case AClear => true
    case ABump => true
    case WClaim(w, _) => false
    case WJoin(w) => false
    case WSeeActive(w) => HoldsActive(s, w)
    case WCapture(w) => HoldsActive(s, w)
    case WWrite(w, _, _, _) => HoldsActive(s, w)
    case WReserve(w) => HoldsActive(s, w)
    case WFill(w) => HoldsActive(s, w)
    case WMark(w) => HoldsActive(s, w)
    case WSignal(w) => HoldsActive(s, w)
    case WWake(w) => HoldsActive(s, w)
    case WRead(w) => HoldsActive(s, w)
    case WContinue(w) => HoldsActive(s, w)
    case WLeave(w) => HoldsActive(s, w)
    case WSeeInactive(w) => HoldsActive(s, w)
    case WRelease(w) => false
  }

  predicate HoldsActive(s: State, w: nat) {
    w < |s.workers| && s.workers[w].slot in s.agg.active
  }

  /** One zero row: a worker always has something it may write. */
  lemma SomeRows(c: Config, k: nat) returns (x: Mat)
    requires ConfigOk(c) && k < OpCount(c)
    ensures RowsOk(c, k, x, 1, 1) && |Flat(x)| <= c.inLen
  {
    var width := InWidth(c.model, OpAt(c, k));
    x := [ZeroVec(width)];
    FlatLength(x, width);
    assert RowsFit(c, OpAt(c, k), 1);
  }

  lemma MissingWorker(c: Config, s: State, t: nat) returns (w: nat)
    requires ConfigOk(c) && Inv(c, s) && s.agg.phase.Wait? && t in s.agg.active && t !in s.ready
    ensures Sized(c, s) && w < |s.workers| && s.workers[w].slot == t < c.numSlots && WorkerOk(c, s, s.workers[w])
    ensures !s.workers[w].phase.Idle?
  {
    assert t in s.agg.active + s.active + s.joins + s.leaves + s.ready;
    w := s.owner[t];
  }

  /** Where a worker can be whose slot is active but not ready. */
  lemma MissingPhase(c: Config, s: State, w: nat)
    requires ConfigOk(c) && s.agg.phase.Wait? && w < |s.workers| && WorkerOk(c, s, s.workers[w])
    requires s.workers[w].slot in s.agg.active && s.workers[w].slot !in s.ready && !s.workers[w].phase.Idle?
    ensures var p := s.workers[w].phase; !p.Claimed? && !p.Inactive?
    ensures s.workers[w].phase.Waiting? ==> s.epoch > s.workers[w].epoch
    ensures s.workers[w].phase.Joined? ==> s.workers[w].slot in s.active
    ensures s.workers[w].phase.Leaving? ==> s.workers[w].slot in s.leaves
  {
    hide OutputHeld, Prepared, ConfigOk, OpCount;
  }

  lemma WokenReads(c: Config, s: State, w: nat)
    requires ConfigOk(c) && Sized(c, s) && At(s, w, Woken) && s.workers[w].slot < c.numSlots
    requires WorkerOk(c, s, s.workers[w])
    ensures CanRead(c, s, w)
  {
  }

  /** A worker that has started an op can go on to its signal. */
  lemma SubmitterMoves(c: Config, s: State, w: nat) returns (l: Label)
    requires ConfigOk(c) && Inv(c, s) && s.agg.phase.Wait? && HoldsActive(s, w) && Sized(c, s)
    requires s.workers[w].slot < c.numSlots && WorkerOk(c, s, s.workers[w])
    requires var p := s.workers[w].phase; p.Captured? || p.Written? || p.Reserved? || p.Filled? || p.Submitted?
    ensures Enabled(c, s, l) && Serves(s, l)
  {
    hide Inv, Executed, Accepted, AllInBounds, ModelOk, Prepared;
    match s.workers[w].phase
    case Captured =>
      var x := SomeRows(c, s.workers[w].k);
      l := WWrite(w, x, 1, 1);
    case Written =>
      RoomToReserve(c, s, w);
      l := WReserve(w);
    case Reserved => l := WFill(w);
    case Filled => l := WMark(w);
    case _ => l := WSignal(w);
  }

  /** While the aggregator waits, each active slot that is not ready can be moved on: by its own worker, or by the
      aggregator noticing its leave. */
  lemma MissingSlotMoves(c: Config, s: State, t: nat) returns (l: Label)
    requires ConfigOk(c) && Inv(c, s) && s.agg.phase.Wait? && t in s.agg.active && t !in s.ready
    ensures Enabled(c, s, l) && Serves(s, l)
  {
    hide Inv, Executed, Accepted, AllInBounds, ModelOk, WorkerOk, CanRead, ConfigOk;
    var w := MissingWorker(c, s, t);
    var p := s.workers[w].phase;
    MissingPhase(c, s, w);
    if p.Captured? || p.Written? || p.Reserved? || p.Filled? || p.Submitted? {
      l := SubmitterMoves(c, s, w);
    } else {
      match p
      case Joined => l := WSeeActive(w);
      case Compute => l := WCapture(w);
      case Waiting => l := WWake(w);
      case Woken =>
        WokenReads(c, s, w);
        l := WRead(w);
      case TokenDone => l := WContinue(w);
      case Leaving =>
        assert t in s.leaves * s.agg.active;
        l := AMidLeave;
    }
  }

  /** While the aggregator waits, someone it depends on can move. */
  lemma WaitMoves(c: Config, s: State) returns (l: Label)
    requires ConfigOk(c) && Inv(c, s) && s.agg.phase.Wait?
    ensures Enabled(c, s, l) && Serves(s, l)
  {
    if s.agg.active <= s.ready {
      l := AWaitDone;
    } else {
      var t :| t in s.agg.active && t !in s.ready;
      l := MissingSlotMoves(c, s, t);
    }
  }

  /** Outside its wait the aggregator moves by itself. */
  lemma AggregatorMoves(c: Config, s: State) returns (l: Label)
    requires ConfigOk(c) && Inv(c, s) && !s.agg.phase.Wait?
    ensures Enabled(c, s, l) && Serves(s, l)
  {
    match s.agg.phase
    case TakeLeaves => l := ATakeLeaves;
    case TakeJoins => l := ATakeJoins;
    case Publish => l := APublish;
    case MidPublish => l := AMidPublish;
    case Fetch =>
      l := AFetchDone;
      if |s.agg.ptrs| < s.agg.n {
        NextEntry(c, s);
        l := AFetch;
      }
    case StoreTail => l := AStoreTail;
    case Execute =>
      ExecuteEnabled(c, s);
      l := AExecute;
    case ClearReady => l := AClear;
    case Bump => l := ABump;
  }

  /** Deadlock freedom: in every reachable state the aggregator, or a worker it depends on, can move. */
  lemma NeverStuck(c: Config, s: State)
    requires ConfigOk(c) && Reachable(c, s)
    ensures exists l :: Enabled(c, s, l) && Serves(s, l)
  {
    ReachableInv(c, s);
    if s.agg.phase.Wait? {
      var l := WaitMoves(c, s);
    } else {
      var l := AggregatorMoves(c, s);
    }
  }

  // ----- A measure that every step inside a token decreases -----

  /** Steps a worker can still take before it depends on the aggregator. */
  function WorkerRank(s: State, wk: Worker): nat {
    match wk.phase
    case Waiting => if wk.epoch == s.epoch then 0 else 15
    case Submitted => 1
    case Filled => 2
    case Reserved => 3
    case Written => 4
    case Captured => 5
    case Compute => 6
    case Joined => 7
    case Claimed => 8
    case Idle => 9
    case Inactive => 10
    case Leaving => 11
    case TokenDone => 12
    case Woken => 13
  }

  function WorkLeft(s: State, n: nat): nat
    requires n <= |s.workers|
  {
    if n == 0 then 0 else WorkLeft(s, n - 1) + WorkerRank(s, s.workers[n - 1])
  }

  function PhaseRank(a: Agg): nat {
    match a.phase
    case MidPublish => 7
    case Wait => 6
    case Fetch => 5
    case StoreTail => 4
    case Execute => 3
    case ClearReady => 2
    case Bump => 1
    case _ => 0
  }

  function Pending(a: Agg): nat {
    if a.phase.Fetch? && |a.ptrs| < a.n then a.n - |a.ptrs| else 0
  }

  /** Lexicographic order: ops left in the token, slots that may still leave, phase of the barrier, entries left to
      fetch, steps left to the workers. */
  ghost predicate Smaller(c: Config, s': State, s: State) {
    (OpCount(c) - s.agg.k, |s.agg.active|, PhaseRank(s.agg), Pending(s.agg), WorkLeft(s, |s.workers|)
      decreases to
     OpCount(c) - s'.agg.k, |s'.agg.active|, PhaseRank(s'.agg), Pending(s'.agg), WorkLeft(s', |s'.workers|))
  }

  lemma {:induction false} OneWorkerLess(s: State, s': State, w: nat, n: nat)
    requires |s'.workers| == |s.workers| && n <= |s.workers| && w < |s.workers| && s'.epoch == s.epoch
    requires forall v :: 0 <= v < |s.workers| && v != w ==> s'.workers[v] == s.workers[v]
    requires WorkerRank(s', s'.workers[w]) < WorkerRank(s, s.workers[w])
    ensures if w < n then WorkLeft(s', n) < WorkLeft(s, n) else WorkLeft(s', n) == WorkLeft(s, n)
  {
    if n > 0 { OneWorkerLess(s, s', w, n - 1); }
  }

  lemma WorkerStepSmaller(c: Config, s: State, s': State, w: nat, wk: Worker)
    requires w < |s.workers| && s'.workers == s.workers[w := wk] && s'.epoch == s.epoch && s'.agg == s.agg
    requires WorkerRank(s, wk) < WorkerRank(s, s.workers[w])
    ensures Smaller(c, s', s)
  {
    OneWorkerLess(s, s', w, |s.workers|);
  }

  /** A worker step changes that worker alone, and brings it nearer to depending on the aggregator. */
  lemma WorkerStepAdvances(c: Config, s: State, l: Label) returns (w: nat, wk: Worker)
    requires ConfigOk(c) && Enabled(c, s, l) && WorkerLabel(l)
    requires l.WSignal? ==> l.w < |s.workers| && s.workers[l.w].epoch == s.epoch
    ensures w < |s.workers| && Apply(c, s, l).workers == s.workers[w := wk]
    ensures Apply(c, s, l).epoch == s.epoch && Apply(c, s, l).agg == s.agg
    ensures WorkerRank(s, wk) < WorkerRank(s, s.workers[w])
  {
    hide Executed, Accepted, AllInBounds, ConfigOk, RowsOk, CanRead, Overwrite, Pos, OutCells, OpAt, LayerAt;
    w := l.w;
    wk := Apply(c, s, l).workers[w];
  }

  lemma MidLeaveSmaller(c: Config, s: State)
    requires s.agg.phase.Wait? && s.leaves * s.agg.active != {}
    ensures Smaller(c, DoMidLeave(s), s)
  {
    var t :| t in s.leaves * s.agg.active;
    var s' := DoMidLeave(s);
    assert t in s.agg.active && t !in s'.agg.active;
    SubsetSize(s'.agg.active, s.agg.active);
  }

  lemma FetchSmaller(c: Config, s: State)
    requires ConfigOk(c) && Inv(c, s) && s.agg.phase.Fetch? && |s.agg.ptrs| < s.agg.n
    ensures Smaller(c, DoFetch(c, s), s)
  {
    NextEntry(c, s);
  }

  lemma BumpSmaller(c: Config, s: State)
    requires s.agg.phase.Bump? && s.agg.k < OpCount(c)
    ensures Boundary(DoBump(c, s).agg) || Smaller(c, DoBump(c, s), s)
  {
  }

  lemma PhaseSmaller(c: Config, s: State, s': State)
    requires s'.agg.k == s.agg.k && s'.agg.active == s.agg.active && PhaseRank(s'.agg) < PhaseRank(s.agg)
    ensures Smaller(c, s', s)
  {
  }

  lemma ExecuteSmaller(c: Config, s: State, s': State)
    requires s.agg.phase.Execute? && s' == s.(outs := s'.outs, agg := s.agg.(phase := ClearReady))
    ensures Smaller(c, s', s)
  {
    PhaseSmaller(c, s, s');
  }

  lemma AggStepDecreases(c: Config, s: State, l: Label)
    requires ConfigOk(c) && Inv(c, s) && Enabled(c, s, l) && !Boundary(s.agg) && !WorkerLabel(l)
    ensures Boundary(Apply(c, s, l).agg) || Smaller(c, Apply(c, s, l), s)
  {
    match l
    case AMidLeave => MidLeaveSmaller(c, s);
    case AFetch => FetchSmaller(c, s);
    case ABump => BumpSmaller(c, s);
    case AWaitDone => PhaseSmaller(c, s, DoWaitDone(s));
    case AMidPublish => if s.agg.active != {} { PhaseSmaller(c, s, DoMidPublish(s)); }
    case AFetchDone => PhaseSmaller(c, s, DoFetchDone(s));
    case AStoreTail => PhaseSmaller(c, s, DoStoreTail(s));
    case AExecute => ExecuteSmaller(c, s, DoExecute(c, s));
    case AClear => PhaseSmaller(c, s, DoClear(s));
    case _ =>
  }

  /** Every step taken inside a token either decreases the measure or brings the token to its boundary. */
  lemma StepDecreases(c: Config, s: State, l: Label)
    requires ConfigOk(c) && Inv(c, s) && Enabled(c, s, l) && !Boundary(s.agg)
    ensures Boundary(Apply(c, s, l).agg) || Smaller(c, Apply(c, s, l), s)
  {
    if WorkerLabel(l) {
      if l.WSignal? { assert WorkerOk(c, s, s.workers[l.w]); }
      var w, wk := WorkerStepAdvances(c, s, l);
      WorkerStepSmaller(c, s, Apply(c, s, l), w, wk);
    } else {
      AggStepDecreases(c, s, l);
    }
  }

  ghost predicate StepAt(c: Config, run: nat -> State, i: nat)
    requires ConfigOk(c)
  {
    Next(c, run(i), run(i + 1))
  }

  ghost predicate InfiniteRun(c: Config, run: nat -> State)
    requires ConfigOk(c)
  {
    Reachable(c, run(0)) && forall i: nat :: StepAt(c, run, i)
  }

  lemma {:induction false} InfiniteRunInv(c: Config, run: nat -> State, i: nat)
    requires ConfigOk(c) && InfiniteRun(c, run)
    ensures Inv(c, run(i))
  {
    hide Inv, Next;
    if i == 0 {
      ReachableInv(c, run(0));
    } else {
      InfiniteRunInv(c, run, i - 1);
      assert StepAt(c, run, i - 1);
      NextKeeps(c, run(i - 1), run(i));
    }
  }

  lemma RunStepDecreases(c: Config, run: nat -> State, i: nat)
    requires ConfigOk(c) && InfiniteRun(c, run) && !Boundary(run(i).agg)
    ensures run(i).agg.k < OpCount(c)
    ensures Boundary(run(i + 1).agg) || Smaller(c, run(i + 1), run(i))
  {
    InfiniteRunInv(c, run, i);
    assert StepAt(c, run, i);
    var l :| Enabled(c, run(i), l) && run(i + 1) == Apply(c, run(i), l);
    StepDecreases(c, run(i), l);
  }

  /** Under any scheduler, and without any fairness assumption, every started token reaches its boundary: all its ops
      were executed, or every active slot has left. */
  lemma {:induction false} TokenEnds(c: Config, run: nat -> State, i: nat) returns (j: nat)
    requires ConfigOk(c) && InfiniteRun(c, run)
    ensures i <= j && Boundary(run(j).agg)
    decreases OpCount(c) - run(i).agg.k, |run(i).agg.active|, PhaseRank(run(i).agg), Pending(run(i).agg),
      WorkLeft(run(i), |run(i).workers|), if Boundary(run(i).agg) then 0 else 1
  {
    hide InfiniteRun, Inv;
    if Boundary(run(i).agg) {
      j := i;
    } else {
      RunStepDecreases(c, run, i);
      if Boundary(run(i + 1).agg) {
        j := i + 1;
      } else {
        j := TokenEnds(c, run, i + 1);
      }
    }
  }

  /** The boundary is only entered by finishing the token's last op, or by the last active slot leaving. */
  lemma BoundaryEntered(c: Config, s: State, l: Label)
    requires ConfigOk(c) && Reachable(c, s) && Enabled(c, s, l) && !Boundary(s.agg) && Boundary(Apply(c, s, l).agg)
    ensures (l == ABump && s.agg.k == OpCount(c) - 1) || (l == AMidPublish && s.agg.k == 0 && s.agg.active == {})
  {
    hide Reachable, Workers, RingLinks, RingCounters, Ownership, MasksOwned, Executed, Accepted, AllInBounds;
    ReachableInv(c, s);
  }
}
