/** A worker's program in a shared run of the lock-step protocol: what it reads is what it would read alone. */
module SharedRun {
  import opened Linear
  import opened BatchedExec
  import opened LockStep
  import opened LockStepInv
  import opened LockStepSafety
  import opened LockStepTheorems

  // ----- Runs with their labels -----

  ghost predicate StepAt(c: Config, run: seq<State>, labels: seq<Label>, i: nat)
    requires ConfigOk(c) && |run| == |labels| + 1 && i < |labels|
  {
    Enabled(c, run[i], labels[i]) && run[i + 1] == Apply(c, run[i], labels[i])
  }

  ghost predicate IsLabelled(c: Config, run: seq<State>, labels: seq<Label>)
    requires ConfigOk(c)
  {
    |run| == |labels| + 1 && run[0] == InitState(c) && forall i :: 0 <= i < |labels| ==> StepAt(c, run, labels, i)
  }

  lemma EachReachable(c: Config, run: seq<State>, labels: seq<Label>, n: nat)
    requires ConfigOk(c) && IsLabelled(c, run, labels) && n <= |labels|
    ensures Reachable(c, run[n])
  {
    var part := run[..n + 1];
    forall i | 0 <= i < |part| - 1 ensures Next(c, part[i], part[i + 1]) {
      assert StepAt(c, run, labels, i);
    }
    assert IsRun(c, part);
  }

  // ----- Programs -----

  datatype Submission = Submission(x: Mat, bx: int, tx: int)

  /** What a worker computes between two ops: the rows it submits next, and what it makes of the result. */
  datatype Program<!S> = Program(start: S, submit: S -> Submission, receive: (S, Vec) -> S)

  function After<S>(p: Program<S>, ys: seq<Vec>): S {
    if ys == [] then p.start else p.receive(After(p, ys[..|ys| - 1]), ys[|ys| - 1])
  }

  /** The results that worker `w` has read in the first `n` steps. */
  ghost function Reads(run: seq<State>, labels: seq<Label>, w: nat, n: nat): seq<Vec>
    requires n <= |labels| < |run|
  {
    if n == 0 then []
    else if labels[n - 1] == WRead(w) && w < |run[n].workers| then
      Reads(run, labels, w, n - 1) + [run[n].workers[w].got]
    else Reads(run, labels, w, n - 1)
  }

  ghost predicate SubmitsAt<S(!new)>(p: Program<S>, run: seq<State>, labels: seq<Label>, w: nat, i: nat)
    requires i < |labels| < |run|
  {
    labels[i].WWrite? && labels[i].w == w ==>
      Submission(labels[i].x, labels[i].bx, labels[i].tx) == p.submit(After(p, Reads(run, labels, w, i)))
  }

  /** Everything that worker `w` submits is what its program makes of what it has read. */
  ghost predicate Follows<S(!new)>(p: Program<S>, run: seq<State>, labels: seq<Label>, w: nat)
    requires |labels| < |run|
  {
    forall i :: 0 <= i < |labels| ==> SubmitsAt(p, run, labels, w, i)
  }

  /** The op that comes after `n` results, token after token. */
  function OpIndex(c: Config, n: nat): (k: nat)
    ensures k < OpCount(c)
  {
    if n == 0 || OpIndex(c, n - 1) + 1 == OpCount(c) then 0 else OpIndex(c, n - 1) + 1
  }

  /** One result is that of the program's own rows, run alone as op `k` of a token. */
  ghost predicate SoloAt<S(!new)>(c: Config, p: Program<S>, ys: seq<Vec>, j: nat)
    requires ConfigOk(c) && j < |ys|
  {
    var k, sub := OpIndex(c, j), p.submit(After(p, ys[..j]));
    RowsOk(c, k, sub.x, sub.bx, sub.tx) && ys[j] == SoloCells(c.model, OpAt(c, k), LayerAt(c, k), sub.x)
  }

  /** The results are those of the program run alone, op after op and token after token. */
  ghost predicate IsSolo<S(!new)>(c: Config, p: Program<S>, ys: seq<Vec>)
    requires ConfigOk(c)
  {
    forall j :: 0 <= j < |ys| ==> SoloAt(c, p, ys, j)
  }

  /** There is only one such sequence of each length. */
  lemma {:induction false} SoloIsUnique<S(!new)>(c: Config, p: Program<S>, a: seq<Vec>, b: seq<Vec>)
    requires ConfigOk(c) && IsSolo(c, p, a) && IsSolo(c, p, b) && |a| == |b|
    ensures a == b
  {
    if a != [] {
      var n := |a| - 1;
      SoloPrefix(c, p, a, n);
      SoloPrefix(c, p, b, n);
      SoloIsUnique(c, p, a[..n], b[..n]);
      assert SoloAt(c, p, a, n) && SoloAt(c, p, b, n);
      assert a == a[..n] + [a[n]] && b == b[..n] + [b[n]];
    }
  }

  lemma SoloPrefix<S(!new)>(c: Config, p: Program<S>, ys: seq<Vec>, n: nat)
    requires ConfigOk(c) && IsSolo(c, p, ys) && n <= |ys|
    ensures IsSolo(c, p, ys[..n])
  {
    forall j | 0 <= j < n ensures SoloAt(c, p, ys[..n], j) {
      assert SoloAt(c, p, ys, j);
      assert ys[..n][..j] == ys[..j];
    }
  }

  lemma SoloMore<S(!new)>(c: Config, p: Program<S>, ys: seq<Vec>, y: Vec)
    requires ConfigOk(c) && IsSolo(c, p, ys)
    requires var k, sub := OpIndex(c, |ys|), p.submit(After(p, ys));
      RowsOk(c, k, sub.x, sub.bx, sub.tx) && y == SoloCells(c.model, OpAt(c, k), LayerAt(c, k), sub.x)
    ensures IsSolo(c, p, ys + [y])
  {
    var more := ys + [y];
    forall j | 0 <= j < |more| ensures SoloAt(c, p, more, j) {
      assert more[..j] == ys[..j];
      if j < |ys| { assert SoloAt(c, p, ys, j); } else { assert ys[..j] == ys; }
    }
  }

  // ----- Where a worker stands in its program -----

  predicate AtBoundary(p: Phase) {
    p.Idle? || p.Claimed? || p.Joined? || p.TokenDone? || p.Leaving? || p.Inactive?
  }

  predicate HasRows(p: Phase) {
    p.Written? || p.Reserved? || p.Filled? || p.Submitted? || p.Waiting? || p.Woken?
  }

  /** Between tokens the results are whole tokens; inside one they count its ops, and the rows written are the
      program's. */
  ghost predicate InStep<S(!new)>(c: Config, p: Program<S>, wk: Worker, ys: seq<Vec>) {
    && (AtBoundary(wk.phase) ==> OpIndex(c, |ys|) == 0)
    && (!AtBoundary(wk.phase) ==> wk.k == OpIndex(c, |ys|))
    && (HasRows(wk.phase) ==> Submission(wk.x, wk.bx, wk.tx) == p.submit(After(p, ys)))
  }

  predicate ByAggregator(l: Label) {
    l.ATakeLeaves? || l.ATakeJoins? || l.APublish? || l.AWaitDone? || l.AMidLeave? || l.AMidPublish? || l.AFetch?
    || l.AFetchDone? || l.AStoreTail? || l.AExecute? || l.AClear? || l.ABump?
  }

  /** A step of someone else leaves the worker where it is. */
  lemma OthersLeave(c: Config, s: State, l: Label, w: nat)
    requires ConfigOk(c) && Enabled(c, s, l) && w < |s.workers| && (ByAggregator(l) || l.w != w)
    ensures |Apply(c, s, l).workers| == |s.workers| && Apply(c, s, l).workers[w] == s.workers[w]
  {
    hide Executed, Accepted, AllInBounds;
  }

  predicate Joining(l: Label) {
    l.WClaim? || l.WJoin? || l.WSeeActive? || l.WContinue? || l.WLeave? || l.WSeeInactive? || l.WRelease?
  }

  predicate Submitting(l: Label) {
    l.WCapture? || l.WReserve? || l.WFill? || l.WMark? || l.WSignal? || l.WWake?
  }

  /** The worker's own steps but for writing and reading. */
  lemma JoiningKeeps<S(!new)>(c: Config, p: Program<S>, s: State, l: Label, w: nat, ys: seq<Vec>)
    requires ConfigOk(c) && Enabled(c, s, l) && w < |s.workers| && InStep(c, p, s.workers[w], ys)
    requires Joining(l) && l.w == w
    ensures w < |Apply(c, s, l).workers| && InStep(c, p, Apply(c, s, l).workers[w], ys)
  {
    hide OpIndex, After, ConfigOk, OpCount;
  }

  lemma SubmittingKeeps<S(!new)>(c: Config, p: Program<S>, s: State, l: Label, w: nat, ys: seq<Vec>)
    requires ConfigOk(c) && Enabled(c, s, l) && w < |s.workers| && InStep(c, p, s.workers[w], ys)
    requires Submitting(l) && l.w == w
    ensures w < |Apply(c, s, l).workers| && InStep(c, p, Apply(c, s, l).workers[w], ys)
  {
    hide OpIndex, After, ConfigOk, OpCount;
  }

  lemma WriteKeeps<S(!new)>(c: Config, p: Program<S>, s: State, l: Label, w: nat, ys: seq<Vec>)
    requires ConfigOk(c) && Enabled(c, s, l) && w < |s.workers| && InStep(c, p, s.workers[w], ys)
    requires l.WWrite? && l.w == w && Submission(l.x, l.bx, l.tx) == p.submit(After(p, ys))
    ensures w < |Apply(c, s, l).workers| && InStep(c, p, Apply(c, s, l).workers[w], ys)
  {
    hide OpIndex, After, OpCount;
  }

  lemma ReadIs(c: Config, s: State, w: nat)
    requires ConfigOk(c) && Reachable(c, s) && Enabled(c, s, WRead(w))
    ensures w < |s.workers| && w < |Apply(c, s, WRead(w)).workers|
    ensures var wk, wk' := s.workers[w], Apply(c, s, WRead(w)).workers[w];
      && wk.phase.Woken? && RowsOk(c, wk.k, wk.x, wk.bx, wk.tx)
      && wk'.got == SoloCells(c.model, OpAt(c, wk.k), LayerAt(c, wk.k), wk.x)
      && if wk.k + 1 < OpCount(c) then wk'.phase.Compute? && wk'.k == wk.k + 1 else wk'.phase.TokenDone?
  {
    ReadGetsOwnResult(c, s, w);
    hide SoloCells, Reachable, RowsOk;
  }

  /** A read brings the result of the program's own rows and moves on to the next op. */
  lemma ReadKeeps<S(!new)>(c: Config, p: Program<S>, s: State, w: nat, ys: seq<Vec>)
    requires ConfigOk(c) && Reachable(c, s) && Enabled(c, s, WRead(w)) && w < |s.workers|
    requires InStep(c, p, s.workers[w], ys) && IsSolo(c, p, ys)
    ensures w < |Apply(c, s, WRead(w)).workers|
    ensures var y := Apply(c, s, WRead(w)).workers[w].got;
      InStep(c, p, Apply(c, s, WRead(w)).workers[w], ys + [y]) && IsSolo(c, p, ys + [y])
  {
    hide Apply, Enabled, Reachable, SoloCells, RowsOk, IsSolo, After, OpCount, OpAt, LayerAt, ConfigOk;
    ReadIs(c, s, w);
    SoloMore(c, p, ys, Apply(c, s, WRead(w)).workers[w].got);
  }

  lemma StepKeeps<S(!new)>(c: Config, p: Program<S>, run: seq<State>, labels: seq<Label>, w: nat, i: nat)
    requires ConfigOk(c) && i < |labels| < |run| && Enabled(c, run[i], labels[i])
    requires run[i + 1] == Apply(c, run[i], labels[i])
    requires Reachable(c, run[i]) && SubmitsAt(p, run, labels, w, i) && w < |run[i].workers|
    requires InStep(c, p, run[i].workers[w], Reads(run, labels, w, i)) && IsSolo(c, p, Reads(run, labels, w, i))
    ensures w < |run[i + 1].workers|
    ensures InStep(c, p, run[i + 1].workers[w], Reads(run, labels, w, i + 1))
    ensures IsSolo(c, p, Reads(run, labels, w, i + 1))
  {
    var s, l, ys := run[i], labels[i], Reads(run, labels, w, i);
    hide Apply, Enabled, Reachable, InStep, IsSolo, ConfigOk;
    if ByAggregator(l) || l.w != w {
      OthersLeave(c, s, l, w);
    } else if l.WRead? {
      ReadKeeps(c, p, s, w, ys);
    } else if l.WWrite? {
      WriteKeeps(c, p, s, l, w, ys);
    } else if Joining(l) {
      JoiningKeeps(c, p, s, l, w, ys);
    } else {
      SubmittingKeeps(c, p, s, l, w, ys);
    }
  }

  lemma StartsIn<S(!new)>(c: Config, p: Program<S>, run: seq<State>, w: nat)
    requires ConfigOk(c) && run != [] && run[0] == InitState(c) && w < c.numWorkers
    ensures w < |run[0].workers| && InStep(c, p, run[0].workers[w], []) && IsSolo(c, p, [])
  {
  }

  lemma {:induction false} RunKeeps<S(!new)>(c: Config, p: Program<S>, run: seq<State>, labels: seq<Label>, w: nat,
                                             n: nat)
    requires ConfigOk(c) && IsLabelled(c, run, labels) && Follows(p, run, labels, w) && n <= |labels|
    requires w < c.numWorkers
    ensures w < |run[n].workers| && InStep(c, p, run[n].workers[w], Reads(run, labels, w, n))
    ensures IsSolo(c, p, Reads(run, labels, w, n))
  {
    hide Enabled, Apply, Reachable, ConfigOk, IsSolo;
    if n == 0 {
      StartsIn(c, p, run, w);
    } else {
      RunKeeps(c, p, run, labels, w, n - 1);
      EachReachable(c, run, labels, n - 1);
      assert StepAt(c, run, labels, n - 1) && SubmitsAt(p, run, labels, w, n - 1);
      StepKeeps(c, p, run, labels, w, n - 1);
    }
  }

  /** Whatever a worker computes between ops, and whoever joins, leaves and shares its batches: the results it has
      read at any time of any run are those that its program reads when it runs alone, of which there is only one
      sequence. */
  lemma SharedIsSolo<S(!new)>(c: Config, p: Program<S>, run: seq<State>, labels: seq<Label>, w: nat, n: nat)
    requires ConfigOk(c) && IsLabelled(c, run, labels) && Follows(p, run, labels, w) && n <= |labels|
    requires w < c.numWorkers
    ensures IsSolo(c, p, Reads(run, labels, w, n))
    ensures forall ys: seq<Vec> :: IsSolo(c, p, ys) && |ys| == |Reads(run, labels, w, n)| ==>
      ys == Reads(run, labels, w, n)
  {
    RunKeeps(c, p, run, labels, w, n);
    forall ys: seq<Vec> | IsSolo(c, p, ys) && |ys| == |Reads(run, labels, w, n)|
      ensures ys == Reads(run, labels, w, n)
    {
      SoloIsUnique(c, p, ys, Reads(run, labels, w, n));
    }
  }
}
