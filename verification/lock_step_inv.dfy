/** The inductive invariant of the lock-step protocol. */
module LockStepInv {
  import opened Linear
  import opened BatchedExec
  import opened LockStep

  /** The aggregator is between barriers: joins, leaves and readiness may still change who takes part. */
  predicate Gathering(a: Agg) {
    a.phase.TakeLeaves? || a.phase.TakeJoins? || a.phase.Publish? || a.phase.Wait? || a.phase.MidPublish?
  }

  predicate Boundary(a: Agg) {
    a.phase.TakeLeaves? || a.phase.TakeJoins? || a.phase.Publish?
  }

  predicate Seated(s: State, t: nat) {
    t in s.agg.active && t in s.active
  }

  predicate Absent(s: State, t: nat) {
    t !in s.agg.active && t !in s.active
  }

  predicate Quiet(s: State, t: nat) {
    t !in s.joins && t !in s.leaves && t !in s.ready
  }

  ghost predicate InputHeld(mem: Vec, x: Mat) {
    |Flat(x)| <= |mem| && mem[..|Flat(x)|] == Flat(x)
  }

  /** The slot's output buffer starts with the worker's own result. */
  ghost predicate OutputHeld(c: Config, mem: Vec, wk: Worker)
    requires ModelOk(c.model)
  {
    && RowsOk(c, wk.k, wk.x, wk.bx, wk.tx)
    && |OwnResult(c, wk)| == OutCells(c.model, OpAt(c, wk.k), |wk.x|) <= |mem|
    && mem[..|OwnResult(c, wk)|] == OwnResult(c, wk)
  }

  /** Signalled for the op that the aggregator is gathering or running. */
  predicate Fresh(s: State, wk: Worker) {
    wk.phase.Waiting? && wk.epoch == s.epoch
  }

  /** Holds a ring reservation that the current barrier has not finished with. */
  predicate InFlight(s: State, wk: Worker) {
    wk.phase.Reserved? || wk.phase.Filled? || wk.phase.Submitted? || Fresh(s, wk)
  }

  /** A worker that works towards the op `a.k` and is expected by the aggregator. */
  predicate OnOp(c: Config, s: State, wk: Worker) {
    Seated(s, wk.slot) && Quiet(s, wk.slot) && Gathering(s.agg) && wk.k == s.agg.k
  }

  ghost predicate Prepared(c: Config, s: State, wk: Worker) {
    RowsOk(c, wk.k, wk.x, wk.bx, wk.tx) && wk.slot < |s.ins| && InputHeld(s.ins[wk.slot], wk.x)
  }

  ghost predicate WorkerOk(c: Config, s: State, wk: Worker)
    requires ConfigOk(c)
  {
    var t, a := wk.slot, s.agg;
    wk.phase.Idle? || (t < |s.outs| && a.k < OpCount(c) &&
    match wk.phase
    case Idle => true
    case Claimed => Absent(s, t) && Quiet(s, t)
    case Joined =>
      && t !in s.leaves && t !in s.ready
      && if t in s.joins then Absent(s, t)
         else t in a.active && Gathering(a) && a.k == 0 && (t in s.active || a.phase.Publish?)
    case Compute => OnOp(c, s, wk)
    case Captured => OnOp(c, s, wk) && wk.epoch == s.epoch
    case Written => OnOp(c, s, wk) && wk.epoch == s.epoch && Prepared(c, s, wk)
    case Reserved => OnOp(c, s, wk) && wk.epoch == s.epoch && Prepared(c, s, wk)
    case Filled => OnOp(c, s, wk) && wk.epoch == s.epoch && Prepared(c, s, wk)
    case Submitted => OnOp(c, s, wk) && wk.epoch == s.epoch && Prepared(c, s, wk)
    case Waiting =>
      && Seated(s, t) && t !in s.joins && t !in s.leaves
      && if wk.epoch == s.epoch then
           && wk.k == a.k && Prepared(c, s, wk) && (t in s.ready <==> !a.phase.Bump?)
           && (a.phase.ClearReady? || a.phase.Bump? ==> OutputHeld(c, s.outs[t], wk))
         else
           && wk.epoch + 1 == s.epoch && Gathering(a) && t !in s.ready
           && wk.k == PrevOp(c, a.k) && OutputHeld(c, s.outs[t], wk)
    case Woken => Seated(s, t) && Quiet(s, t) && Gathering(a) && wk.k == PrevOp(c, a.k) && OutputHeld(c, s.outs[t], wk)
    case TokenDone => Seated(s, t) && Quiet(s, t) && Gathering(a) && a.k == 0
    case Leaving =>
      && t !in s.joins && t !in s.ready
      && if t in s.leaves then Seated(s, t) && Gathering(a) && a.k == 0
         else t !in a.active && (t in s.active ==> a.phase.TakeJoins? || a.phase.Publish? || a.phase.MidPublish?)
    case Inactive => Absent(s, t) && Quiet(s, t))
  }

  ghost predicate Sized(c: Config, s: State) {
    && |s.owner| == |s.ins| == |s.outs| == c.numSlots
    && |s.ring| == c.capacity && |s.workers| == c.numWorkers
    && (forall t :: 0 <= t < c.numSlots ==> |s.ins[t]| == c.inLen && |s.outs[t]| == c.outLen)
  }

  /** Slots and workers point at each other; a free slot has no owner and holds nothing. */
  ghost predicate Ownership(c: Config, s: State)
    requires Sized(c, s)
  {
    && (forall w :: 0 <= w < c.numWorkers && !s.workers[w].phase.Idle? ==>
          s.workers[w].slot < c.numSlots && s.owner[s.workers[w].slot] == w)
    && (forall t :: 0 <= t < c.numSlots && t !in s.free ==>
          0 <= s.owner[t] < c.numWorkers && !s.workers[s.owner[t]].phase.Idle? && s.workers[s.owner[t]].slot == t)
    && (forall t :: t in s.free ==>
          t < c.numSlots && s.owner[t] == -1 && s.ins[t] == ZeroVec(c.inLen) && s.outs[t] == ZeroVec(c.outLen))
  }

  /** No mask mentions a slot that nobody owns. */
  predicate MasksOwned(c: Config, s: State) {
    forall t :: t in s.agg.active + s.active + s.joins + s.leaves + s.ready ==> t < c.numSlots && t !in s.free
  }

  predicate MasksAgree(c: Config, s: State) {
    && (s.agg.phase.TakeJoins? || s.agg.phase.Publish? || s.agg.phase.MidPublish? || s.agg.active == s.active)
    && s.agg.k < OpCount(c) && (Boundary(s.agg) || s.agg.phase.MidPublish? ==> s.agg.k == 0)
    && (!Boundary(s.agg) && !s.agg.phase.MidPublish? ==> s.agg.active != {})
  }

  // ----- The ring -----

  /** First history position the barrier still depends on. */
  function Lo(s: State): nat {
    if Gathering(s.agg) then s.published else s.agg.base
  }

  /** Position `j` belongs to the worker that reserved it and holds what that worker has written so far. */
  ghost predicate Linked(c: Config, s: State, j: nat)
    requires ConfigOk(c) && Sized(c, s) && j < |s.reserved|
  {
    && s.reserved[j] < c.numWorkers
    && var w := s.reserved[j];
       var wk, e := s.workers[w], s.ring[Pos(c, j)];
       && InFlight(s, wk) && wk.idx == j && wk.k < OpCount(c)
       && (!wk.phase.Reserved? ==> e.cmd == CommandOf(c, w, wk))
       && (e.ready <==> (wk.phase.Submitted? || wk.phase.Waiting?) && j >= s.agg.fetched)
  }

  ghost predicate RingCounters(c: Config, s: State)
    requires ConfigOk(c)
  {
    var a := s.agg;
    && s.head == Pos(c, |s.reserved|) && s.tail == Pos(c, s.published)
    && Lo(s) <= a.fetched <= |s.reserved| <= Lo(s) + c.numSlots
    && (Gathering(a) ==> a.fetched == s.published)
    && (!Gathering(a) ==>
          && a.n == |a.active| == |s.reserved| - a.base
          && a.fetched == a.base + |a.ptrs|
          && (forall i :: 0 <= i < |a.ptrs| ==> a.ptrs[i] == Pos(c, a.base + i))
          && a.tail == Pos(c, a.fetched)
          && (if a.phase.Fetch? || a.phase.StoreTail? then s.published == a.base else s.published == a.fetched)
          && (!a.phase.Fetch? ==> |a.ptrs| == a.n))
  }

  ghost predicate RingLinks(c: Config, s: State)
    requires ConfigOk(c) && Sized(c, s)
  {
    && (forall j :: Lo(s) <= j < |s.reserved| ==> Linked(c, s, j))
    && (forall w :: 0 <= w < c.numWorkers && InFlight(s, s.workers[w]) ==>
          Lo(s) <= s.workers[w].idx < |s.reserved| && s.reserved[s.workers[w].idx] == w)
    && (forall j :: |s.reserved| <= j < s.agg.fetched + c.capacity ==> !s.ring[Pos(c, j)].ready)
  }

  ghost predicate Workers(c: Config, s: State)
    requires ConfigOk(c)
  {
    forall w :: 0 <= w < |s.workers| ==> WorkerOk(c, s, s.workers[w])
  }

  ghost predicate Inv(c: Config, s: State)
    requires ConfigOk(c)
  {
    && Sized(c, s) && Ownership(c, s) && MasksOwned(c, s) && MasksAgree(c, s)
    && Workers(c, s) && RingCounters(c, s) && RingLinks(c, s)
  }
}
