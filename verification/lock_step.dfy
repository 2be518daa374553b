/** The lock-step slot protocol as a transition system: one aggregator, any number of workers, each holding at most
    one slot, sharing atomic slot masks, an epoch counter, a command ring and two buffers per slot.

    Every label is one atomic access to shared memory (or one private step); any interleaving is a run.
    `reserved`, `published`, `fetched` and `base` are history counters: they count ring positions without wrap-around
    and influence no step.  Runs here are fault-free: no timeout, no eviction, no crash. */
module LockStep {
  import opened Arithmetic
  import opened Linear
  import opened BatchedExec

  datatype Config = Config(model: Model, numSlots: nat, capacity: nat, maxTokens: nat,
                           inLen: nat, outLen: nat, numWorkers: nat)

  /** The slot buffers hold any op's rows for a full chunk. */
  ghost predicate BuffersSuffice(c: Config) {
    forall op: Op, n: nat :: n <= c.maxTokens ==> RowsFit(c, op, n)
  }

  predicate RowsFit(c: Config, op: Op, n: nat) {
    n * InWidth(c.model, op) <= c.inLen && OutCells(c.model, op, n) <= c.outLen
  }

  ghost predicate ConfigOk(c: Config) {
    && ModelOk(c.model)
    && c.numSlots < c.capacity
    && 0 < c.maxTokens
    && c.numWorkers <= 100001
    && BuffersSuffice(c)
    && 1 <= c.outLen
  }

  // ----- The op sequence of one token: embed, four ops per layer, lm_head -----

  function OpCount(c: Config): (n: nat)
    ensures n >= 2
  {
    1 + 4 * |c.model.layers| + 1
  }

  function OpAt(c: Config, k: nat): Op
    requires k < OpCount(c)
  {
    if k == 0 then Embed
    else if k == OpCount(c) - 1 then LmHead
    else match (k - 1) % 4
      case 0 => Qkv
      case 1 => OProj
      case 2 => GateUp
      case _ => Down
  }

  function LayerAt(c: Config, k: nat): (l: nat)
    requires k < OpCount(c)
    ensures LayerInRange(c.model, OpAt(c, k), l)
  {
    if k == 0 || k == OpCount(c) - 1 then 0 else (k - 1) / 4
  }

  /** The op before `k`, wrapping to the last op of the previous token. */
  function PrevOp(c: Config, k: nat): (p: nat)
    requires k < OpCount(c)
    ensures p < OpCount(c)
  {
    if k == 0 then OpCount(c) - 1 else k - 1
  }

  // ----- State -----

  datatype Phase =
    | Idle        // no slot
    | Claimed     // owns a slot, has not asked to join
    | Joined      // join bit set, polling slot_is_active
    | Compute     // about to start op k
    | Captured    // epoch captured
    | Written     // input buffer written
    | Reserved    // ring entry reserved
    | Filled      // ring entry filled in
    | Submitted   // ring entry marked ready
    | Waiting     // ready bit set, spinning on the epoch
    | Woken       // wait is over, output not read yet
    | TokenDone   // lm_head result read: go on or leave
    | Leaving     // leave bit set, polling slot_is_active
    | Inactive    // seen inactive, about to release the slot

  datatype Worker = Worker(phase: Phase, slot: nat, k: nat, epoch: nat, idx: nat, x: Mat, bx: int, tx: int, got: Vec)

  datatype AggPhase = TakeLeaves | TakeJoins | Publish | Wait | MidPublish | Fetch | StoreTail | Execute | ClearReady
                    | Bump

  datatype Agg = Agg(phase: AggPhase, active: set<nat>, k: nat, n: nat, tail: nat, ptrs: seq<nat>,
                     base: nat, fetched: nat)

  datatype Entry = Entry(ready: bool, cmd: Command)

  datatype State = State(free: set<nat>, owner: seq<int>,
                         joins: set<nat>, leaves: set<nat>, active: set<nat>, ready: set<nat>, epoch: nat,
                         ring: seq<Entry>, head: nat, tail: nat,
                         ins: seq<Vec>, outs: seq<Vec>,
                         workers: seq<Worker>, agg: Agg,
                         reserved: seq<nat>, published: nat)

  function InitState(c: Config): State
    requires c.numSlots < c.capacity
  {
    State(AllBelow(c.numSlots), seq(c.numSlots, _ => -1), {}, {}, {}, {}, 0,
      seq(c.capacity, _ => Entry(false, Command(Embed, 0, 0, 0, 0, 0))), 0, 0,
      seq(c.numSlots, _ => ZeroVec(c.inLen)), seq(c.numSlots, _ => ZeroVec(c.outLen)),
      seq(c.numWorkers, _ => Worker(Idle, 0, 0, 0, 0, [], 0, 0, [])),
      Agg(TakeLeaves, {}, 0, 0, 0, [], 0, 0), [], 0)
  }

  /** Physical ring index of history position `j`. */
  function Pos(c: Config, j: nat): (p: nat)
    requires 0 < c.capacity
    ensures p < c.capacity
  {
    j % c.capacity
  }

  /** The record a worker submits. */
  function CommandOf(c: Config, w: nat, wk: Worker): Command
    requires wk.k < OpCount(c)
  {
    Command(OpAt(c, wk.k), LayerAt(c, wk.k), wk.slot, w, wk.bx, wk.tx)
  }

  /** The records behind the aggregator's fetched entries, as they stand in the ring now. */
  function FetchedCommands(s: State): (cmds: seq<Command>)
    requires forall i :: 0 <= i < |s.agg.ptrs| ==> s.agg.ptrs[i] < |s.ring|
    ensures |cmds| == |s.agg.ptrs|
  {
    seq(|s.agg.ptrs|, i requires 0 <= i < |s.agg.ptrs| && s.agg.ptrs[i] < |s.ring| => s.ring[s.agg.ptrs[i]].cmd)
  }

  /** Rows a worker may submit for its op: the shape it announces, at most one chunk. */
  ghost predicate RowsOk(c: Config, k: nat, x: Mat, bx: int, tx: int) {
    && k < OpCount(c)
    && 0 < bx <= 65536 && 0 < tx <= 65536
    && |x| == bx * tx && 0 < |x| <= c.maxTokens
    && Shaped(x, |x|, InWidth(c.model, OpAt(c, k)))
  }

  /** The result of a worker's current rows, run alone through the single-slot path. */
  ghost function OwnResult(c: Config, wk: Worker): Vec
    requires ModelOk(c.model) && RowsOk(c, wk.k, wk.x, wk.bx, wk.tx)
  {
    SoloCells(c.model, OpAt(c, wk.k), LayerAt(c, wk.k), wk.x)
  }

  // ----- Steps -----

  datatype Label =
    | ATakeLeaves | ATakeJoins | APublish | AWaitDone | AMidLeave | AMidPublish
    | AFetch | AFetchDone | AStoreTail | AExecute | AClear | ABump
    | WClaim(w: nat, t: nat) | WJoin(w: nat) | WSeeActive(w: nat) | WCapture(w: nat)
    | WWrite(w: nat, x: Mat, bx: int, tx: int) | WReserve(w: nat) | WFill(w: nat) | WMark(w: nat) | WSignal(w: nat)
    | WWake(w: nat) | WRead(w: nat) | WContinue(w: nat) | WLeave(w: nat) | WSeeInactive(w: nat) | WRelease(w: nat)

  ghost predicate At(s: State, w: nat, p: Phase) {
    w < |s.workers| && s.workers[w].phase == p
  }

  function Advance(c: Config, p: nat): nat
    requires 0 < c.capacity
  {
    (p + 1) % c.capacity
  }

  /** All shape, ownership and range checks of the executor pass, and the rows lie inside the buffers. */
  ghost predicate CanExecute(c: Config, s: State) {
    && 0 < |s.agg.ptrs|
    && (forall i :: 0 <= i < |s.agg.ptrs| ==> s.agg.ptrs[i] < |s.ring|)
    && var cmds := FetchedCommands(s);
       && Accepted(c.model, cmds[0].op, cmds[0].layer, s.owner, cmds)
       && AllInBounds(c.model, cmds[0].op, s.ins, s.outs, cmds)
  }

  ghost predicate Enabled(c: Config, s: State, l: Label)
    requires ConfigOk(c)
  {
    match l
    case ATakeLeaves => s.agg.phase.TakeLeaves?
    case ATakeJoins => s.agg.phase.TakeJoins?
    case APublish => s.agg.phase.Publish?
    case AWaitDone => s.agg.phase.Wait? && s.agg.active <= s.ready
    case AMidLeave => s.agg.phase.Wait? && s.leaves * s.agg.active != {}
    case AMidPublish => s.agg.phase.MidPublish?
    case AFetch => s.agg.phase.Fetch? && |s.agg.ptrs| < s.agg.n && s.agg.tail < |s.ring| && s.ring[s.agg.tail].ready
    case AFetchDone => s.agg.phase.Fetch? && |s.agg.ptrs| >= s.agg.n
    case AStoreTail => s.agg.phase.StoreTail?
    case AExecute => s.agg.phase.Execute? && CanExecute(c, s)
    case AClear => s.agg.phase.ClearReady?
    case ABump => s.agg.phase.Bump?
    case WClaim(w, t) => At(s, w, Idle) && t in s.free && t < |s.owner| && forall u :: u in s.free ==> t <= u
    case WJoin(w) => At(s, w, Claimed)
    case WSeeActive(w) => At(s, w, Joined) && s.workers[w].slot in s.active
    case WCapture(w) => At(s, w, Compute)
    case WWrite(w, x, bx, tx) =>
      && At(s, w, Captured) && RowsOk(c, s.workers[w].k, x, bx, tx)
      && s.workers[w].slot < |s.ins| && |Flat(x)| <= |s.ins[s.workers[w].slot]|
    case WReserve(w) => At(s, w, Written) && Advance(c, s.head) != s.tail
    case WFill(w) => At(s, w, Reserved) && |s.ring| == c.capacity && s.workers[w].k < OpCount(c)
    case WMark(w) => At(s, w, Filled) && |s.ring| == c.capacity
    case WSignal(w) => At(s, w, Submitted)
    case WWake(w) => At(s, w, Waiting) && s.epoch > s.workers[w].epoch
    case WRead(w) => At(s, w, Woken) && CanRead(c, s, w)
    case WContinue(w) => At(s, w, TokenDone)
    case WLeave(w) => At(s, w, TokenDone)
    case WSeeInactive(w) => At(s, w, Leaving) && s.workers[w].slot !in s.active
    case WRelease(w) => At(s, w, Inactive) && s.workers[w].slot < |s.owner| == |s.ins| == |s.outs|
  }

  function WithWorker(s: State, w: nat, wk: Worker): State
    requires w < |s.workers|
  {
    s.(workers := s.workers[w := wk])
  }

  // Aggregator, phase 1: leaves are taken before joins, then the mask is published.

  function DoTakeLeaves(s: State): State {
    s.(leaves := {}, agg := s.agg.(phase := TakeJoins, active := s.agg.active - s.leaves))
  }

  function DoTakeJoins(s: State): State {
    s.(joins := {}, agg := s.agg.(phase := Publish, active := s.agg.active + s.joins))
  }

  function DoPublish(s: State): State {
    s.(active := s.agg.active, agg := s.agg.(phase := if s.agg.active == {} then TakeLeaves else Wait, k := 0))
  }

  // Aggregator, phase 2: one op.

  function DoWaitDone(s: State): State {
    s.(agg := s.agg.(phase := Fetch, n := |s.agg.active|, tail := s.tail, ptrs := [],
                     base := s.published, fetched := s.published))
  }

  /** A leave seen while waiting for readiness; the shrunken mask is published by the next step. */
  function DoMidLeave(s: State): State {
    s.(leaves := s.leaves - s.agg.active, agg := s.agg.(phase := MidPublish, active := s.agg.active - s.leaves))
  }

  function DoMidPublish(s: State): State {
    s.(active := s.agg.active,
       agg := if s.agg.active == {} then s.agg.(phase := TakeLeaves, k := 0) else s.agg.(phase := Wait))
  }

  /** Consume one entry; keep its position when its slot is active, discard it otherwise. */
  function DoFetch(c: Config, s: State): State
    requires 0 < c.capacity && s.agg.tail < |s.ring|
  {
    var a, e := s.agg, s.ring[s.agg.tail];
    s.(ring := s.ring[a.tail := e.(ready := false)],
       agg := a.(tail := Advance(c, a.tail), fetched := a.fetched + 1,
                 ptrs := if e.cmd.slotId >= 0 && e.cmd.slotId in a.active then a.ptrs + [a.tail] else a.ptrs))
  }

  function DoFetchDone(s: State): State {
    s.(agg := s.agg.(phase := StoreTail))
  }

  function DoStoreTail(s: State): State {
    s.(tail := s.agg.tail, published := s.agg.fetched, agg := s.agg.(phase := Execute))
  }

  /** The op and layer of the first command decide what is run for all of them. */
  ghost function DoExecute(c: Config, s: State): State
    requires ConfigOk(c) && CanExecute(c, s)
  {
    var cmds := FetchedCommands(s);
    s.(outs := Executed(c.model, cmds[0].op, cmds[0].layer, s.ins, s.outs, cmds), agg := s.agg.(phase := ClearReady))
  }

  function DoClear(s: State): State {
    s.(ready := s.ready - s.active, agg := s.agg.(phase := Bump))
  }

  function DoBump(c: Config, s: State): State {
    s.(epoch := s.epoch + 1,
       agg := if s.agg.k + 1 == OpCount(c) then s.agg.(phase := TakeLeaves, k := 0)
              else s.agg.(phase := Wait, k := s.agg.k + 1))
  }

  // Workers.

  function DoClaim(s: State, w: nat, t: nat): State
    requires w < |s.workers| && t < |s.owner|
  {
    WithWorker(s, w, s.workers[w].(phase := Claimed, slot := t))
      .(free := s.free - {t}, owner := s.owner[t := w], ready := s.ready - {t})
  }

  function DoJoin(s: State, w: nat): State
    requires w < |s.workers|
  {
    WithWorker(s, w, s.workers[w].(phase := Joined)).(joins := s.joins + {s.workers[w].slot})
  }

  function DoSeeActive(s: State, w: nat): State
    requires w < |s.workers|
  {
    WithWorker(s, w, s.workers[w].(phase := Compute, k := 0))
  }

  function DoCapture(s: State, w: nat): State
    requires w < |s.workers|
  {
    WithWorker(s, w, s.workers[w].(phase := Captured, epoch := s.epoch))
  }

  function DoWrite(s: State, w: nat, x: Mat, bx: int, tx: int): State
    requires w < |s.workers| && s.workers[w].slot < |s.ins| && |Flat(x)| <= |s.ins[s.workers[w].slot]|
  {
    var t := s.workers[w].slot;
    WithWorker(s, w, s.workers[w].(phase := Written, x := x, bx := bx, tx := tx))
      .(ins := s.ins[t := Overwrite(s.ins[t], Flat(x))])
  }

  function DoReserve(c: Config, s: State, w: nat): State
    requires w < |s.workers| && 0 < c.capacity
  {
    WithWorker(s, w, s.workers[w].(phase := Reserved, idx := |s.reserved|))
      .(head := Advance(c, s.head), reserved := s.reserved + [w])
  }

  function DoFill(c: Config, s: State, w: nat): State
    requires w < |s.workers| && 0 < c.capacity == |s.ring| && s.workers[w].k < OpCount(c)
  {
    var p := Pos(c, s.workers[w].idx);
    WithWorker(s, w, s.workers[w].(phase := Filled))
      .(ring := s.ring[p := s.ring[p].(cmd := CommandOf(c, w, s.workers[w]))])
  }

  function DoMark(c: Config, s: State, w: nat): State
    requires w < |s.workers| && 0 < c.capacity == |s.ring|
  {
    var p := Pos(c, s.workers[w].idx);
    WithWorker(s, w, s.workers[w].(phase := Submitted)).(ring := s.ring[p := s.ring[p].(ready := true)])
  }

  function DoSignal(s: State, w: nat): State
    requires w < |s.workers|
  {
    WithWorker(s, w, s.workers[w].(phase := Waiting)).(ready := s.ready + {s.workers[w].slot})
  }

  function DoWake(s: State, w: nat): State
    requires w < |s.workers|
  {
    WithWorker(s, w, s.workers[w].(phase := Woken))
  }

  /** Copy the result out of the slot's buffer; lm_head ends the token. */
  function DoRead(c: Config, s: State, w: nat): State
    requires CanRead(c, s, w)
  {
    var wk := s.workers[w];
    var y := s.outs[wk.slot][..OutCells(c.model, OpAt(c, wk.k), |wk.x|)];
    WithWorker(s, w, if wk.k + 1 < OpCount(c) then wk.(phase := Compute, k := wk.k + 1, got := y)
                     else wk.(phase := TokenDone, got := y))
  }

  predicate CanRead(c: Config, s: State, w: nat) {
    && w < |s.workers| && s.workers[w].k < OpCount(c) && s.workers[w].slot < |s.outs|
    && OutCells(c.model, OpAt(c, s.workers[w].k), |s.workers[w].x|) <= |s.outs[s.workers[w].slot]|
  }

  function DoContinue(s: State, w: nat): State
    requires w < |s.workers|
  {
    WithWorker(s, w, s.workers[w].(phase := Compute, k := 0))
  }

  function DoLeave(s: State, w: nat): State
    requires w < |s.workers|
  {
    WithWorker(s, w, s.workers[w].(phase := Leaving)).(leaves := s.leaves + {s.workers[w].slot})
  }

  function DoSeeInactive(s: State, w: nat): State
    requires w < |s.workers|
  {
    WithWorker(s, w, s.workers[w].(phase := Inactive))
  }

  function DoRelease(c: Config, s: State, w: nat): State
    requires w < |s.workers| && s.workers[w].slot < |s.owner| == |s.ins| == |s.outs|
  {
    var t := s.workers[w].slot;
    WithWorker(s, w, s.workers[w].(phase := Idle))
      .(free := s.free + {t}, owner := s.owner[t := -1],
        ins := s.ins[t := ZeroVec(c.inLen)], outs := s.outs[t := ZeroVec(c.outLen)])
  }

  ghost function Apply(c: Config, s: State, l: Label): State
    requires ConfigOk(c) && Enabled(c, s, l)
  {
    match l
    case ATakeLeaves => DoTakeLeaves(s)
    case ATakeJoins => DoTakeJoins(s)
    case APublish => DoPublish(s)
    case AWaitDone => DoWaitDone(s)
    case AMidLeave => DoMidLeave(s)
    case AMidPublish => DoMidPublish(s)
    case AFetch => DoFetch(c, s)
    case AFetchDone => DoFetchDone(s)
    case AStoreTail => DoStoreTail(s)
    case AExecute => DoExecute(c, s)
    case AClear => DoClear(s)
    case ABump => DoBump(c, s)
    case WClaim(w, t) => DoClaim(s, w, t)
    case WJoin(w) => DoJoin(s, w)
    case WSeeActive(w) => DoSeeActive(s, w)
    case WCapture(w) => DoCapture(s, w)
    case WWrite(w, x, bx, tx) => DoWrite(s, w, x, bx, tx)
    case WReserve(w) => DoReserve(c, s, w)
    case WFill(w) => DoFill(c, s, w)
    case WMark(w) => DoMark(c, s, w)
    case WSignal(w) => DoSignal(s, w)
    case WWake(w) => DoWake(s, w)
    case WRead(w) => DoRead(c, s, w)
    case WContinue(w) => DoContinue(s, w)
    case WLeave(w) => DoLeave(s, w)
    case WSeeInactive(w) => DoSeeInactive(s, w)
    case WRelease(w) => DoRelease(c, s, w)
  }

  // ----- Runs -----

  ghost predicate Next(c: Config, s: State, s': State)
    requires ConfigOk(c)
  {
    exists l :: Enabled(c, s, l) && s' == Apply(c, s, l)
  }

  ghost predicate IsRun(c: Config, run: seq<State>)
    requires ConfigOk(c)
  {
    && |run| > 0 && run[0] == InitState(c)
    && forall i :: 0 <= i < |run| - 1 ==> Next(c, run[i], run[i + 1])
  }

  ghost predicate Reachable(c: Config, s: State)
    requires ConfigOk(c)
  {
    exists run :: IsRun(c, run) && run[|run| - 1] == s
  }
}
