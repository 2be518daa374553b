/** What every fault-free run of the lock-step protocol guarantees. */
module LockStepTheorems {
  import opened Linear
  import opened BatchedExec
  import opened LockStep
  import opened LockStepInv
  import opened LockStepSafety

  predicate InBarrier(a: Agg) {
    !Gathering(a)
  }

  /** A worker whose wait for the epoch is over. */
  predicate WaitOver(s: State, wk: Worker) {
    (wk.phase.Waiting? && s.epoch > wk.epoch) || wk.phase.Woken?
  }

  /** Lock-step alignment: once the commands of op index k are fetched, there is exactly one per active slot, each is
      its slot owner's own, and all carry the k-th (op, layer) of the token; reading `commands[0]` only is sound. */
  lemma Alignment(c: Config, s: State)
    requires ConfigOk(c) && Reachable(c, s) && (s.agg.phase.StoreTail? || s.agg.phase.Execute?)
    ensures forall i :: 0 <= i < |s.agg.ptrs| ==> s.agg.ptrs[i] < |s.ring|
    ensures var cmds := FetchedCommands(s);
      && |cmds| == |s.agg.active| > 0
      && DistinctSlots(cmds)
      && (forall i :: 0 <= i < |cmds| ==> AlignedCommand(c, s, cmds[i]))
      && (forall t: nat :: t in s.agg.active ==> exists i :: 0 <= i < |cmds| && cmds[i].slotId == t)
  {
    ReachableInv(c, s);
    forall i | 0 <= i < |s.agg.ptrs| ensures s.agg.ptrs[i] < |s.ring| { BatchEntry(c, s, i); }
    var cmds := FetchedCommands(s);
    forall i | 0 <= i < |cmds| ensures AlignedCommand(c, s, cmds[i]) { BatchEntry(c, s, i); }
    forall i, j | 0 <= i < j < |cmds| ensures cmds[i].slotId != cmds[j].slotId {
      BatchEntry(c, s, i);
      BatchEntry(c, s, j);
    }
    forall t: nat | t in s.agg.active ensures exists i :: 0 <= i < |cmds| && cmds[i].slotId == t {
      var i := CommandOfSlot(c, s, t);
      assert cmds[i].slotId == t;
    }
  }

  /** A command of an active slot, submitted by the slot's owner, for the aggregator's op index. */
  predicate AlignedCommand(c: Config, s: State, cmd: Command) {
    && cmd.slotId >= 0 && cmd.slotId in s.agg.active
    && cmd.slotId < |s.owner| && s.owner[cmd.slotId] == cmd.workerId
    && s.agg.k < OpCount(c) && cmd.op == OpAt(c, s.agg.k) && cmd.layer == LayerAt(c, s.agg.k)
  }

  lemma CommandOfSlot(c: Config, s: State, t: nat) returns (i: nat)
    requires ConfigOk(c) && Inv(c, s) && (s.agg.phase.StoreTail? || s.agg.phase.Execute?) && t in s.agg.active
    ensures i < |s.agg.ptrs| && s.agg.ptrs[i] < |s.ring| && s.ring[s.agg.ptrs[i]].cmd.slotId == t
  {
    ReadyMeansFresh(c, s, t);
    i := s.workers[s.owner[t]].idx - s.agg.base;
    BatchEntry(c, s, i);
  }

  /** Co-tenancy is invisible: when a worker's wait is over, whoever joined, left or shared the batch, its output
      buffer starts with the result of its own rows run alone through the single-slot path. */
  lemma CoTenancyInvisible(c: Config, s: State, w: nat)
    requires ConfigOk(c) && Reachable(c, s) && w < |s.workers| && WaitOver(s, s.workers[w])
    ensures s.workers[w].slot < |s.outs| && OutputHeld(c, s.outs[s.workers[w].slot], s.workers[w])
  {
    ReachableInv(c, s);
    assert WorkerOk(c, s, s.workers[w]);
  }

  /** What a worker reads is exactly its own result, and the read is always possible. */
  lemma ReadGetsOwnResult(c: Config, s: State, w: nat)
    requires ConfigOk(c) && Reachable(c, s) && At(s, w, Woken)
    ensures Enabled(c, s, WRead(w))
    ensures RowsOk(c, s.workers[w].k, s.workers[w].x, s.workers[w].bx, s.workers[w].tx)
    ensures Apply(c, s, WRead(w)).workers[w].got == OwnResult(c, s.workers[w])
  {
    CoTenancyInvisible(c, s, w);
    ReachableInv(c, s);
    assert WorkerOk(c, s, s.workers[w]);
  }

  /** No early wake-up: while a worker's command is still in the ring or in the barrier being run, the epoch has not
      passed the one it captured; once the epoch has passed, its command is out of the ring and was executed. */
  lemma NoEarlyWake(c: Config, s: State, w: nat)
    requires ConfigOk(c) && Reachable(c, s) && At(s, w, Waiting)
    ensures s.workers[w].epoch <= s.epoch <= s.workers[w].epoch + 1
    ensures s.epoch > s.workers[w].epoch <==> !InFlight(s, s.workers[w])
    ensures s.epoch > s.workers[w].epoch ==>
      s.workers[w].slot < |s.outs| && OutputHeld(c, s.outs[s.workers[w].slot], s.workers[w])
    ensures s.epoch == s.workers[w].epoch ==>
      Lo(s) <= s.workers[w].idx < |s.reserved| && s.reserved[s.workers[w].idx] == w
  {
    ReachableInv(c, s);
    assert WorkerOk(c, s, s.workers[w]);
  }

  /** A ready bit always stands for the op the aggregator is at, never for an op still to come. */
  lemma ReadyIsCurrent(c: Config, s: State, t: nat)
    requires ConfigOk(c) && Reachable(c, s) && t in s.ready
    ensures t in s.agg.active && t in s.active && t < |s.owner| == |s.outs| && 0 <= s.owner[t] < |s.workers|
    ensures var wk := s.workers[s.owner[t]];
      && wk.slot == t && Fresh(s, wk) && wk.k == s.agg.k
      && (s.agg.phase.ClearReady? ==> OutputHeld(c, s.outs[t], wk))
  {
    ReachableInv(c, s);
    assert t in s.agg.active + s.active + s.joins + s.leaves + s.ready;
    assert WorkerOk(c, s, s.workers[s.owner[t]]);
  }

  /** No lost wake-up: the bits cleared before the epoch bump are exactly those of the active slots, whose commands
      have all been executed; no signal for a later op is erased. */
  lemma NoLostSignal(c: Config, s: State)
    requires ConfigOk(c) && Reachable(c, s) && s.agg.phase.ClearReady?
    ensures s.ready == s.active == s.agg.active
    ensures DoClear(s).ready == {}
    ensures forall w :: 0 <= w < |s.workers| && Fresh(s, s.workers[w]) ==>
      s.workers[w].slot < |s.outs| && OutputHeld(c, s.outs[s.workers[w].slot], s.workers[w])
  {
    ReachableInv(c, s);
    forall t | t in s.ready ensures t in s.active { ReadyIsCurrent(c, s, t); }
    forall t | t in s.active ensures t in s.ready {
      ReadyMeansFresh(c, s, t);
      assert WorkerOk(c, s, s.workers[s.owner[t]]);
    }
    forall w | 0 <= w < |s.workers| && Fresh(s, s.workers[w])
      ensures s.workers[w].slot < |s.outs| && OutputHeld(c, s.outs[s.workers[w].slot], s.workers[w])
    {
      assert WorkerOk(c, s, s.workers[w]);
    }
  }

  /** Nobody is between starting an op and signalling it while a barrier is being run: the ring has no writer from the
      moment all active slots are ready until the epoch is bumped. */
  lemma NoWriterInBarrier(c: Config, s: State, w: nat)
    requires ConfigOk(c) && Reachable(c, s) && InBarrier(s.agg) && w < |s.workers|
    ensures var p := s.workers[w].phase;
      !p.Compute? && !p.Captured? && !p.Written? && !p.Reserved? && !p.Filled? && !p.Submitted?
  {
    ReachableInv(c, s);
    assert WorkerOk(c, s, s.workers[w]);
  }

  /** The ring is never full for a worker that is about to submit. */
  lemma RingNeverFull(c: Config, s: State, w: nat)
    requires ConfigOk(c) && Reachable(c, s) && At(s, w, Written)
    ensures Enabled(c, s, WReserve(w))
  {
    ReachableInv(c, s);
    RoomToReserve(c, s, w);
  }

  /** Consumption follows reservation order, one entry each: the entry at the tail is marked, is the command of the
      worker that reserved that position, and belongs to an active slot, so nothing is skipped or discarded. */
  lemma ConsumedInOrder(c: Config, s: State)
    requires ConfigOk(c) && Reachable(c, s) && s.agg.phase.Fetch? && |s.agg.ptrs| < s.agg.n
    ensures Enabled(c, s, AFetch)
    ensures s.agg.fetched < |s.reserved| && s.reserved[s.agg.fetched] < |s.workers|
    ensures var w := s.reserved[s.agg.fetched];
      && s.agg.tail == Pos(c, s.agg.fetched)
      && s.workers[w].k < OpCount(c) && s.ring[s.agg.tail] == Entry(true, CommandOf(c, w, s.workers[w]))
      && Apply(c, s, AFetch).agg.ptrs == s.agg.ptrs + [s.agg.tail]
      && Apply(c, s, AFetch).agg.fetched == s.agg.fetched + 1
  {
    ReachableInv(c, s);
    NextEntry(c, s);
    assert WorkerOk(c, s, s.workers[s.reserved[s.agg.fetched]]);
  }

  /** Entries still in use after the tail was published are not overwritten before the epoch bump. */
  lemma FetchedNotOverwritten(c: Config, s: State, i: nat)
    requires ConfigOk(c) && Reachable(c, s) && InBarrier(s.agg) && i < |s.agg.ptrs|
    ensures s.agg.ptrs[i] == Pos(c, s.agg.base + i) < |s.ring|
    ensures s.agg.base + i < |s.reserved| && s.reserved[s.agg.base + i] < |s.workers|
    ensures var w := s.reserved[s.agg.base + i];
      && s.workers[w].k < OpCount(c) && s.workers[w].idx == s.agg.base + i
      && s.ring[s.agg.ptrs[i]].cmd == CommandOf(c, w, s.workers[w])
  {
    ReachableInv(c, s);
    BatchEntry(c, s, i);
    assert WorkerOk(c, s, s.workers[s.reserved[s.agg.base + i]]);
  }

  /** A marked entry lies between the consumed and the reserved positions. */
  lemma MarkedInsideWindow(c: Config, s: State, p: nat)
    requires ConfigOk(c) && Reachable(c, s) && p < |s.ring| && s.ring[p].ready
    ensures exists j :: s.agg.fetched <= j < |s.reserved| && Pos(c, j) == p
  {
    hide Inv, Pos, Reachable;
    ReachableInv(c, s);
    RingIsSized(c, s);
    var at := Pos(c, s.agg.fetched);
    var e := if p >= at then p - at else p - at + c.capacity;
    PosOffset(c, s.agg.fetched, e);
    var j := s.agg.fetched + e;
    assert Pos(c, j) == p;
    if j >= |s.reserved| { UnmarkedBeyond(c, s, j); }
  }

  lemma RingIsSized(c: Config, s: State)
    requires ConfigOk(c) && Inv(c, s)
    ensures |s.ring| == c.capacity
  {
  }

  lemma UnmarkedBeyond(c: Config, s: State, j: nat)
    requires ConfigOk(c) && Inv(c, s) && |s.reserved| <= j < s.agg.fetched + c.capacity
    ensures Pos(c, j) < |s.ring| && !s.ring[Pos(c, j)].ready
  {
  }

  /** The executor's checks never fail and no raw view leaves a slot's buffers. */
  lemma ExecutorNeverThrows(c: Config, s: State)
    requires ConfigOk(c) && Reachable(c, s) && s.agg.phase.Execute?
    ensures Enabled(c, s, AExecute)
  {
    ReachableInv(c, s);
    ExecuteEnabled(c, s);
  }

  /** A leave is only ever found mid-op while the first op of a token is being gathered, and the leaving slot has
      nothing in the ring. */
  lemma MidLeaveAtTokenStart(c: Config, s: State, t: nat)
    requires ConfigOk(c) && Reachable(c, s) && s.agg.phase.Wait? && t in s.leaves
    ensures s.agg.k == 0 && t < |s.owner| && 0 <= s.owner[t] < |s.workers| && !InFlight(s, s.workers[s.owner[t]])
  {
    ReachableInv(c, s);
    assert t in s.agg.active + s.active + s.joins + s.leaves + s.ready;
    assert WorkerOk(c, s, s.workers[s.owner[t]]);
  }

  /** Two workers never hold one slot; a released slot is in no mask and its buffers are zero. */
  lemma SlotsAreExclusive(c: Config, s: State)
    requires ConfigOk(c) && Reachable(c, s)
    ensures forall v, w :: 0 <= v < w < |s.workers| && !s.workers[v].phase.Idle? && !s.workers[w].phase.Idle? ==>
      s.workers[v].slot != s.workers[w].slot
    ensures forall t :: t in s.free ==>
      && t < |s.owner| == |s.ins| == |s.outs| && s.owner[t] == -1
      && Absent(s, t) && Quiet(s, t) && s.ins[t] == ZeroVec(c.inLen) && s.outs[t] == ZeroVec(c.outLen)
  {
    ReachableInv(c, s);
    forall t | t in s.free ensures Absent(s, t) && Quiet(s, t) { FreeSlotUnmarked(c, s, t); }
  }
}
