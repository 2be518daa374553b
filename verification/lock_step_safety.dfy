/** Every step of the lock-step protocol keeps the invariant. */
module LockStepSafety {
  import opened Arithmetic
  import opened Linear
  import opened BatchedExec
  import opened LockStep
  import opened LockStepInv

  // ----- Frames -----

  /** The two states differ, for slots other than `t`, in nothing that a worker's invariant looks at. */
  ghost predicate OnlySlot(s: State, s': State, t: nat) {
    && s'.agg.active == s.agg.active && s'.agg.k == s.agg.k && s'.agg.phase == s.agg.phase
    && s'.epoch == s.epoch && s'.active == s.active
    && |s'.ins| == |s.ins| && |s'.outs| == |s.outs|
    && (forall u :: u != t ==> (u in s'.joins <==> u in s.joins))
    && (forall u :: u != t ==> (u in s'.leaves <==> u in s.leaves))
    && (forall u :: u != t ==> (u in s'.ready <==> u in s.ready))
    && (forall u :: 0 <= u < |s.ins| && u != t ==> s'.ins[u] == s.ins[u])
    && (forall u :: 0 <= u < |s.outs| && u != t ==> s'.outs[u] == s.outs[u])
  }

  lemma OtherWorker(c: Config, s: State, s': State, t: nat, wk: Worker)
    requires ConfigOk(c) && OnlySlot(s, s', t) && WorkerOk(c, s, wk)
    requires wk.phase.Idle? || wk.slot != t
    ensures WorkerOk(c, s', wk)
  {
  }

  /** A worker's part in the ring is the same. */
  predicate SameStanding(s: State, s': State, wk: Worker, wk': Worker) {
    && InFlight(s, wk) == InFlight(s', wk')
    && (InFlight(s, wk) ==>
          && wk'.idx == wk.idx && wk'.k == wk.k && wk'.slot == wk.slot && wk'.bx == wk.bx && wk'.tx == wk.tx
          && wk'.phase.Reserved? == wk.phase.Reserved?
          && (wk'.phase.Submitted? || wk'.phase.Waiting?) == (wk.phase.Submitted? || wk.phase.Waiting?))
  }

  lemma SameRing(c: Config, s: State, s': State)
    requires ConfigOk(c) && Sized(c, s) && Sized(c, s') && RingLinks(c, s)
    requires s'.ring == s.ring && s'.reserved == s.reserved
    requires Lo(s') == Lo(s) && s'.agg.fetched == s.agg.fetched
    requires forall w :: 0 <= w < c.numWorkers ==> SameStanding(s, s', s.workers[w], s'.workers[w])
    ensures RingLinks(c, s')
  {
    forall j | Lo(s') <= j < |s'.reserved| ensures Linked(c, s', j) {
      assert Linked(c, s, j);
    }
  }

  lemma SameCounters(c: Config, s: State, s': State)
    requires ConfigOk(c) && RingCounters(c, s)
    requires s'.agg == s.agg && s'.head == s.head && s'.tail == s.tail && s'.reserved == s.reserved
    requires s'.published == s.published
    ensures RingCounters(c, s')
  {
  }

  lemma SameOwnership(c: Config, s: State, s': State)
    requires Sized(c, s) && Sized(c, s') && Ownership(c, s)
    requires s'.owner == s.owner && s'.free == s.free
    requires forall w :: 0 <= w < c.numWorkers ==>
      s'.workers[w].phase.Idle? == s.workers[w].phase.Idle? && s'.workers[w].slot == s.workers[w].slot
    requires forall t :: t in s.free ==> s'.ins[t] == s.ins[t] && s'.outs[t] == s.outs[t]
    ensures Ownership(c, s')
  {
  }

  /** A step of one worker that touches its own slot only and leaves the aggregator alone. */
  ghost predicate LocalChange(c: Config, s: State, s': State, w: nat)
    requires ConfigOk(c)
  {
    && |s'.workers| == |s.workers| && w < |s.workers|
    && (forall v :: 0 <= v < |s.workers| && v != w ==> s'.workers[v] == s.workers[v])
    && (var wk, wk' := s.workers[w], s'.workers[w];
        && !wk.phase.Idle? && !wk'.phase.Idle? && wk'.slot == wk.slot
        && OnlySlot(s, s', wk.slot) && WorkerOk(c, s', wk'))
    && s'.owner == s.owner && s'.free == s.free && s'.agg == s.agg
  }

  /** A local change that neither has nor takes a ring reservation. */
  ghost predicate PrivateChange(c: Config, s: State, s': State, w: nat)
    requires ConfigOk(c)
  {
    && LocalChange(c, s, s', w)
    && !InFlight(s, s.workers[w]) && !InFlight(s', s'.workers[w])
    && s'.ring == s.ring && s'.head == s.head && s'.tail == s.tail
    && s'.reserved == s.reserved && s'.published == s.published
  }

  lemma OthersKeep(c: Config, s: State, s': State, w: nat, t: nat)
    requires ConfigOk(c) && Sized(c, s) && Ownership(c, s) && Workers(c, s) && w < c.numWorkers
    requires OnlySlot(s, s', t) && |s'.workers| == |s.workers|
    requires t in s.free || (t < c.numSlots && s.owner[t] == w)
    requires forall v :: 0 <= v < |s.workers| && v != w ==> s'.workers[v] == s.workers[v]
    requires WorkerOk(c, s', s'.workers[w])
    ensures Workers(c, s')
  {
    forall v | 0 <= v < |s'.workers| ensures WorkerOk(c, s', s'.workers[v]) {
      if v != w {
        assert WorkerOk(c, s, s.workers[v]);
        OtherWorker(c, s, s', t, s.workers[v]);
      }
    }
  }

  lemma LocalStep(c: Config, s: State, s': State, w: nat)
    requires ConfigOk(c) && Inv(c, s) && Sized(c, s') && LocalChange(c, s, s', w)
    requires RingLinks(c, s') && RingCounters(c, s')
    ensures Inv(c, s')
  {
    var t := s.workers[w].slot;
    assert Workers(c, s') by { OthersKeep(c, s, s', w, t); }
    assert MasksOwned(c, s') by { OwnedMasks(c, s, s', t); }
    assert Ownership(c, s') by { SameOwnership(c, s, s'); }
  }

  lemma PrivateStep(c: Config, s: State, s': State, w: nat)
    requires ConfigOk(c) && Inv(c, s) && Sized(c, s') && PrivateChange(c, s, s', w)
    ensures Inv(c, s')
  {
    assert RingLinks(c, s') by { SameRing(c, s, s'); }
    assert RingCounters(c, s') by { SameCounters(c, s, s'); }
    LocalStep(c, s, s', w);
  }

  lemma OwnedMasks(c: Config, s: State, s': State, t: nat)
    requires MasksOwned(c, s) && OnlySlot(s, s', t) && s'.free == s.free
    requires t < c.numSlots && t !in s.free
    ensures MasksOwned(c, s')
  {
    forall u | u in s'.agg.active + s'.active + s'.joins + s'.leaves + s'.ready
      ensures u < c.numSlots && u !in s'.free
    {
      if u != t { assert u in s.agg.active + s.active + s.joins + s.leaves + s.ready; }
    }
  }

  // ----- Worker steps without the ring -----

  lemma KeepJoin(c: Config, s: State, w: nat)
    requires ConfigOk(c) && Inv(c, s) && At(s, w, Claimed)
    ensures Inv(c, DoJoin(s, w))
  {
    PrivateStep(c, s, DoJoin(s, w), w);
  }

  lemma KeepSeeActive(c: Config, s: State, w: nat)
    requires ConfigOk(c) && Inv(c, s) && At(s, w, Joined) && s.workers[w].slot in s.active
    ensures Inv(c, DoSeeActive(s, w))
  {
    PrivateStep(c, s, DoSeeActive(s, w), w);
  }

  lemma KeepCapture(c: Config, s: State, w: nat)
    requires ConfigOk(c) && Inv(c, s) && At(s, w, Compute)
    ensures Inv(c, DoCapture(s, w))
  {
    PrivateStep(c, s, DoCapture(s, w), w);
  }

  lemma KeepWrite(c: Config, s: State, w: nat, x: Mat, bx: int, tx: int)
    requires ConfigOk(c) && Inv(c, s) && At(s, w, Captured) && RowsOk(c, s.workers[w].k, x, bx, tx)
    requires s.workers[w].slot < |s.ins| && |Flat(x)| <= |s.ins[s.workers[w].slot]|
    ensures Inv(c, DoWrite(s, w, x, bx, tx))
  {
    PrivateStep(c, s, DoWrite(s, w, x, bx, tx), w);
  }

  lemma KeepWake(c: Config, s: State, w: nat)
    requires ConfigOk(c) && Inv(c, s) && At(s, w, Waiting) && s.epoch > s.workers[w].epoch
    ensures Inv(c, DoWake(s, w))
  {
    WakeWorker(c, s, w);
    hide WorkerOk, Workers, Ownership, RingLinks, RingCounters, MasksOwned, MasksAgree;
    PrivateStep(c, s, DoWake(s, w), w);
  }

  lemma WakeWorker(c: Config, s: State, w: nat)
    requires ConfigOk(c) && w < |s.workers| && WorkerOk(c, s, s.workers[w])
    requires At(s, w, Waiting) && s.epoch > s.workers[w].epoch
    ensures WorkerOk(c, DoWake(s, w), DoWake(s, w).workers[w])
  {
  }

  lemma ReadMovesOn(c: Config, s: State, s': State, wk: Worker, wk': Worker)
    requires ConfigOk(c) && wk.phase.Woken? && WorkerOk(c, s, wk)
    requires OnlySlot(s, s', wk.slot) && s'.joins == s.joins && s'.leaves == s.leaves && s'.ready == s.ready
    requires wk' == if wk.k + 1 < OpCount(c) then wk.(phase := Compute, k := wk.k + 1, got := wk'.got)
                    else wk.(phase := TokenDone, got := wk'.got)
    ensures WorkerOk(c, s', wk')
  {
    assert wk.k + 1 < OpCount(c) ==> s.agg.k == wk.k + 1;
  }

  lemma ReadPossible(c: Config, s: State, w: nat)
    requires ConfigOk(c) && Inv(c, s) && At(s, w, Woken)
    ensures CanRead(c, s, w) && WorkerOk(c, DoRead(c, s, w), DoRead(c, s, w).workers[w])
  {
    var wk := s.workers[w];
    assert WorkerOk(c, s, wk);
    ReadMovesOn(c, s, DoRead(c, s, w), wk, DoRead(c, s, w).workers[w]);
  }

  lemma KeepRead(c: Config, s: State, w: nat)
    requires ConfigOk(c) && Inv(c, s) && At(s, w, Woken)
    ensures Inv(c, DoRead(c, s, w))
  {
    hide WorkerOk, Linked, RingCounters, MasksOwned;
    ReadPossible(c, s, w);
    PrivateStep(c, s, DoRead(c, s, w), w);
  }

  lemma KeepContinue(c: Config, s: State, w: nat)
    requires ConfigOk(c) && Inv(c, s) && At(s, w, TokenDone)
    ensures Inv(c, DoContinue(s, w))
  {
    PrivateStep(c, s, DoContinue(s, w), w);
  }

  lemma KeepLeave(c: Config, s: State, w: nat)
    requires ConfigOk(c) && Inv(c, s) && At(s, w, TokenDone)
    ensures Inv(c, DoLeave(s, w))
  {
    PrivateStep(c, s, DoLeave(s, w), w);
  }

  lemma KeepSeeInactive(c: Config, s: State, w: nat)
    requires ConfigOk(c) && Inv(c, s) && At(s, w, Leaving) && s.workers[w].slot !in s.active
    ensures Inv(c, DoSeeInactive(s, w))
  {
    PrivateStep(c, s, DoSeeInactive(s, w), w);
  }

  // ----- Claim and release -----

  /** A worker takes or gives back a slot that no mask mentions. */
  lemma SeatStep(c: Config, s: State, s': State, w: nat, t: nat)
    requires ConfigOk(c) && Inv(c, s) && Sized(c, s') && Ownership(c, s') && w < c.numWorkers
    requires t in s.free || (t < c.numSlots && s.owner[t] == w)
    requires OnlySlot(s, s', t) && Absent(s, t) && Quiet(s, t) && WorkerOk(c, s', s'.workers[w])
    requires !InFlight(s, s.workers[w]) && !InFlight(s', s'.workers[w])
    requires forall v :: 0 <= v < c.numWorkers && v != w ==> s'.workers[v] == s.workers[v]
    requires s' == s.(workers := s'.workers, owner := s'.owner, free := s'.free, ready := s'.ready,
                      ins := s'.ins, outs := s'.outs)
    requires s'.free <= s.free + {t} && s'.ready <= s.ready
    ensures Inv(c, s')
  {
    hide WorkerOk, Linked;
    assert Workers(c, s') by { OthersKeep(c, s, s', w, t); }
    assert RingLinks(c, s') by { SameRing(c, s, s'); }
    assert MasksOwned(c, s') by { MasksKeep(c, s, s', t); }
    assert RingCounters(c, s') by { SameCounters(c, s, s'); }
  }

  lemma KeepClaim(c: Config, s: State, w: nat, t: nat)
    requires ConfigOk(c) && Inv(c, s) && At(s, w, Idle) && t in s.free
    ensures Inv(c, DoClaim(s, w, t))
  {
    var s' := DoClaim(s, w, t);
    FreeSlotUnmarked(c, s, t);
    assert Ownership(c, s') by { ClaimOwnership(c, s, s', w, t); }
    SeatStep(c, s, s', w, t);
  }

  lemma FreeSlotUnmarked(c: Config, s: State, t: nat)
    requires MasksOwned(c, s) && t in s.free
    ensures Absent(s, t) && Quiet(s, t)
  {
    assert t !in s.agg.active + s.active + s.joins + s.leaves + s.ready;
  }

  /** Freeing or taking a slot that no mask mentions. */
  lemma MasksKeep(c: Config, s: State, s': State, t: nat)
    requires MasksOwned(c, s) && Absent(s, t) && Quiet(s, t) && s'.free <= s.free + {t}
    requires s'.agg.active == s.agg.active && s'.active == s.active && s'.joins == s.joins && s'.leaves == s.leaves
    requires s'.ready <= s.ready
    ensures MasksOwned(c, s')
  {
    forall u | u in s'.agg.active + s'.active + s'.joins + s'.leaves + s'.ready
      ensures u < c.numSlots && u !in s'.free
    {
      assert u in s.agg.active + s.active + s.joins + s.leaves + s.ready;
    }
  }

  lemma ClaimOwnership(c: Config, s: State, s': State, w: nat, t: nat)
    requires Sized(c, s) && Ownership(c, s) && Sized(c, s') && w < c.numWorkers && t in s.free
    requires s.workers[w].phase.Idle? && s'.workers == s.workers[w := s.workers[w].(phase := Claimed, slot := t)]
    requires s'.owner == s.owner[t := w] && s'.free == s.free - {t} && s'.ins == s.ins && s'.outs == s.outs
    ensures Ownership(c, s')
  {
  }

  lemma KeepRelease(c: Config, s: State, w: nat)
    requires ConfigOk(c) && Inv(c, s) && At(s, w, Inactive)
    ensures Inv(c, DoRelease(c, s, w))
  {
    var t := s.workers[w].slot;
    assert WorkerOk(c, s, s.workers[w]);
    var s' := DoRelease(c, s, w);
    assert Ownership(c, s') by { ReleaseOwnership(c, s, s', w, t); }
    SeatStep(c, s, s', w, t);
  }

  lemma ReleaseOwnership(c: Config, s: State, s': State, w: nat, t: nat)
    requires Sized(c, s) && Ownership(c, s) && Sized(c, s') && w < c.numWorkers
    requires !s.workers[w].phase.Idle? && s.workers[w].slot == t
    requires s'.workers == s.workers[w := s.workers[w].(phase := Idle)]
    requires s'.owner == s.owner[t := -1] && s'.free == s.free + {t}
    requires s'.ins == s.ins[t := ZeroVec(c.inLen)] && s'.outs == s.outs[t := ZeroVec(c.outLen)]
    ensures Ownership(c, s')
  {
  }

  // ----- Worker steps on the ring -----

  lemma PosOffset(c: Config, i: nat, e: nat)
    requires 0 < c.capacity && e <= c.capacity
    ensures Pos(c, i + e) == if Pos(c, i) + e < c.capacity then Pos(c, i) + e else Pos(c, i) + e - c.capacity
  {
    var d, q, r := c.capacity, i / c.capacity, Pos(c, i);
    assert i == q * d + r;
    if r + e < d {
      DivModUnique(i + e, q, r + e, d);
    } else {
      assert (q + 1) * d == q * d + d;
      DivModUnique(i + e, q + 1, r + e - d, d);
    }
  }

  lemma PosDistinct(c: Config, i: nat, j: nat)
    requires 0 < c.capacity && i < j < i + c.capacity
    ensures Pos(c, i) != Pos(c, j)
  {
    PosOffset(c, i, j - i);
  }

  lemma PosAdvance(c: Config, j: nat)
    requires 0 < c.capacity
    ensures Advance(c, Pos(c, j)) == Pos(c, j + 1)
  {
    PosOffset(c, j, 1);
    DivModUnique(c.capacity, 1, 0, c.capacity);
    if Pos(c, j) + 1 < c.capacity { DivModUnique(Pos(c, j) + 1, 0, Pos(c, j) + 1, c.capacity); }
  }

  lemma KeepSignal(c: Config, s: State, w: nat)
    requires ConfigOk(c) && Inv(c, s) && At(s, w, Submitted)
    ensures Inv(c, DoSignal(s, w))
  {
    var s' := DoSignal(s, w);
    SignalWorker(c, s, w);
    hide WorkerOk;
    SameRing(c, s, s');
    LocalStep(c, s, s', w);
  }

  lemma SignalWorker(c: Config, s: State, w: nat)
    requires ConfigOk(c) && w < |s.workers| && WorkerOk(c, s, s.workers[w]) && At(s, w, Submitted)
    ensures WorkerOk(c, DoSignal(s, w), DoSignal(s, w).workers[w]) && s.workers[w].epoch == s.epoch
  {
  }

  lemma KeepFill(c: Config, s: State, w: nat)
    requires ConfigOk(c) && Inv(c, s) && At(s, w, Reserved)
    ensures Inv(c, DoFill(c, s, w))
  {
    var s' := DoFill(c, s, w);
    FillWorker(c, s, w);
    OwnEntry(c, s, w);
    hide WorkerOk, RingLinks, Ownership, MasksOwned, MasksAgree, Workers;
    RingEntryStep(c, s, s', w);
    SameCounters(c, s, s');
    LocalStep(c, s, s', w);
  }

  lemma FillWorker(c: Config, s: State, w: nat)
    requires ConfigOk(c) && Sized(c, s) && w < |s.workers| && WorkerOk(c, s, s.workers[w]) && At(s, w, Reserved)
    ensures s.workers[w].k < OpCount(c) && Gathering(s.agg)
    ensures WorkerOk(c, DoFill(c, s, w), DoFill(c, s, w).workers[w])
  {
  }

  /** What is known of the entry that a worker has reserved. */
  lemma OwnEntry(c: Config, s: State, w: nat)
    requires ConfigOk(c) && Inv(c, s) && w < c.numWorkers && Gathering(s.agg)
    requires (At(s, w, Reserved) || At(s, w, Filled))
    ensures var wk := s.workers[w];
      && wk.k < OpCount(c) && !s.ring[Pos(c, wk.idx)].ready
      && (wk.phase.Filled? ==> s.ring[Pos(c, wk.idx)].cmd == CommandOf(c, w, wk))
  {
    assert Linked(c, s, s.workers[w].idx);
  }

  lemma KeepMark(c: Config, s: State, w: nat)
    requires ConfigOk(c) && Inv(c, s) && At(s, w, Filled)
    ensures Inv(c, DoMark(c, s, w))
  {
    var s' := DoMark(c, s, w);
    MarkWorker(c, s, w);
    OwnEntry(c, s, w);
    hide WorkerOk, RingLinks, Ownership, MasksOwned, MasksAgree, Workers;
    RingEntryStep(c, s, s', w);
    SameCounters(c, s, s');
    LocalStep(c, s, s', w);
  }

  lemma MarkWorker(c: Config, s: State, w: nat)
    requires ConfigOk(c) && Sized(c, s) && w < |s.workers| && WorkerOk(c, s, s.workers[w]) && At(s, w, Filled)
    ensures s.workers[w].k < OpCount(c) && Gathering(s.agg)
    ensures WorkerOk(c, DoMark(c, s, w), DoMark(c, s, w).workers[w])
  {
  }

  /** Filling in or marking one's own reserved entry disturbs no other entry. */
  lemma RingEntryStep(c: Config, s: State, s': State, w: nat)
    requires ConfigOk(c) && Sized(c, s) && Sized(c, s') && RingLinks(c, s) && RingCounters(c, s)
    requires w < c.numWorkers && Gathering(s.agg) && InFlight(s, s.workers[w]) && InFlight(s', s'.workers[w])
    requires var wk, wk' := s.workers[w], s'.workers[w];
      && wk.k < OpCount(c) && wk'.idx == wk.idx && wk'.k == wk.k && wk'.slot == wk.slot && wk'.bx == wk.bx
      && wk'.tx == wk.tx
      && (wk.phase.Reserved? || wk.phase.Filled?) && (wk'.phase.Filled? || wk'.phase.Submitted?)
    requires forall v :: 0 <= v < c.numWorkers && v != w ==> s'.workers[v] == s.workers[v]
    requires s'.agg == s.agg && s'.reserved == s.reserved && s'.published == s.published && s'.epoch == s.epoch
    requires var p := Pos(c, s.workers[w].idx);
      s'.ring == s.ring[p := Entry(s'.workers[w].phase.Submitted?, CommandOf(c, w, s.workers[w]))]
    ensures RingLinks(c, s')
  {
    var idx := s.workers[w].idx;
    assert Lo(s) <= idx < |s.reserved| && s.reserved[idx] == w;
    forall j | Lo(s') <= j < |s'.reserved| ensures Linked(c, s', j) {
      assert Linked(c, s, j);
      if j != idx {
        PosDistinct(c, if j < idx then j else idx, if j < idx then idx else j);
        assert s.reserved[j] != w;
      }
    }
    forall j | |s'.reserved| <= j < s'.agg.fetched + c.capacity ensures !s'.ring[Pos(c, j)].ready {
      PosDistinct(c, idx, j);
    }
  }

  // ----- Counting reservations -----

  /** Slots of the workers that hold positions lo..hi. */
  ghost function WindowSlots(s: State, lo: nat, hi: nat): set<nat>
    requires lo <= hi <= |s.reserved|
    requires forall j :: lo <= j < hi ==> s.reserved[j] < |s.workers|
    decreases hi
  {
    if lo == hi then {} else WindowSlots(s, lo, hi - 1) + {s.workers[s.reserved[hi - 1]].slot}
  }

  lemma {:induction false} WindowMembers(s: State, lo: nat, hi: nat)
    requires lo <= hi <= |s.reserved|
    requires forall j :: lo <= j < hi ==> s.reserved[j] < |s.workers|
    ensures forall t :: t in WindowSlots(s, lo, hi) <==> exists j :: lo <= j < hi && s.workers[s.reserved[j]].slot == t
  {
    if lo < hi { WindowMembers(s, lo, hi - 1); }
  }

  /** In-flight workers hold pairwise different slots, so positions and slots are in bijection. */
  lemma {:induction false} WindowSize(c: Config, s: State, hi: nat)
    requires ConfigOk(c) && Sized(c, s) && Ownership(c, s) && RingLinks(c, s) && Lo(s) <= hi <= |s.reserved|
    ensures forall j :: Lo(s) <= j < hi ==> s.reserved[j] < |s.workers|
    ensures |WindowSlots(s, Lo(s), hi)| == hi - Lo(s)
  {
    forall j | Lo(s) <= j < hi ensures s.reserved[j] < |s.workers| { assert Linked(c, s, j); }
    if Lo(s) < hi {
      WindowSize(c, s, hi - 1);
      var t := s.workers[s.reserved[hi - 1]].slot;
      assert Linked(c, s, hi - 1);
      forall j | Lo(s) <= j < hi - 1 ensures s.workers[s.reserved[j]].slot != t {
        assert Linked(c, s, j);
      }
      WindowMembers(s, Lo(s), hi - 1);
    }
  }

  lemma {:induction false} AllBelowSize(n: nat)
    ensures |AllBelow(n)| == n
  {
    if n > 0 { AllBelowSize(n - 1); }
  }

  lemma SubsetSize<T>(a: set<T>, b: set<T>)
    requires a <= b
    ensures |a| <= |b| && (|a| == |b| ==> a == b)
  {
    var rest := b - a;
    assert b == a + rest && a !! rest;
    if |rest| == 0 { assert rest == {}; }
  }

  lemma WindowAvoids(c: Config, s: State, w: nat)
    requires ConfigOk(c) && Sized(c, s) && Ownership(c, s) && RingLinks(c, s)
    requires w < c.numWorkers && !s.workers[w].phase.Idle? && !InFlight(s, s.workers[w]) && Lo(s) <= |s.reserved|
    ensures forall j :: Lo(s) <= j < |s.reserved| ==> s.reserved[j] < |s.workers|
    ensures forall u :: u in WindowSlots(s, Lo(s), |s.reserved|) ==> u < c.numSlots && u != s.workers[w].slot
  {
    WindowSize(c, s, |s.reserved|);
    WindowMembers(s, Lo(s), |s.reserved|);
    forall j | Lo(s) <= j < |s.reserved|
      ensures s.workers[s.reserved[j]].slot < c.numSlots && s.workers[s.reserved[j]].slot != s.workers[w].slot
    {
      assert Linked(c, s, j);
    }
  }

  /** A worker that is about to reserve finds room: everybody else's reservations leave at least its own share. */
  lemma RoomToReserve(c: Config, s: State, w: nat)
    requires ConfigOk(c) && Inv(c, s) && At(s, w, Written)
    ensures |s.reserved| < Lo(s) + c.numSlots
    ensures Advance(c, s.head) != s.tail
  {
    var t := s.workers[w].slot;
    assert t < c.numSlots && Lo(s) == s.published by { assert WorkerOk(c, s, s.workers[w]); }
    assert |s.reserved| < Lo(s) + c.numSlots by {
      WindowAvoids(c, s, w);
      WindowSize(c, s, |s.reserved|);
      AllBelowSize(c.numSlots);
      SubsetSize(WindowSlots(s, Lo(s), |s.reserved|), AllBelow(c.numSlots) - {t});
    }
    PosAdvance(c, |s.reserved|);
    PosDistinct(c, s.published, |s.reserved| + 1);
  }

  lemma KeepReserve(c: Config, s: State, w: nat)
    requires ConfigOk(c) && Inv(c, s) && At(s, w, Written)
    ensures Inv(c, DoReserve(c, s, w))
  {
    var s' := DoReserve(c, s, w);
    assert WorkerOk(c, s, s.workers[w]);
    assert RingLinks(c, s') by { ReserveLinks(c, s, s', w); }
    assert RingCounters(c, s') by { RoomToReserve(c, s, w); PosAdvance(c, |s.reserved|); }
    LocalStep(c, s, s', w);
  }

  lemma ReserveLinks(c: Config, s: State, s': State, w: nat)
    requires ConfigOk(c) && Sized(c, s) && Sized(c, s') && RingLinks(c, s) && RingCounters(c, s)
    requires w < c.numWorkers && Gathering(s.agg) && s.workers[w].phase.Written? && s.workers[w].k < OpCount(c)
    requires s'.workers == s.workers[w := s.workers[w].(phase := Reserved, idx := |s.reserved|)]
    requires s'.reserved == s.reserved + [w] && s'.ring == s.ring && s'.agg == s.agg
    requires s'.published == s.published && s'.epoch == s.epoch
    ensures RingLinks(c, s')
  {
    forall j | Lo(s') <= j < |s'.reserved| ensures Linked(c, s', j) {
      if j < |s.reserved| { assert Linked(c, s, j); }
    }
  }

  // ----- Aggregator steps between barriers -----

  /** Steps that change masks and the aggregator's phase, but neither workers nor ring, within one gathering. */
  ghost predicate MaskStep(c: Config, s: State, s': State) {
    && Gathering(s.agg) && Gathering(s'.agg)
    && s' == s.(joins := s'.joins, leaves := s'.leaves, active := s'.active,
                agg := s.agg.(phase := s'.agg.phase, active := s'.agg.active, k := s'.agg.k))
    && s'.joins <= s.joins && s'.leaves <= s.leaves
    && s'.active + s'.agg.active <= s.active + s.agg.active + s.joins
  }

  lemma KeepMaskStep(c: Config, s: State, s': State)
    requires ConfigOk(c) && Inv(c, s) && MaskStep(c, s, s') && MasksAgree(c, s')
    requires forall w :: 0 <= w < |s.workers| ==> WorkerOk(c, s', s.workers[w])
    ensures Inv(c, s')
  {
    assert RingLinks(c, s') by { SameRing(c, s, s'); }
    assert RingCounters(c, s') by { GatheringCounters(c, s, s'); }
    assert MasksOwned(c, s') by {
      forall u | u in s'.agg.active + s'.active + s'.joins + s'.leaves + s'.ready
        ensures u < c.numSlots && u !in s'.free
      {
        assert u in s.agg.active + s.active + s.joins + s.leaves + s.ready;
      }
    }
    assert Ownership(c, s') by { SameOwnership(c, s, s'); }
  }

  lemma GatheringCounters(c: Config, s: State, s': State)
    requires ConfigOk(c) && RingCounters(c, s) && MaskStep(c, s, s')
    ensures RingCounters(c, s')
  {
  }

  lemma KeepTakeLeaves(c: Config, s: State)
    requires ConfigOk(c) && Inv(c, s) && s.agg.phase.TakeLeaves?
    ensures Inv(c, DoTakeLeaves(s))
  {
    forall w | 0 <= w < |s.workers| ensures WorkerOk(c, DoTakeLeaves(s), s.workers[w]) {
      TakeLeavesWorker(c, s, s.workers[w]);
    }
    KeepMaskStep(c, s, DoTakeLeaves(s));
  }

  lemma TakeLeavesWorker(c: Config, s: State, wk: Worker)
    requires ConfigOk(c) && MasksAgree(c, s) && WorkerOk(c, s, wk) && s.agg.phase.TakeLeaves?
    ensures WorkerOk(c, DoTakeLeaves(s), wk)
  {
  }

  lemma KeepTakeJoins(c: Config, s: State)
    requires ConfigOk(c) && Inv(c, s) && s.agg.phase.TakeJoins?
    ensures Inv(c, DoTakeJoins(s))
  {
    forall w | 0 <= w < |s.workers| ensures WorkerOk(c, DoTakeJoins(s), s.workers[w]) {
      TakeJoinsWorker(c, s, s.workers[w]);
    }
    KeepMaskStep(c, s, DoTakeJoins(s));
  }

  lemma TakeJoinsWorker(c: Config, s: State, wk: Worker)
    requires ConfigOk(c) && MasksAgree(c, s) && WorkerOk(c, s, wk) && s.agg.phase.TakeJoins?
    ensures WorkerOk(c, DoTakeJoins(s), wk)
  {
  }

  lemma KeepPublish(c: Config, s: State)
    requires ConfigOk(c) && Inv(c, s) && s.agg.phase.Publish?
    ensures Inv(c, DoPublish(s))
  {
    forall w | 0 <= w < |s.workers| ensures WorkerOk(c, DoPublish(s), s.workers[w]) {
      PublishWorker(c, s, s.workers[w]);
    }
    KeepMaskStep(c, s, DoPublish(s));
  }

  lemma PublishWorker(c: Config, s: State, wk: Worker)
    requires ConfigOk(c) && MasksAgree(c, s) && WorkerOk(c, s, wk) && s.agg.phase.Publish?
    ensures WorkerOk(c, DoPublish(s), wk)
  {
  }

  lemma LeaveAtTokenStart(c: Config, s: State, t: nat)
    requires ConfigOk(c) && Inv(c, s) && t in s.leaves
    ensures s.agg.k == 0
  {
    assert t in s.agg.active + s.active + s.joins + s.leaves + s.ready;
    assert WorkerOk(c, s, s.workers[s.owner[t]]);
  }

  lemma KeepMidLeave(c: Config, s: State)
    requires ConfigOk(c) && Inv(c, s) && s.agg.phase.Wait? && s.leaves * s.agg.active != {}
    ensures Inv(c, DoMidLeave(s))
  {
    var t :| t in s.leaves * s.agg.active;
    LeaveAtTokenStart(c, s, t);
    forall w | 0 <= w < |s.workers| ensures WorkerOk(c, DoMidLeave(s), s.workers[w]) {
      MidLeaveWorker(c, s, s.workers[w]);
    }
    KeepMaskStep(c, s, DoMidLeave(s));
  }

  lemma MidLeaveWorker(c: Config, s: State, wk: Worker)
    requires ConfigOk(c) && MasksAgree(c, s) && WorkerOk(c, s, wk) && s.agg.phase.Wait?
    ensures WorkerOk(c, DoMidLeave(s), wk)
  {
  }

  lemma KeepMidPublish(c: Config, s: State)
    requires ConfigOk(c) && Inv(c, s) && s.agg.phase.MidPublish?
    ensures Inv(c, DoMidPublish(s))
  {
    forall w | 0 <= w < |s.workers| ensures WorkerOk(c, DoMidPublish(s), s.workers[w]) {
      MidPublishWorker(c, s, s.workers[w]);
    }
    KeepMaskStep(c, s, DoMidPublish(s));
  }

  lemma MidPublishWorker(c: Config, s: State, wk: Worker)
    requires ConfigOk(c) && MasksAgree(c, s) && WorkerOk(c, s, wk) && s.agg.phase.MidPublish?
    ensures WorkerOk(c, DoMidPublish(s), wk)
  {
  }

  // ----- Aggregator steps of one barrier -----

  /** When every active slot is ready, its worker has signalled for the current op and is in flight. */
  lemma ReadyMeansFresh(c: Config, s: State, t: nat)
    requires ConfigOk(c) && Inv(c, s) && t in s.agg.active
    requires s.agg.active <= s.ready || !Gathering(s.agg)
    ensures t < c.numSlots && 0 <= s.owner[t] < c.numWorkers && s.workers[s.owner[t]].slot == t
    ensures Fresh(s, s.workers[s.owner[t]])
  {
    assert t in s.agg.active + s.active + s.joins + s.leaves + s.ready;
    assert WorkerOk(c, s, s.workers[s.owner[t]]);
  }

  /** An active slot's worker holds a pending ring position, and pending positions belong to active slots. */
  lemma WindowIsActive(c: Config, s: State, t: nat)
    requires ConfigOk(c) && Inv(c, s) && (s.agg.active <= s.ready || !Gathering(s.agg))
    ensures t in s.agg.active <==>
      exists j :: Lo(s) <= j < |s.reserved| && s.reserved[j] < |s.workers| && s.workers[s.reserved[j]].slot == t
  {
    if t in s.agg.active {
      ReadyMeansFresh(c, s, t);
      assert s.workers[s.reserved[s.workers[s.owner[t]].idx]].slot == t;
    }
    forall j | Lo(s) <= j < |s.reserved|
      ensures s.reserved[j] < |s.workers| && s.workers[s.reserved[j]].slot in s.agg.active {
      assert Linked(c, s, j) && WorkerOk(c, s, s.workers[s.reserved[j]]);
    }
  }

  /** Once every active slot is ready, pending ring positions and active slots correspond one to one. */
  lemma PendingAreActive(c: Config, s: State)
    requires ConfigOk(c) && Inv(c, s) && s.agg.phase.Wait? && s.agg.active <= s.ready
    ensures |s.reserved| - s.published == |s.agg.active|
  {
    WindowSize(c, s, |s.reserved|);
    WindowMembers(s, Lo(s), |s.reserved|);
    var window := WindowSlots(s, Lo(s), |s.reserved|);
    forall t: nat ensures t in window <==> t in s.agg.active { WindowIsActive(c, s, t); }
    assert window == s.agg.active;
  }

  /** Steps that only move the aggregator inside a barrier. */
  lemma KeepAggMove(c: Config, s: State, s': State)
    requires ConfigOk(c) && Inv(c, s) && s' == s.(agg := s'.agg, tail := s'.tail, published := s'.published)
    requires s'.agg.active == s.agg.active != {} && s'.agg.k == s.agg.k && Lo(s') == Lo(s)
    requires s'.agg.fetched == s.agg.fetched
    requires !Gathering(s'.agg) && !s'.agg.phase.ClearReady? && !s'.agg.phase.Bump? && MasksAgree(c, s')
    requires s.agg.active <= s.ready || !Gathering(s.agg)
    requires s.agg.phase.Wait? || s.agg.phase.Fetch? || s.agg.phase.StoreTail?
    requires RingCounters(c, s')
    ensures Inv(c, s')
  {
    forall w | 0 <= w < |s.workers| ensures WorkerOk(c, s', s.workers[w]) {
      AggMoveWorker(c, s, s', s.workers[w]);
    }
    assert RingLinks(c, s') by { SameRing(c, s, s'); }
    assert Ownership(c, s') by { SameOwnership(c, s, s'); }
    assert MasksOwned(c, s');
  }

  lemma AggMoveWorker(c: Config, s: State, s': State, wk: Worker)
    requires ConfigOk(c) && WorkerOk(c, s, wk) && s' == s.(agg := s'.agg, tail := s'.tail, published := s'.published)
    requires s'.agg.active == s.agg.active && s'.agg.k == s.agg.k
    requires !Gathering(s'.agg) && !s'.agg.phase.ClearReady? && !s'.agg.phase.Bump?
    requires s.agg.phase.Wait? || s.agg.phase.Fetch? || s.agg.phase.StoreTail?
    requires s.agg.active <= s.ready || !Gathering(s.agg)
    ensures WorkerOk(c, s', wk)
  {
  }

  lemma KeepWaitDone(c: Config, s: State)
    requires ConfigOk(c) && Inv(c, s) && s.agg.phase.Wait? && s.agg.active <= s.ready
    ensures Inv(c, DoWaitDone(s))
  {
    PendingAreActive(c, s);
    KeepAggMove(c, s, DoWaitDone(s));
  }

  lemma KeepFetchDone(c: Config, s: State)
    requires ConfigOk(c) && Inv(c, s) && s.agg.phase.Fetch? && |s.agg.ptrs| >= s.agg.n
    ensures Inv(c, DoFetchDone(s))
  {
    hide WorkerOk, Linked, Pos;
    KeepAggMove(c, s, DoFetchDone(s));
  }

  lemma StoreTailCounters(c: Config, s: State)
    requires ConfigOk(c) && RingCounters(c, s) && s.agg.phase.StoreTail?
    ensures RingCounters(c, DoStoreTail(s))
  {
    hide Pos;
  }

  lemma KeepStoreTail(c: Config, s: State)
    requires ConfigOk(c) && Inv(c, s) && s.agg.phase.StoreTail?
    ensures Inv(c, DoStoreTail(s))
  {
    hide WorkerOk, Linked;
    StoreTailCounters(c, s);
    hide RingCounters;
    KeepAggMove(c, s, DoStoreTail(s));
  }

  /** The entry at the aggregator's tail is the marked command of a worker that waits for this very op. */
  lemma NextEntry(c: Config, s: State)
    requires ConfigOk(c) && Inv(c, s) && s.agg.phase.Fetch? && |s.agg.ptrs| < s.agg.n
    ensures s.agg.fetched < |s.reserved| && s.reserved[s.agg.fetched] < c.numWorkers
    ensures var w := s.reserved[s.agg.fetched];
      && Fresh(s, s.workers[w]) && s.workers[w].idx == s.agg.fetched && s.workers[w].k == s.agg.k
      && s.workers[w].slot in s.agg.active
      && s.ring[s.agg.tail] == Entry(true, CommandOf(c, w, s.workers[w]))
  {
    assert Linked(c, s, s.agg.fetched);
    assert WorkerOk(c, s, s.workers[s.reserved[s.agg.fetched]]);
  }

  lemma KeepFetch(c: Config, s: State)
    requires ConfigOk(c) && Inv(c, s) && s.agg.phase.Fetch? && |s.agg.ptrs| < s.agg.n
    ensures Inv(c, DoFetch(c, s))
  {
    NextEntry(c, s);
    PosAdvance(c, s.agg.fetched);
    FetchKeeps(c, s, DoFetch(c, s));
  }

  lemma FetchKeeps(c: Config, s: State, s': State)
    requires ConfigOk(c) && Inv(c, s) && s.agg.phase.Fetch? && |s.agg.ptrs| < s.agg.n && s.agg.fetched < |s.reserved|
    requires s' == s.(ring := s.ring[s.agg.tail := s.ring[s.agg.tail].(ready := false)],
                      agg := s.agg.(tail := Pos(c, s.agg.fetched + 1), fetched := s.agg.fetched + 1,
                                    ptrs := s.agg.ptrs + [s.agg.tail]))
    ensures Inv(c, s')
  {
    assert Workers(c, s') by {
      forall w | 0 <= w < |s.workers| ensures WorkerOk(c, s', s.workers[w]) {
        OtherWorker(c, s, s', c.numSlots, s.workers[w]);
      }
    }
    assert RingLinks(c, s') by { FetchLinks(c, s, s'); }
    assert RingCounters(c, s') by { FetchCounters(c, s, s'); }
    assert Ownership(c, s') by { SameOwnership(c, s, s'); }
    assert MasksOwned(c, s');
  }

  lemma FetchCounters(c: Config, s: State, s': State)
    requires ConfigOk(c) && RingCounters(c, s) && s.agg.phase.Fetch? && |s.agg.ptrs| < s.agg.n
    requires s' == s.(ring := s'.ring, agg := s.agg.(tail := Pos(c, s.agg.fetched + 1), fetched := s.agg.fetched + 1,
                                                     ptrs := s.agg.ptrs + [s.agg.tail]))
    ensures RingCounters(c, s')
  {
  }

  lemma FetchLinks(c: Config, s: State, s': State)
    requires ConfigOk(c) && Sized(c, s) && Sized(c, s') && RingLinks(c, s) && RingCounters(c, s)
    requires s.agg.phase.Fetch? && s.agg.fetched < |s.reserved|
    requires s' == s.(ring := s.ring[s.agg.tail := s.ring[s.agg.tail].(ready := false)],
                      agg := s.agg.(tail := s'.agg.tail, fetched := s.agg.fetched + 1, ptrs := s'.agg.ptrs))
    ensures RingLinks(c, s')
  {
    var at := s.agg.fetched;
    forall j | Lo(s') <= j < |s'.reserved| ensures Linked(c, s', j) {
      assert Linked(c, s, j);
      if j != at { PosDistinct(c, if j < at then j else at, if j < at then at else j); }
    }
    forall j | |s'.reserved| <= j < s'.agg.fetched + c.capacity ensures !s'.ring[Pos(c, j)].ready {
      if j == at + c.capacity { PosOffset(c, at, c.capacity); } else { PosDistinct(c, at, j); }
    }
  }

  /** The batch: the i-th fetched entry still shows the command of the worker that reserved the i-th position of
      this barrier; one command per active slot, all of them for the aggregator's op index. */
  lemma BatchEntry(c: Config, s: State, i: nat)
    requires ConfigOk(c) && Inv(c, s) && !Gathering(s.agg) && i < |s.agg.ptrs|
    ensures s.agg.ptrs[i] < |s.ring| && s.agg.base + i < |s.reserved| && s.reserved[s.agg.base + i] < c.numWorkers
    ensures var w := s.reserved[s.agg.base + i];
      && Fresh(s, s.workers[w]) && s.workers[w].k == s.agg.k && s.workers[w].idx == s.agg.base + i
      && s.workers[w].slot in s.agg.active && s.workers[w].slot < c.numSlots && s.owner[s.workers[w].slot] == w
      && Prepared(c, s, s.workers[w])
      && s.ring[s.agg.ptrs[i]].cmd == CommandOf(c, w, s.workers[w])
  {
    assert Linked(c, s, s.agg.base + i);
    assert WorkerOk(c, s, s.workers[s.reserved[s.agg.base + i]]);
  }

  lemma HeldInput(c: Config, op: Op, mem: Vec, x: Mat)
    requires InputHeld(mem, x) && Shaped(x, |x|, InWidth(c.model, op))
    ensures |x| * InWidth(c.model, op) <= |mem| && View(mem, |x|, InWidth(c.model, op)) == x
  {
    ViewOfHeld(mem, x, InWidth(c.model, op));
  }

  lemma BatchCommand(c: Config, s: State, i: nat)
    requires ConfigOk(c) && Inv(c, s) && s.agg.phase.Execute? && i < |s.agg.ptrs|
    ensures s.agg.ptrs[i] < |s.ring| && s.agg.base + i < |s.reserved| && s.reserved[s.agg.base + i] < c.numWorkers
    ensures var cmd, op, wk := s.ring[s.agg.ptrs[i]].cmd, OpAt(c, s.agg.k), s.workers[s.reserved[s.agg.base + i]];
      && wk.k < OpCount(c) && cmd == CommandOf(c, s.reserved[s.agg.base + i], wk) && cmd.op == op
      && cmd.layer == LayerAt(c, s.agg.k)
      && CommandAccepted(op, s.owner, |s.agg.ptrs|, cmd)
      && InBounds(c.model, op, s.ins, s.outs, cmd)
      && Input(c.model, op, s.ins, s.outs, cmd) == wk.x
  {
    BatchEntry(c, s, i);
    var w := s.reserved[s.agg.base + i];
    var wk := s.workers[w];
    CommandServes(c, s, OpAt(c, s.agg.k), wk, CommandOf(c, w, wk));
  }

  lemma CommandServes(c: Config, s: State, op: Op, wk: Worker, cmd: Command)
    requires ConfigOk(c) && Sized(c, s) && Prepared(c, s, wk) && op == OpAt(c, wk.k)
    requires cmd.slotId == wk.slot < c.numSlots && cmd.bx == wk.bx && cmd.tx == wk.tx
    ensures InBounds(c.model, op, s.ins, s.outs, cmd)
    ensures Input(c.model, op, s.ins, s.outs, cmd) == wk.x
  {
    HeldInput(c, op, s.ins[wk.slot], wk.x);
    assert |wk.x| <= c.maxTokens && Tokens(cmd) == |wk.x| && RowsFit(c, op, |wk.x|);
  }

  /** The executor never throws and never reads or writes outside a slot's buffers. */
  lemma ExecuteEnabled(c: Config, s: State)
    requires ConfigOk(c) && Inv(c, s) && s.agg.phase.Execute?
    ensures CanExecute(c, s)
    ensures FetchedCommands(s)[0].op == OpAt(c, s.agg.k) && FetchedCommands(s)[0].layer == LayerAt(c, s.agg.k)
    ensures DistinctSlots(FetchedCommands(s))
  {
    forall i | 0 <= i < |s.agg.ptrs| ensures s.agg.ptrs[i] < |s.ring| { BatchEntry(c, s, i); }
    var cmds := FetchedCommands(s);
    assert s.agg.n > 0;
    BatchCommand(c, s, 0);
    forall i | 0 <= i < |cmds|
      ensures CommandAccepted(cmds[0].op, s.owner, |cmds|, cmds[i])
      ensures InBounds(c.model, cmds[0].op, s.ins, s.outs, cmds[i])
    {
      BatchCommand(c, s, i);
    }
    forall i, j | 0 <= i < j < |cmds| ensures cmds[i].slotId != cmds[j].slotId {
      BatchEntry(c, s, i);
      BatchEntry(c, s, j);
    }
  }

  lemma FreshPosition(c: Config, s: State, w: nat)
    requires ConfigOk(c) && Inv(c, s) && s.agg.phase.Execute? && w < c.numWorkers && Fresh(s, s.workers[w])
    ensures s.agg.base <= s.workers[w].idx < s.agg.base + |s.agg.ptrs| && s.workers[w].idx < |s.reserved|
    ensures s.reserved[s.workers[w].idx] == w
  {
  }

  /** The scatter loop leaves the i-th worker's own result at the start of its slot's buffer. */
  lemma ServedSlot(c: Config, ins: seq<Vec>, outs: seq<Vec>, cmds: seq<Command>, i: nat, wk: Worker)
    requires ConfigOk(c) && RowsOk(c, wk.k, wk.x, wk.bx, wk.tx) && i < |cmds|
    requires AllInBounds(c.model, OpAt(c, wk.k), ins, outs, cmds) && DistinctSlots(cmds)
    requires cmds[i].slotId == wk.slot && Tokens(cmds[i]) == |wk.x|
    requires InBounds(c.model, OpAt(c, wk.k), ins, outs, cmds[i])
    requires Input(c.model, OpAt(c, wk.k), ins, outs, cmds[i]) == wk.x
    ensures var r := Executed(c.model, OpAt(c, wk.k), LayerAt(c, wk.k), ins, outs, cmds);
      OutputHeld(c, r[wk.slot], wk)
  {
    ExecutedSlots(c.model, OpAt(c, wk.k), LayerAt(c, wk.k), ins, outs, cmds);
    ResultHeld(c, outs[wk.slot], wk);
  }

  /** After the barrier's execution a waiting worker's output buffer starts with its own result, run alone. */
  lemma ExecutedFor(c: Config, s: State, w: nat)
    requires ConfigOk(c) && Inv(c, s) && s.agg.phase.Execute? && CanExecute(c, s)
    requires w < c.numWorkers && Fresh(s, s.workers[w])
    ensures var r := DoExecute(c, s).outs;
      s.workers[w].slot < |r| && OutputHeld(c, r[s.workers[w].slot], s.workers[w])
  {
    ExecuteEnabled(c, s);
    FreshPosition(c, s, w);
    hide Inv, OutputHeld;
    var wk := s.workers[w];
    var i := wk.idx - s.agg.base;
    BatchEntry(c, s, i);
    BatchCommand(c, s, i);
    ServedSlot(c, s.ins, s.outs, FetchedCommands(s), i, wk);
  }

  lemma ResultHeld(c: Config, mem: Vec, wk: Worker)
    requires ConfigOk(c) && RowsOk(c, wk.k, wk.x, wk.bx, wk.tx)
    requires |OwnResult(c, wk)| == OutCells(c.model, OpAt(c, wk.k), |wk.x|) <= |mem|
    ensures OutputHeld(c, Overwrite(mem, OwnResult(c, wk)), wk)
  {
  }

  lemma ExecutedOthers(c: Config, s: State, t: nat)
    requires ConfigOk(c) && Inv(c, s) && s.agg.phase.Execute? && CanExecute(c, s) && t in s.free
    ensures DoExecute(c, s).outs[t] == s.outs[t]
  {
    ExecuteEnabled(c, s);
    var cmds := FetchedCommands(s);
    forall i | 0 <= i < |cmds| ensures cmds[i].slotId != t { BatchEntry(c, s, i); }
    ExecutedSlots(c.model, cmds[0].op, cmds[0].layer, s.ins, s.outs, cmds);
  }

  lemma ExecuteChanges(c: Config, s: State)
    requires ConfigOk(c) && Inv(c, s) && s.agg.phase.Execute? && CanExecute(c, s)
    ensures var s' := DoExecute(c, s); s' == s.(outs := s'.outs, agg := s.agg.(phase := ClearReady)) && Sized(c, s')
  {
    hide Workers, RingLinks, RingCounters, MasksOwned, Ownership, Accepted, AllInBounds;
  }

  lemma KeepExecute(c: Config, s: State)
    requires ConfigOk(c) && Inv(c, s) && s.agg.phase.Execute? && CanExecute(c, s)
    ensures Inv(c, DoExecute(c, s))
  {
    ExecuteChanges(c, s);
    hide WorkerOk, Linked, RingCounters, MasksOwned, DoExecute, CanExecute, OutputHeld;
    var s' := DoExecute(c, s);
    forall t | t in s.free ensures s'.outs[t] == s.outs[t] { ExecutedOthers(c, s, t); }
    forall w | 0 <= w < c.numWorkers && Fresh(s, s.workers[w])
      ensures OutputHeld(c, s'.outs[s.workers[w].slot], s.workers[w])
    {
      ExecutedFor(c, s, w);
    }
    ExecuteKeeps(c, s, s');
  }

  lemma ExecuteKeeps(c: Config, s: State, s': State)
    requires ConfigOk(c) && Inv(c, s) && s.agg.phase.Execute? && Sized(c, s')
    requires s' == s.(outs := s'.outs, agg := s.agg.(phase := ClearReady))
    requires forall t :: t in s.free ==> s'.outs[t] == s.outs[t]
    requires forall w :: 0 <= w < c.numWorkers && Fresh(s, s.workers[w]) ==>
      s.workers[w].slot < c.numSlots && OutputHeld(c, s'.outs[s.workers[w].slot], s.workers[w])
    ensures Inv(c, s')
  {
    forall w | 0 <= w < c.numWorkers ensures WorkerOk(c, s', s.workers[w]) {
      ExecuteWorker(c, s, s', s.workers[w]);
    }
    assert RingLinks(c, s') by { SameRing(c, s, s'); }
    assert Ownership(c, s') by { SameOwnership(c, s, s'); }
    assert RingCounters(c, s') by { BarrierCounters(c, s, s'); }
    assert MasksOwned(c, s');
  }

  lemma ExecuteWorker(c: Config, s: State, s': State, wk: Worker)
    requires ConfigOk(c) && WorkerOk(c, s, wk) && s.agg.phase.Execute? && |s'.outs| == |s.outs|
    requires s' == s.(outs := s'.outs, agg := s.agg.(phase := ClearReady))
    requires Fresh(s, wk) ==> OutputHeld(c, s'.outs[wk.slot], wk)
    ensures WorkerOk(c, s', wk)
  {
  }

  lemma BarrierCounters(c: Config, s: State, s': State)
    requires ConfigOk(c) && RingCounters(c, s)
    requires s'.head == s.head && s'.tail == s.tail && s'.reserved == s.reserved && s'.published == s.published
    requires s.agg.phase.Execute? || s.agg.phase.ClearReady?
    requires s'.agg == s.agg.(phase := s'.agg.phase) && (s'.agg.phase.ClearReady? || s'.agg.phase.Bump?)
    ensures RingCounters(c, s')
  {
  }

  lemma KeepClear(c: Config, s: State)
    requires ConfigOk(c) && Inv(c, s) && s.agg.phase.ClearReady?
    ensures Inv(c, DoClear(s))
  {
    var s' := DoClear(s);
    assert Workers(c, s') by {
      forall w | 0 <= w < c.numWorkers ensures WorkerOk(c, s', s.workers[w]) {
        assert WorkerOk(c, s, s.workers[w]);
        ClearWorker(c, s, s', s.workers[w]);
      }
    }
    assert RingLinks(c, s') by { SameRing(c, s, s'); }
    assert Ownership(c, s') by { SameOwnership(c, s, s'); }
    assert RingCounters(c, s') by { BarrierCounters(c, s, s'); }
    assert MasksOwned(c, s') by { ClearMasks(c, s, s'); }
    hide Workers, RingLinks, Ownership, RingCounters, MasksOwned;
  }

  lemma ClearWorker(c: Config, s: State, s': State, wk: Worker)
    requires ConfigOk(c) && WorkerOk(c, s, wk) && s.agg.phase.ClearReady? && s' == DoClear(s)
    ensures WorkerOk(c, s', wk)
  {
  }

  lemma ClearMasks(c: Config, s: State, s': State)
    requires ConfigOk(c) && Inv(c, s) && s.agg.phase.ClearReady? && s' == DoClear(s)
    ensures MasksOwned(c, s')
  {
    hide Workers, RingLinks, RingCounters, Ownership, ConfigOk;
    forall t | t in s'.agg.active + s'.active + s'.joins + s'.leaves + s'.ready
      ensures t < c.numSlots && t !in s'.free {
      assert t in s.agg.active + s.active + s.joins + s.leaves + s.ready;
    }
  }

  lemma KeepBump(c: Config, s: State)
    requires ConfigOk(c) && Inv(c, s) && s.agg.phase.Bump?
    ensures Inv(c, DoBump(c, s))
  {
    var s' := DoBump(c, s);
    forall w | 0 <= w < c.numWorkers
      ensures WorkerOk(c, s', s.workers[w]) && !InFlight(s', s.workers[w])
    {
      assert WorkerOk(c, s, s.workers[w]);
      BumpWorker(c, s, s', s.workers[w]);
    }
    assert Ownership(c, s') by { SameOwnership(c, s, s'); }
    assert RingLinks(c, s');
    assert MasksOwned(c, s');
  }

  lemma BumpWorker(c: Config, s: State, s': State, wk: Worker)
    requires ConfigOk(c) && WorkerOk(c, s, wk) && s.agg.phase.Bump? && s.agg.k < OpCount(c) && s' == DoBump(c, s)
    ensures WorkerOk(c, s', wk) && !InFlight(s', wk)
  {
  }

  // ----- Every step, every run -----

  predicate WorkerLabel(l: Label) {
    !(l.ATakeLeaves? || l.ATakeJoins? || l.APublish? || l.AWaitDone? || l.AMidLeave? || l.AMidPublish? || l.AFetch?
      || l.AFetchDone? || l.AStoreTail? || l.AExecute? || l.AClear? || l.ABump?)
  }

  lemma KeepAggregatorStep(c: Config, s: State, l: Label)
    requires ConfigOk(c) && Inv(c, s) && Enabled(c, s, l) && !WorkerLabel(l)
    ensures Inv(c, Apply(c, s, l))
  {
    hide Inv;
    match l
    case ATakeLeaves => KeepTakeLeaves(c, s);
    case ATakeJoins => KeepTakeJoins(c, s);
    case APublish => KeepPublish(c, s);
    case AWaitDone => KeepWaitDone(c, s);
    case AMidLeave => KeepMidLeave(c, s);
    case AMidPublish => KeepMidPublish(c, s);
    case AFetch => KeepFetch(c, s);
    case AFetchDone => KeepFetchDone(c, s);
    case AStoreTail => KeepStoreTail(c, s);
    case AExecute => KeepExecute(c, s);
    case AClear => KeepClear(c, s);
    case ABump => KeepBump(c, s);
    case _ =>
  }

  lemma KeepWorkerStep(c: Config, s: State, l: Label)
    requires ConfigOk(c) && Inv(c, s) && Enabled(c, s, l) && WorkerLabel(l)
    ensures Inv(c, Apply(c, s, l))
  {
    hide Inv;
    match l
    case WClaim(w, t) => KeepClaim(c, s, w, t);
    case WJoin(w) => KeepJoin(c, s, w);
    case WSeeActive(w) => KeepSeeActive(c, s, w);
    case WCapture(w) => KeepCapture(c, s, w);
    case WWrite(w, x, bx, tx) => KeepWrite(c, s, w, x, bx, tx);
    case WReserve(w) => KeepReserve(c, s, w);
    case WFill(w) => KeepFill(c, s, w);
    case WMark(w) => KeepMark(c, s, w);
    case WSignal(w) => KeepSignal(c, s, w);
    case WWake(w) => KeepWake(c, s, w);
    case WRead(w) => KeepRead(c, s, w);
    case WContinue(w) => KeepContinue(c, s, w);
    case WLeave(w) => KeepLeave(c, s, w);
    case WSeeInactive(w) => KeepSeeInactive(c, s, w);
    case WRelease(w) => KeepRelease(c, s, w);
    case _ =>
  }

  lemma KeepStep(c: Config, s: State, l: Label)
    requires ConfigOk(c) && Inv(c, s) && Enabled(c, s, l)
    ensures Inv(c, Apply(c, s, l))
  {
    hide Inv, Enabled, Apply;
    if WorkerLabel(l) {
      KeepWorkerStep(c, s, l);
    } else {
      KeepAggregatorStep(c, s, l);
    }
  }

  lemma InitHolds(c: Config)
    requires ConfigOk(c)
    ensures Inv(c, InitState(c))
  {
  }

  lemma NextKeeps(c: Config, s: State, s': State)
    requires ConfigOk(c) && Inv(c, s) && Next(c, s, s')
    ensures Inv(c, s')
  {
    hide Inv, Enabled, Apply;
    var l :| Enabled(c, s, l) && s' == Apply(c, s, l);
    KeepStep(c, s, l);
  }

  lemma {:induction false} RunKeeps(c: Config, run: seq<State>, i: nat)
    requires ConfigOk(c) && IsRun(c, run) && i < |run|
    ensures Inv(c, run[i])
  {
    hide Inv, Next;
    if i == 0 {
      InitHolds(c);
    } else {
      RunKeeps(c, run, i - 1);
      assert Next(c, run[i - 1], run[i - 1 + 1]);
      NextKeeps(c, run[i - 1], run[i]);
    }
  }

  lemma ReachableInv(c: Config, s: State)
    requires ConfigOk(c) && Reachable(c, s)
    ensures Inv(c, s)
  {
    hide Inv;
    var run :| IsRun(c, run) && run[|run| - 1] == s;
    RunKeeps(c, run, |run| - 1);
  }
}
