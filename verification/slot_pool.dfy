/** The aggregator's slot pool under interleaved claims and releases: every atomic access of every call is a step of
    its own and any number of workers may have a call in progress.  The requests of one worker are served by its own
    connection thread, one after another; when the connection is gone, the same thread releases the slots that the
    worker still owns, whether or not the worker still has them mapped.  Worker ids are never given out again. */
module SlotPool {
  import opened Arithmetic

  /** A call in progress, by the access it performs next. */
  datatype Call =
    | Loaded(w: int, snap: set<nat>)        // claim: free mask loaded, CAS next
    | Taken(w: int, t: nat)                 // claim: free bit cleared, owner store next
    | Owning(w: int, t: nat)                // claim: owner stored, ready bit to clear
    | ReadyCleared(w: int, t: nat)          // claim: evicted bit to clear, then reply
    | Releasing(w: int, t: nat, g: nat)     // release of tenancy g: owner CAS next
    | Zeroing(w: int, t: nat)               // release: owner reset, input buffer to zero
    | InputZeroed(w: int, t: nat)           // release: output buffer to zero
    | OutputZeroed(w: int, t: nat)          // release: free bit to set

  /** `handles` are the mappings of slot buffers in workers, open from the reply that hands out the IPC handles until
      the worker closes them or dies; `gone` are the workers whose connection has ended; `gen` counts the tenancies
      of each slot so far and is history: no step looks at it. */
  datatype State = State(free: set<nat>, owner: seq<int>, gen: seq<nat>, inZero: seq<bool>, outZero: seq<bool>,
                         ready: set<nat>, evicted: set<nat>, handles: set<(int, nat)>, gone: set<int>,
                         calls: map<nat, Call>)

  datatype Label =
    | Load(i: nat, w: int, snap: set<nat>) | Cas(i: nat) | Retry(i: nat, snap: set<nat>)
    | StoreOwner(i: nat) | ClearReady(i: nat) | ClearEvicted(i: nat)
    | Release(i: nat, w: int, t: nat) | Disconnect(w: int) | Cleanup(i: nat, w: int, t: nat)
    | CasOwner(i: nat) | ZeroInput(i: nat) | ZeroOutput(i: nat) | SetFree(i: nat)
    | Write(w: int, t: nat) | SignalReady(w: int, t: nat) | Evict(t: nat) | Close(w: int, t: nat)

  function Init(n: nat): State {
    State(AllBelow(n), seq(n, _ => -1), seq(n, _ => 0), seq(n, _ => true), seq(n, _ => true), {}, {}, {}, {}, map[])
  }

  /** The bits of one 64-bit word of a mask. */
  function Word(mask: set<nat>, k: nat): set<nat> {
    set t | t in mask && t / 64 == k
  }

  predicate IsFirst(t: nat, mask: set<nat>) {
    t in mask && forall u :: u in mask ==> t <= u
  }

  predicate ClaimsSlot(c: Call, t: nat) {
    (c.Taken? || c.Owning? || c.ReadyCleared?) && c.t == t
  }

  predicate ReleasesSlot(c: Call, t: nat) {
    (c.Zeroing? || c.InputZeroed? || c.OutputZeroed?) && c.t == t
  }

  /** No call of the worker is in progress. */
  predicate Idle(s: State, w: int) {
    forall i :: i in s.calls ==> s.calls[i].w != w
  }

  predicate CallIs(s: State, i: nat) {
    i in s.calls && (s.calls[i].Loaded? || s.calls[i].t < |s.owner| == |s.gen| == |s.inZero| == |s.outZero|)
  }

  /** The word that holds the first bit of the snapshot still has the value that was loaded. */
  predicate CasSucceeds(s: State, snap: set<nat>, t: nat) {
    IsFirst(t, snap) && Word(s.free, t / 64) == Word(snap, t / 64)
  }

  ghost predicate Enabled(s: State, l: Label) {
    match l
    // The connection thread handles one request at a time and none after the connection has ended.
    case Load(i, w, snap) => i !in s.calls && w >= 0 && Idle(s, w) && w !in s.gone && snap != {}
    case Cas(i) => CallIs(s, i) && s.calls[i].Loaded? && exists t: nat :: CasSucceeds(s, s.calls[i].snap, t)
    case Retry(i, snap) =>
      CallIs(s, i) && s.calls[i].Loaded? && snap != {} && !exists t: nat :: CasSucceeds(s, s.calls[i].snap, t)
    case StoreOwner(i) => CallIs(s, i) && s.calls[i].Taken?
    case ClearReady(i) => CallIs(s, i) && s.calls[i].Owning?
    case ClearEvicted(i) => CallIs(s, i) && s.calls[i].ReadyCleared?
    // A worker unmaps the buffers before it asks for the release.
    case Release(i, w, t) =>
      i !in s.calls && w >= 0 && Idle(s, w) && w !in s.gone && t < |s.gen| && (w, t) !in s.handles
    case Disconnect(w) => w >= 0 && Idle(s, w)
    // The cleanup after the connection has ended does not ask whether the worker is still alive.
    case Cleanup(i, w, t) => i !in s.calls && w >= 0 && Idle(s, w) && w in s.gone && t < |s.gen|
    case CasOwner(i) => CallIs(s, i) && s.calls[i].Releasing?
    case ZeroInput(i) => CallIs(s, i) && s.calls[i].Zeroing?
    case ZeroOutput(i) => CallIs(s, i) && s.calls[i].InputZeroed?
    case SetFree(i) => CallIs(s, i) && s.calls[i].OutputZeroed?
    case Write(w, t) => (w, t) in s.handles && t < |s.inZero| == |s.outZero|
    case SignalReady(w, t) => (w, t) in s.handles
    case Evict(t) => t < |s.owner| && s.owner[t] >= 0 && forall j :: j in s.calls ==> !ClaimsSlot(s.calls[j], t)
    case Close(w, t) => (w, t) in s.handles
  }

  /** The release hits a tenancy: the owner compare-and-swap succeeds. */
  predicate Hits(s: State, i: nat) {
    CallIs(s, i) && s.calls[i].Releasing? && s.owner[s.calls[i].t] == s.calls[i].w
  }

  ghost function Apply(s: State, l: Label): State
    requires Enabled(s, l)
  {
    match l
    case Load(i, w, snap) => s.(calls := s.calls[i := Loaded(w, snap)])
    case Cas(i) =>
      var t: nat :| CasSucceeds(s, s.calls[i].snap, t);
      s.(free := s.free - {t}, calls := s.calls[i := Taken(s.calls[i].w, t)])
    case Retry(i, snap) => s.(calls := s.calls[i := Loaded(s.calls[i].w, snap)])
    case StoreOwner(i) =>
      var c := s.calls[i];
      s.(owner := s.owner[c.t := c.w], gen := s.gen[c.t := s.gen[c.t] + 1], calls := s.calls[i := Owning(c.w, c.t)])
    case ClearReady(i) =>
      var c := s.calls[i];
      s.(ready := s.ready - {c.t}, calls := s.calls[i := ReadyCleared(c.w, c.t)])
    case ClearEvicted(i) =>
      var c := s.calls[i];
      s.(evicted := s.evicted - {c.t}, calls := s.calls - {i}, handles := s.handles + {(c.w, c.t)})
    case Release(i, w, t) => s.(calls := s.calls[i := Releasing(w, t, s.gen[t])])
    case Disconnect(w) => s.(gone := s.gone + {w})
    case Cleanup(i, w, t) => s.(calls := s.calls[i := Releasing(w, t, s.gen[t])])
    case CasOwner(i) =>
      var c := s.calls[i];
      if Hits(s, i) then s.(owner := s.owner[c.t := -1], calls := s.calls[i := Zeroing(c.w, c.t)])
      else s.(calls := s.calls - {i})
    case ZeroInput(i) =>
      var c := s.calls[i];
      s.(inZero := s.inZero[c.t := true], calls := s.calls[i := InputZeroed(c.w, c.t)])
    case ZeroOutput(i) =>
      var c := s.calls[i];
      s.(outZero := s.outZero[c.t := true], calls := s.calls[i := OutputZeroed(c.w, c.t)])
    case SetFree(i) => s.(free := s.free + {s.calls[i].t}, calls := s.calls - {i})
    case Write(w, t) => s.(inZero := s.inZero[t := false], outZero := s.outZero[t := false])
    case SignalReady(w, t) => s.(ready := s.ready + {t})
    case Evict(t) => s.(evicted := s.evicted + {t})
    case Close(w, t) => s.(handles := s.handles - {(w, t)})
  }

  /** Runs, as alternating states and labels. */
  ghost predicate IsRun(n: nat, run: seq<State>, labels: seq<Label>) {
    && |run| == |labels| + 1 && run[0] == Init(n)
    && forall k :: 0 <= k < |labels| ==> StepAt(run, labels, k)
  }

  ghost predicate StepAt(run: seq<State>, labels: seq<Label>, k: nat)
    requires |run| == |labels| + 1 && k < |labels|
  {
    Enabled(run[k], labels[k]) && run[k + 1] == Apply(run[k], labels[k])
  }

  // ----- Every run: each slot is free, being taken, owned or being released, and by one call only -----

  predicate Sized(n: nat, s: State) {
    && |s.owner| == |s.gen| == |s.inZero| == |s.outZero| == n
    && (forall t :: t in s.free ==> t < n)
    && (forall i :: i in s.calls ==> s.calls[i].w >= 0 && (s.calls[i].Loaded? || s.calls[i].t < n))
  }

  /** Call `i` is the one that moves slot `t` between the free mask and an owner. */
  predicate Moves(c: Call, t: nat) {
    (c.Taken? && c.t == t) || ReleasesSlot(c, t)
  }

  predicate FreeAlone(s: State) {
    && (forall t :: t in s.free && t < |s.owner| ==> s.owner[t] == -1)
    && (forall t, i :: t in s.free && i in s.calls ==> !Moves(s.calls[i], t))
  }

  predicate MovesAlone(s: State) {
    && (forall i | i in s.calls && !s.calls[i].Loaded? ::
          s.calls[i].t < |s.owner| && Moves(s.calls[i], s.calls[i].t) ==> s.owner[s.calls[i].t] == -1)
    && (forall i, j | i in s.calls && j in s.calls && i != j && !s.calls[i].Loaded? ::
          Moves(s.calls[i], s.calls[i].t) ==> !Moves(s.calls[j], s.calls[i].t))
  }

  predicate OwnersExist(s: State) {
    forall t :: 0 <= t < |s.owner| ==> s.owner[t] >= -1
  }

  predicate Exclusive(n: nat, s: State) {
    Sized(n, s) && FreeAlone(s) && MovesAlone(s) && OwnersExist(s)
  }

  lemma CasTakesFree(s: State, snap: set<nat>, t: nat)
    requires CasSucceeds(s, snap, t)
    ensures t in s.free
  {
    assert t in Word(snap, t / 64);
  }

  lemma ClaimExclusive(n: nat, s: State, l: Label)
    requires Exclusive(n, s) && Enabled(s, l) && (l.Load? || l.Retry?)
    ensures Exclusive(n, Apply(s, l))
  {
  }

  lemma ClearExclusive(n: nat, s: State, l: Label)
    requires Exclusive(n, s) && Enabled(s, l) && (l.ClearReady? || l.ClearEvicted?)
    ensures Exclusive(n, Apply(s, l))
  {
  }

  lemma StoreOwnerExclusive(n: nat, s: State, i: nat)
    requires Exclusive(n, s) && Enabled(s, StoreOwner(i))
    ensures Exclusive(n, Apply(s, StoreOwner(i)))
  {
  }

  lemma CasExclusive(n: nat, s: State, i: nat)
    requires Exclusive(n, s) && Enabled(s, Cas(i))
    ensures Exclusive(n, Apply(s, Cas(i)))
  {
    var s' := Apply(s, Cas(i));
    var t: nat :|
      CasSucceeds(s, s.calls[i].snap, t)
      && s' == s.(free := s.free - {t}, calls := s.calls[i := Taken(s.calls[i].w, t)]);
    CasTakesFree(s, s.calls[i].snap, t);
  }

  lemma AskExclusive(n: nat, s: State, l: Label)
    requires Exclusive(n, s) && Enabled(s, l) && (l.Release? || l.Cleanup?)
    ensures Exclusive(n, Apply(s, l))
  {
  }

  lemma ZeroExclusive(n: nat, s: State, l: Label)
    requires Exclusive(n, s) && Enabled(s, l) && (l.ZeroInput? || l.ZeroOutput?)
    ensures Exclusive(n, Apply(s, l))
  {
  }

  lemma CasOwnerExclusive(n: nat, s: State, i: nat)
    requires Exclusive(n, s) && Enabled(s, CasOwner(i))
    ensures Exclusive(n, Apply(s, CasOwner(i)))
  {
  }

  lemma SetFreeExclusive(n: nat, s: State, i: nat)
    requires Exclusive(n, s) && Enabled(s, SetFree(i))
    ensures Exclusive(n, Apply(s, SetFree(i)))
  {
  }

  lemma StepExclusive(n: nat, s: State, l: Label)
    requires Exclusive(n, s) && Enabled(s, l)
    ensures Exclusive(n, Apply(s, l))
  {
    hide Exclusive;
    match l
    case Cas(i) => CasExclusive(n, s, i);
    case Release(_, _, _) => AskExclusive(n, s, l);
    case Cleanup(_, _, _) => AskExclusive(n, s, l);
    case Disconnect(_) => TenantExclusive(n, s, l);
    case CasOwner(i) => CasOwnerExclusive(n, s, i);
    case StoreOwner(i) => StoreOwnerExclusive(n, s, i);
    case ZeroInput(_) => ZeroExclusive(n, s, l);
    case ZeroOutput(_) => ZeroExclusive(n, s, l);
    case SetFree(i) => SetFreeExclusive(n, s, i);
    case Write(_, _) => TenantExclusive(n, s, l);
    case SignalReady(_, _) => TenantExclusive(n, s, l);
    case Evict(_) => TenantExclusive(n, s, l);
    case Close(_, _) => TenantExclusive(n, s, l);
    case ClearReady(_) => ClearExclusive(n, s, l);
    case ClearEvicted(_) => ClearExclusive(n, s, l);
    case _ => ClaimExclusive(n, s, l);
  }

  lemma TenantExclusive(n: nat, s: State, l: Label)
    requires Exclusive(n, s) && Enabled(s, l) && (l.Write? || l.SignalReady? || l.Evict? || l.Close? || l.Disconnect?)
    ensures Exclusive(n, Apply(s, l))
  {
  }

  lemma {:induction false} RunExclusive(n: nat, run: seq<State>, labels: seq<Label>, k: nat)
    requires IsRun(n, run, labels) && k <= |labels|
    ensures Exclusive(n, run[k])
  {
    if k > 0 {
      RunExclusive(n, run, labels, k - 1);
      assert StepAt(run, labels, k - 1);
      StepExclusive(n, run[k - 1], labels[k - 1]);
    }
  }

  // ----- Every run: no slot is lost -----

  predicate IsClaimStep(l: Label) {
    l.Load? || l.Cas? || l.Retry? || l.StoreOwner? || l.ClearReady? || l.ClearEvicted?
  }

  predicate IsReleaseStep(l: Label) {
    l.Release? || l.Cleanup? || l.CasOwner? || l.ZeroInput? || l.ZeroOutput? || l.SetFree?
  }

  predicate Covered(s: State, t: nat)
    requires t < |s.owner|
  {
    t in s.free || s.owner[t] != -1 || exists i :: i in s.calls && Moves(s.calls[i], t)
  }

  /** A call that moves the slot and that the step leaves as it is still moves it. */
  lemma StillMoved(s: State, s': State, t: nat, i: nat)
    requires i in s.calls && Moves(s.calls[i], t) && i in s'.calls && s'.calls[i] == s.calls[i]
    ensures exists j :: j in s'.calls && Moves(s'.calls[j], t)
  {
  }

  lemma ClaimCovers(n: nat, s: State, l: Label, t: nat)
    requires Exclusive(n, s) && Enabled(s, l) && IsClaimStep(l) && t < n && Covered(s, t)
    ensures |Apply(s, l).owner| == n && Covered(Apply(s, l), t)
  {
    var s' := Apply(s, l);
    if l.Cas? && t in s.free && t !in s'.free {
      assert s'.calls[l.i].Taken? && s'.calls[l.i].t == t;
    } else if t !in s.free && s.owner[t] == -1 {
      var i :| i in s.calls && Moves(s.calls[i], t);
      if i != l.i { StillMoved(s, s', t, i); }
    }
  }

  lemma ReleaseCovers(n: nat, s: State, l: Label, t: nat)
    requires Exclusive(n, s) && Enabled(s, l) && IsReleaseStep(l) && t < n && Covered(s, t)
    ensures |Apply(s, l).owner| == n && Covered(Apply(s, l), t)
  {
    var s' := Apply(s, l);
    if l.CasOwner? && Hits(s, l.i) && s.calls[l.i].t == t {
      assert Moves(s'.calls[l.i], t);
    } else if t !in s.free && s.owner[t] == -1 {
      var i :| i in s.calls && Moves(s.calls[i], t);
      if i != l.i {
        StillMoved(s, s', t, i);
      } else if l.ZeroInput? || l.ZeroOutput? {
        assert Moves(s'.calls[i], t);
      }
    }
  }

  lemma StepCovers(n: nat, s: State, l: Label, t: nat)
    requires Exclusive(n, s) && Enabled(s, l) && t < n && Covered(s, t)
    ensures |Apply(s, l).owner| == n && Covered(Apply(s, l), t)
  {
    if IsClaimStep(l) {
      ClaimCovers(n, s, l, t);
    } else if IsReleaseStep(l) {
      ReleaseCovers(n, s, l, t);
    }
  }

  lemma {:induction false} RunCovers(n: nat, run: seq<State>, labels: seq<Label>, k: nat, t: nat)
    requires IsRun(n, run, labels) && k <= |labels| && t < n
    ensures |run[k].owner| == n && Covered(run[k], t)
  {
    if k > 0 {
      RunCovers(n, run, labels, k - 1, t);
      RunExclusive(n, run, labels, k - 1);
      assert StepAt(run, labels, k - 1);
      StepCovers(n, run[k - 1], labels[k - 1], t);
    }
  }

  // ----- Every run: a release ends the tenancy that it was asked to end -----

  predicate Serial(s: State) {
    forall i, j :: i in s.calls && j in s.calls && i != j ==> s.calls[i].w != s.calls[j].w
  }

  /** A release that would hit finds the tenancy it was started for, and one that a worker asked for finds no mapping;
      only a connected worker's claim is in progress. */
  predicate PromptCall(s: State, c: Call) {
    && (c.Loaded? || c.Taken? || c.Owning? || c.ReadyCleared? ==> c.w !in s.gone)
    && (c.Releasing? ==>
      && c.t < |s.owner| == |s.gen| && c.g <= s.gen[c.t]
      && (s.owner[c.t] == c.w ==> c.g == s.gen[c.t])
      && (c.w !in s.gone ==> (c.w, c.t) !in s.handles))
  }

  predicate Prompt(s: State) {
    forall i :: i in s.calls ==> PromptCall(s, s.calls[i])
  }

  predicate Ordered(n: nat, s: State) {
    Exclusive(n, s) && Serial(s) && Prompt(s)
  }

  lemma StepSerial(n: nat, s: State, l: Label)
    requires Exclusive(n, s) && Serial(s) && Enabled(s, l)
    ensures Serial(Apply(s, l))
  {
  }

  lemma ClaimPrompt(n: nat, s: State, l: Label)
    requires Ordered(n, s) && Enabled(s, l) && IsClaimStep(l)
    ensures Prompt(Apply(s, l))
  {
    var s' := Apply(s, l);
    forall i | i in s'.calls ensures PromptCall(s', s'.calls[i]) {
      if i in s.calls { assert PromptCall(s, s.calls[i]); }
    }
  }

  lemma ReleasePrompt(n: nat, s: State, l: Label)
    requires Ordered(n, s) && Enabled(s, l) && IsReleaseStep(l)
    ensures Prompt(Apply(s, l))
  {
    var s' := Apply(s, l);
    forall i | i in s'.calls ensures PromptCall(s', s'.calls[i]) {
      if i in s.calls { assert PromptCall(s, s.calls[i]); }
    }
  }

  lemma TenantPrompt(n: nat, s: State, l: Label)
    requires Ordered(n, s) && Enabled(s, l) && !IsClaimStep(l) && !IsReleaseStep(l)
    ensures Prompt(Apply(s, l))
  {
    var s' := Apply(s, l);
    forall i | i in s'.calls ensures PromptCall(s', s'.calls[i]) { assert PromptCall(s, s.calls[i]); }
  }

  lemma StepPrompt(n: nat, s: State, l: Label)
    requires Ordered(n, s) && Enabled(s, l)
    ensures Prompt(Apply(s, l))
  {
    hide Ordered, Prompt, Enabled, Apply;
    if IsClaimStep(l) {
      ClaimPrompt(n, s, l);
    } else if IsReleaseStep(l) {
      ReleasePrompt(n, s, l);
    } else {
      TenantPrompt(n, s, l);
    }
  }

  lemma StepOrdered(n: nat, s: State, l: Label)
    requires Ordered(n, s) && Enabled(s, l)
    ensures Ordered(n, Apply(s, l))
  {
    StepExclusive(n, s, l);
    StepSerial(n, s, l);
    StepPrompt(n, s, l);
  }

  lemma {:induction false} RunOrdered(n: nat, run: seq<State>, labels: seq<Label>, k: nat)
    requires IsRun(n, run, labels) && k <= |labels|
    ensures Ordered(n, run[k])
  {
    if k > 0 {
      RunOrdered(n, run, labels, k - 1);
      assert StepAt(run, labels, k - 1);
      StepOrdered(n, run[k - 1], labels[k - 1]);
    }
  }

  // ----- One slot that no cleanup has taken from a live mapping -----

  /** The step resets the owner of slot `t` although that owner still has the slot mapped. */
  predicate Severs(s: State, l: Label, t: nat) {
    l.CasOwner? && Hits(s, l.i) && s.calls[l.i].t == t && (s.calls[l.i].w, t) in s.handles
  }

  predicate Unclaimed(s: State, t: nat) {
    forall i :: i in s.calls ==> !ClaimsSlot(s.calls[i], t)
  }

  /** Whoever has the slot mapped owns it. */
  ghost predicate MappedByOwner(s: State, t: nat) {
    forall w :: (w, t) in s.handles ==> t < |s.owner| && s.owner[t] == w
  }

  ghost predicate HandlesOk(s: State, t: nat) {
    MappedByOwner(s, t) && forall w :: (w, t) in s.handles ==> w >= 0 && Unclaimed(s, t)
  }

  predicate ClaimOk(s: State, i: nat)
    requires i in s.calls
  {
    var c := s.calls[i];
    c.Owning? || c.ReadyCleared? ==>
      && c.t < |s.owner| && s.owner[c.t] == c.w
      && (forall j :: j in s.calls && j != i ==> !ClaimsSlot(s.calls[j], c.t))
      && (c.ReadyCleared? ==> c.t !in s.ready)
  }

  predicate Zeroed(s: State, t: nat) {
    t < |s.inZero| == |s.outZero| && s.inZero[t] && s.outZero[t]
  }

  predicate CleanCall(s: State, c: Call) {
    && (c.Taken? || c.Owning? || c.ReadyCleared? || c.OutputZeroed? ==> Zeroed(s, c.t))
    && (c.InputZeroed? ==> c.t < |s.inZero| && s.inZero[c.t])
  }

  predicate CallOk(s: State, i: nat, t: nat)
    requires i in s.calls
  {
    !s.calls[i].Loaded? && s.calls[i].t == t ==> ClaimOk(s, i) && CleanCall(s, s.calls[i])
  }

  predicate Calls(s: State, t: nat) {
    forall i :: i in s.calls ==> CallOk(s, i, t)
  }

  ghost predicate Tenancy(s: State, t: nat) {
    HandlesOk(s, t) && Calls(s, t) && (t in s.free ==> Zeroed(s, t))
  }

  ghost predicate TenancyStep(n: nat, s: State, l: Label, t: nat) {
    Ordered(n, s) && Enabled(s, l) && Tenancy(s, t) && !Severs(s, l, t)
  }

  lemma CasTenancy(n: nat, s: State, l: Label, t: nat)
    requires TenancyStep(n, s, l, t) && l.Cas?
    ensures Tenancy(Apply(s, l), t)
  {
    var s' := Apply(s, l);
    var u: nat :|
      CasSucceeds(s, s.calls[l.i].snap, u)
      && s' == s.(free := s.free - {u}, calls := s.calls[l.i := Taken(s.calls[l.i].w, u)]);
    CasTakesFree(s, s.calls[l.i].snap, u);
  }

  lemma LoadTenancy(n: nat, s: State, l: Label, t: nat)
    requires TenancyStep(n, s, l, t) && (l.Load? || l.Retry?)
    ensures Tenancy(Apply(s, l), t)
  {
    var s' := Apply(s, l);
    forall j | j in s'.calls ensures CallOk(s', j, t) {
      if j != l.i { assert CallOk(s, j, t); }
    }
  }

  lemma StoreOwnerTenancy(n: nat, s: State, l: Label, t: nat)
    requires TenancyStep(n, s, l, t) && l.StoreOwner?
    ensures Tenancy(Apply(s, l), t)
  {
  }

  lemma ClearTenancy(n: nat, s: State, l: Label, t: nat)
    requires TenancyStep(n, s, l, t) && (l.ClearReady? || l.ClearEvicted?)
    ensures Tenancy(Apply(s, l), t)
  {
  }

  lemma AskTenancy(n: nat, s: State, l: Label, t: nat)
    requires TenancyStep(n, s, l, t) && (l.Release? || l.Cleanup?)
    ensures Tenancy(Apply(s, l), t)
  {
  }

  lemma CasOwnerTenancy(n: nat, s: State, l: Label, t: nat)
    requires TenancyStep(n, s, l, t) && l.CasOwner?
    ensures Tenancy(Apply(s, l), t)
  {
  }

  lemma ZeroInputTenancy(n: nat, s: State, l: Label, t: nat)
    requires TenancyStep(n, s, l, t) && l.ZeroInput?
    ensures Tenancy(Apply(s, l), t)
  {
  }

  lemma ZeroOutputTenancy(n: nat, s: State, l: Label, t: nat)
    requires TenancyStep(n, s, l, t) && l.ZeroOutput?
    ensures Tenancy(Apply(s, l), t)
  {
  }

  lemma SetFreeTenancy(n: nat, s: State, l: Label, t: nat)
    requires TenancyStep(n, s, l, t) && l.SetFree?
    ensures Tenancy(Apply(s, l), t)
  {
  }

  lemma WriteTenancy(n: nat, s: State, l: Label, t: nat)
    requires TenancyStep(n, s, l, t) && l.Write?
    ensures Tenancy(Apply(s, l), t)
  {
  }

  lemma TenantTenancy(n: nat, s: State, l: Label, t: nat)
    requires TenancyStep(n, s, l, t) && (l.SignalReady? || l.Evict? || l.Close? || l.Disconnect?)
    ensures Tenancy(Apply(s, l), t)
  {
  }

  lemma StepTenancy(n: nat, s: State, l: Label, t: nat)
    requires Ordered(n, s) && Enabled(s, l) && Tenancy(s, t) && !Severs(s, l, t)
    ensures Tenancy(Apply(s, l), t)
  {
    assert TenancyStep(n, s, l, t);
    hide Tenancy, TenancyStep, Severs, Ordered;
    match l
    case Load(_, _, _) => LoadTenancy(n, s, l, t);
    case Retry(_, _) => LoadTenancy(n, s, l, t);
    case Cas(_) => CasTenancy(n, s, l, t);
    case StoreOwner(_) => StoreOwnerTenancy(n, s, l, t);
    case ClearReady(_) => ClearTenancy(n, s, l, t);
    case ClearEvicted(_) => ClearTenancy(n, s, l, t);
    case Release(_, _, _) => AskTenancy(n, s, l, t);
    case Cleanup(_, _, _) => AskTenancy(n, s, l, t);
    case CasOwner(_) => CasOwnerTenancy(n, s, l, t);
    case ZeroInput(_) => ZeroInputTenancy(n, s, l, t);
    case ZeroOutput(_) => ZeroOutputTenancy(n, s, l, t);
    case SetFree(_) => SetFreeTenancy(n, s, l, t);
    case Write(_, _) => WriteTenancy(n, s, l, t);
    case _ => TenantTenancy(n, s, l, t);
  }

  /** Up to step `k` no cleanup has taken slot `t` from a worker that still had it mapped. */
  predicate Unsevered(run: seq<State>, labels: seq<Label>, k: nat, t: nat)
    requires k <= |labels| < |run|
  {
    forall j :: 0 <= j < k ==> !Severs(run[j], labels[j], t)
  }

  lemma {:induction false} RunTenancy(n: nat, run: seq<State>, labels: seq<Label>, k: nat, t: nat)
    requires IsRun(n, run, labels) && k <= |labels| && Unsevered(run, labels, k, t)
    ensures Tenancy(run[k], t)
  {
    if k > 0 {
      RunTenancy(n, run, labels, k - 1, t);
      RunOrdered(n, run, labels, k - 1);
      assert StepAt(run, labels, k - 1);
      StepTenancy(n, run[k - 1], labels[k - 1], t);
    }
  }

  // ----- What holds in every run -----

  /** Every slot is in exactly one place: free, owned, or being moved by one call, which is between taking it and
      storing its owner or between resetting its owner and setting the free bit. */
  lemma SlotInOnePlace(n: nat, run: seq<State>, labels: seq<Label>, k: nat, t: nat)
    requires IsRun(n, run, labels) && k <= |labels| && t < n
    ensures t < |run[k].owner|
    ensures t in run[k].free || run[k].owner[t] != -1 || exists i :: i in run[k].calls && Moves(run[k].calls[i], t)
    ensures t in run[k].free ==> run[k].owner[t] == -1
    ensures forall i :: i in run[k].calls && Moves(run[k].calls[i], t) ==> t !in run[k].free && run[k].owner[t] == -1
    ensures forall i, j | i in run[k].calls && j in run[k].calls ::
      Moves(run[k].calls[i], t) && Moves(run[k].calls[j], t) ==> i == j
  {
    RunCovers(n, run, labels, k, t);
    RunExclusive(n, run, labels, k);
  }

  /** A claim takes the lowest slot that it saw free, and that slot only. */
  lemma ClaimTakesFirst(n: nat, run: seq<State>, labels: seq<Label>, k: nat) returns (t: nat)
    requires IsRun(n, run, labels) && k < |labels| && labels[k].Cas?
    ensures labels[k].i in run[k].calls && run[k].calls[labels[k].i].Loaded?
    ensures var c, s, s' := run[k].calls[labels[k].i], run[k], run[k + 1];
      && t in c.snap && (forall u :: u in c.snap ==> t <= u) && t in s.free && t < n
      && s' == s.(free := s.free - {t}, calls := s.calls[labels[k].i := Taken(c.w, t)])
  {
    var s, i := run[k], labels[k].i;
    RunExclusive(n, run, labels, k);
    assert StepAt(run, labels, k);
    t :| CasSucceeds(s, s.calls[i].snap, t)
         && run[k + 1] == s.(free := s.free - {t}, calls := s.calls[i := Taken(s.calls[i].w, t)]);
    CasTakesFree(s, s.calls[i].snap, t);
  }

  /** Once tenancy `g` of slot `t` is over, the slot has an owner again only in a later tenancy. */
  predicate Over(s: State, t: nat, g: nat) {
    t < |s.gen| == |s.owner| && g <= s.gen[t] && (s.owner[t] == -1 || s.gen[t] > g)
  }

  lemma StepOver(n: nat, s: State, l: Label, t: nat, g: nat)
    requires Exclusive(n, s) && Enabled(s, l) && Over(s, t, g)
    ensures Over(Apply(s, l), t, g)
  {
  }

  lemma {:induction false} StaysOver(n: nat, run: seq<State>, labels: seq<Label>, a: nat, b: nat, t: nat, g: nat)
    requires IsRun(n, run, labels) && a <= b <= |labels| && Over(run[a], t, g)
    ensures Over(run[b], t, g)
    decreases b
  {
    if a < b {
      StaysOver(n, run, labels, a, b - 1, t, g);
      RunExclusive(n, run, labels, b - 1);
      assert StepAt(run, labels, b - 1);
      StepOver(n, run[b - 1], labels[b - 1], t, g);
    }
  }

  /** A second release of one tenancy, be it the worker's or the cleanup's: once the first has hit, at step `a`, the
      owner compare-and-swap of the other fails whenever it runs. */
  lemma SecondRelease(n: nat, run: seq<State>, labels: seq<Label>, a: nat, b: nat)
    requires IsRun(n, run, labels) && a < b < |labels| && labels[a].CasOwner? && labels[b].CasOwner?
    requires Hits(run[a], labels[a].i) && CallIs(run[b], labels[b].i) && run[b].calls[labels[b].i].Releasing?
    requires var first, second := run[a].calls[labels[a].i], run[b].calls[labels[b].i];
      second.w == first.w && second.t == first.t && second.g == first.g
    ensures !Hits(run[b], labels[b].i)
  {
    var c := run[a].calls[labels[a].i];
    RunOrdered(n, run, labels, a);
    assert StepAt(run, labels, a);
    StaysOver(n, run, labels, a + 1, b, c.t, c.g);
    RunOrdered(n, run, labels, b);
    assert PromptCall(run[b], run[b].calls[labels[b].i]);
  }

  /** The step makes worker `w` the owner of slot `t`. */
  predicate Claims(s: State, l: Label, w: int, t: nat) {
    l.StoreOwner? && CallIs(s, l.i) && s.calls[l.i] == Taken(w, t)
  }

  lemma StepUnowned(n: nat, s: State, l: Label, w: int, t: nat)
    requires Exclusive(n, s) && Enabled(s, l) && t < n && w >= 0
    ensures |Apply(s, l).owner| == n
    ensures Apply(s, l).owner[t] == w && s.owner[t] != w ==> Claims(s, l, w, t)
  {
  }

  lemma {:induction false} ClaimBetween(n: nat, run: seq<State>, labels: seq<Label>, a: nat, b: nat, w: int, t: nat)
    returns (k: nat)
    requires IsRun(n, run, labels) && a <= b <= |labels| && t < n == |run[a].owner| == |run[b].owner| && w >= 0
    requires run[a].owner[t] != w && run[b].owner[t] == w
    ensures a <= k < b && Claims(run[k], labels[k], w, t)
    decreases b
  {
    RunExclusive(n, run, labels, b - 1);
    assert StepAt(run, labels, b - 1);
    StepUnowned(n, run[b - 1], labels[b - 1], w, t);
    if run[b - 1].owner[t] == w {
      k := ClaimBetween(n, run, labels, a, b - 1, w, t);
    } else {
      k := b - 1;
    }
  }

  /** Two releases of one slot by or for the same worker hit only with a claim of that worker in between: after the
      connection has ended, each slot is taken back from the worker at most once. */
  lemma HitsAlternate(n: nat, run: seq<State>, labels: seq<Label>, a: nat, b: nat) returns (k: nat)
    requires IsRun(n, run, labels) && a < b < |labels| && labels[a].CasOwner? && labels[b].CasOwner?
    requires Hits(run[a], labels[a].i) && Hits(run[b], labels[b].i)
    requires run[a].calls[labels[a].i].w == run[b].calls[labels[b].i].w
    requires run[a].calls[labels[a].i].t == run[b].calls[labels[b].i].t
    ensures a < k < b && Claims(run[k], labels[k], run[a].calls[labels[a].i].w, run[a].calls[labels[a].i].t)
    ensures run[a].calls[labels[a].i].w !in run[k].gone
  {
    var c := run[a].calls[labels[a].i];
    RunExclusive(n, run, labels, a);
    RunExclusive(n, run, labels, b);
    assert StepAt(run, labels, a);
    assert run[a + 1].owner[c.t] == -1;
    RunExclusive(n, run, labels, a + 1);
    k := ClaimBetween(n, run, labels, a + 1, b, c.w, c.t);
    RunOrdered(n, run, labels, k);
    assert PromptCall(run[k], run[k].calls[labels[k].i]);
  }

  /** Only the cleanup after a lost connection can take a slot from a worker that still has it mapped. */
  lemma OnlyCleanupSevers(n: nat, run: seq<State>, labels: seq<Label>, k: nat, t: nat)
    requires IsRun(n, run, labels) && k < |labels| && Severs(run[k], labels[k], t)
    ensures run[k].calls[labels[k].i].w in run[k].gone
  {
    RunOrdered(n, run, labels, k);
    assert PromptCall(run[k], run[k].calls[labels[k].i]);
  }

  /** Exactly when no cleanup takes slot `t` from a worker that still has it mapped, the slot is mapped by its owner
      only, throughout the run. */
  lemma MappedByOwnerExactly(n: nat, run: seq<State>, labels: seq<Label>, t: nat)
    requires IsRun(n, run, labels)
    ensures Unsevered(run, labels, |labels|, t) <==> forall k :: 0 <= k <= |labels| ==> MappedByOwner(run[k], t)
  {
    if Unsevered(run, labels, |labels|, t) {
      forall k | 0 <= k <= |labels| ensures MappedByOwner(run[k], t) { RunTenancy(n, run, labels, k, t); }
    } else {
      var j :| 0 <= j < |labels| && Severs(run[j], labels[j], t);
      RunExclusive(n, run, labels, j);
      assert StepAt(run, labels, j);
      assert !MappedByOwner(run[j + 1], t);
    }
  }

  // ----- What holds of a slot until a cleanup takes it from a worker that still has it mapped -----

  /** Two workers never have the slot mapped, and whoever has it mapped owns it. */
  lemma HandlesAreOwned(n: nat, run: seq<State>, labels: seq<Label>, k: nat, v: int, w: int, t: nat)
    requires IsRun(n, run, labels) && k <= |labels| && Unsevered(run, labels, k, t)
    requires (v, t) in run[k].handles && (w, t) in run[k].handles
    ensures v == w && t < |run[k].owner| && run[k].owner[t] == w && t !in run[k].free
  {
    RunTenancy(n, run, labels, k, t);
    RunExclusive(n, run, labels, k);
  }

  /** A slot on offer has no owner and no mapping, and both its buffers are zero. */
  lemma FreeIsClean(n: nat, run: seq<State>, labels: seq<Label>, k: nat, t: nat)
    requires IsRun(n, run, labels) && k <= |labels| && Unsevered(run, labels, k, t) && t in run[k].free
    ensures t < |run[k].owner| && run[k].owner[t] == -1 && Zeroed(run[k], t)
    ensures forall w: int :: (w, t) !in run[k].handles
  {
    RunTenancy(n, run, labels, k, t);
    RunExclusive(n, run, labels, k);
  }

  /** A claim that returns hands out a slot with clear ready and evicted bits and zeroed buffers, owned by the
      claimer. */
  lemma ClaimStartsClean(n: nat, run: seq<State>, labels: seq<Label>, k: nat, t: nat)
    requires IsRun(n, run, labels) && k < |labels| && labels[k].ClearEvicted? && Unsevered(run, labels, k, t)
    requires CallIs(run[k], labels[k].i) && run[k].calls[labels[k].i].ReadyCleared? && run[k].calls[labels[k].i].t == t
    ensures var w, s' := run[k].calls[labels[k].i].w, run[k + 1];
      && t !in s'.ready && t !in s'.evicted && Zeroed(s', t)
      && (w, t) in s'.handles && t < |s'.owner| && s'.owner[t] == w
  {
    RunTenancy(n, run, labels, k, t);
    assert StepAt(run, labels, k);
    assert CallOk(run[k], labels[k].i, t);
  }

  // ----- A lost connection: two workers, one slot -----

  /** One more step at the end of a run. */
  lemma Extend(n: nat, run: seq<State>, labels: seq<Label>, l: Label) returns (run': seq<State>, labels': seq<Label>)
    requires IsRun(n, run, labels) && Enabled(run[|labels|], l)
    ensures IsRun(n, run', labels') && labels' == labels + [l] && run'[|labels'|] == Apply(run[|labels|], l)
    ensures run'[|labels|] == run[|labels|]
  {
    run', labels' := run + [Apply(run[|labels|], l)], labels + [l];
    forall k | 0 <= k < |labels'| ensures StepAt(run', labels', k) {
      if k < |labels| { assert StepAt(run, labels, k); }
    }
  }

  predicate OneSlot(s: State) {
    |s.owner| == |s.gen| == |s.inZero| == |s.outZero| == 1
  }

  /** A claim that has loaded the mask as it is runs to its end. */
  lemma ClaimEnds(run: seq<State>, labels: seq<Label>, w: nat) returns (run': seq<State>, labels': seq<Label>)
    requires IsRun(1, run, labels) && OneSlot(run[|labels|])
    requires run[|labels|].free == {0} && run[|labels|].calls == map[0 := Loaded(w, {0})]
    ensures IsRun(1, run', labels') && labels <= labels'
    ensures var s, s' := run[|labels|], run'[|labels'|];
      s' == s.(free := {}, owner := [w], gen := [s.gen[0] + 1], ready := s.ready - {0}, evicted := s.evicted - {0},
               handles := s.handles + {(w as int, 0)}, calls := map[])
  {
    ghost var s := run[|labels|];
    assert CasSucceeds(s, {0}, 0);
    run', labels' := Extend(1, run, labels, Cas(0));
    assert run'[|labels'|] == s.(free := {}, calls := map[0 := Taken(w, 0)]);
    run', labels' := Extend(1, run', labels', StoreOwner(0));
    run', labels' := Extend(1, run', labels', ClearReady(0));
    run', labels' := Extend(1, run', labels', ClearEvicted(0));
    assert map[0 := ReadyCleared(w, 0)] - {0} == map[];
  }

  /** Worker `w` claims the only slot. */
  lemma ClaimOnly(run: seq<State>, labels: seq<Label>, w: nat) returns (run': seq<State>, labels': seq<Label>)
    requires IsRun(1, run, labels) && OneSlot(run[|labels|])
    requires run[|labels|].free == {0} && run[|labels|].calls == map[] && w !in run[|labels|].gone
    ensures IsRun(1, run', labels')
    ensures var s, s' := run[|labels|], run'[|labels'|];
      s' == s.(free := {}, owner := [w], gen := [s.gen[0] + 1], ready := s.ready - {0}, evicted := s.evicted - {0},
               handles := s.handles + {(w as int, 0)})
  {
    run', labels' := Extend(1, run, labels, Load(0, w, {0}));
    assert run'[|labels'|].calls == map[0 := Loaded(w, {0})];
    run', labels' := ClaimEnds(run', labels', w);
  }

  /** A claim whose snapshot of the mask is not what the mask holds loads it again and gets the slot. */
  lemma ClaimRetries() returns (run: seq<State>, labels: seq<Label>)
    ensures IsRun(1, run, labels) && |labels| > 1 && labels[1] == Retry(0, {0})
    ensures run[|labels|] == Init(1).(free := {}, owner := [0], gen := [1], handles := {(0, 0)})
  {
    run, labels := [Init(1)], [];
    assert AllBelow(1) == {0};
    run, labels := Extend(1, run, labels, Load(0, 0, {1}));
    assert !exists t: nat :: CasSucceeds(run[|labels|], {1}, t) by {
      assert 0 in Word(run[|labels|].free, 0) && 0 !in Word({1}, 0);
    }
    run, labels := Extend(1, run, labels, Retry(0, {0}));
    assert run[|labels|].calls == map[0 := Loaded(0, {0})];
    run, labels := ClaimEnds(run, labels, 0);
  }

  /** A pending release of the only slot runs to its end. */
  lemma ReleaseEnds(run: seq<State>, labels: seq<Label>, w: nat) returns (run': seq<State>, labels': seq<Label>)
    requires IsRun(1, run, labels) && OneSlot(run[|labels|]) && run[|labels|].owner == [w]
    requires exists g: nat :: run[|labels|].calls == map[0 := Releasing(w, 0, g)]
    ensures IsRun(1, run', labels')
    ensures var s, s' := run[|labels|], run'[|labels'|];
      s' == s.(free := s.free + {0}, owner := [-1], inZero := [true], outZero := [true], calls := map[])
  {
    ghost var s := run[|labels|];
    run', labels' := Extend(1, run, labels, CasOwner(0));
    run', labels' := Extend(1, run', labels', ZeroInput(0));
    run', labels' := Extend(1, run', labels', ZeroOutput(0));
    run', labels' := Extend(1, run', labels', SetFree(0));
    assert s.calls[0 := OutputZeroed(w, 0)] - {0} == map[];
  }

  /** A worker writes to the only slot, signals, is marked for eviction and unmaps it. */
  lemma UseOnly(run: seq<State>, labels: seq<Label>, w: nat) returns (run': seq<State>, labels': seq<Label>)
    requires IsRun(1, run, labels) && OneSlot(run[|labels|])
    requires run[|labels|].calls == map[] && run[|labels|].handles == {(w as int, 0)}
    requires run[|labels|].owner == [w]
    ensures IsRun(1, run', labels')
    ensures var s, s' := run[|labels|], run'[|labels'|];
      s' == s.(inZero := [false], outZero := [false], ready := s.ready + {0}, evicted := s.evicted + {0}, handles := {})
  {
    ghost var s := run[|labels|];
    run', labels' := Extend(1, run, labels, Write(w, 0));
    assert run'[|labels'|] == s.(inZero := [false], outZero := [false]);
    run', labels' := Extend(1, run', labels', SignalReady(w, 0));
    run', labels' := Extend(1, run', labels', Evict(0));
    run', labels' := Extend(1, run', labels', Close(w, 0));
    assert s.handles - {(w as int, 0)} == {};
  }

  /** The owner releases the only slot. */
  lemma ReleaseOnly(run: seq<State>, labels: seq<Label>, w: nat) returns (run': seq<State>, labels': seq<Label>)
    requires IsRun(1, run, labels) && OneSlot(run[|labels|])
    requires run[|labels|].calls == map[] && run[|labels|].handles == {} && run[|labels|].owner == [w]
    requires w !in run[|labels|].gone
    ensures IsRun(1, run', labels')
    ensures var s, s' := run[|labels|], run'[|labels'|];
      s' == s.(free := s.free + {0}, owner := [-1], inZero := [true], outZero := [true])
  {
    ghost var s := run[|labels|];
    run', labels' := Extend(1, run, labels, Release(0, w, 0));
    assert run'[|labels'|].calls == map[0 := Releasing(w, 0, s.gen[0])];
    run', labels' := ReleaseEnds(run', labels', w);
  }

  /** A connected worker claims, writes, signals, is marked for eviction, unmaps and releases: the slot is on offer
      again with zeroed buffers, and the two bits are left for the next claim to clear. */
  lemma ClaimAndRelease() returns (run: seq<State>, labels: seq<Label>)
    ensures IsRun(1, run, labels)
    ensures run[|labels|] == Init(1).(owner := [-1], gen := [1], inZero := [true], outZero := [true], ready := {0},
                                      evicted := {0})
  {
    run, labels := [Init(1)], [];
    assert AllBelow(1) == {0};
    run, labels := ClaimOnly(run, labels, 0);
    run, labels := UseOnly(run, labels, 0);
    run, labels := ReleaseOnly(run, labels, 0);
  }

  /** The cleanup releases the only slot on behalf of worker `w`. */
  lemma CleanupOnly(run: seq<State>, labels: seq<Label>, w: nat) returns (run': seq<State>, labels': seq<Label>)
    requires IsRun(1, run, labels) && OneSlot(run[|labels|])
    requires run[|labels|].calls == map[] && w in run[|labels|].gone && run[|labels|].owner == [w]
    ensures IsRun(1, run', labels')
    ensures var s, s' := run[|labels|], run'[|labels'|];
      s' == s.(free := s.free + {0}, owner := [-1], inZero := [true], outZero := [true])
  {
    ghost var s := run[|labels|];
    run', labels' := Extend(1, run, labels, Cleanup(0, w, 0));
    assert run'[|labels'|].calls == map[0 := Releasing(w, 0, s.gen[0])];
    run', labels' := ReleaseEnds(run', labels', w);
  }

  /** Worker 0 loses its connection and lives on with its slot mapped: the cleanup puts the slot on offer, and worker 0
      still writes to it. */
  lemma LostConnectionFreesMapped() returns (run: seq<State>, labels: seq<Label>)
    ensures IsRun(1, run, labels)
    ensures run[|labels|] == Init(1).(owner := [-1], gen := [1], inZero := [false], outZero := [false],
                                      handles := {(0, 0)}, gone := {0})
  {
    run, labels := [Init(1)], [];
    assert AllBelow(1) == {0};
    run, labels := ClaimOnly(run, labels, 0);
    run, labels := Extend(1, run, labels, Disconnect(0));
    run, labels := CleanupOnly(run, labels, 0);
    run, labels := Extend(1, run, labels, Write(0, 0));
  }

  /** The next claim of that slot hands worker 1 a slot with worker 0's data in it, and both have it mapped. */
  lemma LostConnectionSharesSlot() returns (run: seq<State>, labels: seq<Label>)
    ensures IsRun(1, run, labels)
    ensures var s := run[|labels|]; {(0, 0), (1, 0)} <= s.handles && s.owner == [1] && s.inZero == [false]
  {
    run, labels := LostConnectionFreesMapped();
    assert AllBelow(1) == {0};
    run, labels := ClaimOnly(run, labels, 1);
  }
}
