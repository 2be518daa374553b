/** The controller's worker pool: spawns that hold a reservation while the lock is released, removals, reaps,
    prewarms. */
module WorkerPool {
  import opened Wrappers

  datatype Config = Config(maxWorkers: nat, minWorkers: nat, devices: seq<string>, caps: Option<map<string, nat>>)

  datatype Worker = Worker(device: string, active: int, ready: bool)

  /** A spawn between its two lock sections: the id it saw free and the device it reserved. */
  datatype Token = Token(id: int, device: string)

  /** `count` is the controller's own counter per device.  `tokens` (spawns in flight) and `named` (devices that a
      prewarm has named) are history. */
  datatype Pool = Pool(workers: map<int, Worker>, count: map<string, int>, tokens: seq<Token>, named: set<string>)

  // ----- What the lock sections do -----

  /** The least id below the maximum that no tracked worker has, -1 if there is none. */
  function NextId(workers: map<int, Worker>, from: nat, max: nat): (id: int)
    requires from <= max
    ensures id == -1 || (from <= id < max && id !in workers)
    ensures forall i :: from <= i < (if id == -1 then max else id) ==> i in workers
    decreases max - from
  {
    if from == max then -1 else if from !in workers then from else NextId(workers, from + 1, max)
  }

  function CountOn(count: map<string, int>, d: string): int {
    if d in count then count[d] else 0
  }

  function CapOf(c: Config, d: string): nat
    requires c.caps.Some?
  {
    if d in c.caps.value then c.caps.value[d] else c.maxWorkers
  }

  predicate HasRoom(c: Config, count: map<string, int>, d: string) {
    c.caps.Some? ==> CountOn(count, d) < CapOf(c, d)
  }

  /** Without caps every device has room; with caps one that counts fewer than its own cap, or than the overall maximum
      if it has none. */
  lemma RoomExactly(c: Config, count: map<string, int>, d: string)
    ensures HasRoom(c, count, d) <==>
      || c.caps.None?
      || (if d in count then count[d] else 0) < (if d in c.caps.value then c.caps.value[d] else c.maxWorkers)
  {
  }

  /** The index of the first device with room, or the number of devices. */
  function FirstRoom(c: Config, count: map<string, int>, from: nat): (i: nat)
    requires from <= |c.devices|
    ensures from <= i <= |c.devices| && (i < |c.devices| ==> HasRoom(c, count, c.devices[i]))
    ensures forall k :: from <= k < i ==> !HasRoom(c, count, c.devices[k])
    decreases |c.devices| - from
  {
    if from == |c.devices| || HasRoom(c, count, c.devices[from]) then from else FirstRoom(c, count, from + 1)
  }

  /** The first device with room. */
  function PickDevice(c: Config, count: map<string, int>, from: nat): (d: Option<string>)
    requires from <= |c.devices|
    ensures d.Some? ==>
      exists i :: (from <= i < |c.devices| && c.devices[i] == d.value && HasRoom(c, count, d.value)
                   && forall k :: from <= k < i ==> !HasRoom(c, count, c.devices[k]))
    ensures d.None? ==> forall i :: from <= i < |c.devices| ==> !HasRoom(c, count, c.devices[i])
  {
    var i := FirstRoom(c, count, from);
    if i == |c.devices| then None else Some(c.devices[i])
  }

  function Bump(count: map<string, int>, d: string, step: int): map<string, int> {
    count[d := CountOn(count, d) + step]
  }

  /** First section of a spawn: see a free id, reserve a device. */
  function Reserve(c: Config, p: Pool): Pool {
    var id, d := NextId(p.workers, 0, c.maxWorkers), PickDevice(c, p.count, 0);
    if id < 0 || d.None? then p
    else p.(count := Bump(p.count, d.value, 1), tokens := p.tokens + [Token(id, d.value)])
  }

  function Without<T>(s: seq<T>, k: nat): seq<T>
    requires k < |s|
  {
    s[..k] + s[k + 1..]
  }

  /** The aggregator did not come up: the reservation is given back. */
  function Abort(p: Pool, k: nat): Pool
    requires k < |p.tokens|
  {
    p.(count := Bump(p.count, p.tokens[k].device, -1), tokens := Without(p.tokens, k))
  }

  /** Second section of a spawn: the id is looked up again if it was taken meanwhile. */
  function Commit(c: Config, p: Pool, k: nat): Pool
    requires k < |p.tokens|
  {
    var taken := p.tokens[k].id in p.workers;
    var id := if taken then NextId(p.workers, 0, c.maxWorkers) else p.tokens[k].id;
    if taken && id < 0 then Abort(p, k)
    else p.(workers := p.workers[id := Worker(p.tokens[k].device, 0, false)], tokens := Without(p.tokens, k))
  }

  /** `max(0, count.get(dev, 1) - 1)`. */
  function Drop(count: map<string, int>, d: string): map<string, int> {
    var n := (if d in count then count[d] else 1) - 1;
    count[d := if n < 0 then 0 else n]
  }

  function Remove(p: Pool, id: int): Pool {
    if id in p.workers then p.(workers := p.workers - {id}, count := Drop(p.count, p.workers[id].device)) else p
  }

  /** One launch of a prewarm, on the next named device, or on the first one with room when the names are used up. */
  function Prewarm(c: Config, p: Pool, dev: Option<string>): Pool {
    var id := NextId(p.workers, 0, c.maxWorkers);
    var d := if dev.Some? then dev else PickDevice(c, p.count, 0);
    if id < 0 || d.None? then p
    else p.(workers := p.workers[id := Worker(d.value, 0, false)], count := Bump(p.count, d.value, 1),
            named := if dev.Some? then p.named + {dev.value} else p.named)
  }

  predicate Reapable(p: Pool, id: int) {
    id in p.workers && p.workers[id].active <= 0 && p.workers[id].ready
  }

  /** The reap loop over the scheduler's candidates; it stops at the minimum. */
  function Reap(c: Config, p: Pool, ids: seq<int>): Pool
    decreases ids
  {
    if ids == [] || |p.workers| <= c.minWorkers then p
    else Reap(c, if Reapable(p, ids[0]) then Remove(p, ids[0]) else p, ids[1..])
  }

  /** Requests and health polls change a worker in place, never its device. */
  function Touch(p: Pool, id: int, active: int, ready: bool): Pool {
    if id in p.workers then p.(workers := p.workers[id := p.workers[id].(active := active, ready := ready)]) else p
  }

  datatype Op = ReserveOp | AbortOp(k: nat) | CommitOp(k: nat) | RemoveOp(id: int) | PrewarmOp(dev: Option<string>)
              | ReapOp(ids: seq<int>) | TouchOp(id: int, active: int, ready: bool)

  predicate Possible(p: Pool, op: Op) {
    match op
    case AbortOp(k) => k < |p.tokens|
    case CommitOp(k) => k < |p.tokens|
    case _ => true
  }

  /** Only giving back and committing ask for something: that the reservation is there. */
  lemma PossibleExactly(p: Pool, op: Op)
    ensures !Possible(p, op) <==> (op.AbortOp? || op.CommitOp?) && op.k >= |p.tokens|
  {
  }

  function Apply(c: Config, p: Pool, op: Op): Pool
    requires Possible(p, op)
  {
    match op
    case ReserveOp => Reserve(c, p)
    case AbortOp(k) => Abort(p, k)
    case CommitOp(k) => Commit(c, p, k)
    case RemoveOp(id) => Remove(p, id)
    case PrewarmOp(dev) => Prewarm(c, p, dev)
    case ReapOp(ids) => Reap(c, p, ids)
    case TouchOp(id, active, ready) => Touch(p, id, active, ready)
  }

  // ----- Conservation -----

  function Live(workers: map<int, Worker>, d: string): set<int> {
    set id | id in workers && workers[id].device == d
  }

  function ReservedOn(tokens: seq<Token>, d: string): nat {
    if tokens == [] then 0
    else ReservedOn(tokens[..|tokens| - 1], d) + if tokens[|tokens| - 1].device == d then 1 else 0
  }

  /** The counter of every device counts its tracked workers plus its spawns in flight. */
  predicate Conserved(p: Pool, d: string) {
    CountOn(p.count, d) == |Live(p.workers, d)| + ReservedOn(p.tokens, d)
  }

  predicate IdsOk(c: Config, p: Pool) {
    && (forall id :: id in p.workers ==> 0 <= id < c.maxWorkers)
    && (forall k :: 0 <= k < |p.tokens| ==> 0 <= p.tokens[k].id < c.maxWorkers)
  }

  predicate WithinCap(c: Config, p: Pool, d: string) {
    d !in p.named && c.caps.Some? ==> CountOn(p.count, d) <= CapOf(c, d)
  }

  ghost predicate Good(c: Config, p: Pool) {
    IdsOk(c, p) && forall d: string :: Conserved(p, d) && WithinCap(c, p, d)
  }

  lemma LiveAdd(workers: map<int, Worker>, id: int, w: Worker, d: string)
    requires id !in workers
    ensures |Live(workers[id := w], d)| == |Live(workers, d)| + if w.device == d then 1 else 0
  {
    if w.device == d {
      assert Live(workers[id := w], d) == Live(workers, d) + {id};
    } else {
      assert Live(workers[id := w], d) == Live(workers, d);
    }
  }

  lemma LiveRemove(workers: map<int, Worker>, id: int, d: string)
    requires id in workers
    ensures |Live(workers, d)| == |Live(workers - {id}, d)| + if workers[id].device == d then 1 else 0
  {
    LiveAdd(workers - {id}, id, workers[id], d);
    assert (workers - {id})[id := workers[id]] == workers;
  }

  lemma LiveSame(workers: map<int, Worker>, id: int, w: Worker, d: string)
    requires id in workers && w.device == workers[id].device
    ensures Live(workers[id := w], d) == Live(workers, d)
  {
  }

  lemma LastReserved(tokens: seq<Token>, t: Token, d: string)
    ensures ReservedOn(tokens + [t], d) == ReservedOn(tokens, d) + if t.device == d then 1 else 0
  {
    assert (tokens + [t])[..|tokens|] == tokens;
  }

  lemma {:induction false} ReservedWithout(tokens: seq<Token>, k: nat, d: string)
    requires k < |tokens|
    ensures ReservedOn(tokens, d) == ReservedOn(Without(tokens, k), d) + if tokens[k].device == d then 1 else 0
  {
    if k == |tokens| - 1 {
      assert Without(tokens, k) == tokens[..k];
    } else {
      var front, rest := tokens[..|tokens| - 1], Without(tokens, k);
      ReservedWithout(front, k, d);
      assert rest == Without(front, k) + [tokens[|tokens| - 1]];
      LastReserved(Without(front, k), tokens[|tokens| - 1], d);
    }
  }

  lemma ReserveGood(c: Config, p: Pool)
    requires Good(c, p)
    ensures Good(c, Reserve(c, p))
  {
    var p' := Reserve(c, p);
    forall d: string ensures Conserved(p', d) && WithinCap(c, p', d) {
      assert Conserved(p, d) && WithinCap(c, p, d);
      if p'.tokens != p.tokens { assert p'.tokens[..|p'.tokens| - 1] == p.tokens; }
    }
  }

  lemma AbortGood(c: Config, p: Pool, k: nat)
    requires Good(c, p) && k < |p.tokens|
    ensures Good(c, Abort(p, k))
  {
    var p' := Abort(p, k);
    forall d: string ensures Conserved(p', d) && WithinCap(c, p', d) {
      assert Conserved(p, d) && WithinCap(c, p, d);
      ReservedWithout(p.tokens, k, d);
    }
  }

  lemma CommitGood(c: Config, p: Pool, k: nat)
    requires Good(c, p) && k < |p.tokens|
    ensures Good(c, Commit(c, p, k))
  {
    var p' := Commit(c, p, k);
    var id := if p.tokens[k].id in p.workers then NextId(p.workers, 0, c.maxWorkers) else p.tokens[k].id;
    if id < 0 {
      AbortGood(c, p, k);
    } else {
      forall d: string ensures Conserved(p', d) && WithinCap(c, p', d) {
        assert Conserved(p, d) && WithinCap(c, p, d);
        ReservedWithout(p.tokens, k, d);
        LiveAdd(p.workers, id, Worker(p.tokens[k].device, 0, false), d);
      }
    }
  }

  /** The clamp at zero and the default of the removal never matter: a tracked worker's device counts at least one. */
  lemma DropIsExact(c: Config, p: Pool, id: int)
    requires Good(c, p) && id in p.workers
    ensures var d := p.workers[id].device; d in p.count && p.count[d] >= 1 && Drop(p.count, d) == Bump(p.count, d, -1)
  {
    var d := p.workers[id].device;
    assert Conserved(p, d);
    assert id in Live(p.workers, d);
    LiveRemove(p.workers, id, d);
  }

  lemma RemoveGood(c: Config, p: Pool, id: int)
    requires Good(c, p)
    ensures Good(c, Remove(p, id))
  {
    if id in p.workers {
      DropIsExact(c, p, id);
      var p' := Remove(p, id);
      forall d: string ensures Conserved(p', d) && WithinCap(c, p', d) {
        assert Conserved(p, d) && WithinCap(c, p, d);
        LiveRemove(p.workers, id, d);
      }
    }
  }

  lemma PrewarmGood(c: Config, p: Pool, dev: Option<string>)
    requires Good(c, p)
    ensures Good(c, Prewarm(c, p, dev))
  {
    var p' := Prewarm(c, p, dev);
    var id := NextId(p.workers, 0, c.maxWorkers);
    var at := if dev.Some? then dev else PickDevice(c, p.count, 0);
    forall d: string ensures Conserved(p', d) && WithinCap(c, p', d) {
      assert Conserved(p, d) && WithinCap(c, p, d);
      if id >= 0 && at.Some? { LiveAdd(p.workers, id, Worker(at.value, 0, false), d); }
    }
  }

  lemma {:induction false} ReapGood(c: Config, p: Pool, ids: seq<int>)
    requires Good(c, p)
    ensures Good(c, Reap(c, p, ids))
    decreases ids
  {
    if ids != [] && |p.workers| > c.minWorkers {
      RemoveGood(c, p, ids[0]);
      ReapGood(c, if Reapable(p, ids[0]) then Remove(p, ids[0]) else p, ids[1..]);
    }
  }

  /** A reap leaves at least the minimum, removes idle ready workers only, touches nothing else, and leaves a candidate
      that it could remove only when it is down to the minimum. */
  lemma {:induction false} ReapRespects(c: Config, p: Pool, ids: seq<int>)
    ensures var p' := Reap(c, p, ids);
      && (|p.workers| <= c.minWorkers ==> p' == p)
      && (|p'.workers| > c.minWorkers ==> forall id :: id in ids ==> !Reapable(p', id))
      && (|p.workers| >= c.minWorkers ==> |p'.workers| >= c.minWorkers)
      && p'.workers.Keys <= p.workers.Keys
      && (forall id :: id in p'.workers ==> p'.workers[id] == p.workers[id])
      && (forall id :: id in p.workers && id !in p'.workers ==> id in ids && Reapable(p, id))
    decreases ids
  {
    if ids != [] && |p.workers| > c.minWorkers {
      var next := if Reapable(p, ids[0]) then Remove(p, ids[0]) else p;
      ReapRespects(c, next, ids[1..]);
      if Reapable(p, ids[0]) {
        assert next.workers.Keys == p.workers.Keys - {ids[0]};
        assert |next.workers.Keys| == |p.workers.Keys| - 1;
      }
    }
  }

  /** Candidates go in their order: when one that could be removed stays, none that is listed only after it goes. */
  lemma {:induction false} ReapInOrder(c: Config, p: Pool, ids: seq<int>, i: nat, j: nat)
    requires i < j < |ids| && Reapable(p, ids[i]) && ids[i] in Reap(c, p, ids).workers
    requires ids[j] in p.workers && ids[j] !in ids[..i + 1]
    ensures ids[j] in Reap(c, p, ids).workers
    decreases ids
  {
    if |p.workers| > c.minWorkers {
      var next := if Reapable(p, ids[0]) then Remove(p, ids[0]) else p;
      ReapRespects(c, next, ids[1..]);
      if i > 0 {
        assert ids[0] in ids[..i + 1];
        assert forall k :: 0 <= k < i ==> ids[1..][..i][k] == ids[..i + 1][k + 1];
        ReapInOrder(c, next, ids[1..], i - 1, j - 1);
      }
    }
  }

  /** A request or a health poll sets what it reports of one tracked worker, and nothing else. */
  lemma TouchGood(c: Config, p: Pool, id: int, active: int, ready: bool)
    requires Good(c, p)
    ensures Good(c, Touch(p, id, active, ready))
    ensures var p' := Touch(p, id, active, ready);
      && p'.workers.Keys == p.workers.Keys && p' == p.(workers := p'.workers)
      && forall i :: i in p.workers ==>
           p'.workers[i] == if i == id then Worker(p.workers[i].device, active, ready) else p.workers[i]
  {
    var p' := Touch(p, id, active, ready);
    forall d: string ensures Conserved(p', d) && WithinCap(c, p', d) {
      assert Conserved(p, d) && WithinCap(c, p, d);
      if id in p.workers { LiveSame(p.workers, id, p.workers[id].(active := active, ready := ready), d); }
    }
  }

  lemma StepGood(c: Config, p: Pool, op: Op)
    requires Good(c, p) && Possible(p, op)
    ensures Good(c, Apply(c, p, op))
  {
    match op
    case ReserveOp => ReserveGood(c, p);
    case AbortOp(k) => AbortGood(c, p, k);
    case CommitOp(k) => CommitGood(c, p, k);
    case RemoveOp(id) => RemoveGood(c, p, id);
    case PrewarmOp(dev) => PrewarmGood(c, p, dev);
    case ReapOp(ids) => ReapGood(c, p, ids);
    case TouchOp(id, active, ready) => TouchGood(c, p, id, active, ready);
  }

  // ----- Runs -----

  function Start(c: Config): Pool {
    Pool(map[], map d | d in c.devices :: 0, [], {})
  }

  lemma StartGood(c: Config)
    ensures Good(c, Start(c))
  {
    forall d: string ensures Conserved(Start(c), d) && WithinCap(c, Start(c), d) {
      assert Live(Start(c).workers, d) == {};
    }
  }

  predicate AllPossible(c: Config, p: Pool, ops: seq<Op>)
    decreases ops
  {
    ops != [] ==> Possible(p, ops[0]) && AllPossible(c, Apply(c, p, ops[0]), ops[1..])
  }

  function After(c: Config, p: Pool, ops: seq<Op>): Pool
    requires AllPossible(c, p, ops)
    decreases ops
  {
    if ops == [] then p else After(c, Apply(c, p, ops[0]), ops[1..])
  }

  lemma {:induction false} RunGood(c: Config, p: Pool, ops: seq<Op>)
    requires Good(c, p) && AllPossible(c, p, ops)
    ensures Good(c, After(c, p, ops))
    decreases ops
  {
    if ops != [] {
      StepGood(c, p, ops[0]);
      RunGood(c, Apply(c, p, ops[0]), ops[1..]);
    }
  }

  /** Worker pool conservation: whatever lock sections ran, in whatever order, every counter equals tracked workers plus
      spawns in flight, ids lie below the maximum, and no GPU that prewarm never named is over its cap. */
  lemma PoolConserved(c: Config, ops: seq<Op>, d: string)
    requires AllPossible(c, Start(c), ops)
    ensures var p := After(c, Start(c), ops);
      && CountOn(p.count, d) == |Live(p.workers, d)| + ReservedOn(p.tokens, d)
      && (forall id :: id in p.workers ==> 0 <= id < c.maxWorkers)
      && |p.workers| <= c.maxWorkers
      && (d !in p.named && c.caps.Some? ==> |Live(p.workers, d)| <= CapOf(c, d))
  {
    StartGood(c);
    RunGood(c, Start(c), ops);
    var p := After(c, Start(c), ops);
    assert Conserved(p, d) && WithinCap(c, p, d);
    IdsBelow(p.workers.Keys, c.maxWorkers);
  }

  lemma {:induction false} IdsBelow(ids: set<int>, n: nat)
    requires forall id :: id in ids ==> 0 <= id < n
    ensures |ids| <= n
  {
    if n == 0 {
      assert forall id :: id !in ids;
      assert ids == {};
    } else {
      IdsBelow(ids - {n - 1}, n - 1);
    }
  }

  // ----- What each lock section does to the books -----

  /** The counter of `d`, and no other, moves by `step`. */
  ghost predicate Counts(before: map<string, int>, after: map<string, int>, d: string, step: int) {
    forall e: string :: CountOn(after, e) == CountOn(before, e) + if e == d then step else 0
  }

  /** `d` tracks `step` more workers, and no other device's tracked workers change in number. */
  ghost predicate Tracks(before: map<int, Worker>, after: map<int, Worker>, d: string, step: int) {
    forall e: string :: |Live(after, e)| == |Live(before, e)| + if e == d then step else 0
  }

  /** One reservation fewer on `d`, as many as before elsewhere. */
  ghost predicate Unreserves(before: seq<Token>, after: seq<Token>, d: string) {
    forall e: string :: ReservedOn(before, e) == ReservedOn(after, e) + if e == d then 1 else 0
  }

  lemma CountedOnce(count: map<string, int>, d: string, step: int)
    ensures Counts(count, Bump(count, d, step), d, step)
  {
  }

  predicate AllTaken(workers: map<int, Worker>, max: nat) {
    forall i :: 0 <= i < max ==> i in workers
  }

  lemma TokenCounted(c: Config, p: Pool, k: nat)
    requires Good(c, p) && k < |p.tokens|
    ensures p.tokens[k].device in p.count && p.count[p.tokens[k].device] >= 1
  {
    assert Conserved(p, p.tokens[k].device);
    ReservedWithout(p.tokens, k, p.tokens[k].device);
  }

  lemma TokenGone(tokens: seq<Token>, k: nat)
    requires k < |tokens|
    ensures Unreserves(tokens, Without(tokens, k), tokens[k].device)
  {
    forall e: string
      ensures ReservedOn(tokens, e) == ReservedOn(Without(tokens, k), e) + if e == tokens[k].device then 1 else 0
    {
      ReservedWithout(tokens, k, e);
    }
  }

  lemma WorkerAdded(workers: map<int, Worker>, id: int, w: Worker)
    requires id !in workers
    ensures Tracks(workers, workers[id := w], w.device, 1)
  {
    forall e: string ensures |Live(workers[id := w], e)| == |Live(workers, e)| + if e == w.device then 1 else 0 {
      LiveAdd(workers, id, w, e);
    }
  }

  lemma WorkerRemoved(workers: map<int, Worker>, id: int)
    requires id in workers
    ensures Tracks(workers, workers - {id}, workers[id].device, -1)
  {
    forall e: string
      ensures |Live(workers - {id}, e)| == |Live(workers, e)| + if e == workers[id].device then -1 else 0
    {
      LiveRemove(workers, id, e);
    }
  }

  // ----- The controller object -----

  class Controller {
    const config: Config
    var workers: map<int, Worker>
    var count: map<string, int>
    ghost var tokens: seq<Token>
    ghost var named: set<string>

    ghost function Tracked(): Pool
      reads this
    {
      Pool(workers, count, tokens, named)
    }

    ghost predicate Valid()
      reads this
    {
      Good(config, Tracked())
    }

    constructor (config: Config)
      ensures Valid() && this.config == config && Tracked() == Start(config)
    {
      this.config := config;
      workers, count := map[], map d | d in config.devices :: 0;
      tokens, named := [], {};
      new;
      StartGood(config);
    }

    /** _get_next_worker_id */
    method GetNextWorkerId() returns (id: int)
      ensures id == NextId(workers, 0, config.maxWorkers)
    {
      for i := 0 to config.maxWorkers
        invariant NextId(workers, 0, config.maxWorkers) == NextId(workers, i, config.maxWorkers)
      {
        if i !in workers { return i; }
      }
      return -1;
    }

    /** _pick_device */
    method Pick() returns (d: Option<string>)
      ensures d == PickDevice(config, count, 0)
    {
      for i := 0 to |config.devices|
        invariant PickDevice(config, count, 0) == PickDevice(config, count, i)
      {
        var dev := config.devices[i];
        if config.caps.None? { return Some(dev); }
        var cap := if dev in config.caps.value then config.caps.value[dev] else config.maxWorkers;
        if (if dev in count then count[dev] else 0) < cap { return Some(dev); }
      }
      return None;
    }

    /** spawn_worker, first lock section: refused exactly when the ids or the devices with room have run out; otherwise
        one more reservation and one more count on a device that had room. */
    method BeginSpawn() returns (token: Option<Token>)
      requires Valid()
      modifies this
      ensures Valid() && Tracked() == Reserve(config, old(Tracked()))
      ensures workers == old(workers) && named == old(named)
      ensures token.None? ==> count == old(count) && tokens == old(tokens)
      ensures token.None? <==>
        || AllTaken(workers, config.maxWorkers)
        || forall i :: 0 <= i < |config.devices| ==> !HasRoom(config, old(count), config.devices[i])
      ensures token.Some? ==>
        && 0 <= token.value.id < config.maxWorkers && token.value.id !in workers
        && token.value.device in config.devices && HasRoom(config, old(count), token.value.device)
        && tokens == old(tokens) + [token.value] && Counts(old(count), count, token.value.device, 1)
    {
      var id := GetNextWorkerId();
      if id < 0 { return None; }
      var d := Pick();
      if d.None? { return None; }
      ReserveGood(config, Tracked());
      count := count[d.value := (if d.value in count then count[d.value] else 0) + 1];
      tokens := tokens + [Token(id, d.value)];
      token := Some(Token(id, d.value));
    }

    /** spawn_worker, aggregator launch failed: the reservation and its count are given back. */
    method AbortSpawn(token: Token, ghost k: nat)
      requires Valid() && k < |tokens| && tokens[k] == token
      modifies this
      ensures Valid() && Tracked() == Abort(old(Tracked()), k)
      ensures workers == old(workers) && named == old(named)
      ensures Counts(old(count), count, token.device, -1) && Unreserves(old(tokens), tokens, token.device)
    {
      TokenCounted(config, Tracked(), k);
      AbortGood(config, Tracked(), k);
      TokenGone(tokens, k);
      count := count[token.device := count[token.device] - 1];
      tokens := Without(tokens, k);
    }

    /** spawn_worker, second lock section: the reservation becomes a tracked worker of the same device, under the id
        seen free if it still is, and the counters stay; false, with the reservation given back, exactly when that id
        is taken and so are all others. */
    method CommitSpawn(token: Token, ghost k: nat) returns (ok: bool)
      requires Valid() && k < |tokens| && tokens[k] == token
      modifies this
      ensures Valid() && Tracked() == Commit(config, old(Tracked()), k) && named == old(named)
      ensures ok <==> token.id !in old(workers) || !AllTaken(old(workers), config.maxWorkers)
      ensures Unreserves(old(tokens), tokens, token.device)
      ensures ok ==>
        && count == old(count) && Tracks(old(workers), workers, token.device, 1)
        && (token.id !in old(workers) ==> workers == old(workers)[token.id := Worker(token.device, 0, false)])
        && old(workers).Keys < workers.Keys && forall id :: id in old(workers) ==> workers[id] == old(workers)[id]
      ensures !ok ==> workers == old(workers) && Counts(old(count), count, token.device, -1)
    {
      var id := token.id;
      if id in workers {
        id := GetNextWorkerId();
        if id < 0 {
          AbortSpawn(token, k);
          return false;
        }
      }
      CommitGood(config, Tracked(), k);
      TokenGone(tokens, k);
      WorkerAdded(workers, id, Worker(token.device, 0, false));
      workers := workers[id := Worker(token.device, 0, false)];
      tokens := Without(tokens, k);
      ok := true;
    }

    /** _remove_worker: a tracked worker and exactly its own count go; nothing happens for an unknown id. */
    method RemoveWorker(id: int)
      requires Valid()
      modifies this
      ensures Valid() && Tracked() == Remove(old(Tracked()), id)
      ensures workers == old(workers) - {id} && tokens == old(tokens) && named == old(named)
      ensures id in old(workers) ==>
        && Counts(old(count), count, old(workers)[id].device, -1)
        && Tracks(old(workers), workers, old(workers)[id].device, -1)
      ensures id !in old(workers) ==> count == old(count)
    {
      RemoveGood(config, Tracked(), id);
      if id in workers {
        DropIsExact(config, Tracked(), id);
        WorkerRemoved(workers, id);
        var d := workers[id].device;
        workers := workers - {id};
        var n := (if d in count then count[d] else 1) - 1;
        count := count[d := if n < 0 then 0 else n];
      }
    }

    /** One turn of prewarm's launch loop: a fresh worker on the named device, whatever its cap, or else on one with
        room; false exactly when the ids, or without a name the devices with room, have run out. */
    method PrewarmOne(dev: Option<string>) returns (ok: bool)
      requires Valid()
      modifies this
      ensures Valid() && Tracked() == Prewarm(config, old(Tracked()), dev) && tokens == old(tokens)
      ensures !ok <==>
        || AllTaken(old(workers), config.maxWorkers)
        || (dev.None? && forall i :: 0 <= i < |config.devices| ==> !HasRoom(config, old(count), config.devices[i]))
      ensures !ok ==> Tracked() == old(Tracked())
      ensures ok ==> exists d: string ::
        && (if dev.Some? then d == dev.value else d in config.devices && HasRoom(config, old(count), d))
        && Counts(old(count), count, d, 1) && Tracks(old(workers), workers, d, 1)
      ensures ok ==> named == if dev.Some? then old(named) + {dev.value} else old(named)
    {
      var id := GetNextWorkerId();
      if id < 0 { return false; }
      var d := dev;
      if dev.None? {
        d := Pick();
        if d.None? { return false; }
      }
      hide Good, Tracks, Counts;
      PrewarmGood(config, Tracked(), dev);
      WorkerAdded(workers, id, Worker(d.value, 0, false));
      CountedOnce(count, d.value, 1);
      workers := workers[id := Worker(d.value, 0, false)];
      count := count[d.value := (if d.value in count then count[d.value] else 0) + 1];
      named := if dev.Some? then named + {dev.value} else named;
      assert Counts(old(count), count, d.value, 1) && Tracks(old(workers), workers, d.value, 1);
      ok := true;
    }

    /** The locked part of _reap_idle_workers: the minimum stays, only idle ready candidates go, in their order, and all
        of them unless only the minimum is left. */
    method ReapIdle(ids: seq<int>)
      requires Valid()
      modifies this
      ensures Valid() && Tracked() == Reap(config, old(Tracked()), ids)
      ensures |old(workers)| >= config.minWorkers ==> |workers| >= config.minWorkers
      ensures forall id :: id in workers ==> id in old(workers) && workers[id] == old(workers)[id]
      ensures forall id :: id in old(workers) && id !in workers ==>
        id in ids && old(workers)[id].active <= 0 && old(workers)[id].ready
      ensures |old(workers)| <= config.minWorkers ==> workers == old(workers)
      ensures |workers| > config.minWorkers ==>
        forall id :: id in ids && id in workers ==> workers[id].active > 0 || !workers[id].ready
      ensures forall i, j | 0 <= i < j < |ids| && ids[i] in old(workers) && ids[j] in old(workers) ::
        old(workers)[ids[i]].active <= 0 && old(workers)[ids[i]].ready && ids[i] in workers && ids[j] !in ids[..i + 1]
        ==> ids[j] in workers
    {
      ghost var before := Tracked();
      forall i, j | 0 <= i < j < |ids| && Reapable(before, ids[i]) && ids[i] in Reap(config, before, ids).workers
                    && ids[j] in before.workers && ids[j] !in ids[..i + 1]
        ensures ids[j] in Reap(config, before, ids).workers
      {
        ReapInOrder(config, before, ids, i, j);
      }
      ReapRespects(config, Tracked(), ids);
      ReapGood(config, Tracked(), ids);
      var current := |workers|;
      var i := 0;
      while i < |ids| && current > config.minWorkers
        invariant 0 <= i <= |ids| && current == |workers| && Valid()
        invariant Reap(config, old(Tracked()), ids) == Reap(config, Tracked(), ids[i..])
      {
        var id := ids[i];
        assert ids[i..][0] == id && ids[i..][1..] == ids[i + 1..];
        if id in workers && workers[id].active <= 0 && workers[id].ready {
          assert (workers - {id}).Keys == workers.Keys - {id};
          RemoveWorker(id);
          current := current - 1;
        }
        i := i + 1;
      }
    }
  }
}
