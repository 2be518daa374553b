/** Demand-driven rebalancing of one node's containers: who donates to whom. */
module Rebalance {
  const RATE_RATIO_THRESHOLD: real := 2.0
  const MIN_CONTAINERS_PER_FUNCTION: int := 1
  const COOLDOWN_S: real := 30.0
  const MAX_SWAPS_PER_NODE: int := 2
  const MIN_TOTAL_REQUESTS: real := 10.0
  const MIN_RATE_DIFF: real := 0.05

  datatype Container = Container(id: string, function_id: string, pending: int)

  datatype Adapter = Adapter(loadingDelayMs: real, sizeMb: real)

  /** A function that takes part, with its deficit or surplus. */
  datatype Share = Share(fid: string, amount: int)

  datatype Donation = Donation(receiver: string, donor: string, container: string, density: real)

  // ----- Shares -----

  function ContainersOf(cs: seq<Container>, fid: string): (r: seq<Container>)
    ensures forall c :: c in r <==> c in cs && c.function_id == fid
  {
    if cs == [] then []
    else ContainersOf(cs[..|cs| - 1], fid) + if cs[|cs| - 1].function_id == fid then [cs[|cs| - 1]] else []
  }

  /** Functions in the order in which their first container appears; containers without a function do not count. */
  function Functions(cs: seq<Container>): (fids: seq<string>)
    ensures Distinct(fids)
  {
    if cs == [] then []
    else
      var front, last := Functions(cs[..|cs| - 1]), cs[|cs| - 1];
      if last.function_id == "" || last.function_id in front then front else front + [last.function_id]
  }

  /** Exactly the functions that have a container on the node. */
  lemma {:induction false} FunctionsAre(cs: seq<Container>, f: string)
    ensures f in Functions(cs) <==> f != "" && exists i :: 0 <= i < |cs| && cs[i].function_id == f
  {
    if cs != [] {
      FunctionsAre(cs[..|cs| - 1], f);
      if cs[|cs| - 1].function_id != f && exists i :: 0 <= i < |cs| && cs[i].function_id == f {
        var i :| 0 <= i < |cs| && cs[i].function_id == f;
        assert cs[..|cs| - 1][i] == cs[i];
      }
    }
  }

  predicate Distinct(s: seq<string>) {
    forall i, j :: 0 <= i < j < |s| ==> s[i] != s[j]
  }

  predicate DistinctShares(s: seq<Share>) {
    forall i, j :: 0 <= i < j < |s| ==> s[i].fid != s[j].fid
  }

  /** Python's round: halves go to the even neighbour. */
  function Round(x: real): int {
    var f := x.Floor;
    if x - f as real < 0.5 then f
    else if x - f as real > 0.5 then f + 1
    else if f % 2 == 0 then f else f + 1
  }

  /** The nearest whole number, and the even one of two that are equally near. */
  lemma RoundIsNearest(x: real)
    ensures -0.5 <= x - Round(x) as real <= 0.5
    ensures x - Round(x) as real == 0.5 || x - Round(x) as real == -0.5 ==> Round(x) % 2 == 0
  {
  }

  function Max(a: int, b: int): int {
    if a >= b then a else b
  }

  function Rate(rates: map<string, real>, f: string): real {
    if f in rates then rates[f] else 0.0
  }

  function TotalRate(fids: seq<string>, rates: map<string, real>): real {
    if fids == [] then 0.0 else TotalRate(fids[..|fids| - 1], rates) + Rate(rates, fids[|fids| - 1])
  }

  function TotalContainers(fids: seq<string>, cs: seq<Container>): nat {
    if fids == [] then 0 else TotalContainers(fids[..|fids| - 1], cs) + |ContainersOf(cs, fids[|fids| - 1])|
  }

  /** Proportional fair share, at least the minimum. */
  function Desired(total: nat, rate: real, totalRate: real): (want: int)
    requires totalRate > 0.0
    ensures want >= MIN_CONTAINERS_PER_FUNCTION
  {
    Max(MIN_CONTAINERS_PER_FUNCTION, Round(total as real * rate / totalRate))
  }

  function Actual(cs: seq<Container>, f: string): nat {
    |ContainersOf(cs, f)|
  }

  /** The share of function `f` among all containers of the node. */
  function Want(cs: seq<Container>, rates: map<string, real>, f: string): (want: int)
    requires TotalRate(Functions(cs), rates) > 0.0
    ensures want >= MIN_CONTAINERS_PER_FUNCTION
  {
    Desired(TotalContainers(Functions(cs), cs), Rate(rates, f), TotalRate(Functions(cs), rates))
  }

  function Pending(cs: seq<Container>): int {
    if cs == [] then 0 else Pending(cs[..|cs| - 1]) + cs[|cs| - 1].pending
  }

  // ----- Counting donations -----

  function Given(plan: seq<Donation>, f: string): nat {
    if plan == [] then 0 else Given(plan[..|plan| - 1], f) + if plan[|plan| - 1].donor == f then 1 else 0
  }

  function Received(plan: seq<Donation>, f: string): nat {
    if plan == [] then 0 else Received(plan[..|plan| - 1], f) + if plan[|plan| - 1].receiver == f then 1 else 0
  }

  /** Given, received and held containers are counted one by one. */
  lemma {:induction false} GivenIs(plan: seq<Donation>, f: string)
    ensures Given(plan, f) == |set i | 0 <= i < |plan| && plan[i].donor == f|
  {
    if plan != [] {
      GivenIs(plan[..|plan| - 1], f);
      LastDonor(plan, f);
    }
  }

  lemma LastDonor(plan: seq<Donation>, f: string)
    requires plan != []
    ensures var front, last := plan[..|plan| - 1], plan[|plan| - 1];
      |set i | 0 <= i < |plan| && plan[i].donor == f|
      == |set i | 0 <= i < |front| && front[i].donor == f| + if last.donor == f then 1 else 0
  {
    var n, front := |plan| - 1, plan[..|plan| - 1];
    var s := set i | 0 <= i < |front| && front[i].donor == f;
    var t := set i | 0 <= i < |plan| && plan[i].donor == f;
    if plan[n].donor == f {
      assert t == s + {n};
    } else {
      assert t == s;
    }
  }

  lemma {:induction false} ReceivedIs(plan: seq<Donation>, f: string)
    ensures Received(plan, f) == |set i | 0 <= i < |plan| && plan[i].receiver == f|
  {
    if plan != [] {
      ReceivedIs(plan[..|plan| - 1], f);
      LastReceiver(plan, f);
    }
  }

  lemma LastReceiver(plan: seq<Donation>, f: string)
    requires plan != []
    ensures var front, last := plan[..|plan| - 1], plan[|plan| - 1];
      |set i | 0 <= i < |plan| && plan[i].receiver == f|
      == |set i | 0 <= i < |front| && front[i].receiver == f| + if last.receiver == f then 1 else 0
  {
    var n, front := |plan| - 1, plan[..|plan| - 1];
    var s := set i | 0 <= i < |front| && front[i].receiver == f;
    var t := set i | 0 <= i < |plan| && plan[i].receiver == f;
    if plan[n].receiver == f {
      assert t == s + {n};
    } else {
      assert t == s;
    }
  }

  lemma {:induction false} ActualIs(cs: seq<Container>, f: string)
    ensures Actual(cs, f) == |set i | 0 <= i < |cs| && cs[i].function_id == f|
  {
    if cs != [] {
      ActualIs(cs[..|cs| - 1], f);
      LastIndex(cs, f);
    }
  }

  lemma LastIndex(cs: seq<Container>, f: string)
    requires cs != []
    ensures var front, last := cs[..|cs| - 1], cs[|cs| - 1];
      |set i | 0 <= i < |cs| && cs[i].function_id == f|
      == |set i | 0 <= i < |front| && front[i].function_id == f| + if last.function_id == f then 1 else 0
  {
    var n, front := |cs| - 1, cs[..|cs| - 1];
    var s := set i | 0 <= i < |front| && front[i].function_id == f;
    var t := set i | 0 <= i < |cs| && cs[i].function_id == f;
    if cs[n].function_id == f {
      assert t == s + {n};
    } else {
      assert t == s;
    }
  }

  lemma {:induction false} TotalOf(fids: seq<string>, cs: seq<Container>)
    requires Distinct(fids)
    ensures TotalContainers(fids, cs) == |set i | 0 <= i < |cs| && cs[i].function_id in fids|
  {
    if fids != [] {
      TotalOf(fids[..|fids| - 1], cs);
      ActualIs(cs, fids[|fids| - 1]);
      OfLast(fids, cs);
    }
  }

  lemma OfLast(fids: seq<string>, cs: seq<Container>)
    requires Distinct(fids) && fids != []
    ensures var front, last := fids[..|fids| - 1], fids[|fids| - 1];
      |set i | 0 <= i < |cs| && cs[i].function_id in fids|
      == |set i | 0 <= i < |cs| && cs[i].function_id in front| + |set i | 0 <= i < |cs| && cs[i].function_id == last|
  {
    var front, last := fids[..|fids| - 1], fids[|fids| - 1];
    assert fids == front + [last] && last !in front;
    var s := set i | 0 <= i < |cs| && cs[i].function_id in front;
    var t := set i | 0 <= i < |cs| && cs[i].function_id == last;
    assert s !! t && (set i | 0 <= i < |cs| && cs[i].function_id in fids) == s + t;
  }

  function WithFunction(cs: seq<Container>): (indices: set<int>)
    ensures forall i :: i in indices <==> 0 <= i < |cs| && cs[i].function_id != ""
  {
    set i | 0 <= i < |cs| && cs[i].function_id != ""
  }

  lemma TotalIs(cs: seq<Container>)
    ensures TotalContainers(Functions(cs), cs) == |WithFunction(cs)|
  {
    var fids := Functions(cs);
    TotalOf(fids, cs);
    forall i | 0 <= i < |cs| ensures cs[i].function_id in fids <==> cs[i].function_id != "" {
      FunctionsAre(cs, cs[i].function_id);
    }
    hide *;
    assert (set i | 0 <= i < |cs| && cs[i].function_id in fids) == WithFunction(cs);
  }

  /** The nearest whole number, the even one of two that are equally near, but at least one. */
  predicate IsRounded(want: int, share: real) {
    && want >= 1 && share - want as real <= 0.5 && (want > 1 ==> want as real - share <= 0.5)
    && (share - want as real == 0.5 || (want > 1 && want as real - share == 0.5) ==> want % 2 == 0)
  }

  /** The share of a function: its part of all containers that have a function, in proportion to its rate. */
  lemma WantIs(cs: seq<Container>, rates: map<string, real>, f: string, total: nat, rate: real, sum: real)
    requires total == |WithFunction(cs)| && rate == (if f in rates then rates[f] else 0.0)
    requires sum == TotalRate(Functions(cs), rates) > 0.0
    ensures IsRounded(Want(cs, rates, f), total as real * rate / sum)
  {
    hide TotalRate, TotalContainers, Functions, WithFunction, Desired, IsRounded;
    TotalIs(cs);
    assert Want(cs, rates, f) == Desired(total, rate, sum);
    DesiredIs(total, rate, sum);
  }

  lemma DesiredIs(total: nat, rate: real, totalRate: real)
    requires totalRate > 0.0
    ensures IsRounded(Desired(total, rate, totalRate), total as real * rate / totalRate)
  {
    hide Round, Max, IsRounded;
    ShareIs(total as real * rate / totalRate);
  }

  lemma ShareIs(share: real)
    ensures IsRounded(Max(MIN_CONTAINERS_PER_FUNCTION, Round(share)), share)
  {
    RoundIsNearest(share);
    hide Round;
  }

  lemma OneMore(plan: seq<Donation>, d: Donation, f: string)
    ensures Given(plan + [d], f) == Given(plan, f) + if d.donor == f then 1 else 0
    ensures Received(plan + [d], f) == Received(plan, f) + if d.receiver == f then 1 else 0
  {
    assert (plan + [d])[..|plan|] == plan;
  }

  function LastSwap(swaps: map<string, real>, id: string): real {
    if id in swaps then swaps[id] else 0.0
  }

  /** Anti-thrashing: the receiver's rate must be well above the donor's. */
  predicate RatesAllow(rates: map<string, real>, receiver: string, donor: string) {
    && Rate(rates, receiver) >= Rate(rates, donor) * RATE_RATIO_THRESHOLD
    && Rate(rates, receiver) - Rate(rates, donor) >= MIN_RATE_DIFF
  }

  /** What one donation needs: the rate tests, and an idle, cooled-down container of the donor. */
  ghost predicate Allowed(cs: seq<Container>, rates: map<string, real>, swaps: map<string, real>, now: real,
                          d: Donation) {
    && RatesAllow(rates, d.receiver, d.donor)
    && (exists c :: c in cs && c.function_id == d.donor && c.id == d.container && c.pending <= 0)
    && now - LastSwap(swaps, d.container) >= COOLDOWN_S
  }

  /** No container is donated twice, and every donation is allowed. */
  ghost predicate Sound(cs: seq<Container>, rates: map<string, real>, swaps: map<string, real>, now: real,
                        plan: seq<Donation>) {
    && (forall i, j :: 0 <= i < j < |plan| ==> plan[i].container != plan[j].container)
    && (forall i :: 0 <= i < |plan| ==> Allowed(cs, rates, swaps, now, plan[i]))
  }

  function Chosen(plan: seq<Donation>): set<string> {
    set i | 0 <= i < |plan| :: plan[i].container
  }

  /** Cooldown times after a plan: `now` for the chosen containers, untouched for the rest. */
  ghost predicate Stamped(was: map<string, real>, swaps: map<string, real>, now: real, plan: seq<Donation>) {
    forall id: string :: LastSwap(swaps, id) == if id in Chosen(plan) then now else LastSwap(was, id)
  }

  predicate GivenOk(over: seq<Share>, plan: seq<Donation>) {
    forall k :: 0 <= k < |over| ==> Given(plan, over[k].fid) <= over[k].amount
  }

  predicate ReceivedOk(starving: seq<Share>, plan: seq<Donation>) {
    forall k :: 0 <= k < |starving| ==> Received(plan, starving[k].fid) <= starving[k].amount
  }

  predicate Listed(shares: seq<Share>, f: string) {
    exists k :: 0 <= k < |shares| && shares[k].fid == f
  }

  predicate Parties(over: seq<Share>, starving: seq<Share>, plan: seq<Donation>) {
    forall i :: 0 <= i < |plan| ==> Listed(over, plan[i].donor) && Listed(starving, plan[i].receiver)
  }

  /** Donors keep what they are entitled to, receivers do not get more than that. */
  ghost predicate Balanced(over: seq<Share>, starving: seq<Share>, plan: seq<Donation>) {
    GivenOk(over, plan) && ReceivedOk(starving, plan) && Parties(over, starving, plan)
  }

  // ----- Sorting by rate, stable as Python's sort is -----

  ghost predicate SortedBy(s: seq<Share>, rates: map<string, real>, sign: real) {
    forall i, j :: 0 <= i < j < |s| ==> sign * Rate(rates, s[i].fid) <= sign * Rate(rates, s[j].fid)
  }

  function Insert(s: seq<Share>, x: Share, rates: map<string, real>, sign: real): (r: seq<Share>)
    ensures multiset(r) == multiset(s) + multiset{x}
  {
    if s == [] || sign * Rate(rates, s[|s| - 1].fid) <= sign * Rate(rates, x.fid) then s + [x]
    else
      assert s == s[..|s| - 1] + [s[|s| - 1]];
      Insert(s[..|s| - 1], x, rates, sign) + [s[|s| - 1]]
  }

  function Sort(s: seq<Share>, rates: map<string, real>, sign: real): (r: seq<Share>)
    ensures multiset(r) == multiset(s)
  {
    if s == [] then []
    else
      assert s == s[..|s| - 1] + [s[|s| - 1]];
      Insert(Sort(s[..|s| - 1], rates, sign), s[|s| - 1], rates, sign)
  }

  lemma InsertedFrom(s: seq<Share>, x: Share, rates: map<string, real>, sign: real, y: Share)
    requires y in Insert(s, x, rates, sign)
    ensures y in s || y == x
  {
    assert y in multiset(s) + multiset{x};
  }

  lemma AppendSorted(s: seq<Share>, last: Share, rates: map<string, real>, sign: real)
    requires SortedBy(s, rates, sign)
    requires forall i :: 0 <= i < |s| ==> sign * Rate(rates, s[i].fid) <= sign * Rate(rates, last.fid)
    ensures SortedBy(s + [last], rates, sign)
  {
  }

  lemma {:induction false} InsertSorted(s: seq<Share>, x: Share, rates: map<string, real>, sign: real)
    requires SortedBy(s, rates, sign)
    ensures SortedBy(Insert(s, x, rates, sign), rates, sign)
  {
    if s != [] && sign * Rate(rates, s[|s| - 1].fid) > sign * Rate(rates, x.fid) {
      var front, last := s[..|s| - 1], s[|s| - 1];
      InsertSorted(front, x, rates, sign);
      var r := Insert(front, x, rates, sign);
      forall i | 0 <= i < |r| ensures sign * Rate(rates, r[i].fid) <= sign * Rate(rates, last.fid) {
        InsertedFrom(front, x, rates, sign, r[i]);
      }
      AppendSorted(r, last, rates, sign);
    }
  }

  lemma {:induction false} SortSorts(s: seq<Share>, rates: map<string, real>, sign: real)
    ensures SortedBy(Sort(s, rates, sign), rates, sign)
  {
    if s != [] {
      SortSorts(s[..|s| - 1], rates, sign);
      InsertSorted(Sort(s[..|s| - 1], rates, sign), s[|s| - 1], rates, sign);
    }
  }

  lemma SortKeeps(s: seq<Share>, rates: map<string, real>, sign: real)
    requires DistinctShares(s)
    ensures DistinctShares(Sort(s, rates, sign)) && forall x :: x in s <==> x in Sort(s, rates, sign)
  {
    var r := Sort(s, rates, sign);
    forall x ensures x in s <==> x in r { assert x in multiset(s) <==> x in multiset(r); }
    forall i, j | 0 <= i < j < |r| && r[i].fid == r[j].fid ensures false {
      assert r[i] in s && r[j] in s;
      if r[i] == r[j] {
        TwiceIn(r, i, j);
        OnceIn(s, r[i]);
      }
    }
  }

  lemma TwiceIn(r: seq<Share>, i: nat, j: nat)
    requires i < j < |r| && r[i] == r[j]
    ensures multiset(r)[r[i]] >= 2
  {
    assert r == r[..j] + [r[j]] + r[j + 1..];
    assert r[i] in r[..j];
  }

  lemma {:induction false} OnceIn(s: seq<Share>, x: Share)
    requires DistinctShares(s)
    ensures multiset(s)[x] <= 1
  {
    if s != [] {
      assert s == s[..|s| - 1] + [s[|s| - 1]];
      OnceIn(s[..|s| - 1], x);
      if x == s[|s| - 1] { assert x !in s[..|s| - 1]; }
    }
  }

  // ----- The planner -----

  /** The donations added by one receiver and donor. */
  ghost predicate Added(was: seq<Donation>, plan: seq<Donation>, receiver: string, donor: string, n: int) {
    && n >= 0 && |plan| == |was| + n && was <= plan
    && (forall i :: |was| <= i < |plan| ==> plan[i].receiver == receiver && plan[i].donor == donor)
    && (forall f: string :: Given(plan, f) == Given(was, f) + if f == donor then n else 0)
    && (forall f: string :: Received(plan, f) == Received(was, f) + if f == receiver then n else 0)
  }

  lemma AddedNone(plan: seq<Donation>, receiver: string, donor: string)
    ensures Added(plan, plan, receiver, donor, 0)
  {
  }

  predicate UniqueIds(cs: seq<Container>) {
    forall c, c' :: c in cs && c' in cs && c.id == c'.id ==> c == c'
  }

  function Ids(cs: seq<Container>): set<string> {
    set c | c in cs :: c.id
  }

  /** The container cannot be donated any more. */
  predicate Used(c: Container, plan: seq<Donation>, swaps: map<string, real>, now: real) {
    c.id in Chosen(plan) || c.pending > 0 || now - LastSwap(swaps, c.id) < COOLDOWN_S
  }

  /** None of the function's containers can be donated any more. */
  ghost predicate Spent(cs: seq<Container>, donor: string, plan: seq<Donation>, swaps: map<string, real>, now: real) {
    forall k :: 0 <= k < |ContainersOf(cs, donor)| ==> Used(ContainersOf(cs, donor)[k], plan, swaps, now)
  }

  lemma UsedStays(plan: seq<Donation>, d: Donation, swaps: map<string, real>, now: real)
    ensures forall c: Container :: Used(c, plan, swaps, now) || c.id == d.container ==>
      Used(c, plan + [d], swaps[d.container := now], now)
  {
    ChosenOneMore(plan, d);
  }

  lemma DonorOf(cs: seq<Container>, rates: map<string, real>, was: map<string, real>, now: real, d: Donation,
                donor: string)
    requires UniqueIds(cs) && Allowed(cs, rates, was, now, d) && d.container in Ids(ContainersOf(cs, donor))
    ensures d.donor == donor
  {
    var c :| c in ContainersOf(cs, donor) && c.id == d.container;
  }

  lemma OneMoreIn(chosen: set<string>, id: string, mine: set<string>)
    ensures |(chosen + {id}) * mine| <= |chosen * mine| + 1
    ensures id !in mine ==> (chosen + {id}) * mine == chosen * mine
  {
    assert (chosen + {id}) * mine == chosen * mine + {id} * mine;
    if id in mine { assert {id} * mine == {id}; } else { assert {id} * mine == {}; }
  }

  /** The chosen containers of one function are as many as it has given at most. */
  lemma {:induction false} ChosenOfDonor(cs: seq<Container>, rates: map<string, real>, was: map<string, real>,
                                         now: real, plan: seq<Donation>, donor: string)
    requires UniqueIds(cs) && forall i :: 0 <= i < |plan| ==> Allowed(cs, rates, was, now, plan[i])
    ensures |Chosen(plan) * Ids(ContainersOf(cs, donor))| <= Given(plan, donor)
  {
    if plan == [] {
      assert Chosen(plan) * Ids(ContainersOf(cs, donor)) == {};
    } else {
      var p, d := plan[..|plan| - 1], plan[|plan| - 1];
      assert plan == p + [d];
      hide Chosen, Ids, ContainersOf, UniqueIds, Allowed;
      ChosenOfDonor(cs, rates, was, now, p, donor);
      ChosenOneMore(p, d);
      OneMoreIn(Chosen(p), d.container, Ids(ContainersOf(cs, donor)));
      if d.container in Ids(ContainersOf(cs, donor)) { DonorOf(cs, rates, was, now, d, donor); }
    }
  }

  lemma AlwaysEnough(cs: seq<Container>, rates: map<string, real>, was: map<string, real>, now: real,
                     plan: seq<Donation>, donor: string)
    requires UniqueIds(cs) && Sound(cs, rates, was, now, plan)
    ensures |ContainersOf(cs, donor)| - |Chosen(plan) * Ids(ContainersOf(cs, donor))|
         >= Actual(cs, donor) - Given(plan, donor)
  {
    ChosenOfDonor(cs, rates, was, now, plan, donor);
  }

  lemma GivenSoFar(was: seq<Donation>, plan: seq<Donation>, receiver: string, donor: string, n: int)
    requires Added(was, plan, receiver, donor, n)
    ensures Given(plan, donor) == Given(was, donor) + n
  {
  }

  lemma ChosenGrows(plan: seq<Donation>, plan': seq<Donation>)
    requires plan <= plan'
    ensures Chosen(plan) <= Chosen(plan')
  {
    forall id | id in Chosen(plan) ensures id in Chosen(plan') {
      var i :| 0 <= i < |plan| && plan[i].container == id;
      assert plan'[i].container == id;
    }
  }

  lemma {:induction false} CountsGrow(plan: seq<Donation>, plan': seq<Donation>, f: string)
    requires plan <= plan'
    ensures Given(plan, f) <= Given(plan', f) && Received(plan, f) <= Received(plan', f)
    decreases |plan'|
  {
    if plan != plan' { CountsGrow(plan, plan'[..|plan'| - 1], f); }
  }

  /** No donation from `o` to `s` is possible any more. */
  ghost predicate Settled(cs: seq<Container>, rates: map<string, real>, swaps: map<string, real>, now: real,
                          plan: seq<Donation>, s: Share, o: Share)
  {
    || Received(plan, s.fid) >= s.amount || Given(plan, o.fid) >= o.amount || !RatesAllow(rates, s.fid, o.fid)
    || Spent(cs, o.fid, plan, swaps, now)
  }

  ghost predicate SettledUpTo(cs: seq<Container>, rates: map<string, real>, swaps: map<string, real>, now: real,
                              plan: seq<Donation>, s: Share, over: seq<Share>, k: nat)
    requires k <= |over|
  {
    |plan| >= MAX_SWAPS_PER_NODE || forall j :: 0 <= j < k ==> Settled(cs, rates, swaps, now, plan, s, over[j])
  }

  lemma SettledStays(cs: seq<Container>, rates: map<string, real>, was: map<string, real>, now: real,
                     swaps: map<string, real>, plan: seq<Donation>, swaps': map<string, real>, plan': seq<Donation>,
                     s: Share, o: Share)
    requires Stamped(was, swaps, now, plan) && Stamped(was, swaps', now, plan') && plan <= plan'
    requires Settled(cs, rates, swaps, now, plan, s, o)
    ensures Settled(cs, rates, swaps', now, plan', s, o)
  {
    CountsGrow(plan, plan', s.fid);
    CountsGrow(plan, plan', o.fid);
    ChosenGrows(plan, plan');
    if Spent(cs, o.fid, plan, swaps, now) {
      hide Chosen, ContainersOf;
      forall k | 0 <= k < |ContainersOf(cs, o.fid)| ensures Used(ContainersOf(cs, o.fid)[k], plan', swaps', now) {
        assert Used(ContainersOf(cs, o.fid)[k], plan, swaps, now);
      }
    }
  }

  lemma AllStaySettled(cs: seq<Container>, rates: map<string, real>, was: map<string, real>, now: real,
                       swaps: map<string, real>, plan: seq<Donation>, swaps': map<string, real>, plan': seq<Donation>,
                       s: Share, over: seq<Share>, k: nat)
    requires Stamped(was, swaps, now, plan) && Stamped(was, swaps', now, plan') && plan <= plan' && k <= |over|
    requires SettledUpTo(cs, rates, swaps, now, plan, s, over, k)
    ensures SettledUpTo(cs, rates, swaps', now, plan', s, over, k)
  {
    hide Settled, Stamped;
    if |plan'| < MAX_SWAPS_PER_NODE {
      forall j | 0 <= j < k ensures Settled(cs, rates, swaps', now, plan', s, over[j]) {
        SettledStays(cs, rates, was, now, swaps, plan, swaps', plan', s, over[j]);
      }
    }
  }

  // ----- The swap limit -----

  /** Donor `b` made the donation that reached the limit, for receiver `s`; the plan stops there exactly when none of
      the first `k` donors but `b` could still give to `s`. */
  ghost predicate Reaches(cs: seq<Container>, rates: map<string, real>, was: map<string, real>, now: real,
                          plan: seq<Donation>, s: Share, over: seq<Share>, k: nat, b: nat)
    requires |plan| >= MAX_SWAPS_PER_NODE && k <= |over|
  {
    var atLimit := plan[..MAX_SWAPS_PER_NODE];
    && b < k && atLimit[MAX_SWAPS_PER_NODE - 1].donor == over[b].fid
    && atLimit[MAX_SWAPS_PER_NODE - 1].receiver == s.fid
    && (|plan| == MAX_SWAPS_PER_NODE <==>
          forall j :: 0 <= j < k && j != b ==> Settled(cs, rates, was, now, atLimit, s, over[j]))
  }

  ghost predicate LimitKept(cs: seq<Container>, rates: map<string, real>, was: map<string, real>, now: real,
                            plan: seq<Donation>, s: Share, over: seq<Share>, k: nat)
    requires k <= |over|
  {
    |plan| >= MAX_SWAPS_PER_NODE ==> exists b :: Reaches(cs, rates, was, now, plan, s, over, k, b)
  }

  /** The cooldown times of the plan's own donations do not matter: their containers are chosen anyway. */
  lemma SettledByStart(cs: seq<Container>, rates: map<string, real>, was: map<string, real>, now: real,
                       swaps: map<string, real>, plan: seq<Donation>, s: Share, o: Share)
    requires Stamped(was, swaps, now, plan)
    ensures Settled(cs, rates, swaps, now, plan, s, o) <==> Settled(cs, rates, was, now, plan, s, o)
  {
    hide Chosen, ContainersOf, Given, Received;
    forall c: Container ensures Used(c, plan, swaps, now) <==> Used(c, plan, was, now) {
    }
  }

  lemma LimitReached(cs: seq<Container>, rates: map<string, real>, was: map<string, real>, now: real,
                     swaps: map<string, real>, plan: seq<Donation>, swaps': map<string, real>, more: seq<Donation>,
                     s: Share, over: seq<Share>, k: nat)
    requires Stamped(was, swaps, now, plan) && Stamped(was, swaps', now, more) && plan < more && k < |over|
    requires SettledUpTo(cs, rates, swaps, now, plan, s, over, k) && |plan| < MAX_SWAPS_PER_NODE == |more|
    requires more[|plan|..] != [] && more[|more| - 1].donor == over[k].fid && more[|more| - 1].receiver == s.fid
    ensures Reaches(cs, rates, was, now, more, s, over, k + 1, k)
  {
    assert more[..MAX_SWAPS_PER_NODE] == more;
    hide Settled, Stamped;
    forall j | 0 <= j < k ensures Settled(cs, rates, was, now, more, s, over[j]) {
      SettledStays(cs, rates, was, now, swaps, plan, swaps', more, s, over[j]);
      SettledByStart(cs, rates, was, now, swaps', more, s, over[j]);
    }
  }

  /** Donor `k` gave nothing, because it was settled. */
  lemma LimitIdle(cs: seq<Container>, rates: map<string, real>, was: map<string, real>, now: real,
                  swaps: map<string, real>, plan: seq<Donation>, s: Share, over: seq<Share>, k: nat)
    requires Stamped(was, swaps, now, plan) && k < |over| && LimitKept(cs, rates, was, now, plan, s, over, k)
    requires Settled(cs, rates, swaps, now, plan, s, over[k])
    ensures LimitKept(cs, rates, was, now, plan, s, over, k + 1)
  {
    SettledByStart(cs, rates, was, now, swaps, plan, s, over[k]);
    hide Settled, Stamped;
    if |plan| >= MAX_SWAPS_PER_NODE {
      var b :| Reaches(cs, rates, was, now, plan, s, over, k, b);
      if |plan| == MAX_SWAPS_PER_NODE { assert plan[..MAX_SWAPS_PER_NODE] == plan; }
      assert Reaches(cs, rates, was, now, plan, s, over, k + 1, b);
    }
  }

  /** Donor `k` gave beyond the limit, because it was not settled. */
  lemma LimitPassed(cs: seq<Container>, rates: map<string, real>, was: map<string, real>, now: real,
                    swaps: map<string, real>, plan: seq<Donation>, more: seq<Donation>, s: Share, over: seq<Share>,
                    k: nat)
    requires Stamped(was, swaps, now, plan) && k < |over| && LimitKept(cs, rates, was, now, plan, s, over, k)
    requires MAX_SWAPS_PER_NODE <= |plan| && plan < more && !Settled(cs, rates, swaps, now, plan, s, over[k])
    ensures LimitKept(cs, rates, was, now, more, s, over, k + 1)
  {
    SettledByStart(cs, rates, was, now, swaps, plan, s, over[k]);
    hide Settled, Stamped;
    var b :| Reaches(cs, rates, was, now, plan, s, over, k, b);
    assert more[..MAX_SWAPS_PER_NODE] == plan[..MAX_SWAPS_PER_NODE];
    if |plan| == MAX_SWAPS_PER_NODE { assert plan[..MAX_SWAPS_PER_NODE] == plan; }
    assert Reaches(cs, rates, was, now, more, s, over, k + 1, b);
  }

  /** Donor `k` was asked, and gave something unless all its containers were used. */
  lemma LimitAsked(cs: seq<Container>, rates: map<string, real>, was: map<string, real>, now: real,
                   swaps: map<string, real>, plan: seq<Donation>, swaps': map<string, real>, more: seq<Donation>,
                   s: Share, over: seq<Share>, k: nat, n: int)
    requires Stamped(was, swaps, now, plan) && Stamped(was, swaps', now, more) && k < |over|
    requires SettledUpTo(cs, rates, swaps, now, plan, s, over, k) && LimitKept(cs, rates, was, now, plan, s, over, k)
    requires Added(plan, more, s.fid, over[k].fid, n) && |more| <= Max(MAX_SWAPS_PER_NODE, |plan| + 1)
    requires Received(plan, s.fid) < s.amount && Given(plan, over[k].fid) < over[k].amount
    requires RatesAllow(rates, s.fid, over[k].fid)
    requires more == plan <==> Spent(cs, over[k].fid, plan, swaps, now)
    ensures LimitKept(cs, rates, was, now, more, s, over, k + 1)
  {
    hide Stamped, SettledUpTo, RatesAllow, Spent, Given, Received, Reaches;
    if more == plan {
      LimitIdle(cs, rates, was, now, swaps, plan, s, over, k);
    } else if |plan| >= MAX_SWAPS_PER_NODE {
      LimitPassed(cs, rates, was, now, swaps, plan, more, s, over, k);
    } else if |more| >= MAX_SWAPS_PER_NODE {
      LimitReached(cs, rates, was, now, swaps, plan, swaps', more, s, over, k);
    }
  }

  /** Once the receiver has all it lacked, the donors that were not asked are settled. */
  lemma LimitServed(cs: seq<Container>, rates: map<string, real>, was: map<string, real>, now: real,
                    plan: seq<Donation>, s: Share, over: seq<Share>, k: nat)
    requires k <= |over| && LimitKept(cs, rates, was, now, plan, s, over, k) && Received(plan, s.fid) >= s.amount
    ensures LimitKept(cs, rates, was, now, plan, s, over, |over|)
  {
    if |plan| >= MAX_SWAPS_PER_NODE {
      var b :| Reaches(cs, rates, was, now, plan, s, over, k, b);
      if |plan| == MAX_SWAPS_PER_NODE { assert plan[..MAX_SWAPS_PER_NODE] == plan; }
      hide Received, Given, Spent;
      assert Reaches(cs, rates, was, now, plan, s, over, |over|, b);
    }
  }

  /** A plan that reaches the limit stops there exactly when, but for the donor that reached it, no donor could still
      give to the same receiver. */
  ghost predicate StopsAtLimit(cs: seq<Container>, rates: map<string, real>, was: map<string, real>, now: real,
                               starving: seq<Share>, over: seq<Share>, plan: seq<Donation>)
  {
    |plan| >= MAX_SWAPS_PER_NODE ==>
      exists i, b ::
        0 <= i < |starving| && 0 <= b < |over| && Reaches(cs, rates, was, now, plan, starving[i], over, |over|, b)
  }

  lemma LimitIsKept(cs: seq<Container>, rates: map<string, real>, was: map<string, real>, now: real,
                    starving: seq<Share>, over: seq<Share>, plan: seq<Donation>, i: nat)
    requires i < |starving| && LimitKept(cs, rates, was, now, plan, starving[i], over, |over|)
    ensures StopsAtLimit(cs, rates, was, now, starving, over, plan)
  {
    if |plan| >= MAX_SWAPS_PER_NODE {
      var b :| Reaches(cs, rates, was, now, plan, starving[i], over, |over|, b);
    }
  }

  lemma BelowLimit(cs: seq<Container>, rates: map<string, real>, was: map<string, real>, now: real,
                   starving: seq<Share>, over: seq<Share>, plan: seq<Donation>)
    requires |plan| < MAX_SWAPS_PER_NODE
    ensures StopsAtLimit(cs, rates, was, now, starving, over, plan)
  {
  }

  /** Donors enter with at least the minimum beyond what they are to give. */
  predicate Roomy(cs: seq<Container>, over: seq<Share>) {
    forall k :: 0 <= k < |over| ==> Actual(cs, over[k].fid) - over[k].amount >= MIN_CONTAINERS_PER_FUNCTION
  }

  lemma AddedFacts(was: seq<Donation>, plan: seq<Donation>, receiver: string, donor: string, n: int)
    requires Added(was, plan, receiver, donor, n)
    ensures was <= plan && Given(plan, donor) == Given(was, donor) + n
    ensures Received(plan, receiver) == Received(was, receiver) + n
  {
  }

  lemma Eligible(cs: seq<Container>, rates: map<string, real>, swaps: map<string, real>, now: real, d: Donation,
                 c: Container)
    requires c in ContainersOf(cs, d.donor) && c.id == d.container && c.pending <= 0
    requires RatesAllow(rates, d.receiver, d.donor)
    requires now - LastSwap(swaps, d.container) >= COOLDOWN_S
    ensures Allowed(cs, rates, swaps, now, d)
  {
  }

  lemma AddOne(was: seq<Donation>, plan: seq<Donation>, d: Donation, n: int)
    requires Added(was, plan, d.receiver, d.donor, n)
    ensures Added(was, plan + [d], d.receiver, d.donor, n + 1)
  {
    forall f: string
      ensures Given(plan + [d], f) == Given(was, f) + if f == d.donor then n + 1 else 0
      ensures Received(plan + [d], f) == Received(was, f) + if f == d.receiver then n + 1 else 0
    {
      OneMore(plan, d, f);
    }
  }

  lemma ChosenOneMore(plan: seq<Donation>, d: Donation)
    ensures Chosen(plan + [d]) == Chosen(plan) + {d.container}
  {
    forall id ensures id in Chosen(plan + [d]) <==> id in Chosen(plan) + {d.container} {
      if id in Chosen(plan) {
        var i :| 0 <= i < |plan| && plan[i].container == id;
        assert (plan + [d])[i].container == id;
      }
      assert (plan + [d])[|plan|].container == d.container;
    }
  }

  lemma SoundOneMore(cs: seq<Container>, rates: map<string, real>, was: map<string, real>, swaps: map<string, real>,
                     now: real, plan: seq<Donation>, d: Donation)
    requires Sound(cs, rates, was, now, plan) && Stamped(was, swaps, now, plan)
    requires d.container !in Chosen(plan) && Allowed(cs, rates, swaps, now, d)
    ensures Sound(cs, rates, was, now, plan + [d]) && Stamped(was, swaps[d.container := now], now, plan + [d])
  {
    ChosenOneMore(plan, d);
    assert Allowed(cs, rates, was, now, d);
    forall i | 0 <= i < |plan| ensures plan[i].container != d.container { assert plan[i].container in Chosen(plan); }
  }

  /** Everything one donation keeps. */
  lemma Donate(cs: seq<Container>, rates: map<string, real>, was: map<string, real>, swaps: map<string, real>,
               now: real, plan0: seq<Donation>, plan: seq<Donation>, d: Donation, c: Container, n: int)
    requires Sound(cs, rates, was, now, plan) && Stamped(was, swaps, now, plan)
    requires Added(plan0, plan, d.receiver, d.donor, n)
    requires c in ContainersOf(cs, d.donor) && c.id == d.container && c.pending <= 0
    requires RatesAllow(rates, d.receiver, d.donor)
    requires d.container !in Chosen(plan) && now - LastSwap(swaps, d.container) >= COOLDOWN_S
    ensures Sound(cs, rates, was, now, plan + [d]) && Stamped(was, swaps[d.container := now], now, plan + [d])
    ensures Added(plan0, plan + [d], d.receiver, d.donor, n + 1)
    ensures forall c': Container :: Used(c', plan, swaps, now) || c'.id == d.container ==>
      Used(c', plan + [d], swaps[d.container := now], now)
  {
    hide Sound, Stamped, Added, Allowed, Chosen, ContainersOf;
    Eligible(cs, rates, swaps, now, d, c);
    SoundOneMore(cs, rates, was, swaps, now, plan, d);
    AddOne(plan0, plan, d, n);
    UsedStays(plan, d, swaps, now);
  }

  lemma StillEnough(cs: seq<Container>, rates: map<string, real>, was: map<string, real>, now: real,
                    plan0: seq<Donation>, plan: seq<Donation>, receiver: string, donor: string, n: int, surplus: int)
    requires UniqueIds(cs) && Sound(cs, rates, was, now, plan) && Added(plan0, plan, receiver, donor, n) && n < surplus
    requires Actual(cs, donor) - Given(plan0, donor) - surplus >= MIN_CONTAINERS_PER_FUNCTION
    ensures |ContainersOf(cs, donor)| - |Chosen(plan) * Ids(ContainersOf(cs, donor))| > 1
  {
    AlwaysEnough(cs, rates, was, now, plan, donor);
    GivenSoFar(plan0, plan, receiver, donor, n);
  }

  /** Every donation goes to a function with at least twice the donor's rate and 0.05 requests per second more, and
      takes an idle container of the donor that was not swapped for 30 seconds; none is taken twice. */
  lemma DonationsAre(cs: seq<Container>, rates: map<string, real>, swaps: map<string, real>, now: real,
                     plan: seq<Donation>, i: nat)
    requires Sound(cs, rates, swaps, now, plan) && i < |plan|
    ensures var d := plan[i];
      var r := if d.receiver in rates then rates[d.receiver] else 0.0;
      var s := if d.donor in rates then rates[d.donor] else 0.0;
      && r >= s * 2.0 && r - s >= 0.05
      && now - (if d.container in swaps then swaps[d.container] else 0.0) >= 30.0
      && (exists c :: c in cs && c.function_id == d.donor && c.id == d.container && c.pending <= 0)
      && forall j :: 0 <= j < |plan| && j != i ==> plan[j].container != d.container
  {
    assert Allowed(cs, rates, swaps, now, plan[i]);
  }

  /** Below the swap limit, for a function that still starves and one that could still give to it: all of the latter's
      containers are chosen, busy, or were swapped less than 30 seconds ago. */
  lemma NothingUsableLeft(cs: seq<Container>, rates: map<string, real>, adapters: map<string, Adapter>,
                          swaps: map<string, real>, now: real, plan: seq<Donation>, f: string, g: string, c: Container)
    requires TotalRate(Functions(cs), rates) > 0.0 && Complete(cs, rates, adapters, swaps, now, plan) && |plan| < 2
    requires f in Functions(cs) && g in Functions(cs) && f in adapters && c in cs && c.function_id == g
    requires Pending(ContainersOf(cs, f)) > |ContainersOf(cs, f)|
    requires |ContainersOf(cs, f)| + Received(plan, f) < Want(cs, rates, f)
    requires |ContainersOf(cs, g)| - Given(plan, g) > Want(cs, rates, g)
    requires Rate(rates, f) >= Rate(rates, g) * 2.0 && Rate(rates, f) - Rate(rates, g) >= 0.05
    ensures
      || (exists i :: 0 <= i < |plan| && plan[i].container == c.id) || c.pending > 0
      || now - (if c.id in swaps then swaps[c.id] else 0.0) < 30.0
  {
    hide Functions, ContainersOf, Pending, Want, Given, Received, TotalRate;
    assert NoneLeft(cs, rates, adapters, swaps, now, plan, f, g);
    assert c in ContainersOf(cs, g);
    var k :| 0 <= k < |ContainersOf(cs, g)| && ContainersOf(cs, g)[k] == c;
    assert Used(ContainersOf(cs, g)[k], plan, swaps, now);
  }

  // ----- Whose turn it is -----

  /** The receivers come by falling rate, and the donors of one receiver by rising rate. */
  predicate ByRate(rates: map<string, real>, plan: seq<Donation>) {
    forall i, j :: 0 <= i < j < |plan| ==>
      && Rate(rates, plan[i].receiver) >= Rate(rates, plan[j].receiver)
      && (plan[i].receiver == plan[j].receiver ==> Rate(rates, plan[i].donor) <= Rate(rates, plan[j].donor))
  }

  /** The donors of the donations from `from` on come by rising rate, and none has a higher rate than those that are
      still to be asked. */
  predicate DonorsByRate(rates: map<string, real>, plan: seq<Donation>, from: nat, over: seq<Share>, k: nat) {
    && (forall a, b :: from <= a < b < |plan| ==> Rate(rates, plan[a].donor) <= Rate(rates, plan[b].donor))
    && (forall a, q :: from <= a < |plan| && k <= q < |over| ==> Rate(rates, plan[a].donor) <= Rate(rates, over[q].fid))
  }

  lemma DonorsMore(rates: map<string, real>, plan: seq<Donation>, more: seq<Donation>, from: nat, over: seq<Share>,
                   k: nat, receiver: string, n: int)
    requires SortedBy(over, rates, 1.0) && k < |over| && from <= |plan| && DonorsByRate(rates, plan, from, over, k)
    requires Added(plan, more, receiver, over[k].fid, n)
    ensures DonorsByRate(rates, more, from, over, k + 1)
  {
    hide Rate, Given, Received;
    forall a | from <= a < |plan| ensures more[a] == plan[a] {
    }
  }

  lemma NoDonorYet(rates: map<string, real>, plan: seq<Donation>, over: seq<Share>)
    ensures DonorsByRate(rates, plan, |plan|, over, 0)
  {
  }

  lemma DonorsSkip(rates: map<string, real>, plan: seq<Donation>, from: nat, over: seq<Share>, k: nat)
    requires DonorsByRate(rates, plan, from, over, k)
    ensures DonorsByRate(rates, plan, from, over, k + 1)
  {
  }

  lemma DonorsDone(rates: map<string, real>, plan: seq<Donation>, from: nat, over: seq<Share>, k: nat)
    requires DonorsByRate(rates, plan, from, over, k) && k <= |over|
    ensures DonorsByRate(rates, plan, from, over, |over|)
  {
  }

  /** The plan so far is by rate, and no receiver has a lower rate than those that are still to be served. */
  predicate ServedByRate(rates: map<string, real>, plan: seq<Donation>, starving: seq<Share>, i: nat) {
    && ByRate(rates, plan)
    && forall a, q :: 0 <= a < |plan| && i <= q < |starving| ==>
         Rate(rates, plan[a].receiver) >= Rate(rates, starving[q].fid)
  }

  lemma {:induction false} NotYetServed(plan: seq<Donation>, f: string)
    requires Received(plan, f) == 0
    ensures forall a :: 0 <= a < |plan| ==> plan[a].receiver != f
  {
    if plan != [] { NotYetServed(plan[..|plan| - 1], f); }
  }

  lemma ServedMore(rates: map<string, real>, plan: seq<Donation>, more: seq<Donation>, starving: seq<Share>, i: nat,
                   over: seq<Share>, k: nat)
    requires SortedBy(starving, rates, -1.0) && i < |starving| && plan <= more
    requires ServedByRate(rates, plan, starving, i) && Received(plan, starving[i].fid) == 0
    requires DonorsByRate(rates, more, |plan|, over, k)
    requires forall a :: |plan| <= a < |more| ==> more[a].receiver == starving[i].fid
    ensures ServedByRate(rates, more, starving, i + 1)
  {
    NotYetServed(plan, starving[i].fid);
    forall a | 0 <= a < |plan| ensures more[a] == plan[a] {
    }
    hide Rate, Received;
    forall q | i <= q < |starving| ensures Rate(rates, starving[i].fid) >= Rate(rates, starving[q].fid) {
      if i < q { assert -1.0 * Rate(rates, starving[i].fid) <= -1.0 * Rate(rates, starving[q].fid); }
    }
  }

  lemma TurnByRate(rates: map<string, real>, adapter: Adapter, plan: seq<Donation>, more: seq<Donation>,
                   starving: seq<Share>, i: nat, over: seq<Share>)
    requires SortedBy(starving, rates, -1.0) && i < |starving| && plan <= more && Untried(starving, i, plan)
    requires ServedByRate(rates, plan, starving, i) && DonorsByRate(rates, more, |plan|, over, |over|)
    requires AllPricedAs(rates, adapter, starving[i].fid, more, |plan|)
    ensures ServedByRate(rates, more, starving, i + 1)
  {
    hide ServedByRate, DonorsByRate, SortedBy, PricedAs, Received;
    ServedMore(rates, plan, more, starving, i, over, |over|);
  }

  lemma ServedSkip(rates: map<string, real>, plan: seq<Donation>, starving: seq<Share>, i: nat)
    requires ServedByRate(rates, plan, starving, i)
    ensures ServedByRate(rates, plan, starving, i + 1)
  {
  }

  lemma ServedIsByRate(rates: map<string, real>, plan: seq<Donation>, starving: seq<Share>, i: nat)
    ensures ServedByRate(rates, plan, starving, i) ==> ByRate(rates, plan)
  {
  }

  lemma NobodyServed(rates: map<string, real>, starving: seq<Share>)
    ensures ServedByRate(rates, [], starving, 0)
  {
  }

  /** What a donation is worth: the rate it wins times the loading delay it saves, per megabyte. */
  predicate PricedAs(rates: map<string, real>, adapter: Adapter, d: Donation) {
    d.density == (Rate(rates, d.receiver) - Rate(rates, d.donor)) * adapter.loadingDelayMs
                 / if adapter.sizeMb > 1.0 then adapter.sizeMb else 1.0
  }

  predicate AllPricedAs(rates: map<string, real>, adapter: Adapter, receiver: string, plan: seq<Donation>, from: nat) {
    forall k :: from <= k < |plan| ==> plan[k].receiver == receiver && PricedAs(rates, adapter, plan[k])
  }

  lemma NoneAddedYet(rates: map<string, real>, adapter: Adapter, receiver: string, plan: seq<Donation>)
    ensures AllPricedAs(rates, adapter, receiver, plan, |plan|)
  {
  }

  lemma OneMorePriced(rates: map<string, real>, adapter: Adapter, plan: seq<Donation>, d: Donation, from: nat)
    requires AllPricedAs(rates, adapter, d.receiver, plan, from) && PricedAs(rates, adapter, d)
    ensures AllPricedAs(rates, adapter, d.receiver, plan + [d], from)
  {
    hide PricedAs;
  }

  /** Donations by several donors, one after the other. */
  lemma PricedOn(rates: map<string, real>, adapter: Adapter, receiver: string, plan: seq<Donation>, more: seq<Donation>,
                 from: nat)
    requires plan <= more && AllPricedAs(rates, adapter, receiver, plan, from)
    requires AllPricedAs(rates, adapter, receiver, more, |plan|)
    ensures AllPricedAs(rates, adapter, receiver, more, from)
  {
    forall k | from <= k < |more| ensures more[k].receiver == receiver && PricedAs(rates, adapter, more[k]) {
      if k < |plan| { assert more[k] == plan[k]; }
    }
  }

  predicate Priced(rates: map<string, real>, adapters: map<string, Adapter>, plan: seq<Donation>) {
    forall i :: 0 <= i < |plan| ==>
      plan[i].receiver in adapters && PricedAs(rates, adapters[plan[i].receiver], plan[i])
  }

  lemma PricedByDefinition(rates: map<string, real>, adapter: Adapter, d: Donation)
    requires d.density == (Rate(rates, d.receiver) - Rate(rates, d.donor)) * adapter.loadingDelayMs
                          / if adapter.sizeMb > 1.0 then adapter.sizeMb else 1.0
    ensures PricedAs(rates, adapter, d)
  {
  }

  lemma NothingPriced(rates: map<string, real>, adapters: map<string, Adapter>)
    ensures Priced(rates, adapters, [])
  {
  }

  lemma PricedMore(rates: map<string, real>, adapters: map<string, Adapter>, plan: seq<Donation>, more: seq<Donation>,
                   f: string)
    requires Priced(rates, adapters, plan) && plan <= more && f in adapters
    requires AllPricedAs(rates, adapters[f], f, more, |plan|)
    ensures Priced(rates, adapters, more)
  {
    forall i | 0 <= i < |more|
      ensures more[i].receiver in adapters && PricedAs(rates, adapters[more[i].receiver], more[i])
    {
      if i < |plan| { assert more[i] == plan[i]; }
    }
  }

  class Planner {
    var lastSwap: map<string, real>

    /** Donations of one donor to one receiver, over the donor's containers in order. */
    method DonateFrom(cs: seq<Container>, rates: map<string, real>, adapter: Adapter, now: real, receiver: string,
                      donor: string, deficit0: int, surplus0: int, plan0: seq<Donation>, ghost was: map<string, real>)
      returns (deficit: int, surplus: int, plan: seq<Donation>)
      requires UniqueIds(cs) && deficit0 > 0 && surplus0 > 0 && RatesAllow(rates, receiver, donor)
      requires Actual(cs, donor) - Given(plan0, donor) - surplus0 >= MIN_CONTAINERS_PER_FUNCTION
      requires Sound(cs, rates, was, now, plan0) && Stamped(was, lastSwap, now, plan0)
      modifies this
      ensures Sound(cs, rates, was, now, plan) && Stamped(was, lastSwap, now, plan)
      ensures Added(plan0, plan, receiver, donor, deficit0 - deficit)
      ensures 0 <= deficit && 0 <= surplus && deficit0 - deficit == surplus0 - surplus
      ensures |plan| <= Max(MAX_SWAPS_PER_NODE, |plan0| + 1)
      ensures |plan| >= MAX_SWAPS_PER_NODE || deficit == 0 || surplus == 0 || Spent(cs, donor, plan, lastSwap, now)
      ensures plan == plan0 <==> Spent(cs, donor, plan0, old(lastSwap), now)
      ensures plan0 <= plan && AllPricedAs(rates, adapter, receiver, plan, |plan0|)
    {
      hide Sound, Stamped, Added, Allowed, Chosen, ContainersOf, Given, UniqueIds, RatesAllow, Ids, Actual, LastSwap,
        PricedAs, AllPricedAs;
      NoneAddedYet(rates, adapter, receiver, plan0);
      AddedNone(plan0, receiver, donor);
      deficit, surplus, plan := deficit0, surplus0, plan0;
      var donors := ContainersOf(cs, donor);
      var i := 0;
      while i < |donors| && deficit > 0 && surplus > 0
        invariant 0 <= i <= |donors| && 0 <= deficit && 0 <= surplus && deficit0 - deficit == surplus0 - surplus
        invariant Sound(cs, rates, was, now, plan) && Stamped(was, lastSwap, now, plan)
        invariant Added(plan0, plan, receiver, donor, deficit0 - deficit)
        invariant plan == plan0 || |plan| < MAX_SWAPS_PER_NODE
        invariant deficit <= deficit0 && |plan| == |plan0| + (deficit0 - deficit)
        invariant deficit == deficit0 ==> plan == plan0 && lastSwap == old(lastSwap)
        invariant deficit < deficit0 ==> !Spent(cs, donor, plan0, old(lastSwap), now)
        invariant forall k :: 0 <= k < i ==> Used(donors[k], plan, lastSwap, now)
        invariant plan0 <= plan && AllPricedAs(rates, adapter, receiver, plan, |plan0|)
        decreases |donors| - i
      {
        var c := donors[i];
        i := i + 1;
        if c.id in Chosen(plan) { continue; }
        StillEnough(cs, rates, was, now, plan0, plan, receiver, donor, deficit0 - deficit, surplus0);
        if |donors| - |Chosen(plan) * Ids(donors)| <= MIN_CONTAINERS_PER_FUNCTION { break; }
        if c.pending > 0 { continue; }
        if now - LastSwap(lastSwap, c.id) < COOLDOWN_S { continue; }
        assert !Used(donors[i - 1], plan, lastSwap, now);
        var density := (Rate(rates, receiver) - Rate(rates, donor)) * adapter.loadingDelayMs
                       / if adapter.sizeMb > 1.0 then adapter.sizeMb else 1.0;
        var d := Donation(receiver, donor, c.id, density);
        assert PricedAs(rates, adapter, d) by { PricedByDefinition(rates, adapter, d); }
        OneMorePriced(rates, adapter, plan, d, |plan0|);
        Donate(cs, rates, was, lastSwap, now, plan0, plan, d, c, deficit0 - deficit);
        plan := plan + [d];
        lastSwap := lastSwap[c.id := now];
        surplus, deficit := surplus - 1, deficit - 1;
        if |plan| >= MAX_SWAPS_PER_NODE { break; }
      }
    }

    /** Pairs starving functions with donors.  `left` is the surplus that is written back after each pairing. */
    method Pair(cs: seq<Container>, rates: map<string, real>, adapters: map<string, Adapter>, now: real,
                starving: seq<Share>, over: seq<Share>) returns (plan: seq<Donation>)
      requires UniqueIds(cs) && DistinctShares(starving) && DistinctShares(over) && Roomy(cs, over)
      requires forall k :: 0 <= k < |starving| ==> starving[k].amount > 0
      requires forall k :: 0 <= k < |over| ==> over[k].amount > 0
      modifies this
      ensures Sound(cs, rates, old(lastSwap), now, plan) && Stamped(old(lastSwap), lastSwap, now, plan)
      ensures Balanced(over, starving, plan)
      ensures StopsAtLimit(cs, rates, old(lastSwap), now, starving, over, plan) && Priced(rates, adapters, plan)
      ensures SortedBy(starving, rates, -1.0) && SortedBy(over, rates, 1.0) ==> ByRate(rates, plan)
      ensures |plan| <= Max(MAX_SWAPS_PER_NODE, MAX_SWAPS_PER_NODE - 1 + |over|)
      ensures forall k :: 0 <= k < |starving| && starving[k].fid in adapters ==>
        SettledUpTo(cs, rates, lastSwap, now, plan, starving[k], over, |over|)
    {
      hide Sound, Stamped, Added, Settled, UniqueIds, Roomy, Balanced, DistinctShares, Untried, LeftOver, LimitKept,
        StopsAtLimit, Priced, PricedAs, AllPricedAs, DonorsByRate, ServedByRate, SortedBy;
      NobodyServed(rates, starving);
      ghost var was := lastSwap;
      plan := [];
      Untouched(cs, rates, was, now);
      var left := over;
      NothingYet(over, starving);
      BelowLimit(cs, rates, was, now, starving, over, plan);
      assert Priced(rates, adapters, []) by { NothingPriced(rates, adapters); }
      var i := 0;
      while i < |starving| && |plan| < MAX_SWAPS_PER_NODE
        invariant 0 <= i <= |starving|
        invariant forall k :: 0 <= k < i && starving[k].fid in adapters ==>
          SettledUpTo(cs, rates, lastSwap, now, plan, starving[k], over, |over|)
        invariant Sound(cs, rates, was, now, plan) && Stamped(was, lastSwap, now, plan)
        invariant LeftOver(over, left, plan) && Balanced(over, starving, plan) && Untried(starving, i, plan)
        invariant |plan| <= Max(MAX_SWAPS_PER_NODE, MAX_SWAPS_PER_NODE - 1 + |over|)
        invariant StopsAtLimit(cs, rates, was, now, starving, over, plan) && Priced(rates, adapters, plan)
        invariant SortedBy(starving, rates, -1.0) && SortedBy(over, rates, 1.0) ==>
                    ServedByRate(rates, plan, starving, i)
      {
        var f := starving[i].fid;
        ghost var swaps, before := lastSwap, plan;
        SkipOne(starving, i, plan);
        if f in adapters {
          plan, left := PairOne(cs, rates, adapters[f], now, starving, over, i, f, starving[i].amount, left, plan, was);
          LimitIsKept(cs, rates, was, now, starving, over, plan, i);
          PricedMore(rates, adapters, before, plan, f);
          if SortedBy(starving, rates, -1.0) && SortedBy(over, rates, 1.0) {
            TurnByRate(rates, adapters[f], before, plan, starving, i, over);
          }
          forall k | 0 <= k < i && starving[k].fid in adapters
            ensures SettledUpTo(cs, rates, lastSwap, now, plan, starving[k], over, |over|)
          {
            AllStaySettled(cs, rates, was, now, swaps, before, lastSwap, plan, starving[k], over, |over|);
          }
        } else if SortedBy(starving, rates, -1.0) && SortedBy(over, rates, 1.0) {
          ServedSkip(rates, plan, starving, i);
        }
        i := i + 1;
      }
      ServedIsByRate(rates, plan, starving, i);
    }

    /** All donors for one starving function. */
    method PairOne(cs: seq<Container>, rates: map<string, real>, adapter: Adapter, now: real,
                   ghost starving: seq<Share>, ghost over: seq<Share>, ghost i: nat, f0: string, deficit0: int,
                   left0: seq<Share>, plan0: seq<Donation>, ghost was: map<string, real>)
      returns (plan: seq<Donation>, left: seq<Share>)
      requires DistinctShares(starving) && DistinctShares(over) && i < |starving| && starving[i] == Share(f0, deficit0)
      requires deficit0 > 0
      requires Sound(cs, rates, was, now, plan0) && Stamped(was, lastSwap, now, plan0)
      requires LeftOver(over, left0, plan0) && Balanced(over, starving, plan0) && Untried(starving, i, plan0)
      requires |plan0| < MAX_SWAPS_PER_NODE && UniqueIds(cs) && Roomy(cs, over)
      modifies this
      ensures Sound(cs, rates, was, now, plan) && Stamped(was, lastSwap, now, plan) && plan0 <= plan
      ensures SettledUpTo(cs, rates, lastSwap, now, plan, starving[i], over, |over|)
      ensures LeftOver(over, left, plan) && Balanced(over, starving, plan) && Untried(starving, i + 1, plan)
      ensures LimitKept(cs, rates, was, now, plan, starving[i], over, |over|)
      ensures AllPricedAs(rates, adapter, f0, plan, |plan0|)
      ensures SortedBy(over, rates, 1.0) ==> DonorsByRate(rates, plan, |plan0|, over, |over|)
      ensures |plan| <= Max(MAX_SWAPS_PER_NODE, MAX_SWAPS_PER_NODE - 1 + |over|)
    {
      hide Sound, Stamped, Added, Balanced, Given, Received, Settled, Spent, Actual, LimitKept, SettledUpTo, RatesAllow,
        PricedAs, AllPricedAs, DonorsByRate, SortedBy;
      NoneAddedYet(rates, adapter, f0, plan0);
      NoDonorYet(rates, plan0, over);
      plan, left := plan0, left0;
      var receiver := f0;
      var deficit := deficit0;
      var k := 0;
      NobodyAsked(cs, rates, was, lastSwap, now, plan, starving[i], over);
      while k < |left| && deficit > 0
        invariant 0 <= k <= |left| == |over| && deficit == starving[i].amount - Received(plan, receiver) >= 0
        invariant Sound(cs, rates, was, now, plan) && Stamped(was, lastSwap, now, plan) && plan0 <= plan
        invariant LeftOver(over, left, plan) && Balanced(over, starving, plan) && Untried(starving, i + 1, plan)
        invariant |plan| <= MAX_SWAPS_PER_NODE - 1 + k
        invariant SettledUpTo(cs, rates, lastSwap, now, plan, starving[i], over, k)
        invariant LimitKept(cs, rates, was, now, plan, starving[i], over, k)
        invariant AllPricedAs(rates, adapter, receiver, plan, |plan0|)
        invariant SortedBy(over, rates, 1.0) ==> DonorsByRate(rates, plan, |plan0|, over, k)
      {
        var donor, surplus := left[k].fid, left[k].amount;
        if surplus > 0 && RatesAllow(rates, receiver, donor) {
          var more;
          ghost var d0, swaps := deficit, lastSwap;
          deficit, surplus, more := DonateFrom(cs, rates, adapter, now, receiver, donor, deficit, surplus, plan, was);
          BalancedMore(over, starving, plan, more, i, k, d0 - deficit, left);
          AddedFacts(plan, more, receiver, donor, d0 - deficit);
          AllStaySettled(cs, rates, was, now, swaps, plan, lastSwap, more, starving[i], over, k);
          LimitAsked(cs, rates, was, now, swaps, plan, lastSwap, more, starving[i], over, k, d0 - deficit);
          PricedOn(rates, adapter, receiver, plan, more, |plan0|);
          if SortedBy(over, rates, 1.0) { DonorsMore(rates, plan, more, |plan0|, over, k, receiver, d0 - deficit); }
          left := left[k := Share(donor, surplus)];
          plan := more;
        } else {
          if SortedBy(over, rates, 1.0) { DonorsSkip(rates, plan, |plan0|, over, k); }
          NotAsked(cs, rates, was, lastSwap, now, plan, starving[i], over, k);
        }
        OneSettled(cs, rates, lastSwap, now, plan, starving[i], over, k);
        k := k + 1;
      }
      if SortedBy(over, rates, 1.0) { DonorsDone(rates, plan, |plan0|, over, k); }
      if deficit == 0 {
        ServedIsSettled(cs, rates, lastSwap, now, plan, starving[i], over);
        LimitServed(cs, rates, was, now, plan, starving[i], over, k);
      }
    }

    /** The plan of one node. */
    method PlanNode(cs: seq<Container>, rates: map<string, real>, adapters: map<string, Adapter>, now: real)
      returns (plan: seq<Donation>)
      requires UniqueIds(cs)
      modifies this
      ensures Sound(cs, rates, old(lastSwap), now, plan) && Stamped(old(lastSwap), lastSwap, now, plan)
      ensures |plan| <= Max(MAX_SWAPS_PER_NODE, MAX_SWAPS_PER_NODE - 1 + |Functions(cs)|)
      ensures (TotalRate(Functions(cs), rates) >= 10.0 / 60.0
               && TotalContainers(Functions(cs), cs) >= 2) ==>
        Complete(cs, rates, adapters, lastSwap, now, plan)
      ensures plan != [] ==> TotalRate(Functions(cs), rates) >= 10.0 / 60.0
      ensures Priced(rates, adapters, plan) && ByRate(rates, plan)
      ensures TotalRate(Functions(cs), rates) > 0.0 ==> forall f: string :: Fair(cs, rates, plan, f)
    {
      hide ByRate, SortedBy, Priced, Sound, Stamped, Balanced, Fair, StarvingOf, OverOf, Sort, DistinctShares,
        Functions, TotalContainers, UniqueIds, Complete, Roomy, SettledUpTo, Classified;
      var fids := Functions(cs);
      var totalRate := TotalRate(fids, rates);
      Untouched(cs, rates, lastSwap, now);
      NothingPriced(rates, adapters);
      assert ByRate(rates, []) by { NobodyServed(rates, []); }
      if totalRate > 0.0 { forall f: string ensures Fair(cs, rates, [], f) { NothingIsFair(cs, rates, f); } }
      if fids == [] || totalRate < 0.001 || totalRate < MIN_TOTAL_REQUESTS / 60.0 { return []; }
      var total := TotalContainers(fids, cs);
      if total < 2 { return []; }
      var starving, over := Classify(cs, rates);
      if starving == [] || over == [] {
        NobodyIsComplete(cs, rates, adapters, lastSwap, now, starving, over);
        return [];
      }
      ClassifiedSorted(cs, rates, starving, over);
      StarvingSorted(cs, rates, starving);
      OverSorted(cs, rates, over);
      SortSorts(starving, rates, -1.0);
      SortSorts(over, rates, 1.0);
      starving, over := Sort(starving, rates, -1.0), Sort(over, rates, 1.0);
      plan := Pair(cs, rates, adapters, now, starving, over);
      PairedIsComplete(cs, rates, adapters, lastSwap, now, starving, over, plan);
      forall f: string ensures Fair(cs, rates, plan, f) { BalancedIsFair(cs, rates, over, starving, plan, f); }
    }

    /** Who is short of containers while requests queue, and who has more than its share. */
    method Classify(cs: seq<Container>, rates: map<string, real>) returns (starving: seq<Share>, over: seq<Share>)
      requires TotalRate(Functions(cs), rates) > 0.0
      ensures StarvingOf(cs, rates, starving) && OverOf(cs, rates, over)
      ensures DistinctShares(starving) && DistinctShares(over) && |over| <= |Functions(cs)|
      ensures Classified(cs, rates, starving, over, |Functions(cs)|)
    {
      hide Lists, Functions, Want, Actual, Pending;
      var fids := Functions(cs);
      starving, over := [], [];
      NoLists(cs, rates);
      for i := 0 to |fids|
        invariant Lists(cs, rates, starving, over, i)
      {
        var f := fids[i];
        ListsGrow(cs, rates, starving, over, i);
        var actual, want := Actual(cs, f), Want(cs, rates, f);
        if actual < want {
          if Pending(ContainersOf(cs, f)) > actual { starving := starving + [Share(f, want - actual)]; }
        } else if actual > want && actual > MIN_CONTAINERS_PER_FUNCTION {
          over := over + [Share(f, actual - want)];
        }
      }
      ListsDone(cs, rates, starving, over);
    }
  }

  /** The lists after the first `n` functions. */
  ghost predicate Lists(cs: seq<Container>, rates: map<string, real>, starving: seq<Share>, over: seq<Share>, n: nat)
    requires TotalRate(Functions(cs), rates) > 0.0 && n <= |Functions(cs)|
  {
    && StarvingOf(cs, rates, starving) && OverOf(cs, rates, over)
    && DistinctShares(starving) && DistinctShares(over) && |over| <= n
    && From(starving, Functions(cs)[..n]) && From(over, Functions(cs)[..n])
    && Classified(cs, rates, starving, over, n)
  }

  lemma NoLists(cs: seq<Container>, rates: map<string, real>)
    requires TotalRate(Functions(cs), rates) > 0.0
    ensures Lists(cs, rates, [], [], 0)
  {
  }

  lemma ListsDone(cs: seq<Container>, rates: map<string, real>, starving: seq<Share>, over: seq<Share>)
    requires TotalRate(Functions(cs), rates) > 0.0 && Lists(cs, rates, starving, over, |Functions(cs)|)
    ensures StarvingOf(cs, rates, starving) && OverOf(cs, rates, over)
    ensures DistinctShares(starving) && DistinctShares(over) && |over| <= |Functions(cs)|
    ensures Classified(cs, rates, starving, over, |Functions(cs)|)
  {
  }

  function NextStarving(cs: seq<Container>, rates: map<string, real>, starving: seq<Share>, f: string): seq<Share>
    requires TotalRate(Functions(cs), rates) > 0.0
  {
    if Starves(cs, rates, f) then starving + [Share(f, Want(cs, rates, f) - Actual(cs, f))] else starving
  }

  function NextOver(cs: seq<Container>, rates: map<string, real>, over: seq<Share>, f: string): seq<Share>
    requires TotalRate(Functions(cs), rates) > 0.0
  {
    if Actual(cs, f) > Want(cs, rates, f) then over + [Share(f, Actual(cs, f) - Want(cs, rates, f))] else over
  }

  lemma StarvingGrows(cs: seq<Container>, rates: map<string, real>, starving: seq<Share>, over: seq<Share>, n: nat)
    requires TotalRate(Functions(cs), rates) > 0.0 && n < |Functions(cs)| && Lists(cs, rates, starving, over, n)
    ensures var r := NextStarving(cs, rates, starving, Functions(cs)[n]);
      StarvingOf(cs, rates, r) && DistinctShares(r) && From(r, Functions(cs)[..n + 1])
  {
    NextOf(Functions(cs), n);
    AppendStarving(cs, rates, starving, Functions(cs)[n], Functions(cs)[..n]);
  }

  lemma OverGrows(cs: seq<Container>, rates: map<string, real>, starving: seq<Share>, over: seq<Share>, n: nat)
    requires TotalRate(Functions(cs), rates) > 0.0 && n < |Functions(cs)| && Lists(cs, rates, starving, over, n)
    ensures var r := NextOver(cs, rates, over, Functions(cs)[n]);
      OverOf(cs, rates, r) && DistinctShares(r) && From(r, Functions(cs)[..n + 1]) && |r| <= n + 1
  {
    NextOf(Functions(cs), n);
    AppendOver(cs, rates, over, Functions(cs)[n], Functions(cs)[..n]);
  }

  lemma ClassGrows(cs: seq<Container>, rates: map<string, real>, starving: seq<Share>, over: seq<Share>, n: nat)
    requires TotalRate(Functions(cs), rates) > 0.0 && n < |Functions(cs)| && Lists(cs, rates, starving, over, n)
    ensures var f := Functions(cs)[n];
      Classified(cs, rates, NextStarving(cs, rates, starving, f), NextOver(cs, rates, over, f), n + 1)
  {
    var f := Functions(cs)[n];
    var starving', over' := NextStarving(cs, rates, starving, f), NextOver(cs, rates, over, f);
    PlacedNow(cs, rates, starving, over, f);
    hide Functions, NextStarving, NextOver, Placed;
    forall k | 0 <= k < n + 1 ensures Placed(cs, rates, starving', over', Functions(cs)[k]) {
      if k < n { PlacedStill(cs, rates, starving, over, f, Functions(cs)[k]); }
    }
  }

  lemma PlacedNow(cs: seq<Container>, rates: map<string, real>, starving: seq<Share>, over: seq<Share>, f: string)
    requires TotalRate(Functions(cs), rates) > 0.0
    ensures Placed(cs, rates, NextStarving(cs, rates, starving, f), NextOver(cs, rates, over, f), f)
  {
    hide Functions, Want, Actual;
  }

  lemma PlacedStill(cs: seq<Container>, rates: map<string, real>, starving: seq<Share>, over: seq<Share>, f: string,
                    g: string)
    requires TotalRate(Functions(cs), rates) > 0.0 && Placed(cs, rates, starving, over, g)
    ensures Placed(cs, rates, NextStarving(cs, rates, starving, f), NextOver(cs, rates, over, f), g)
  {
    hide Functions, Want, Actual;
  }

  lemma ListsGrow(cs: seq<Container>, rates: map<string, real>, starving: seq<Share>, over: seq<Share>, n: nat)
    requires TotalRate(Functions(cs), rates) > 0.0 && n < |Functions(cs)| && Lists(cs, rates, starving, over, n)
    ensures var f := Functions(cs)[n];
      Lists(cs, rates, NextStarving(cs, rates, starving, f), NextOver(cs, rates, over, f), n + 1)
  {
    hide *;
    StarvingGrows(cs, rates, starving, over, n);
    OverGrows(cs, rates, starving, over, n);
    ClassGrows(cs, rates, starving, over, n);
    ListsFrom(cs, rates, NextStarving(cs, rates, starving, Functions(cs)[n]),
              NextOver(cs, rates, over, Functions(cs)[n]), n + 1);
  }

  lemma ListsFrom(cs: seq<Container>, rates: map<string, real>, starving: seq<Share>, over: seq<Share>, n: nat)
    requires TotalRate(Functions(cs), rates) > 0.0 && n <= |Functions(cs)|
    requires StarvingOf(cs, rates, starving) && OverOf(cs, rates, over) && DistinctShares(starving)
    requires DistinctShares(over)
    requires |over| <= n && From(starving, Functions(cs)[..n]) && From(over, Functions(cs)[..n])
    requires Classified(cs, rates, starving, over, n)
    ensures Lists(cs, rates, starving, over, n)
  {
  }

  lemma NextOf(fids: seq<string>, n: nat)
    requires Distinct(fids) && n < |fids|
    ensures fids[n] !in fids[..n] && fids[..n + 1] == fids[..n] + [fids[n]]
  {
  }

  ghost predicate From(shares: seq<Share>, fids: seq<string>) {
    forall x :: x in shares ==> x.fid in fids
  }

  lemma AppendStarving(cs: seq<Container>, rates: map<string, real>, starving: seq<Share>, f: string,
                       before: seq<string>)
    requires TotalRate(Functions(cs), rates) > 0.0 && StarvingOf(cs, rates, starving) && DistinctShares(starving)
    requires From(starving, before) && f !in before
    ensures var r := NextStarving(cs, rates, starving, f);
      StarvingOf(cs, rates, r) && DistinctShares(r) && From(r, before + [f])
  {
    hide Functions, Want, Actual, Pending, ContainersOf, TotalRate;
    AppendDistinct(starving, Share(f, Want(cs, rates, f) - Actual(cs, f)), before);
  }

  lemma AppendOver(cs: seq<Container>, rates: map<string, real>, over: seq<Share>, f: string, before: seq<string>)
    requires TotalRate(Functions(cs), rates) > 0.0 && OverOf(cs, rates, over) && DistinctShares(over)
    requires From(over, before) && f !in before
    ensures var r := NextOver(cs, rates, over, f);
      OverOf(cs, rates, r) && DistinctShares(r) && From(r, before + [f]) && |r| <= |over| + 1
  {
    hide Functions, Want, Actual, Pending, ContainersOf, TotalRate;
    AppendDistinct(over, Share(f, Actual(cs, f) - Want(cs, rates, f)), before);
  }

  lemma AppendDistinct(shares: seq<Share>, x: Share, fids: seq<string>)
    requires DistinctShares(shares) && x.fid !in fids && From(shares, fids)
    ensures DistinctShares(shares + [x])
  {
  }

  ghost predicate StarvingOf(cs: seq<Container>, rates: map<string, real>, shares: seq<Share>)
    requires TotalRate(Functions(cs), rates) > 0.0
  {
    forall x :: x in shares ==>
      x.amount == Want(cs, rates, x.fid) - Actual(cs, x.fid) > 0 && Pending(ContainersOf(cs, x.fid)) > Actual(cs, x.fid)
  }

  ghost predicate OverOf(cs: seq<Container>, rates: map<string, real>, shares: seq<Share>)
    requires TotalRate(Functions(cs), rates) > 0.0
  {
    forall x :: x in shares ==> x.amount == Actual(cs, x.fid) - Want(cs, rates, x.fid) > 0
  }

  lemma {:induction false} DonorInPlan(plan: seq<Donation>, f: string) returns (i: nat)
    requires Given(plan, f) > 0
    ensures i < |plan| && plan[i].donor == f
  {
    i := |plan| - 1;
    if plan[i].donor != f { i := DonorInPlan(plan[..i], f); }
  }

  lemma {:induction false} ReceiverInPlan(plan: seq<Donation>, f: string) returns (i: nat)
    requires Received(plan, f) > 0
    ensures i < |plan| && plan[i].receiver == f
  {
    i := |plan| - 1;
    if plan[i].receiver != f { i := ReceiverInPlan(plan[..i], f); }
  }

  /** Who is short of containers while its requests queue. */
  predicate Starves(cs: seq<Container>, rates: map<string, real>, f: string)
    requires TotalRate(Functions(cs), rates) > 0.0
  {
    Actual(cs, f) < Want(cs, rates, f) && Pending(ContainersOf(cs, f)) > Actual(cs, f)
  }

  /** The first `n` functions are on the lists they belong on. */
  ghost predicate Classified(cs: seq<Container>, rates: map<string, real>, starving: seq<Share>, over: seq<Share>,
                             n: nat)
    requires TotalRate(Functions(cs), rates) > 0.0 && n <= |Functions(cs)|
  {
    forall k :: 0 <= k < n ==> Placed(cs, rates, starving, over, Functions(cs)[k])
  }

  ghost predicate Placed(cs: seq<Container>, rates: map<string, real>, starving: seq<Share>, over: seq<Share>,
                         f: string)
    requires TotalRate(Functions(cs), rates) > 0.0
  {
    && (Starves(cs, rates, f) ==> Share(f, Want(cs, rates, f) - Actual(cs, f)) in starving)
    && (Actual(cs, f) > Want(cs, rates, f) ==> Share(f, Actual(cs, f) - Want(cs, rates, f)) in over)
  }

  /** The swap limit was reached, or no donation is left that would be allowed: for every function that still starves
      and every function that still has more than its share, with rates far enough apart, all containers of the
      latter are busy, cooling down or already chosen. */
  ghost predicate Complete(cs: seq<Container>, rates: map<string, real>, adapters: map<string, Adapter>,
                           swaps: map<string, real>, now: real, plan: seq<Donation>)
    requires TotalRate(Functions(cs), rates) > 0.0
  {
    |plan| >= MAX_SWAPS_PER_NODE || forall f, g :: f in Functions(cs) && g in Functions(cs) ==>
      NoneLeft(cs, rates, adapters, swaps, now, plan, f, g)
  }

  ghost predicate NoneLeft(cs: seq<Container>, rates: map<string, real>, adapters: map<string, Adapter>,
                           swaps: map<string, real>, now: real, plan: seq<Donation>, f: string, g: string)
    requires TotalRate(Functions(cs), rates) > 0.0
  {
    f in adapters && Starves(cs, rates, f) && Actual(cs, f) + Received(plan, f) < Want(cs, rates, f)
    && Actual(cs, g) - Given(plan, g) > Want(cs, rates, g) && RatesAllow(rates, f, g)
    ==> Spent(cs, g, plan, swaps, now)
  }

  lemma NobodyIsComplete(cs: seq<Container>, rates: map<string, real>, adapters: map<string, Adapter>,
                         swaps: map<string, real>, now: real, starving: seq<Share>, over: seq<Share>)
    requires TotalRate(Functions(cs), rates) > 0.0 && Classified(cs, rates, starving, over, |Functions(cs)|)
    requires starving == [] || over == []
    ensures Complete(cs, rates, adapters, swaps, now, [])
  {
    forall f, g | f in Functions(cs) && g in Functions(cs) ensures NoneLeft(cs, rates, adapters, swaps, now, [], f, g) {
      var j :| 0 <= j < |Functions(cs)| && Functions(cs)[j] == f;
      var k :| 0 <= k < |Functions(cs)| && Functions(cs)[k] == g;
    }
  }

  lemma ClassifiedSorted(cs: seq<Container>, rates: map<string, real>, starving: seq<Share>, over: seq<Share>)
    requires TotalRate(Functions(cs), rates) > 0.0 && Classified(cs, rates, starving, over, |Functions(cs)|)
    requires DistinctShares(starving) && DistinctShares(over)
    ensures Classified(cs, rates, Sort(starving, rates, -1.0), Sort(over, rates, 1.0), |Functions(cs)|)
  {
    SortKeeps(starving, rates, -1.0);
    SortKeeps(over, rates, 1.0);
    hide Want, Actual, Functions, Sort, DistinctShares, Starves;
  }

  lemma PairedIsComplete(cs: seq<Container>, rates: map<string, real>, adapters: map<string, Adapter>,
                         swaps: map<string, real>, now: real, starving: seq<Share>, over: seq<Share>,
                         plan: seq<Donation>)
    requires TotalRate(Functions(cs), rates) > 0.0 && Classified(cs, rates, starving, over, |Functions(cs)|)
    requires forall k :: 0 <= k < |starving| && starving[k].fid in adapters ==>
      SettledUpTo(cs, rates, swaps, now, plan, starving[k], over, |over|)
    ensures Complete(cs, rates, adapters, swaps, now, plan)
  {
    hide Want, Actual, Pending, ContainersOf, Given, Received, RatesAllow, Spent, Functions;
    if |plan| < MAX_SWAPS_PER_NODE {
      forall f, g | f in Functions(cs) && g in Functions(cs)
        ensures NoneLeft(cs, rates, adapters, swaps, now, plan, f, g) {
        if f in adapters && Starves(cs, rates, f) && Actual(cs, g) > Want(cs, rates, g) {
          var j := InList(cs, rates, starving, over, f);
          var k := InOverList(cs, rates, starving, over, g);
          assert Settled(cs, rates, swaps, now, plan, starving[j], over[k]);
        }
      }
    }
  }

  lemma InList(cs: seq<Container>, rates: map<string, real>, starving: seq<Share>, over: seq<Share>, f: string)
    returns (j: nat)
    requires TotalRate(Functions(cs), rates) > 0.0 && Classified(cs, rates, starving, over, |Functions(cs)|)
    requires f in Functions(cs) && Starves(cs, rates, f)
    ensures j < |starving| && starving[j] == Share(f, Want(cs, rates, f) - Actual(cs, f))
  {
    var i :| 0 <= i < |Functions(cs)| && Functions(cs)[i] == f;
    j :| 0 <= j < |starving| && starving[j] == Share(f, Want(cs, rates, f) - Actual(cs, f));
  }

  lemma InOverList(cs: seq<Container>, rates: map<string, real>, starving: seq<Share>, over: seq<Share>, f: string)
    returns (j: nat)
    requires TotalRate(Functions(cs), rates) > 0.0 && Classified(cs, rates, starving, over, |Functions(cs)|)
    requires f in Functions(cs) && Actual(cs, f) > Want(cs, rates, f)
    ensures j < |over| && over[j] == Share(f, Actual(cs, f) - Want(cs, rates, f))
  {
    var i :| 0 <= i < |Functions(cs)| && Functions(cs)[i] == f;
    j :| 0 <= j < |over| && over[j] == Share(f, Actual(cs, f) - Want(cs, rates, f));
  }

  /** No function gives below its share or the minimum, none that is not queuing receives, none receives past its share,
      and none does both. */
  ghost predicate Fair(cs: seq<Container>, rates: map<string, real>, plan: seq<Donation>, f: string)
    requires TotalRate(Functions(cs), rates) > 0.0
  {
    && (Given(plan, f) > 0 ==> Actual(cs, f) - Given(plan, f) >= Want(cs, rates, f) >= 1)
    && (Received(plan, f) > 0 ==>
          Actual(cs, f) + Received(plan, f) <= Want(cs, rates, f) && Pending(ContainersOf(cs, f)) > Actual(cs, f))
    && (Given(plan, f) == 0 || Received(plan, f) == 0)
  }

  lemma NothingIsFair(cs: seq<Container>, rates: map<string, real>, f: string)
    requires TotalRate(Functions(cs), rates) > 0.0
    ensures Fair(cs, rates, [], f)
  {
  }

  lemma StarvingSorted(cs: seq<Container>, rates: map<string, real>, shares: seq<Share>)
    requires TotalRate(Functions(cs), rates) > 0.0 && StarvingOf(cs, rates, shares) && DistinctShares(shares)
    ensures var r := Sort(shares, rates, -1.0);
      StarvingOf(cs, rates, r) && DistinctShares(r) && forall k :: 0 <= k < |r| ==> r[k].amount > 0
  {
    SortKeeps(shares, rates, -1.0);
  }

  lemma OverSorted(cs: seq<Container>, rates: map<string, real>, shares: seq<Share>)
    requires TotalRate(Functions(cs), rates) > 0.0 && OverOf(cs, rates, shares) && DistinctShares(shares)
    ensures var r := Sort(shares, rates, 1.0);
      OverOf(cs, rates, r) && DistinctShares(r) && |r| == |shares| && Roomy(cs, r) && forall k :: 0 <= k < |r| ==>
        r[k].amount > 0
  {
    SortKeeps(shares, rates, 1.0);
    assert |multiset(Sort(shares, rates, 1.0))| == |multiset(shares)|;
  }

  lemma BalancedIsFair(cs: seq<Container>, rates: map<string, real>, over: seq<Share>, starving: seq<Share>,
                       plan: seq<Donation>, f: string)
    requires TotalRate(Functions(cs), rates) > 0.0
    requires StarvingOf(cs, rates, starving) && OverOf(cs, rates, over) && Balanced(over, starving, plan)
    ensures Fair(cs, rates, plan, f)
  {
    if Given(plan, f) > 0 {
      var i := DonorInPlan(plan, f);
      var k :| 0 <= k < |over| && over[k].fid == plan[i].donor;
      assert over[k] in over;
    }
    if Received(plan, f) > 0 {
      var i := ReceiverInPlan(plan, f);
      assert Listed(starving, plan[i].receiver);
      var k :| 0 <= k < |starving| && starving[k].fid == plan[i].receiver;
      assert starving[k] in starving;
    }
  }

  lemma NothingYet(over: seq<Share>, starving: seq<Share>)
    requires forall k :: 0 <= k < |over| ==> over[k].amount > 0
    requires forall k :: 0 <= k < |starving| ==> starving[k].amount > 0
    ensures LeftOver(over, over, []) && Balanced(over, starving, []) && Untried(starving, 0, [])
  {
  }

  lemma SkipOne(starving: seq<Share>, i: nat, plan: seq<Donation>)
    requires Untried(starving, i, plan)
    ensures Untried(starving, i + 1, plan)
  {
  }

  lemma OneSettled(cs: seq<Container>, rates: map<string, real>, swaps: map<string, real>, now: real,
                   plan: seq<Donation>, s: Share, over: seq<Share>, k: nat)
    requires k < |over| && SettledUpTo(cs, rates, swaps, now, plan, s, over, k)
    requires |plan| >= MAX_SWAPS_PER_NODE || Received(plan, s.fid) >= s.amount
         || Given(plan, over[k].fid) >= over[k].amount
      || !RatesAllow(rates, s.fid, over[k].fid) || Spent(cs, over[k].fid, plan, swaps, now)
    ensures SettledUpTo(cs, rates, swaps, now, plan, s, over, k + 1)
  {
  }

  lemma NobodyAsked(cs: seq<Container>, rates: map<string, real>, was: map<string, real>, swaps: map<string, real>,
                    now: real, plan: seq<Donation>, s: Share, over: seq<Share>)
    requires |plan| < MAX_SWAPS_PER_NODE
    ensures SettledUpTo(cs, rates, swaps, now, plan, s, over, 0) && LimitKept(cs, rates, was, now, plan, s, over, 0)
  {
  }

  lemma NotAsked(cs: seq<Container>, rates: map<string, real>, was: map<string, real>, swaps: map<string, real>,
                 now: real, plan: seq<Donation>, s: Share, over: seq<Share>, k: nat)
    requires Stamped(was, swaps, now, plan) && k < |over| && LimitKept(cs, rates, was, now, plan, s, over, k)
    requires Given(plan, over[k].fid) >= over[k].amount || !RatesAllow(rates, s.fid, over[k].fid)
    ensures LimitKept(cs, rates, was, now, plan, s, over, k + 1)
  {
    LimitIdle(cs, rates, was, now, swaps, plan, s, over, k);
  }

  lemma ServedIsSettled(cs: seq<Container>, rates: map<string, real>, swaps: map<string, real>, now: real,
                        plan: seq<Donation>, s: Share, over: seq<Share>)
    requires Received(plan, s.fid) >= s.amount
    ensures SettledUpTo(cs, rates, swaps, now, plan, s, over, |over|)
  {
  }

  lemma Untouched(cs: seq<Container>, rates: map<string, real>, was: map<string, real>, now: real)
    ensures Sound(cs, rates, was, now, []) && Stamped(was, was, now, [])
  {
  }

  /** What each donor can still give. */
  ghost predicate LeftOver(over: seq<Share>, left: seq<Share>, plan: seq<Donation>) {
    && |left| == |over|
    && forall k :: 0 <= k < |over| ==>
         left[k].fid == over[k].fid && left[k].amount == over[k].amount - Given(plan, over[k].fid) >= 0
  }

  ghost predicate Untried(starving: seq<Share>, i: nat, plan: seq<Donation>) {
    forall k :: i <= k < |starving| ==> Received(plan, starving[k].fid) == 0
  }

  lemma MoreGiven(over: seq<Share>, left: seq<Share>, was: seq<Donation>, plan: seq<Donation>, receiver: string, k: nat,
                  n: int)
    requires DistinctShares(over) && k < |over| && LeftOver(over, left, was)
    requires Added(was, plan, receiver, over[k].fid, n) && n <= left[k].amount
    ensures LeftOver(over, left[k := Share(over[k].fid, left[k].amount - n)], plan)
  {
  }

  lemma MoreReceived(starving: seq<Share>, was: seq<Donation>, plan: seq<Donation>, i: nat, donor: string, n: int)
    requires DistinctShares(starving) && i < |starving| && ReceivedOk(starving, was) && Untried(starving, i + 1, was)
    requires Added(was, plan, starving[i].fid, donor, n) && n <= starving[i].amount - Received(was, starving[i].fid)
    ensures ReceivedOk(starving, plan) && Untried(starving, i + 1, plan)
  {
  }

  lemma MoreParties(over: seq<Share>, starving: seq<Share>, was: seq<Donation>, plan: seq<Donation>, i: nat, k: nat,
                    n: int)
    requires i < |starving| && k < |over| && Parties(over, starving, was)
    requires Added(was, plan, starving[i].fid, over[k].fid, n)
    ensures Parties(over, starving, plan)
  {
    forall j | 0 <= j < |plan| ensures Listed(over, plan[j].donor) && Listed(starving, plan[j].receiver) {
      if j < |was| { assert plan[j] == was[j]; }
    }
  }

  lemma LeftIsGivenOk(over: seq<Share>, left: seq<Share>, plan: seq<Donation>)
    requires LeftOver(over, left, plan)
    ensures GivenOk(over, plan)
  {
    forall k | 0 <= k < |over| ensures Given(plan, over[k].fid) <= over[k].amount { assert left[k].fid == over[k].fid; }
  }

  lemma BalancedMore(over: seq<Share>, starving: seq<Share>, was: seq<Donation>, plan: seq<Donation>, i: nat, k: nat,
                     n: int, left: seq<Share>)
    requires DistinctShares(starving) && DistinctShares(over) && i < |starving| && k < |over|
    requires Balanced(over, starving, was) && LeftOver(over, left, was) && Untried(starving, i + 1, was)
    requires Added(was, plan, starving[i].fid, over[k].fid, n) && n <= left[k].amount
    requires n <= starving[i].amount - Received(was, starving[i].fid)
    ensures Balanced(over, starving, plan) && Untried(starving, i + 1, plan)
    ensures LeftOver(over, left[k := Share(over[k].fid, left[k].amount - n)], plan)
    ensures Received(plan, starving[i].fid) == Received(was, starving[i].fid) + n
  {
    MoreGiven(over, left, was, plan, starving[i].fid, k, n);
    MoreReceived(starving, was, plan, i, over[k].fid, n);
    MoreParties(over, starving, was, plan, i, k, n);
    LeftIsGivenOk(over, left[k := Share(over[k].fid, left[k].amount - n)], plan);
  }

  // ----- A plan over the limit -----

  predicate Idle(cs: seq<Container>, c: Container, f: string) {
    c in cs && c.function_id == f && c.pending <= 0
  }

  /** Three idle containers of one function. */
  predicate IdleThree(cs: seq<Container>, c: Container, d: Container, e: Container, f: string) {
    Idle(cs, c, f) && Idle(cs, d, f) && Idle(cs, e, f) && c.id != d.id && c.id != e.id && d.id != e.id
  }

  lemma ThreeCount(cs: seq<Container>, c: Container, d: Container, e: Container, f: string)
    requires IdleThree(cs, c, d, e, f)
    ensures Actual(cs, f) >= 3
  {
    var r := ContainersOf(cs, f);
    var i, j, k :| 0 <= i < |r| && 0 <= j < |r| && 0 <= k < |r| && r[i] == c && r[j] == d && r[k] == e;
  }

  lemma NoThreeOfTwo(plan: seq<Donation>, p: string, q: string, r: string)
    requires |plan| <= 2 && p != q && p != r && q != r
    ensures p !in Chosen(plan) || q !in Chosen(plan) || r !in Chosen(plan)
  {
    if p in Chosen(plan) && q in Chosen(plan) && r in Chosen(plan) {
      var x :| 0 <= x < |plan| && plan[x].container == p;
      var y :| 0 <= y < |plan| && plan[y].container == q;
      var z :| 0 <= z < |plan| && plan[z].container == r;
    }
  }

  /** A plan of at most two donations leaves one of three containers usable. */
  lemma ThreeNotSpent(cs: seq<Container>, now: real, plan: seq<Donation>, c: Container, d: Container, e: Container,
                      f: string)
    requires IdleThree(cs, c, d, e, f) && |plan| <= 2 && now >= COOLDOWN_S
    ensures !Spent(cs, f, plan, map[], now)
  {
    NoThreeOfTwo(plan, c.id, d.id, e.id);
    hide Chosen;
    var left := if c.id !in Chosen(plan) then c else if d.id !in Chosen(plan) then d else e;
    assert !Used(left, plan, map[], now);
    assert left in ContainersOf(cs, f);
    var i :| 0 <= i < |ContainersOf(cs, f)| && ContainersOf(cs, f)[i] == left;
  }

  lemma FewOf(plan: seq<Donation>, f: string)
    ensures Given(plan, f) <= |plan| && Received(plan, f) <= |plan|
  {
  }

  function OfA(id: string): Container {
    Container(id, "a", 0)
  }

  function OfB(id: string): Container {
    Container(id, "b", 0)
  }

  /** Functions a and b have three idle containers each, function r has a busy one. */
  function SmallNode(): seq<Container> {
    [OfA("a1"), OfA("a2"), OfA("a3"), OfB("b1"), OfB("b2"), OfB("b3"), Container("r1", "r", 5)]
  }

  function SmallRates(): map<string, real> {
    map["a" := 0.2, "b" := 0.2, "r" := 0.6]
  }

  lemma OneMoreContainer(cs: seq<Container>, c: Container)
    requires c.function_id != ""
    ensures var fids := Functions(cs);
      Functions(cs + [c]) == if c.function_id in fids then fids else fids + [c.function_id]
    ensures forall f :: Actual(cs + [c], f) == Actual(cs, f) + if c.function_id == f then 1 else 0
    ensures forall f ::
      Pending(ContainersOf(cs + [c], f)) == Pending(ContainersOf(cs, f)) + if c.function_id == f then c.pending else 0
  {
    assert (cs + [c])[..|cs|] == cs;
    forall f
      ensures Pending(ContainersOf(cs + [c], f))
           == Pending(ContainersOf(cs, f)) + if c.function_id == f then c.pending else 0
    {
      var was, now := ContainersOf(cs, f), ContainersOf(cs + [c], f);
      assert now == if c.function_id == f then was + [c] else was;
      assert (was + [c])[..|was|] == was;
    }
  }

  lemma SmallNodeCounts()
    ensures Functions(SmallNode()) == ["a", "b", "r"]
    ensures Actual(SmallNode(), "a") == 3 && Actual(SmallNode(), "b") == 3 && Actual(SmallNode(), "r") == 1
    ensures Pending(ContainersOf(SmallNode(), "r")) == 5
  {
    hide Functions, Actual, ContainersOf, Pending;
    var cs := SmallNode();
    NoContainers();
    assert cs[..0] == [];
    for n := 0 to |cs|
      invariant Functions(cs[..n])
             == if n == 0 then [] else if n <= 3 then ["a"] else if n <= 6 then ["a", "b"] else ["a", "b", "r"]
      invariant Actual(cs[..n], "a") == if n <= 3 then n else 3
      invariant Actual(cs[..n], "b") == if n <= 3 then 0 else if n <= 6 then n - 3 else 3
      invariant Actual(cs[..n], "r") == if n <= 6 then 0 else 1
      invariant Pending(ContainersOf(cs[..n], "r")) == if n <= 6 then 0 else 5
    {
      assert cs[..n + 1] == cs[..n] + [cs[n]];
      OneMoreContainer(cs[..n], cs[n]);
    }
    assert cs[..|cs|] == cs;
  }

  lemma NoContainers()
    ensures Functions([]) == [] && forall f :: Actual([], f) == 0 && Pending(ContainersOf([], f)) == 0
  {
  }

  lemma ThreeTotals(cs: seq<Container>, rates: map<string, real>, f: string, g: string, h: string)
    ensures TotalRate([f, g, h], rates) == Rate(rates, f) + Rate(rates, g) + Rate(rates, h)
    ensures TotalContainers([f, g, h], cs) == Actual(cs, f) + Actual(cs, g) + Actual(cs, h)
  {
    assert [f, g, h][..2] == [f, g] && [f, g][..1] == [f] && [f][..0] == [];
    assert TotalRate([], rates) == 0.0 && TotalContainers([], cs) == 0;
    assert TotalRate([f], rates) == Rate(rates, f) && TotalContainers([f], cs) == |ContainersOf(cs, f)|;
    assert TotalRate([f, g], rates) == Rate(rates, f) + Rate(rates, g);
    assert TotalContainers([f, g], cs) == Actual(cs, f) + Actual(cs, g);
  }

  /** The node's shares are those of the example: r queues and lacks three containers of its share of four, a and b have
      two more than their share of one. */
  lemma SmallNodeShares()
    ensures Functions(SmallNode()) == ["a", "b", "r"] && TotalRate(Functions(SmallNode()), SmallRates()) == 1.0
    ensures Actual(SmallNode(), "a") == 3 && Want(SmallNode(), SmallRates(), "a") == 1
    ensures Actual(SmallNode(), "b") == 3 && Want(SmallNode(), SmallRates(), "b") == 1
    ensures Actual(SmallNode(), "r") == 1 && Want(SmallNode(), SmallRates(), "r") == 4
    ensures Starves(SmallNode(), SmallRates(), "r")
  {
    hide Functions, Actual, ContainersOf, Pending, SmallNode, TotalRate, TotalContainers;
    SmallNodeCounts();
    ThreeTotals(SmallNode(), SmallRates(), "a", "b", "r");
    assert (7.0 * 0.2 / 1.0).Floor == 1 && (7.0 * 0.6 / 1.0).Floor == 4;
  }

  /** Ids that differ at different positions. */
  lemma UniqueByIndex(cs: seq<Container>)
    requires forall i, j :: 0 <= i < j < |cs| ==> cs[i].id != cs[j].id
    ensures UniqueIds(cs)
  {
    forall c, c' | c in cs && c' in cs && c.id == c'.id ensures c == c' {
      var i :| 0 <= i < |cs| && cs[i] == c;
      var j :| 0 <= j < |cs| && cs[j] == c';
    }
  }

  lemma SmallNodeUnique()
    ensures UniqueIds(SmallNode())
  {
    var cs := SmallNode();
    forall i, j | 0 <= i < j < |cs| ensures cs[i].id != cs[j].id {
      assert cs[i].id[0] != cs[j].id[0] || cs[i].id[1] != cs[j].id[1];
    }
    UniqueByIndex(cs);
  }

  lemma SmallNodeIdle()
    ensures IdleThree(SmallNode(), OfA("a1"), OfA("a2"), OfA("a3"), "a")
    ensures IdleThree(SmallNode(), OfB("b1"), OfB("b2"), OfB("b3"), "b")
  {
    var cs := SmallNode();
    assert cs[0] == OfA("a1") && cs[1] == OfA("a2") && cs[2] == OfA("a3");
    assert cs[3] == OfB("b1") && cs[4] == OfB("b2") && cs[5] == OfB("b3");
  }

  /** A concrete node on which the limit of two is passed: r lacks three containers, a and b have two more than their
      share each. */
  method ThreeSwaps() returns (plan: seq<Donation>)
    ensures |plan| == 3 > MAX_SWAPS_PER_NODE
  {
    var cs, rates := SmallNode(), SmallRates();
    var starving, over := [Share("r", 3)], [Share("a", 2), Share("b", 2)];
    var adapters := map["r" := Adapter(1000.0, 10.0)];
    SmallNodeUnique();
    SmallNodeIdle();
    hide SmallNode, UniqueIds, IdleThree, Actual, Sound, Stamped, Balanced, SettledUpTo, StopsAtLimit;
    ThreeCount(cs, OfA("a1"), OfA("a2"), OfA("a3"), "a");
    ThreeCount(cs, OfB("b1"), OfB("b2"), OfB("b3"), "b");
    var planner := new Planner;
    planner.lastSwap := map[];
    plan := planner.Pair(cs, rates, adapters, 100.0, starving, over);
    NotAtTwo(cs, rates, 100.0, plan, OfA("a1"), OfA("a2"), OfA("a3"), OfB("b1"), OfB("b2"), OfB("b3"));
    assert starving[0].fid in adapters;
    NotBelow(cs, rates, 100.0, planner.lastSwap, plan, OfA("a1"), OfA("a2"), OfA("a3"));
  }

  lemma NotAtTwo(cs: seq<Container>, rates: map<string, real>, now: real, plan: seq<Donation>,
                 a1: Container, a2: Container, a3: Container, b1: Container, b2: Container, b3: Container)
    requires IdleThree(cs, a1, a2, a3, "a") && IdleThree(cs, b1, b2, b3, "b") && now >= COOLDOWN_S
    requires RatesAllow(rates, "r", "a") && RatesAllow(rates, "r", "b")
    requires StopsAtLimit(cs, rates, map[], now, [Share("r", 3)], [Share("a", 2), Share("b", 2)], plan)
    ensures |plan| != 2
  {
    if |plan| == 2 {
      var over := [Share("a", 2), Share("b", 2)];
      var i, b :| 0 <= i < 1 && 0 <= b < 2 && Reaches(cs, rates, map[], now, plan, [Share("r", 3)][i], over, 2, b);
      assert plan[..2] == plan;
      assert over[0] == Share("a", 2) && over[1] == Share("b", 2);
      if b == 0 {
        Unsettled(cs, rates, now, plan, b1, b2, b3, "b");
      } else {
        Unsettled(cs, rates, now, plan, a1, a2, a3, "a");
      }
    }
  }

  /** The donor that did not reach the limit has given one at most, and could give more. */
  lemma Unsettled(cs: seq<Container>, rates: map<string, real>, now: real, plan: seq<Donation>, c: Container,
                  d: Container, e: Container, f: string)
    requires IdleThree(cs, c, d, e, f) && now >= COOLDOWN_S && RatesAllow(rates, "r", f)
    requires |plan| == 2 && plan[1].donor != f
    ensures !Settled(cs, rates, map[], now, plan, Share("r", 3), Share(f, 2))
  {
    ThreeNotSpent(cs, now, plan, c, d, e, f);
    FewOf(plan, "r");
    FewOf(plan[..1], f);
  }

  lemma NotBelow(cs: seq<Container>, rates: map<string, real>, now: real, swaps: map<string, real>, plan: seq<Donation>,
                 a1: Container, a2: Container, a3: Container)
    requires IdleThree(cs, a1, a2, a3, "a") && now >= COOLDOWN_S && RatesAllow(rates, "r", "a")
    requires Stamped(map[], swaps, now, plan)
    requires SettledUpTo(cs, rates, swaps, now, plan, Share("r", 3), [Share("a", 2), Share("b", 2)], 2)
    ensures |plan| >= MAX_SWAPS_PER_NODE
  {
    if |plan| < MAX_SWAPS_PER_NODE {
      var a := [Share("a", 2), Share("b", 2)][0];
      assert Settled(cs, rates, swaps, now, plan, Share("r", 3), a);
      SettledByStart(cs, rates, map[], now, swaps, plan, Share("r", 3), a);
      ThreeNotSpent(cs, now, plan, a1, a2, a3, "a");
      FewOf(plan, "r");
      FewOf(plan, "a");
    }
  }
}
