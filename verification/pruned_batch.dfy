/** Deadline pruning of a batch, and the reply put back in the order of the original requests. */
module PrunedBatch {
  import opened Wrappers

  datatype Request = Request(id: int, deadline: Option<real>)

  datatype Reply<R> = Done(result: R) | Dropped(lateBy: real) | Failed

  /** Past its deadline once the reserved margin is added. */
  predicate Expired(now: real, margin: real, r: Request) {
    r.deadline.Some? && now + margin > r.deadline.value
  }

  function LiveOf(now: real, margin: real, rs: seq<Request>): seq<Request> {
    if rs == [] then []
    else LiveOf(now, margin, rs[..|rs| - 1]) + if Expired(now, margin, rs[|rs| - 1]) then [] else [rs[|rs| - 1]]
  }

  /** Position of request `i` among the live ones: how many live requests precede it. */
  function Rank(now: real, margin: real, rs: seq<Request>, i: nat): nat
    requires i <= |rs|
  {
    |LiveOf(now, margin, rs[..i])|
  }

  lemma LiveNext(now: real, margin: real, rs: seq<Request>, i: nat)
    requires i < |rs|
    ensures LiveOf(now, margin, rs[..i + 1])
         == LiveOf(now, margin, rs[..i]) + if Expired(now, margin, rs[i]) then [] else [rs[i]]
  {
    assert rs[..i + 1][..i] == rs[..i];
  }

  /** The first live requests are those of the first requests. */
  lemma {:induction false} LivePrefix(now: real, margin: real, rs: seq<Request>, i: nat, j: nat)
    requires i <= j <= |rs|
    ensures LiveOf(now, margin, rs[..i]) <= LiveOf(now, margin, rs[..j])
    decreases j
  {
    if i < j {
      LivePrefix(now, margin, rs, i, j - 1);
      LiveNext(now, margin, rs, j - 1);
    }
  }

  /** A live request is found at its rank. */
  lemma LiveAtRank(now: real, margin: real, rs: seq<Request>, i: nat)
    requires i < |rs| && !Expired(now, margin, rs[i])
    ensures Rank(now, margin, rs, i) < |LiveOf(now, margin, rs)|
    ensures LiveOf(now, margin, rs)[Rank(now, margin, rs, i)] == rs[i]
  {
    LiveNext(now, margin, rs, i);
    LivePrefix(now, margin, rs, i + 1, |rs|);
    assert rs[..|rs|] == rs;
  }

  /** Every live position is the rank of exactly one live request: no result is used twice, none is left over. */
  lemma {:induction false} RankOnto(now: real, margin: real, rs: seq<Request>, j: nat) returns (i: nat)
    requires j < |LiveOf(now, margin, rs)|
    ensures i < |rs| && !Expired(now, margin, rs[i]) && Rank(now, margin, rs, i) == j
    ensures forall k :: 0 <= k < |rs| && !Expired(now, margin, rs[k]) && Rank(now, margin, rs, k) == j ==> k == i
  {
    i := Onto(now, margin, rs, j);
    forall k | 0 <= k < |rs| && !Expired(now, margin, rs[k]) && Rank(now, margin, rs, k) == j ensures k == i {
      if k < i { RankGrows(now, margin, rs, k, i); } else if i < k { RankGrows(now, margin, rs, i, k); }
    }
  }

  lemma RankGrows(now: real, margin: real, rs: seq<Request>, i: nat, k: nat)
    requires i < k < |rs| && !Expired(now, margin, rs[i])
    ensures Rank(now, margin, rs, i) < Rank(now, margin, rs, k)
  {
    LiveNext(now, margin, rs, i);
    LivePrefix(now, margin, rs, i + 1, k);
  }

  lemma {:induction false} Onto(now: real, margin: real, rs: seq<Request>, j: nat) returns (i: nat)
    requires j < |LiveOf(now, margin, rs)|
    ensures i < |rs| && !Expired(now, margin, rs[i]) && Rank(now, margin, rs, i) == j
  {
    var front := rs[..|rs| - 1];
    if j < |LiveOf(now, margin, front)| {
      i := Onto(now, margin, front, j);
      assert front[..i] == rs[..i];
    } else {
      i := |rs| - 1;
    }
  }

  function Late(now: real, r: Request): real {
    if r.deadline.Some? then now - r.deadline.value else 0.0
  }

  /** What request `i` is owed when generation works: its own live result or its own expiry record. */
  predicate OwnReply<R(==)>(now: real, margin: real, rs: seq<Request>, answer: (seq<Request>, nat) -> R, i: nat,
                            reply: Reply<R>)
    requires i < |rs|
  {
    var live := LiveOf(now, margin, rs);
    if Expired(now, margin, rs[i]) then reply == Dropped(Late(now, rs[i]))
    else
      && Rank(now, margin, rs, i) < |live| && live[Rank(now, margin, rs, i)] == rs[i]
      && reply == Done(answer(live, Rank(now, margin, rs, i)))
  }

  predicate RecordsOf(now: real, margin: real, rs: seq<Request>, expired: map<nat, real>) {
    && (forall i :: i in expired ==> i < |rs| && Expired(now, margin, rs[i]) && expired[i] == Late(now, rs[i]))
    && (forall i :: 0 <= i < |rs| && Expired(now, margin, rs[i]) ==> i in expired)
  }

  class Batch {
    var requests: seq<Request>

    constructor (requests: seq<Request>)
      ensures this.requests == requests
    {
      this.requests := requests;
    }
  }

  /** The pruning loop. */
  method Prune(now: real, margin: real, rs: seq<Request>) returns (expired: map<nat, real>, live: seq<Request>)
    ensures live == LiveOf(now, margin, rs) && RecordsOf(now, margin, rs, expired)
  {
    expired, live := map[], [];
    for i := 0 to |rs|
      invariant live == LiveOf(now, margin, rs[..i]) && RecordsOf(now, margin, rs[..i], expired)
    {
      LiveNext(now, margin, rs, i);
      if Expired(now, margin, rs[i]) {
        expired := expired[i := Late(now, rs[i])];
      } else {
        live := live + [rs[i]];
      }
    }
    assert rs[..|rs|] == rs;
  }

  /** The merge loop: `next` is the position of the iterator over the live results, which ends exactly used up. */
  method Merge<R(==)>(now: real, margin: real, ghost rs: seq<Request>, n: nat, expired: map<nat, real>, results: seq<R>,
                  ghost answer: (seq<Request>, nat) -> R)
    returns (merged: seq<Reply<R>>, next: nat)
    requires n == |rs| && RecordsOf(now, margin, rs, expired) && |results| == |LiveOf(now, margin, rs)|
    requires forall k :: 0 <= k < |results| ==> results[k] == answer(LiveOf(now, margin, rs), k)
    ensures next == |results|
    ensures |merged| == n && forall i :: 0 <= i < n ==> OwnReply(now, margin, rs, answer, i, merged[i])
  {
    hide LiveOf;
    merged, next := [], 0;
    assert rs[..0] == [] && Rank(now, margin, rs, 0) == 0 by { NothingBefore(now, margin, rs); }
    for i := 0 to n
      invariant |merged| == i && next == Rank(now, margin, rs, i)
      invariant forall k :: 0 <= k < i ==> OwnReply(now, margin, rs, answer, k, merged[k])
    {
      LiveNext(now, margin, rs, i);
      if i in expired {
        merged := merged + [Dropped(expired[i])];
      } else {
        LiveAtRank(now, margin, rs, i);
        merged := merged + [Done(results[next])];
        next := next + 1;
      }
    }
    assert rs[..n] == rs;
  }

  lemma NothingBefore(now: real, margin: real, rs: seq<Request>)
    ensures Rank(now, margin, rs, 0) == 0
  {
  }

  /** _process_batch: generation answers each request of the batch it is given, or raises. */
  method ProcessBatch<R(==)>(batch: Batch, now: real, margin: real, answer: (seq<Request>, nat) -> R,
                             raises: seq<Request> -> bool)
    returns (replies: seq<Reply<R>>)
    modifies batch
    ensures |replies| == |old(batch.requests)|
    ensures var rs, live := old(batch.requests), LiveOf(now, margin, old(batch.requests));
      if raises(live) && (live != [] || rs == []) then forall i :: 0 <= i < |rs| ==> replies[i] == Failed
      else forall i :: 0 <= i < |rs| ==>
        && OwnReply(now, margin, rs, answer, i, replies[i])
        && (replies[i].Dropped? <==> rs[i].deadline.Some? && now + margin > rs[i].deadline.value)
        && (replies[i].Dropped? ==> replies[i].lateBy == now - rs[i].deadline.value)
    ensures batch.requests == old(batch.requests)
      || (raises(batch.requests) && batch.requests == LiveOf(now, margin, old(batch.requests)))
  {
    var original := batch.requests;
    var expired, live := Prune(now, margin, original);
    if live == [] && original != [] {
      AllExpired(now, margin, original);
      return seq(|original|, i requires 0 <= i < |original| && i in expired => Dropped(expired[i]));
    }
    if expired != map[] { batch.requests := live; } else { NoneExpired(now, margin, original, expired); }
    if raises(batch.requests) {
      return seq(|original|, _ => Failed);
    }
    var results: seq<R> := [];
    for i := 0 to |batch.requests|
      invariant |results| == i && forall k :: 0 <= k < i ==> results[k] == answer(batch.requests, k)
    {
      results := results + [answer(batch.requests, i)];
    }
    var next;
    replies, next := Merge(now, margin, original, |original|, expired, results, answer);
    batch.requests := original;
  }

  lemma AllExpired(now: real, margin: real, rs: seq<Request>)
    requires LiveOf(now, margin, rs) == []
    ensures forall i :: 0 <= i < |rs| ==> Expired(now, margin, rs[i])
  {
    forall i | 0 <= i < |rs| ensures Expired(now, margin, rs[i]) {
      if !Expired(now, margin, rs[i]) { LiveAtRank(now, margin, rs, i); }
    }
  }

  lemma NoneExpired(now: real, margin: real, rs: seq<Request>, expired: map<nat, real>)
    requires RecordsOf(now, margin, rs, expired) && expired == map[]
    ensures LiveOf(now, margin, rs) == rs
  {
    AllLive(now, margin, rs);
  }

  lemma {:induction false} AllLive(now: real, margin: real, rs: seq<Request>)
    requires forall i :: 0 <= i < |rs| ==> !Expired(now, margin, rs[i])
    ensures LiveOf(now, margin, rs) == rs
  {
    if rs != [] {
      var front, last := rs[..|rs| - 1], rs[|rs| - 1];
      AllLive(now, margin, front);
      assert LiveOf(now, margin, rs) == front + [last];
      assert rs == front + [last];
    }
  }
}
