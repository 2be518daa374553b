/** Greedy preload placement: candidates in rank order, taken when they still fit. */
module Placement {
  datatype Target = Gpu | InContainer

  datatype Candidate = Candidate(artifact: string, sizeMb: real, node: string, target: Target)

  /** Capacity of a node, its reported use and the use estimated from loaded artifacts. */
  datatype Node = Node(gpuMb: real, containerMb: real, gpuUsed: real, containerUsed: real, gpuEst: real,
                       containerEst: real)

  datatype Decision = Decision(artifact: string, node: string, target: Target, priority: nat)

  function Max(a: real, b: real): real {
    if a >= b then a else b
  }

  /** On a GPU an artifact takes five percent more. */
  function Required(c: Candidate): real {
    if c.target.Gpu? then c.sizeMb * 1.05 else c.sizeMb
  }

  function Capacity(n: Node, t: Target): real {
    if t.Gpu? then n.gpuMb else n.containerMb
  }

  /** Use before this round.  Nodes that are registered but not part of the round count as empty. */
  function Start(nodes: map<string, Node>, id: string, t: Target): real {
    if id !in nodes then 0.0
    else if t.Gpu? then Max(nodes[id].gpuUsed, nodes[id].gpuEst)
    else Max(nodes[id].containerUsed, nodes[id].containerEst)
  }

  /** What the picked candidates take on one node and target. */
  function Load(ranked: seq<Candidate>, picks: seq<nat>, id: string, t: Target): real
    requires InRange(ranked, picks)
  {
    if picks == [] then 0.0
    else
      var c := ranked[picks[|picks| - 1]];
      Load(ranked, picks[..|picks| - 1], id, t) + if c.node == id && c.target == t then Required(c) else 0.0
  }

  predicate InRange(ranked: seq<Candidate>, picks: seq<nat>) {
    forall i :: 0 <= i < |picks| ==> picks[i] < |ranked|
  }

  /** The artifact has been placed on the node, on either target. */
  predicate Placed(ranked: seq<Candidate>, picks: seq<nat>, c: Candidate)
    requires InRange(ranked, picks)
  {
    exists i :: 0 <= i < |picks| && ranked[picks[i]].artifact == c.artifact && ranked[picks[i]].node == c.node
  }

  predicate Fits(ranked: seq<Candidate>, nodes: map<string, Node>, registered: map<string, Node>, picks: seq<nat>,
                 c: Candidate)
    requires InRange(ranked, picks) && c.node in registered
  {
    Start(nodes, c.node, c.target) + Load(ranked, picks, c.node, c.target) + Required(c)
    <= Capacity(registered[c.node], c.target)
  }

  predicate Acceptable(ranked: seq<Candidate>, nodes: map<string, Node>, registered: map<string, Node>, picks: seq<nat>,
                       c: Candidate)
    requires InRange(ranked, picks)
  {
    !Placed(ranked, picks, c) && c.node in registered && Fits(ranked, nodes, registered, picks, c)
  }

  /** Picks among the first `k` candidates: each is taken exactly when it is acceptable after the earlier picks. */
  function Greedy(ranked: seq<Candidate>, nodes: map<string, Node>, registered: map<string, Node>,
                  k: nat): (picks: seq<nat>)
    requires k <= |ranked|
    ensures InRange(ranked, picks) && forall i :: 0 <= i < |picks| ==> picks[i] < k
    ensures forall i, j :: 0 <= i < j < |picks| ==> picks[i] < picks[j]
  {
    if k == 0 then []
    else
      var before := Greedy(ranked, nodes, registered, k - 1);
      if Acceptable(ranked, nodes, registered, before, ranked[k - 1]) then before + [k - 1] else before
  }

  function Decisions(ranked: seq<Candidate>, picks: seq<nat>): (ds: seq<Decision>)
    requires InRange(ranked, picks)
    ensures |ds| == |picks|
  {
    seq(|picks|, i requires 0 <= i < |picks| && picks[i] < |ranked| =>
      Decision(ranked[picks[i]].artifact, ranked[picks[i]].node, ranked[picks[i]].target, i))
  }

  /** Every pick on a node and target adds its size, and five percent more on a GPU. */
  lemma LoadIs(ranked: seq<Candidate>, picks: seq<nat>, p: nat, id: string, t: Target)
    requires InRange(ranked, picks) && p < |ranked|
    ensures Load(ranked, [], id, t) == 0.0
    ensures var c := ranked[p];
      Load(ranked, picks + [p], id, t) - Load(ranked, picks, id, t)
      == if c.node != id || c.target != t then 0.0 else if t == Gpu then c.sizeMb * 1.05 else c.sizeMb
  {
    LoadMore(ranked, picks, p, id, t);
  }

  lemma LoadMore(ranked: seq<Candidate>, picks: seq<nat>, p: nat, id: string, t: Target)
    requires InRange(ranked, picks) && p < |ranked|
    ensures Load(ranked, picks + [p], id, t)
         == Load(ranked, picks, id, t)
            + if ranked[p].node == id && ranked[p].target == t then Required(ranked[p]) else 0.0
  {
    assert (picks + [p])[..|picks|] == picks;
  }

  /** Something is placed on the node and target. */
  predicate Uses(ranked: seq<Candidate>, picks: seq<nat>, id: string, t: Target)
    requires InRange(ranked, picks)
  {
    exists i :: 0 <= i < |picks| && (ranked[picks[i]].node == id && ranked[picks[i]].target == t)
  }

  predicate WithinMemory(ranked: seq<Candidate>, nodes: map<string, Node>, registered: map<string, Node>,
                         picks: seq<nat>, id: string, t: Target)
    requires InRange(ranked, picks)
  {
    Uses(ranked, picks, id, t) ==>
      id in registered && Start(nodes, id, t) + Load(ranked, picks, id, t) <= Capacity(registered[id], t)
  }

  lemma WithinOneMore(ranked: seq<Candidate>, nodes: map<string, Node>, registered: map<string, Node>, picks: seq<nat>,
                      k: nat, id: string, t: Target)
    requires InRange(ranked, picks) && k < |ranked| && WithinMemory(ranked, nodes, registered, picks, id, t)
    requires Acceptable(ranked, nodes, registered, picks, ranked[k])
    ensures WithinMemory(ranked, nodes, registered, picks + [k], id, t)
  {
    LoadMore(ranked, picks, k, id, t);
    if Uses(ranked, picks + [k], id, t) && !(ranked[k].node == id && ranked[k].target == t) {
      var i :| 0 <= i < |picks + [k]| && (ranked[(picks + [k])[i]].node == id && ranked[(picks + [k])[i]].target == t);
      assert picks[i] == (picks + [k])[i];
    }
  }

  /** No node is pushed past its memory: wherever something was placed, earlier use plus everything placed fits. */
  lemma {:induction false} NeverOver(ranked: seq<Candidate>, nodes: map<string, Node>, registered: map<string, Node>,
                                     k: nat, id: string, t: Target)
    requires k <= |ranked|
    ensures WithinMemory(ranked, nodes, registered, Greedy(ranked, nodes, registered, k), id, t)
  {
    if k > 0 {
      hide Acceptable, Load, WithinMemory;
      NeverOver(ranked, nodes, registered, k - 1, id, t);
      var before := Greedy(ranked, nodes, registered, k - 1);
      if Acceptable(ranked, nodes, registered, before, ranked[k - 1]) {
        WithinOneMore(ranked, nodes, registered, before, k - 1, id, t);
      }
    } else {
      assert !Uses(ranked, [], id, t);
    }
  }

  predicate Distinct(ranked: seq<Candidate>, picks: seq<nat>)
    requires InRange(ranked, picks)
  {
    forall i, j :: 0 <= i < j < |picks| ==>
      ranked[picks[i]].artifact != ranked[picks[j]].artifact || ranked[picks[i]].node != ranked[picks[j]].node
  }

  lemma DistinctOneMore(ranked: seq<Candidate>, picks: seq<nat>, k: nat)
    requires InRange(ranked, picks) && k < |ranked| && Distinct(ranked, picks) && !Placed(ranked, picks, ranked[k])
    ensures Distinct(ranked, picks + [k])
  {
  }

  lemma NoneDistinct(ranked: seq<Candidate>)
    ensures Distinct(ranked, [])
  {
  }

  lemma DistinctStep(ranked: seq<Candidate>, nodes: map<string, Node>, registered: map<string, Node>, picks: seq<nat>,
                     p: nat)
    requires p < |ranked| && InRange(ranked, picks) && Distinct(ranked, picks)
    ensures Acceptable(ranked, nodes, registered, picks, ranked[p]) ==> Distinct(ranked, picks + [p])
  {
    hide Fits, Placed, Distinct;
    if Acceptable(ranked, nodes, registered, picks, ranked[p]) { DistinctOneMore(ranked, picks, p); }
  }

  /** No artifact is placed twice on a node. */
  lemma {:induction false} NoDuplicates(ranked: seq<Candidate>, nodes: map<string, Node>, registered: map<string, Node>,
                                        k: nat)
    requires k <= |ranked|
    ensures Distinct(ranked, Greedy(ranked, nodes, registered, k))
  {
    hide Acceptable, Distinct;
    if k == 0 {
      NoneDistinct(ranked);
    } else {
      NoDuplicates(ranked, nodes, registered, k - 1);
      var before := Greedy(ranked, nodes, registered, k - 1);
      DistinctStep(ranked, nodes, registered, before, k - 1);
    }
  }

  lemma {:induction false} GreedyPrefix(ranked: seq<Candidate>, nodes: map<string, Node>, registered: map<string, Node>,
                                        j: nat, k: nat)
    requires j <= k <= |ranked|
    ensures Greedy(ranked, nodes, registered, j) <= Greedy(ranked, nodes, registered, k)
    decreases k
  {
    hide Acceptable;
    if j < k { GreedyPrefix(ranked, nodes, registered, j, k - 1); }
  }

  lemma {:induction false} LoadGrows(ranked: seq<Candidate>, picks: seq<nat>, more: seq<nat>, id: string, t: Target)
    requires InRange(ranked, more) && picks <= more && InRange(ranked, picks)
    requires forall i :: 0 <= i < |ranked| ==> ranked[i].sizeMb >= 0.0
    ensures Load(ranked, picks, id, t) <= Load(ranked, more, id, t)
    decreases |more|
  {
    if picks != more { LoadGrows(ranked, picks, more[..|more| - 1], id, t); }
  }

  lemma StaysPlaced(ranked: seq<Candidate>, picks: seq<nat>, more: seq<nat>, c: Candidate)
    requires InRange(ranked, picks) && InRange(ranked, more) && picks <= more && Placed(ranked, picks, c)
    ensures Placed(ranked, more, c)
  {
    var i :| 0 <= i < |picks| && ranked[picks[i]].artifact == c.artifact && ranked[picks[i]].node == c.node;
    assert more[i] == picks[i];
  }

  /** What was unacceptable once stays so as more is placed. */
  lemma StaysUnacceptable(ranked: seq<Candidate>, nodes: map<string, Node>, registered: map<string, Node>,
                          picks: seq<nat>, more: seq<nat>, c: Candidate)
    requires InRange(ranked, picks) && InRange(ranked, more) && picks <= more
    requires forall i :: 0 <= i < |ranked| ==> ranked[i].sizeMb >= 0.0
    requires !Acceptable(ranked, nodes, registered, picks, c)
    ensures !Acceptable(ranked, nodes, registered, more, c)
  {
    LoadGrows(ranked, picks, more, c.node, c.target);
    hide Placed, Load;
    if Placed(ranked, picks, c) { StaysPlaced(ranked, picks, more, c); }
  }

  lemma TakenStays(ranked: seq<Candidate>, nodes: map<string, Node>, registered: map<string, Node>, k: nat)
    requires k < |ranked| && Acceptable(ranked, nodes, registered, Greedy(ranked, nodes, registered, k), ranked[k])
    ensures k in Greedy(ranked, nodes, registered, |ranked|)
  {
    hide *;
    GreedyNext(ranked, nodes, registered, k);
    GreedyPrefix(ranked, nodes, registered, k + 1, |ranked|);
    var next, picks := Greedy(ranked, nodes, registered, k + 1), Greedy(ranked, nodes, registered, |ranked|);
    assert next[|next| - 1] == k;
    assert picks[|next| - 1] == k;
  }

  /** The artifact is on that node already, or the node is unknown, or what is used there, the larger of the reported
      and the estimated use, leaves no room. */
  predicate Refused(ranked: seq<Candidate>, nodes: map<string, Node>, registered: map<string, Node>, picks: seq<nat>,
                    c: Candidate)
    requires InRange(ranked, picks)
  {
    || (exists i :: 0 <= i < |picks| && ranked[picks[i]].artifact == c.artifact && ranked[picks[i]].node == c.node)
    || c.node !in registered
    || var load := Load(ranked, picks, c.node, c.target);
       if c.target.Gpu? then
         var room := registered[c.node].gpuMb - load - c.sizeMb * 1.05;
         if c.node in nodes then nodes[c.node].gpuUsed > room || nodes[c.node].gpuEst > room else 0.0 > room
       else
         var room := registered[c.node].containerMb - load - c.sizeMb;
         if c.node in nodes then nodes[c.node].containerUsed > room || nodes[c.node].containerEst > room
         else 0.0 > room
  }

  lemma RefusedExactly(ranked: seq<Candidate>, nodes: map<string, Node>, registered: map<string, Node>,
                       picks: seq<nat>, c: Candidate)
    requires InRange(ranked, picks)
    ensures Refused(ranked, nodes, registered, picks, c) <==> !Acceptable(ranked, nodes, registered, picks, c)
  {
  }

  /** Nothing that would still fit was left out: in the end every candidate that was not taken has its artifact on that
      node already, names an unknown node, or does not fit beside what was placed. */
  lemma NothingFitsLeft(ranked: seq<Candidate>, nodes: map<string, Node>, registered: map<string, Node>, k: nat)
    requires k < |ranked| && forall i :: 0 <= i < |ranked| ==> ranked[i].sizeMb >= 0.0
    ensures var picks := Greedy(ranked, nodes, registered, |ranked|);
      k in picks || Refused(ranked, nodes, registered, picks, ranked[k])
  {
    hide *;
    var before := Greedy(ranked, nodes, registered, k);
    RefusedExactly(ranked, nodes, registered, Greedy(ranked, nodes, registered, |ranked|), ranked[k]);
    if Acceptable(ranked, nodes, registered, before, ranked[k]) {
      TakenStays(ranked, nodes, registered, k);
    } else {
      GreedyPrefix(ranked, nodes, registered, k, |ranked|);
      StaysUnacceptable(ranked, nodes, registered, before, Greedy(ranked, nodes, registered, |ranked|), ranked[k]);
    }
  }

  /** A candidate that comes first is taken exactly when its node is known and has room for it beside the larger of the
      reported and the estimated use; on a GPU it needs five percent more than its size. */
  lemma FirstIsTaken(ranked: seq<Candidate>, nodes: map<string, Node>, registered: map<string, Node>)
    requires ranked != []
    ensures var c := ranked[0];
      0 in Greedy(ranked, nodes, registered, 1) <==>
        && c.node in registered
        && if c.target.Gpu? then
             && (c.node in nodes ==>
                   && nodes[c.node].gpuUsed + c.sizeMb * 1.05 <= registered[c.node].gpuMb
                   && nodes[c.node].gpuEst + c.sizeMb * 1.05 <= registered[c.node].gpuMb)
             && (c.node !in nodes ==> c.sizeMb * 1.05 <= registered[c.node].gpuMb)
           else
             && (c.node in nodes ==>
                   && nodes[c.node].containerUsed + c.sizeMb <= registered[c.node].containerMb
                   && nodes[c.node].containerEst + c.sizeMb <= registered[c.node].containerMb)
             && (c.node !in nodes ==> c.sizeMb <= registered[c.node].containerMb)
  {
    assert Greedy(ranked, nodes, registered, 0) == [] && !Placed(ranked, [], ranked[0]);
  }

  // ----- The loop -----

  /** The bookkeeping of one target against the use and the loads it stands for. */
  ghost predicate Books(ranked: seq<Candidate>, nodes: map<string, Node>, picks: seq<nat>, t: Target,
                        used: map<string, real>)
    requires InRange(ranked, picks)
  {
    forall id: string ::
      Start(nodes, id, t) + Load(ranked, picks, id, t) == if id in used then used[id] else 0.0
  }

  /** All of the loop's bookkeeping after some picks. */
  ghost predicate Consistent(ranked: seq<Candidate>, nodes: map<string, Node>, picks: seq<nat>, gpu: map<string, real>,
                             container: map<string, real>, scheduled: set<(string, string)>)
    requires InRange(ranked, picks)
  {
    && Books(ranked, nodes, picks, Gpu, gpu) && Books(ranked, nodes, picks, InContainer, container)
    && forall c: Candidate :: (c.artifact, c.node) in scheduled <==> Placed(ranked, picks, c)
  }

  lemma DecisionsAre(ranked: seq<Candidate>, picks: seq<nat>)
    requires InRange(ranked, picks)
    ensures var ds := Decisions(ranked, picks);
      forall i :: 0 <= i < |picks| ==>
        && ds[i].artifact == ranked[picks[i]].artifact && ds[i].node == ranked[picks[i]].node
        && ds[i].target == ranked[picks[i]].target && ds[i].priority == i
  {
  }

  /** _generate_decisions, without rates and decision ids. */
  method GenerateDecisions(ranked: seq<Candidate>, nodes: map<string, Node>, registered: map<string, Node>)
    returns (decisions: seq<Decision>)
    ensures decisions == Decisions(ranked, Greedy(ranked, nodes, registered, |ranked|))
    ensures var picks := Greedy(ranked, nodes, registered, |ranked|);
      |decisions| == |picks| && forall i :: 0 <= i < |picks| ==>
        && decisions[i].artifact == ranked[picks[i]].artifact && decisions[i].node == ranked[picks[i]].node
        && decisions[i].target == ranked[picks[i]].target && decisions[i].priority == i
  {
    decisions := [];
    var gpu, container := UsedAtStart(nodes, Gpu), UsedAtStart(nodes, InContainer);
    var scheduled: set<(string, string)> := {};
    hide *;
    StartsConsistent(ranked, nodes, gpu, container);
    NothingDecided(ranked, nodes, registered);
    for k := 0 to |ranked|
      invariant decisions == Decisions(ranked, Greedy(ranked, nodes, registered, k))
      invariant Consistent(ranked, nodes, Greedy(ranked, nodes, registered, k), gpu, container, scheduled)
    {
      GreedyNext(ranked, nodes, registered, k);
      var taken;
      taken, gpu, container, scheduled :=
        Consider(ranked, nodes, registered, Greedy(ranked, nodes, registered, k), k, gpu, container, scheduled);
      if taken {
        var d := Decision(ranked[k].artifact, ranked[k].node, ranked[k].target, |decisions|);
        decisions := decisions + [d];
      }
    }
    DecisionsAre(ranked, Greedy(ranked, nodes, registered, |ranked|));
  }

  /** One turn of the loop: the tests in order, then the bookkeeping. */
  method Consider(ranked: seq<Candidate>, ghost nodes: map<string, Node>, registered: map<string, Node>,
                  ghost picks: seq<nat>, k: nat, gpu0: map<string, real>, container0: map<string, real>,
                  scheduled0: set<(string, string)>)
    returns (taken: bool, gpu: map<string, real>, container: map<string, real>, scheduled: set<(string, string)>)
    requires InRange(ranked, picks) && k < |ranked| && Consistent(ranked, nodes, picks, gpu0, container0, scheduled0)
    ensures taken <==> Acceptable(ranked, nodes, registered, picks, ranked[k])
    ensures Consistent(ranked, nodes, if taken then picks + [k] else picks, gpu, container, scheduled)
  {
    taken, gpu, container, scheduled := false, gpu0, container0, scheduled0;
    var c := ranked[k];
    SameVerdict(ranked, nodes, registered, picks, gpu, container, scheduled, c);
    StaysConsistent(ranked, nodes, picks, k, gpu, container, scheduled);
    hide Consistent, Acceptable;
    if (c.artifact, c.node) in scheduled { return; }
    if c.node !in registered { return; }
    var required := Required(c);
    if c.target.Gpu? {
      var current := Current(gpu, c.node);
      if current + required > registered[c.node].gpuMb { return; }
      gpu := gpu[c.node := current + required];
    } else {
      var current := Current(container, c.node);
      if current + required > registered[c.node].containerMb { return; }
      container := container[c.node := current + required];
    }
    scheduled := scheduled + {(c.artifact, c.node)};
    taken := true;
  }

  function UsedAtStart(nodes: map<string, Node>, t: Target): map<string, real> {
    map id | id in nodes ::
      if t.Gpu? then Max(nodes[id].gpuUsed, nodes[id].gpuEst) else Max(nodes[id].containerUsed, nodes[id].containerEst)
  }

  lemma NothingDecided(ranked: seq<Candidate>, nodes: map<string, Node>, registered: map<string, Node>)
    ensures Greedy(ranked, nodes, registered, 0) == [] && Decisions(ranked, []) == []
  {
  }

  function Current(used: map<string, real>, id: string): real {
    if id in used then used[id] else 0.0
  }

  lemma StartsConsistent(ranked: seq<Candidate>, nodes: map<string, Node>, gpu: map<string, real>,
                         container: map<string, real>)
    requires gpu == UsedAtStart(nodes, Gpu) && container == UsedAtStart(nodes, InContainer)
    ensures Consistent(ranked, nodes, [], gpu, container, {})
  {
  }

  /** The loop's tests decide as the specification does. */
  lemma SameVerdict(ranked: seq<Candidate>, nodes: map<string, Node>, registered: map<string, Node>, picks: seq<nat>,
                    gpu: map<string, real>, container: map<string, real>, scheduled: set<(string, string)>,
                    c: Candidate)
    requires InRange(ranked, picks) && Consistent(ranked, nodes, picks, gpu, container, scheduled)
    ensures Acceptable(ranked, nodes, registered, picks, c) <==>
      && (c.artifact, c.node) !in scheduled && c.node in registered
      && Current(if c.target.Gpu? then gpu else container, c.node) + Required(c)
         <= Capacity(registered[c.node], c.target)
  {
  }

  lemma GreedyNext(ranked: seq<Candidate>, nodes: map<string, Node>, registered: map<string, Node>, k: nat)
    requires k < |ranked|
    ensures var picks, next := Greedy(ranked, nodes, registered, k), Greedy(ranked, nodes, registered, k + 1);
      if Acceptable(ranked, nodes, registered, picks, ranked[k]) then
        && next == picks + [k]
        && Decisions(ranked, next)
           == Decisions(ranked, picks) + [Decision(ranked[k].artifact, ranked[k].node, ranked[k].target, |picks|)]
      else next == picks
  {
  }

  lemma StaysConsistent(ranked: seq<Candidate>, nodes: map<string, Node>, picks: seq<nat>, k: nat,
                        gpu: map<string, real>, container: map<string, real>, scheduled: set<(string, string)>)
    requires InRange(ranked, picks) && k < |ranked| && Consistent(ranked, nodes, picks, gpu, container, scheduled)
    ensures var c := ranked[k];
      Consistent(ranked, nodes, picks + [k],
        if c.target.Gpu? then gpu[c.node := Current(gpu, c.node) + Required(c)] else gpu,
        if c.target.Gpu? then container else container[c.node := Current(container, c.node) + Required(c)],
        scheduled + {(c.artifact, c.node)})
  {
    var c := ranked[k];
    BooksMore(ranked, nodes, picks, k, Gpu, gpu,
              if c.target.Gpu? then gpu[c.node := Current(gpu, c.node) + Required(c)] else gpu);
    BooksMore(ranked, nodes, picks, k, InContainer, container,
      if c.target.Gpu? then container else container[c.node := Current(container, c.node) + Required(c)]);
    PlacedMore(ranked, picks, k);
  }

  lemma BooksMore(ranked: seq<Candidate>, nodes: map<string, Node>, picks: seq<nat>, k: nat, t: Target,
                  was: map<string, real>, used: map<string, real>)
    requires InRange(ranked, picks) && k < |ranked| && Books(ranked, nodes, picks, t, was)
    requires var c := ranked[k];
      used == if c.target == t then was[c.node := Current(was, c.node) + Required(c)] else was
    ensures Books(ranked, nodes, picks + [k], t, used)
  {
    forall id: string
      ensures Start(nodes, id, t) + Load(ranked, picks + [k], id, t) == if id in used then used[id] else 0.0
    {
      LoadMore(ranked, picks, k, id, t);
    }
  }

  lemma PlacedMore(ranked: seq<Candidate>, picks: seq<nat>, k: nat)
    requires InRange(ranked, picks) && k < |ranked|
    ensures forall c: Candidate :: Placed(ranked, picks + [k], c) <==>
      Placed(ranked, picks, c) || (ranked[k].artifact == c.artifact && ranked[k].node == c.node)
  {
    forall c: Candidate
      ensures Placed(ranked, picks + [k], c) <==>
        Placed(ranked, picks, c) || (ranked[k].artifact == c.artifact && ranked[k].node == c.node)
    {
      if Placed(ranked, picks, c) {
        var i :| 0 <= i < |picks| && ranked[picks[i]].artifact == c.artifact && ranked[picks[i]].node == c.node;
        assert (picks + [k])[i] == picks[i];
      }
      assert (picks + [k])[|picks|] == k;
    }
  }
}
