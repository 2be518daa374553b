/** Reference meaning of generation: every token is computed from the whole text so far, nothing is cached. */
module Decoder {
  import opened Wrappers

  /** A decoder-only transformer.  What happens to one row inside a layer is left abstract, except that attention sees
      the row's own query and the keys and values of all positions up to its own; `head` is greedy. */
  datatype Net<!H, !Q, !KV> = Net(
    layers: nat,
    embed: int -> H,
    query: (nat, H, nat) -> Q,
    keyValue: (nat, H, nat) -> KV,
    finish: (nat, H, Q, seq<KV>) -> H,
    head: H -> int)

  /** Hidden state of position `p` entering layer `layer`. */
  function HiddenAt<H, Q, KV>(net: Net<H, Q, KV>, toks: seq<int>, layer: nat, p: nat): H
    requires p < |toks|
    decreases layer, 0, 0
  {
    if layer == 0 then net.embed(toks[p])
    else
      var h := HiddenAt(net, toks, layer - 1, p);
      net.finish(layer - 1, h, net.query(layer - 1, h, p), KvPrefix(net, toks, layer - 1, p + 1))
  }

  function KvAt<H, Q, KV>(net: Net<H, Q, KV>, toks: seq<int>, layer: nat, p: nat): KV
    requires p < |toks|
    decreases layer, 1, 0
  {
    net.keyValue(layer, HiddenAt(net, toks, layer, p), p)
  }

  /** What attention sees at position `n` - 1. */
  function KvPrefix<H, Q, KV>(net: Net<H, Q, KV>, toks: seq<int>, layer: nat, n: nat): seq<KV>
    requires n <= |toks|
    decreases layer, 2, n
  {
    if n == 0 then [] else KvPrefix(net, toks, layer, n - 1) + [KvAt(net, toks, layer, n - 1)]
  }

  function NextToken<H, Q, KV>(net: Net<H, Q, KV>, toks: seq<int>): int
    requires toks != []
  {
    net.head(HiddenAt(net, toks, net.layers, |toks| - 1))
  }

  predicate IsEos(eos: Option<int>, tok: int) {
    eos == Some(tok)
  }

  /** Naive generation: recompute the full prefix for each token, stop after EOS or after `budget` tokens. */
  function Naive<H, Q, KV>(net: Net<H, Q, KV>, toks: seq<int>, budget: nat, eos: Option<int>): (out: seq<int>)
    requires toks != []
    ensures Ends(out, budget, eos)
    decreases budget
  {
    if budget == 0 then []
    else
      var tok := NextToken(net, toks);
      if IsEos(eos, tok) then [tok] else [tok] + Naive(net, toks + [tok], budget - 1, eos)
  }

  /** Every token is the one that the whole text before it asks for. */
  ghost predicate Continues<H, Q, KV>(net: Net<H, Q, KV>, toks: seq<int>, out: seq<int>)
    requires toks != []
  {
    forall i :: 0 <= i < |out| ==> out[i] == NextToken(net, toks + out[..i])
  }

  /** The text ends with its first EOS token, or with the budget; without an EOS token, with the budget only. */
  ghost predicate Ends(out: seq<int>, budget: nat, eos: Option<int>) {
    match eos
    case None => |out| == budget
    case Some(e) =>
      && |out| <= budget && (forall i :: 0 <= i < |out| - 1 ==> out[i] != e)
      && (|out| < budget ==> out != [] && out[|out| - 1] == e)
  }

  lemma ContinuesSplit<H, Q, KV>(net: Net<H, Q, KV>, toks: seq<int>, out: seq<int>)
    requires toks != [] && out != []
    ensures Continues(net, toks, out) <==>
      out[0] == NextToken(net, toks) && Continues(net, toks + [out[0]], out[1..])
  {
    hide NextToken;
    assert toks + out[..0] == toks;
    forall i | 0 <= i < |out| - 1 ensures toks + out[..i + 1] == toks + [out[0]] + out[1..][..i] {
    }
    if out[0] == NextToken(net, toks) && Continues(net, toks + [out[0]], out[1..]) {
      forall i | 0 <= i < |out| ensures out[i] == NextToken(net, toks + out[..i]) {
        if i > 0 { assert out[1..][i - 1] == NextToken(net, toks + [out[0]] + out[1..][..i - 1]); }
      }
    }
  }

  lemma EndsSplit(out: seq<int>, budget: nat, eos: Option<int>)
    requires out != [] && budget > 0
    ensures Ends(out, budget, eos) <==>
      if IsEos(eos, out[0]) then out == [out[0]] else Ends(out[1..], budget - 1, eos)
  {
    var rest := out[1..];
    assert out == [out[0]] + rest;
    if rest != [] { assert rest[|rest| - 1] == out[|out| - 1]; }
    if Ends(rest, budget - 1, eos) && !IsEos(eos, out[0]) {
      forall i | 0 <= i < |out| - 1 ensures !IsEos(eos, out[i]) {
        if i > 0 { assert out[i] == rest[i - 1]; }
      }
    }
  }

  /** Naive generation is the one text that continues the prompt token by token, each computed from the whole prefix, up
      to the first EOS or the budget. */
  lemma {:induction false} NaiveExactly<H, Q, KV>(net: Net<H, Q, KV>, toks: seq<int>, budget: nat, eos: Option<int>,
                                                  out: seq<int>)
    requires toks != []
    ensures out == Naive(net, toks, budget, eos) <==> Continues(net, toks, out) && Ends(out, budget, eos)
    decreases budget
  {
    if budget > 0 && out != [] {
      ContinuesSplit(net, toks, out);
      EndsSplit(out, budget, eos);
      hide NextToken, Continues, Ends;
      if out[0] == NextToken(net, toks) {
        assert out == [out[0]] + out[1..];
        NaiveExactly(net, toks + [out[0]], budget - 1, eos, out[1..]);
        if IsEos(eos, out[0]) { AloneContinues(net, toks + [out[0]]); }
      }
    }
  }

  lemma AloneContinues<H, Q, KV>(net: Net<H, Q, KV>, toks: seq<int>)
    requires toks != []
    ensures Continues(net, toks, [])
  {
  }

  /** Causality: later tokens never change the hidden state of an earlier position. */
  lemma {:induction false} HiddenOfPrefix<H, Q, KV>(net: Net<H, Q, KV>, a: seq<int>, b: seq<int>, layer: nat, p: nat)
    requires p < |a| && a <= b
    ensures HiddenAt(net, b, layer, p) == HiddenAt(net, a, layer, p)
    decreases layer, 0, 0
  {
    if layer > 0 {
      HiddenOfPrefix(net, a, b, layer - 1, p);
      PrefixOfPrefix(net, a, b, layer - 1, p + 1);
    }
  }

  lemma {:induction false} PrefixOfPrefix<H, Q, KV>(net: Net<H, Q, KV>, a: seq<int>, b: seq<int>, layer: nat, n: nat)
    requires n <= |a| && a <= b
    ensures KvPrefix(net, b, layer, n) == KvPrefix(net, a, layer, n)
    decreases layer, 2, n
  {
    if n > 0 {
      PrefixOfPrefix(net, a, b, layer, n - 1);
      HiddenOfPrefix(net, a, b, layer, n - 1);
    }
  }

  /** A cached key and value stays right as the text grows. */
  lemma KvOfPrefix<H, Q, KV>(net: Net<H, Q, KV>, a: seq<int>, b: seq<int>, layer: nat, p: nat)
    requires p < |a| && a <= b
    ensures KvAt(net, b, layer, p) == KvAt(net, a, layer, p)
  {
    HiddenOfPrefix(net, a, b, layer, p);
  }

  /** Unrolling naive generation from the other end: after some tokens without EOS, the rest goes on from there. */
  lemma NaiveGoesOn<H, Q, KV>(net: Net<H, Q, KV>, toks: seq<int>, done: seq<int>, budget: nat, eos: Option<int>)
    requires toks != [] && |done| < budget
    requires Naive(net, toks, budget, eos) == done + Naive(net, toks + done, budget - |done|, eos)
    requires !IsEos(eos, NextToken(net, toks + done))
    ensures var longer := done + [NextToken(net, toks + done)];
      Naive(net, toks, budget, eos) == longer + Naive(net, toks + longer, budget - |done| - 1, eos)
  {
    var longer := done + [NextToken(net, toks + done)];
    assert toks + done + [NextToken(net, toks + done)] == toks + longer;
  }

  lemma NaiveStops<H, Q, KV>(net: Net<H, Q, KV>, toks: seq<int>, done: seq<int>, budget: nat, eos: Option<int>)
    requires toks != [] && |done| < budget
    requires Naive(net, toks, budget, eos) == done + Naive(net, toks + done, budget - |done|, eos)
    requires IsEos(eos, NextToken(net, toks + done))
    ensures Naive(net, toks, budget, eos) == done + [NextToken(net, toks + done)]
  {
  }

  // ----- Prompt preparation -----

  /** Prompts of `maxSeqLen` tokens or more keep their last `maxSeqLen` - 1. */
  function Truncated(prompt: seq<int>, maxSeqLen: nat): (t: seq<int>)
    requires maxSeqLen >= 2
    ensures |prompt| < maxSeqLen ==> t == prompt
    ensures |prompt| >= maxSeqLen ==> |t| == maxSeqLen - 1 && exists cut: seq<int> :: prompt == cut + t
    ensures prompt == [] <==> t == []
  {
    assert |prompt| >= maxSeqLen ==>
      prompt == prompt[..|prompt| - (maxSeqLen - 1)] + prompt[|prompt| - (maxSeqLen - 1)..];
    if |prompt| >= maxSeqLen then prompt[|prompt| - (maxSeqLen - 1)..] else prompt
  }

  function Capped(maxTokens: int, seqLen: nat, maxSeqLen: nat): (m: int)
    requires seqLen < maxSeqLen
    ensures m <= maxSeqLen - seqLen && (m >= 1 <==> maxTokens >= 1)
    ensures maxTokens <= maxSeqLen - seqLen ==> m == maxTokens
    ensures maxTokens >= maxSeqLen - seqLen ==> m == maxSeqLen - seqLen
  {
    if maxTokens > maxSeqLen - seqLen then maxSeqLen - seqLen else maxTokens
  }

  function Split(toks: seq<int>, size: nat): (r: seq<seq<int>>)
    requires size > 0
    ensures r != [] && (toks == [] ==> r[0] == [])
  {
    if |toks| <= size then [toks] else [toks[..size]] + Split(toks[size..], size)
  }

  function Joined(chunks: seq<seq<int>>): seq<int> {
    if chunks == [] then [] else chunks[0] + Joined(chunks[1..])
  }

  /** Splitting loses and reorders nothing, and no chunk is empty or too long. */
  lemma {:induction false} SplitJoins(toks: seq<int>, size: nat)
    requires size > 0 && toks != []
    ensures Split(toks, size) != [] && Joined(Split(toks, size)) == toks
    ensures forall i :: 0 <= i < |Split(toks, size)| ==> 0 < |Split(toks, size)[i]| <= size
    ensures forall i :: 0 <= i < |Split(toks, size)| - 1 ==> |Split(toks, size)[i]| == size
    ensures |Split(toks, size)| == 1 <==> |toks| <= size
  {
    if |toks| <= size {
      assert Joined([toks]) == toks + Joined([]);
    } else {
      SplitJoins(toks[size..], size);
      var rest := Split(toks[size..], size);
      assert ([toks[..size]] + rest)[1..] == rest;
    }
  }
}
