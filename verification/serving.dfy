/** What a request is served, and where it stands between two steps. */
module Serving {
  import opened Decoder
  import opened Wrappers

  /** What a request with an effective budget of `m` tokens gets. */
  function Served<H, Q, KV>(net: Net<H, Q, KV>, toks: seq<int>, m: int, chunkSize: nat, eos: Option<int>): seq<int>
    requires toks != []
  {
    if m >= 1 then Naive(net, toks, m, eos)
    else if |toks| <= chunkSize then [NextToken(net, toks)] else []
  }

  /** The chunked engine agrees with naive generation exactly when at least one token is asked for or the prompt is
      chunked: completion is only tested after a step, so a one-chunk prompt always yields a first token. */
  lemma ServedIsNaive<H, Q, KV>(net: Net<H, Q, KV>, prompt: seq<int>, maxTokens: int, maxSeqLen: nat, chunkSize: nat,
                                eos: Option<int>)
    requires prompt != [] && maxSeqLen >= 2
    ensures var toks := Truncated(prompt, maxSeqLen);
            var m := Capped(maxTokens, |toks|, maxSeqLen);
      Served(net, toks, m, chunkSize, eos) == Naive(net, toks, if m < 0 then 0 else m, eos)
      <==> maxTokens >= 1 || |toks| > chunkSize
  {
  }

  /** A concrete budget for which they differ: one prompt token, none to generate, chunks of 16. */
  lemma ZeroBudgetYieldsToken<H, Q, KV>(net: Net<H, Q, KV>)
    ensures Served(net, Truncated([7], 1024), Capped(0, 1, 1024), 16, None) == [NextToken(net, [7])]
    ensures Naive(net, Truncated([7], 1024), 0, None) == []
  {
  }

  /** max(1, min(max_tokens, MAX_SEQ_LEN)): the budget that the HTTP front hands on. */
  function Requested(maxTokens: int, maxSeqLen: nat): (m: int)
    requires maxSeqLen >= 1
    ensures 1 <= m <= maxSeqLen && (1 <= maxTokens <= maxSeqLen ==> m == maxTokens)
    ensures (maxTokens < 1 ==> m == 1) && (maxTokens > maxSeqLen ==> m == maxSeqLen)
  {
    var capped := if maxTokens > maxSeqLen then maxSeqLen else maxTokens;
    if capped < 1 then 1 else capped
  }

  /** So every request that comes in over HTTP is served naive tokens, whatever budget it asks for. */
  lemma FrontServesNaive<H, Q, KV>(net: Net<H, Q, KV>, prompt: seq<int>, maxTokens: int, maxSeqLen: nat, chunkSize: nat,
                                   eos: Option<int>)
    requires prompt != [] && maxSeqLen >= 2
    ensures var toks := Truncated(prompt, maxSeqLen);
            var m := Capped(Requested(maxTokens, maxSeqLen), |toks|, maxSeqLen);
      m >= 1 && Served(net, toks, m, chunkSize, eos) == Naive(net, toks, m, eos)
  {
    ServedIsNaive(net, prompt, Requested(maxTokens, maxSeqLen), maxSeqLen, chunkSize, eos);
  }

  // ----- Between two steps -----

  /** A prepared request: its tokens, its effective budget, and how it is served. */
  datatype Request<!H, !Q, !KV> = Request(net: Net<H, Q, KV>, toks: seq<int>, m: int, chunkSize: nat, eos: Option<int>)

  /** What the next step sees, the chunks after that, and what has been generated. */
  datatype Progress = Progress(input: seq<int>, chunks: seq<seq<int>>, generated: seq<int>)

  function Answer<H, Q, KV>(rq: Request<H, Q, KV>): seq<int>
    requires rq.toks != []
  {
    Served(rq.net, rq.toks, rq.m, rq.chunkSize, rq.eos)
  }

  /** An answer ends with its first EOS token or with the budget. */
  lemma AnswerEnds<H, Q, KV>(rq: Request<H, Q, KV>)
    requires rq.toks != [] && rq.m >= 1
    ensures Ends(Answer(rq), rq.m, rq.eos)
  {
  }

  /** lm_head_get_all: a token sampled after an intermediate chunk is discarded and the next chunk loaded. */
  function WithToken(p: Progress, tok: int): Progress {
    if p.chunks != [] then Progress(p.chunks[0], p.chunks[1..], p.generated)
    else Progress([tok], [], p.generated + [tok])
  }

  /** What a step makes of the slot's state: the token it takes is the naive next token of all that was seen. */
  ghost predicate Took<H, Q, KV>(net: Net<H, Q, KV>, seen: seq<int>, p: Progress, p': Progress) {
    p.input != [] && p' == WithToken(p, NextToken(net, seen + p.input))
  }

  /** Completion test after each step. */
  predicate Completed(generated: seq<int>, maxTokens: int, eos: Option<int>) {
    |generated| >= maxTokens || (generated != [] && IsEos(eos, generated[|generated| - 1]))
  }

  /** Where a request stands between two steps: what was seen, is to be seen and was generated add up, and naive
      generation would go on from here. */
  ghost predicate Underway<H, Q, KV>(rq: Request<H, Q, KV>, seen: seq<int>, p: Progress) {
    && rq.toks != [] && p.input != [] && seen + p.input + Joined(p.chunks) == rq.toks + p.generated
    && (forall i :: 0 <= i < |p.chunks| ==> p.chunks[i] != [])
    && (p.chunks != [] ==> p.generated == [])
    && (if rq.m >= 1 then GoesOn(rq, p.generated)
        else p.generated == [] && (p.chunks == [] <==> |rq.toks| <= rq.chunkSize))
  }

  ghost predicate GoesOn<H, Q, KV>(rq: Request<H, Q, KV>, generated: seq<int>)
    requires rq.toks != []
  {
    && |generated| < rq.m
    && Naive(rq.net, rq.toks, rq.m, rq.eos)
       == generated + Naive(rq.net, rq.toks + generated, rq.m - |generated|, rq.eos)
  }

  lemma ChunkTaken<H, Q, KV>(rq: Request<H, Q, KV>, seen: seq<int>, p: Progress)
    requires Underway(rq, seen, p) && p.chunks != []
    ensures if Completed([], rq.m, rq.eos) then [] == Answer(rq)
            else Underway(rq, seen + p.input, Progress(p.chunks[0], p.chunks[1..], []))
  {
    assert seen + p.input + p.chunks[0] + Joined(p.chunks[1..]) == seen + p.input + Joined(p.chunks);
  }

  lemma NaiveOfNothing<H, Q, KV>(net: Net<H, Q, KV>, toks: seq<int>, eos: Option<int>)
    requires toks != []
    ensures Naive(net, toks, 0, eos) == []
  {
  }

  lemma TokenTaken<H, Q, KV>(rq: Request<H, Q, KV>, seen: seq<int>, p: Progress, tok: int)
    requires Underway(rq, seen, p) && p.chunks == [] && tok == NextToken(rq.net, seen + p.input)
    ensures var now := p.generated + [tok];
      if Completed(now, rq.m, rq.eos) then now == Answer(rq)
      else Underway(rq, seen + p.input, Progress([tok], [], now))
  {
    hide Naive, NextToken;
    assert seen + p.input == rq.toks + p.generated;
    var now := p.generated + [tok];
    assert seen + p.input + [tok] + Joined([]) == rq.toks + now;
    if rq.m >= 1 {
      if IsEos(rq.eos, tok) {
        NaiveStops(rq.net, rq.toks, p.generated, rq.m, rq.eos);
      } else {
        NaiveGoesOn(rq.net, rq.toks, p.generated, rq.m, rq.eos);
        if |now| == rq.m {
          NaiveOfNothing(rq.net, rq.toks + now, rq.eos);
          assert now + [] == now;
        }
      }
    } else {
      assert rq.toks + [] == rq.toks;
    }
  }

  /** Either kind of step leaves the request answered or under way, and nearer to its end. */
  lemma StepTaken<H, Q, KV>(rq: Request<H, Q, KV>, seen: seq<int>, p: Progress, p': Progress)
    requires Underway(rq, seen, p) && Took(rq.net, seen, p, p')
    ensures if Completed(p'.generated, rq.m, rq.eos) then p'.generated == Answer(rq)
            else Underway(rq, seen + p.input, p')
    ensures |p'.chunks| < |p.chunks| || (p'.chunks == p.chunks && |p.generated| < |p'.generated|)
  {
    if p.chunks != [] {
      ChunkTaken(rq, seen, p);
    } else {
      TokenTaken(rq, seen, p, NextToken(rq.net, seen + p.input));
    }
  }

  /** While a request is under way, what has been generated is the beginning of its answer. */
  lemma GeneratedSoFar<H, Q, KV>(rq: Request<H, Q, KV>, seen: seq<int>, p: Progress)
    requires Underway(rq, seen, p)
    ensures p.generated <= Answer(rq)
  {
  }

  lemma StaysShort<H, Q, KV>(rq: Request<H, Q, KV>, seen: seq<int>, p: Progress, maxSeqLen: nat)
    requires Underway(rq, seen, p) && |rq.toks| < maxSeqLen && rq.m <= maxSeqLen - |rq.toks|
    ensures p.input != [] && |seen| + |p.input| <= maxSeqLen && (p.chunks != [] ==> p.generated == [])
  {
    assert |seen + p.input + Joined(p.chunks)| == |rq.toks + p.generated|;
  }

  lemma Starts<H, Q, KV>(rq: Request<H, Q, KV>, parts: seq<seq<int>>)
    requires rq.toks != [] && 0 < rq.chunkSize && parts == Split(rq.toks, rq.chunkSize)
    ensures parts != [] && Underway(rq, [], Progress(parts[0], parts[1..], []))
  {
    SplitJoins(rq.toks, rq.chunkSize);
    assert [] + parts[0] + Joined(parts[1..]) == Joined(parts) == rq.toks == rq.toks + [];
    hide Naive, Split, Joined;
    if rq.m >= 1 { GoesOnAtFirst(rq); }
  }

  lemma GoesOnAtFirst<H, Q, KV>(rq: Request<H, Q, KV>)
    requires rq.toks != [] && rq.m >= 1
    ensures GoesOn(rq, [])
  {
    hide Naive;
    assert rq.toks + [] == rq.toks;
    assert [] + Naive(rq.net, rq.toks, rq.m, rq.eos) == Naive(rq.net, rq.toks, rq.m, rq.eos);
  }
}
