/** The worker's engine: chunked prefill and decoding over the paged KV cache, refined against naive generation. */
module ChunkedEngine {
  import opened Arithmetic
  import opened Decoder
  import opened PagedCache
  import opened Serving
  import opened Wrappers

  /** State of the active slot. */
  class SlotState {
    const slot: int
    const maxTokens: int
    var inputIds: seq<int>
    /** Remaining prompt chunks; empty stands for None. */
    var chunks: seq<seq<int>>
    var generated: seq<int>

    constructor (slot: int, maxTokens: int, inputIds: seq<int>, chunks: seq<seq<int>>)
      ensures this.slot == slot && this.maxTokens == maxTokens
      ensures this.inputIds == inputIds && this.chunks == chunks && generated == []
    {
      this.slot, this.maxTokens, this.inputIds, this.chunks, generated := slot, maxTokens, inputIds, chunks, [];
    }

    ghost function Now(): Progress
      reads this
    {
      Progress(inputIds, chunks, generated)
    }
  }

  /** A row of the cache starts with the keys and values of the first `n` tokens. */
  ghost predicate Holds<H, Q, KV>(net: Net<H, Q, KV>, row: seq<KV>, layer: nat, toks: seq<int>, n: nat) {
    n <= |row| && n <= |toks| && forall p :: 0 <= p < n ==> row[p] == KvAt(net, toks, layer, p)
  }

  lemma HoldsLonger<H, Q, KV>(net: Net<H, Q, KV>, row: seq<KV>, layer: nat, seen: seq<int>, toks: seq<int>)
    requires Holds(net, row, layer, seen, |seen|) && seen <= toks
    ensures Holds(net, row, layer, toks, |seen|)
  {
    forall p | 0 <= p < |seen| ensures row[p] == KvAt(net, toks, layer, p) { KvOfPrefix(net, seen, toks, layer, p); }
  }

  class Engine<!H, !Q, KV(0)> {
    const net: Net<H, Q, KV>
    const cache: PagedKVCache<KV>
    const chunkSize: nat
    const maxSeqLen: nat
    const eos: Option<int>

    ghost predicate Valid()
      reads cache, cache.kv
    {
      && cache.Valid() && cache.numLayers == net.layers
      && 0 < chunkSize && 2 <= maxSeqLen
      && cache.numBlocks == cache.maxSlots * cache.maxBlocksPerSeq
      && cache.maxBlocksPerSeq == CeilDiv(maxSeqLen, cache.blockSize)
      && forall s :: s in cache.tables ==> |cache.tables[s]| <= cache.maxBlocksPerSeq
    }

    constructor (net: Net<H, Q, KV>, cache: PagedKVCache<KV>, chunkSize: nat, maxSeqLen: nat, eos: Option<int>)
      requires cache.Valid() && cache.numLayers == net.layers && 0 < chunkSize && 2 <= maxSeqLen
      requires cache.tables == map[]
      requires cache.numBlocks == cache.maxSlots * cache.maxBlocksPerSeq
      requires cache.maxBlocksPerSeq == CeilDiv(maxSeqLen, cache.blockSize)
      ensures Valid()
    {
      this.net, this.cache, this.chunkSize, this.maxSeqLen, this.eos := net, cache, chunkSize, maxSeqLen, eos;
    }

    ghost predicate Hiddens(toks: seq<int>, layer: nat, base: nat, hidden: seq<H>) {
      base + |hidden| == |toks| && forall i :: 0 <= i < |hidden| ==> hidden[i] == HiddenAt(net, toks, layer, base + i)
    }

    /** Attention writes the new keys and values behind the cached ones, through the block table. */
    method WriteRows(slot: int, layer: nat, base: nat, hidden: seq<H>, ghost toks: seq<int>)
      requires cache.Valid() && layer < cache.numLayers && Hiddens(toks, layer, base, hidden)
      requires |toks| <= cache.Reach(slot)
      requires Holds(net, cache.Row(slot, layer), layer, toks, base)
      modifies cache.kv
      ensures cache.Valid() && Holds(net, cache.Row(slot, layer), layer, toks, |toks|)
      ensures forall s, l: nat :: l < cache.numLayers && (s != slot || l != layer) ==>
        cache.Row(s, l) == old(cache.Row(s, l))
    {
      for i := 0 to |hidden|
        modifies cache.kv
        invariant cache.Valid() && Holds(net, cache.Row(slot, layer), layer, toks, base + i)
        invariant forall s, l: nat :: l < cache.numLayers && (s != slot || l != layer) ==>
          cache.Row(s, l) == old(cache.Row(s, l))
      {
        cache.Store(slot, layer, base + i, net.keyValue(layer, hidden[i], base + i));
      }
    }

    /** The causal prefix, read back through the block table. */
    method ReadPrefix(slot: int, layer: nat, n: nat, ghost toks: seq<int>) returns (kvs: seq<KV>)
      requires cache.Valid() && layer < cache.numLayers && Holds(net, cache.Row(slot, layer), layer, toks, n)
      ensures kvs == KvPrefix(net, toks, layer, n)
    {
      hide PagedKVCache.Valid, PagedKVCache.Row;
      kvs := [];
      for p := 0 to n
        invariant kvs == KvPrefix(net, toks, layer, p)
      {
        var kv := cache.Load(slot, layer, p);
        kvs := kvs + [kv];
      }
    }

    /** One decoder layer over the new rows. */
    method RunLayer(slot: int, layer: nat, base: nat, hidden: seq<H>, ghost toks: seq<int>) returns (next: seq<H>)
      requires cache.Valid() && layer < cache.numLayers && Hiddens(toks, layer, base, hidden)
      requires |toks| <= cache.Reach(slot)
      requires Holds(net, cache.Row(slot, layer), layer, toks, base)
      modifies cache.kv
      ensures cache.Valid() && Holds(net, cache.Row(slot, layer), layer, toks, |toks|)
      ensures forall s, l: nat :: l < cache.numLayers && (s != slot || l != layer) ==>
        cache.Row(s, l) == old(cache.Row(s, l))
      ensures Hiddens(toks, layer + 1, base, next)
    {
      hide PagedKVCache.Valid, PagedKVCache.Row;
      WriteRows(slot, layer, base, hidden, toks);
      next := [];
      for i := 0 to |hidden|
        modifies {}
        invariant |next| == i && forall j :: 0 <= j < i ==> next[j] == HiddenAt(net, toks, layer + 1, base + j)
      {
        var kvs := ReadPrefix(slot, layer, base + i + 1, toks);
        next := next + [net.finish(layer, hidden[i], net.query(layer, hidden[i], base + i), kvs)];
      }
    }

    /** The layers below `done` hold the whole text, the others its first `base` tokens. */
    ghost predicate LayersDone(slot: int, toks: seq<int>, base: nat, done: nat)
      requires cache.Valid()
      reads cache, cache.kv
    {
      && (forall l: nat :: l < done && l < cache.numLayers ==> Holds(net, cache.Row(slot, l), l, toks, |toks|))
      && (forall l: nat :: done <= l < cache.numLayers ==> Holds(net, cache.Row(slot, l), l, toks, base))
    }

    /** All layers of the slot's cache hold the tokens seen so far. */
    ghost predicate SlotCached(slot: int, seen: seq<int>)
      requires cache.Valid()
      reads cache, cache.kv
    {
      && slot in cache.lens && cache.lens[slot] == |seen|
      && (seen != [] ==> slot in cache.tables)
      && forall l: nat :: l < cache.numLayers ==> Holds(net, cache.Row(slot, l), l, seen, |seen|)
    }

    /** All layers over the new rows. */
    method RunLayers(slot: int, ghost seen: seq<int>, input: seq<int>) returns (hidden: seq<H>)
      requires Valid() && SlotCached(slot, seen) && slot in cache.tables && |seen + input| <= cache.Reach(slot)
      modifies cache`lens, cache.kv
      ensures Valid() && SlotCached(slot, seen + input) && Without(cache.lens, slot) == Without(old(cache.lens), slot)
      ensures Hiddens(seen + input, net.layers, |seen|, hidden)
      ensures forall s, l: nat :: l < cache.numLayers && s != slot ==> cache.Row(s, l) == old(cache.Row(s, l))
    {
      hide PagedKVCache.Valid, PagedKVCache.Row;
      var base := cache.lens[slot];
      ghost var toks := seen + input;
      hidden := seq(|input|, i requires 0 <= i < |input| => net.embed(input[i]));
      forall l: nat | l < cache.numLayers ensures Holds(net, cache.Row(slot, l), l, toks, base) {
        HoldsLonger(net, cache.Row(slot, l), l, seen, toks);
      }
      for l := 0 to net.layers
        modifies cache.kv
        invariant cache.Valid() && Hiddens(toks, l, base, hidden) && LayersDone(slot, toks, base, l)
        invariant forall s, l: nat :: l < cache.numLayers && s != slot ==> cache.Row(s, l) == old(cache.Row(s, l))
      {
        hidden := RunLayer(slot, l, base, hidden, toks);
      }
      cache.Advance(slot, |input|);
    }

    /** Room for the rows of the next step; what is cached stays cached. */
    method Reserve(slot: int, needed: nat, ghost seen: seq<int>) returns (ok: bool)
      requires Valid() && SlotCached(slot, seen) && |seen| <= needed <= maxSeqLen
      modifies cache
      ensures Valid() && SlotCached(slot, seen)
      ensures Without(cache.tables, slot) == Without(old(cache.tables), slot)
      ensures Without(cache.lens, slot) == Without(old(cache.lens), slot)
      ensures forall s, l: nat :: l < cache.numLayers && s != slot ==> cache.Row(s, l) == old(cache.Row(s, l))
      ensures ok <==> CeilDiv(needed, cache.blockSize) <= TableLen(old(cache.tables), slot) + |old(cache.freeBlocks)|
      ensures ok ==> needed <= cache.Reach(slot) && (needed > 0 ==> slot in cache.tables)
    {
      CeilDivMono(needed, maxSeqLen, cache.blockSize);
      hide PagedKVCache.Valid, PagedKVCache.Row;
      ok := cache.EnsureBlocks(slot, needed);
      forall l: nat | l < cache.numLayers ensures Holds(net, cache.Row(slot, l), l, seen, |seen|) {
        assert old(cache.Row(slot, l)) <= cache.Row(slot, l);
      }
    }

    /** lm_head_get_all: a token sampled after an intermediate chunk is discarded and the next chunk loaded. */
    method TakeToken(st: SlotState, tok: int)
      modifies st
      ensures st.Now() == WithToken(old(st.Now()), tok)
    {
      if st.chunks != [] {
        st.inputIds, st.chunks := st.chunks[0], st.chunks[1..];
      } else {
        st.generated, st.inputIds := st.generated + [tok], [tok];
      }
    }

    /** _generate_one_token_all for the active slot.  On failure the slot is torn down. */
    method GenerateOneToken(st: SlotState, ghost seen: seq<int>) returns (ok: bool)
      requires Valid() && SlotCached(st.slot, seen) && |seen| + |st.inputIds| <= maxSeqLen
      modifies st, cache, cache.kv
      ensures Valid()
      ensures Without(cache.tables, st.slot) == Without(old(cache.tables), st.slot)
      ensures Without(cache.lens, st.slot) == Without(old(cache.lens), st.slot)
      ensures forall s, l: nat :: l < cache.numLayers && s != st.slot ==> cache.Row(s, l) == old(cache.Row(s, l))
      ensures ok <==>
        && old(st.inputIds) != []
        && CeilDiv(|seen| + |old(st.inputIds)|, cache.blockSize)
           <= TableLen(old(cache.tables), st.slot) + |old(cache.freeBlocks)|
      ensures ok ==> SlotCached(st.slot, seen + old(st.inputIds))
      ensures ok ==> Took(net, seen, old(st.Now()), st.Now())
      ensures !ok ==> st.slot !in cache.tables && st.slot !in cache.lens
    {
      hide PagedKVCache.Valid, PagedKVCache.Row, Holds;
      ok := Reserve(st.slot, cache.lens[st.slot] + |st.inputIds|, seen);
      if !ok || st.inputIds == [] {
        cache.FreeSlot(st.slot);
        return false;
      }
      var hidden := RunLayers(st.slot, seen, st.inputIds);
      var tok := net.head(hidden[|hidden| - 1]);
      TakeToken(st, tok);
    }

    /** With fewer than max_slots other live slots, a step within the length cap never fails. */
    method SafeStep(st: SlotState, ghost seen: seq<int>)
      requires Valid() && SlotCached(st.slot, seen) && |Without(cache.tables, st.slot)| < cache.maxSlots
      requires st.inputIds != [] && |seen| + |st.inputIds| <= maxSeqLen
      modifies st, cache, cache.kv
      ensures Valid() && SlotCached(st.slot, seen + old(st.inputIds))
      ensures Without(cache.tables, st.slot) == Without(old(cache.tables), st.slot)
      ensures Without(cache.lens, st.slot) == Without(old(cache.lens), st.slot)
      ensures forall s, l: nat :: l < cache.numLayers && s != st.slot ==> cache.Row(s, l) == old(cache.Row(s, l))
      ensures Took(net, seen, old(st.Now()), st.Now())
    {
      hide *;
      RoomLeft(st.slot, |seen| + |st.inputIds|);
      var ok := GenerateOneToken(st, seen);
    }

    lemma RoomLeft(slot: int, needed: nat)
      requires Valid() && |Without(cache.tables, slot)| < cache.maxSlots && needed <= maxSeqLen
      ensures CeilDiv(needed, cache.blockSize) <= TableLen(cache.tables, slot) + |cache.freeBlocks|
    {
      cache.NeverExhausted(slot, needed, maxSeqLen);
    }

    ghost predicate Standing(st: SlotState, toks: seq<int>, seen: seq<int>)
      reads st
    {
      Underway(Request(net, toks, st.maxTokens, chunkSize, eos), seen, st.Now())
    }

    /** One turn of the token loop: a step that cannot fail, then the completion test. */
    method Turn(st: SlotState, ghost toks: seq<int>, ghost seen: seq<int>) returns (done: bool)
      requires Valid() && SlotCached(st.slot, seen) && |Without(cache.tables, st.slot)| < cache.maxSlots
      requires Standing(st, toks, seen) && |toks| < maxSeqLen && st.maxTokens <= maxSeqLen - |toks|
      modifies st, cache, cache.kv
      ensures Valid() && SlotCached(st.slot, seen + old(st.inputIds))
      ensures Without(cache.tables, st.slot) == Without(old(cache.tables), st.slot)
      ensures Without(cache.lens, st.slot) == Without(old(cache.lens), st.slot)
      ensures forall s, l: nat :: l < cache.numLayers && s != st.slot ==> cache.Row(s, l) == old(cache.Row(s, l))
      ensures if done then st.generated == Served(net, toks, st.maxTokens, chunkSize, eos)
              else Standing(st, toks, seen + old(st.inputIds))
      ensures !done ==>
        || |st.chunks| < |old(st.chunks)|
        || (st.chunks == old(st.chunks) && |old(st.generated)| < |st.generated| < st.maxTokens)
    {
      ghost var rq, before := Request(net, toks, st.maxTokens, chunkSize, eos), st.Now();
      StaysShort(rq, seen, before, maxSeqLen);
      hide PagedKVCache.Valid, PagedKVCache.Row, Without, Underway, Served, SlotCached, Took;
      SafeStep(st, seen);
      StepTaken(rq, seen, before, st.Now());
      done := Completed(st.generated, st.maxTokens, eos);
    }

    /** The token loop of one request. */
    method Run(st: SlotState, ghost toks: seq<int>)
      requires Valid() && SlotCached(st.slot, []) && |Without(cache.tables, st.slot)| < cache.maxSlots
      requires toks != [] && Standing(st, toks, []) && |toks| < maxSeqLen && st.maxTokens <= maxSeqLen - |toks|
      modifies st, cache, cache.kv
      ensures Valid() && st.generated == Served(net, toks, st.maxTokens, chunkSize, eos)
      ensures Without(cache.tables, st.slot) == Without(old(cache.tables), st.slot)
      ensures Without(cache.lens, st.slot) == Without(old(cache.lens), st.slot)
      ensures forall s, l: nat :: l < cache.numLayers && s != st.slot ==> cache.Row(s, l) == old(cache.Row(s, l))
    {
      hide PagedKVCache.Valid, PagedKVCache.Row, Without, Served, SlotCached, Underway;
      ghost var seen: seq<int> := [];
      var done := false;
      while !done
        invariant Valid() && SlotCached(st.slot, seen)
        invariant Without(cache.tables, st.slot) == Without(old(cache.tables), st.slot)
        invariant Without(cache.lens, st.slot) == Without(old(cache.lens), st.slot)
        invariant forall s, l: nat :: l < cache.numLayers && s != st.slot ==> cache.Row(s, l) == old(cache.Row(s, l))
        invariant if done then st.generated == Served(net, toks, st.maxTokens, chunkSize, eos)
                  else Standing(st, toks, seen)
        decreases !done, |st.chunks|, st.maxTokens - |st.generated|
      {
        ghost var input := st.inputIds;
        done := Turn(st, toks, seen);
        seen := seen + input;
      }
    }

    /** One request from prompt to tokens: None stands for the failed request. */
    method Serve(slot: int, prompt: seq<int>, maxTokens: int) returns (r: Option<seq<int>>)
      requires Valid() && slot !in cache.tables && |cache.tables| < cache.maxSlots
      modifies cache, cache.kv
      ensures Valid()
      ensures r == if prompt == [] then None
        else var toks := Truncated(prompt, maxSeqLen);
             Some(Served(net, toks, Capped(maxTokens, |toks|, maxSeqLen), chunkSize, eos))
      ensures prompt != [] && maxTokens >= 1 ==>
        r.Some? && Ends(r.value, Capped(maxTokens, |Truncated(prompt, maxSeqLen)|, maxSeqLen), eos)
      ensures cache.tables == old(cache.tables) && cache.lens == Without(old(cache.lens), slot)
      ensures forall s, l: nat :: l < cache.numLayers && s != slot ==> cache.Row(s, l) == old(cache.Row(s, l))
    {
      hide PagedKVCache.Valid, PagedKVCache.Row, Without, Underway, Served, Naive, Split, Truncated, Ends;
      WithoutAbsent(cache.tables, slot);
      var toks := Truncated(prompt, maxSeqLen);
      var m := Capped(maxTokens, |toks|, maxSeqLen);
      var parts := Split(toks, chunkSize);
      cache.Track(slot);
      var st := new SlotState(slot, m, parts[0], parts[1..]);
      if toks == [] {
        var ok := GenerateOneToken(st, []);
        WithoutAbsent(cache.tables, slot);
        WithoutAbsent(cache.lens, slot);
        return None;
      }
      Starts(Request(net, toks, m, chunkSize, eos), parts);
      if m >= 1 { AnswerEnds(Request(net, toks, m, chunkSize, eos)); }
      Run(st, toks);
      cache.FreeSlot(slot);
      r := Some(st.generated);
    }
  }
}
