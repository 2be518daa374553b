/** The paged KV cache: a block allocator and the blocks it hands out. */
module PagedCache {
  import opened Arithmetic

  ghost predicate NoDuplicates(s: seq<nat>) {
    forall i, j :: 0 <= i < j < |s| ==> s[i] != s[j]
  }

  /** Blocks held by all slots together. */
  ghost function Held(tables: map<int, seq<nat>>): nat {
    if exists s :: s in tables then
      var s :| s in tables;
      |tables[s]| + Held(tables - {s})
    else 0
  }

  lemma {:induction false} HeldSplit(tables: map<int, seq<nat>>, s: int)
    requires s in tables
    ensures Held(tables) == |tables[s]| + Held(tables - {s})
    decreases tables
  {
    var t :| t in tables && Held(tables) == |tables[t]| + Held(tables - {t});
    if t != s {
      HeldSplit(tables - {t}, s);
      HeldSplit(tables - {s}, t);
      assert tables - {t} - {s} == tables - {s} - {t};
    }
  }

  lemma HeldUpdate(tables: map<int, seq<nat>>, s: int, blocks: seq<nat>)
    ensures Held(tables[s := blocks]) == |blocks| + Held(tables - {s})
    ensures Held(tables) == Held(tables - {s}) + if s in tables then |tables[s]| else 0
  {
    HeldSplit(tables[s := blocks], s);
    assert tables[s := blocks] - {s} == tables - {s};
    if s in tables { HeldSplit(tables, s); } else { assert tables - {s} == tables; }
  }

  lemma {:induction false} HeldBound(tables: map<int, seq<nat>>, m: nat)
    requires forall s :: s in tables ==> |tables[s]| <= m
    ensures Held(tables) <= |tables| * m
    decreases tables
  {
    if exists s :: s in tables {
      var s :| s in tables && Held(tables) == |tables[s]| + Held(tables - {s});
      HeldBound(tables - {s}, m);
      assert |tables - {s}| == |tables| - 1 by { KeysOfRemoval(tables, s); }
      TimesMono(|tables|, |tables|, m);
    }
  }

  lemma KeysOfRemoval(tables: map<int, seq<nat>>, s: int)
    requires s in tables
    ensures |tables - {s}| == |tables| - 1
  {
    assert (tables - {s}).Keys == tables.Keys - {s};
    assert |(tables - {s}).Keys| == |tables.Keys| - 1;
  }

  /** Where token position `p` lives: index into the block table, and offset in the block. */
  function BlockIndex(p: nat, blockSize: nat): nat
    requires blockSize > 0
  {
    p / blockSize
  }

  function BlockOffset(p: nat, blockSize: nat): (o: nat)
    requires blockSize > 0
    ensures o < blockSize
  {
    p % blockSize
  }

  /** Blocks are filled one after the other, each from its start. */
  lemma NextPosition(p: nat, blockSize: nat)
    requires blockSize > 0
    ensures BlockIndex(0, blockSize) == 0 && BlockOffset(0, blockSize) == 0
    ensures var i, o := BlockIndex(p, blockSize), BlockOffset(p, blockSize);
      if o + 1 < blockSize then BlockIndex(p + 1, blockSize) == i && BlockOffset(p + 1, blockSize) == o + 1
      else BlockIndex(p + 1, blockSize) == i + 1 && BlockOffset(p + 1, blockSize) == 0
  {
    var i, o := p / blockSize, p % blockSize;
    assert p == i * blockSize + o;
    DivModUnique(0, 0, 0, blockSize);
    if o + 1 < blockSize {
      DivModUnique(p + 1, i, o + 1, blockSize);
    } else {
      assert (i + 1) * blockSize == i * blockSize + blockSize;
      DivModUnique(p + 1, i + 1, 0, blockSize);
    }
  }

  lemma PositionUnique(p: nat, q: nat, blockSize: nat)
    requires blockSize > 0
    requires BlockIndex(p, blockSize) == BlockIndex(q, blockSize)
    requires BlockOffset(p, blockSize) == BlockOffset(q, blockSize)
    ensures p == q
  {
    assert p == (p / blockSize) * blockSize + p % blockSize;
    assert q == (q / blockSize) * blockSize + q % blockSize;
  }

  /** A slot's table: no block twice, every block exists and is not free. */
  ghost predicate TableOk(n: nat, free: seq<nat>, t: seq<nat>) {
    NoDuplicates(t) && forall j :: 0 <= j < |t| ==> t[j] < n && t[j] !in free
  }

  ghost predicate Disjoint(a: seq<nat>, b: seq<nat>) {
    forall i, j :: 0 <= i < |a| && 0 <= j < |b| ==> a[i] != b[j]
  }

  ghost predicate InSomeTable(b: nat, tabs: map<int, seq<nat>>) {
    exists s :: s in tabs && b in tabs[s]
  }

  /** The free stack and the slot tables share out the block ids 0..n: each id once, none lost. */
  ghost predicate Partition(n: nat, free: seq<nat>, tabs: map<int, seq<nat>>) {
    && NoDuplicates(free) && (forall i :: 0 <= i < |free| ==> free[i] < n)
    && (forall s :: s in tabs ==> TableOk(n, free, tabs[s]))
    && (forall s, t :: s in tabs && t in tabs && s != t ==> Disjoint(tabs[s], tabs[t]))
    && (forall b: nat :: b < n ==> b in free || InSomeTable(b, tabs))
    && |free| + Held(tabs) == n
  }

  function TableLen(tabs: map<int, seq<nat>>, slot: int): nat {
    if slot in tabs then |tabs[slot]| else 0
  }

  function Without<V>(m: map<int, V>, slot: int): map<int, V> {
    m - {slot}
  }

  lemma WithoutAbsent<V>(m: map<int, V>, slot: int)
    requires slot !in m
    ensures Without(m, slot) == m
  {
  }

  function Table(tabs: map<int, seq<nat>>, slot: int): seq<nat> {
    if slot in tabs then tabs[slot] else []
  }

  /** Blocks popped from the top of the stack, in popping order. */
  ghost predicate Popped(was: seq<nat>, rest: seq<nat>, blocks: seq<nat>) {
    && |rest| + |blocks| == |was| && rest == was[..|rest|]
    && forall j :: 0 <= j < |blocks| ==> blocks[j] == was[|was| - 1 - j]
  }

  /** The slot's own table after the popped blocks were appended. */
  lemma GrownTable(n: nat, was: seq<nat>, rest: seq<nat>, blocks: seq<nat>, mine: seq<nat>)
    requires NoDuplicates(was) && (forall i :: 0 <= i < |was| ==> was[i] < n)
    requires Popped(was, rest, blocks) && TableOk(n, was, mine)
    ensures TableOk(n, rest, mine + blocks) && NoDuplicates(rest)
    ensures forall j :: 0 <= j < |blocks| ==> blocks[j] in was
  {
    forall j | 0 <= j < |blocks| ensures blocks[j] in was && blocks[j] < n && blocks[j] !in rest {
      assert was[|was| - 1 - j] == blocks[j];
    }
    assert NoDuplicates(blocks);
    forall j | 0 <= j < |mine| ensures mine[j] !in rest && mine[j] !in blocks { assert mine[j] !in was; }
  }

  /** Popping and granting blocks loses none of them. */
  lemma NoneLost(was: seq<nat>, rest: seq<nat>, blocks: seq<nat>, tabs: map<int, seq<nat>>, slot: int, b: nat)
    requires Popped(was, rest, blocks) && (b in was || InSomeTable(b, tabs))
    ensures b in rest || InSomeTable(b, tabs[slot := Table(tabs, slot) + blocks])
  {
    var now := tabs[slot := Table(tabs, slot) + blocks];
    if b in was {
      var i :| 0 <= i < |was| && was[i] == b;
      if i < |rest| {
        assert rest[i] == b;
      } else {
        assert blocks[|was| - 1 - i] == b;
        assert b in now[slot];
      }
    } else {
      var s :| s in tabs && b in tabs[s];
      assert b in now[s];
    }
  }

  /** Moving blocks from the stack to a slot's table keeps the partition. */
  lemma Regrouped(n: nat, was: seq<nat>, rest: seq<nat>, blocks: seq<nat>, tabs: map<int, seq<nat>>, slot: int)
    requires Partition(n, was, tabs) && Popped(was, rest, blocks)
    ensures Partition(n, rest, tabs[slot := Table(tabs, slot) + blocks])
  {
    var mine := Table(tabs, slot) + blocks;
    var now := tabs[slot := mine];
    HeldUpdate(tabs, slot, mine);
    GrownTable(n, was, rest, blocks, Table(tabs, slot));
    forall s | s in tabs
      ensures TableOk(n, rest, tabs[s]) && (s != slot ==> Disjoint(tabs[s], mine) && Disjoint(mine, tabs[s])) {
      OtherTable(n, was, rest, blocks, tabs, slot, s);
    }
    forall b: nat | b < n ensures b in rest || InSomeTable(b, now) { NoneLost(was, rest, blocks, tabs, slot, b); }
  }

  lemma OtherTable(n: nat, was: seq<nat>, rest: seq<nat>, blocks: seq<nat>, tabs: map<int, seq<nat>>, slot: int, s: int)
    requires Popped(was, rest, blocks) && s in tabs && TableOk(n, was, tabs[s])
    requires slot in tabs && s != slot ==> Disjoint(tabs[s], tabs[slot])
    requires forall j :: 0 <= j < |blocks| ==> blocks[j] in was
    ensures TableOk(n, rest, tabs[s])
    ensures var mine := Table(tabs, slot) + blocks; s != slot ==> Disjoint(tabs[s], mine) && Disjoint(mine, tabs[s])
  {
    forall b | b in rest ensures b in was { }
  }

  /** Pushing a slot's blocks back on the stack keeps the partition. */
  lemma Returned(n: nat, was: seq<nat>, tabs: map<int, seq<nat>>, slot: int)
    requires Partition(n, was, tabs)
    ensures Partition(n, was + Table(tabs, slot), tabs - {slot})
  {
    var blocks, now := Table(tabs, slot), tabs - {slot};
    HeldUpdate(tabs, slot, blocks);
    assert slot in tabs ==> TableOk(n, was, tabs[slot]);
    assert NoDuplicates(was + blocks);
    forall s | s in now ensures TableOk(n, was + blocks, now[s]) {
      assert TableOk(n, was, tabs[s]);
      assert slot in tabs ==> Disjoint(tabs[s], tabs[slot]);
    }
    forall b: nat | b < n ensures b in was + blocks || InSomeTable(b, now) {
      if b !in was {
        var s :| s in tabs && b in tabs[s];
        if s != slot { assert b in now[s]; }
      }
    }
  }

  /** With at most `slots` - 1 other live slots, each within `m` blocks, `m` blocks are free or already the slot's
      own. */
  lemma EnoughLeft(n: nat, free: seq<nat>, tabs: map<int, seq<nat>>, slot: int, slots: nat, m: nat)
    requires Partition(n, free, tabs) && n == slots * m
    requires (forall s :: s in tabs ==> |tabs[s]| <= m) && |tabs - {slot}| < slots
    ensures m <= TableLen(tabs, slot) + |free|
  {
    HeldUpdate(tabs, slot, []);
    HeldBound(tabs - {slot}, m);
    TimesMono(|tabs - {slot}| + 1, slots, m);
  }

  lemma TimesMono(a: nat, b: nat, m: nat)
    requires a <= b
    ensures a * m <= b * m
    ensures a > 0 ==> a * m == (a - 1) * m + m
  {
  }

  /** The top `n` entries of a stack, in the order in which they are popped. */
  function FromTop(stack: seq<nat>, n: nat): (r: seq<nat>)
    requires n <= |stack|
    ensures |r| == n && forall j :: 0 <= j < n ==> r[j] == stack[|stack| - 1 - j]
  {
    seq(n, j requires 0 <= j < n <= |stack| => stack[|stack| - 1 - j])
  }

  class PagedKVCache<KV(0)> {
    const numLayers: nat
    const blockSize: nat
    const maxSlots: nat
    const maxBlocksPerSeq: nat
    const numBlocks: nat
    const zero: KV
    /** Key and value of one token, per layer, block and offset. */
    const kv: array3<KV>
    /** Stack of free block ids, top at the end. */
    var freeBlocks: seq<nat>
    var tables: map<int, seq<nat>>
    var lens: map<int, nat>

    ghost predicate Valid()
      reads this, kv
    {
      && blockSize > 0
      && kv.Length0 == numLayers && kv.Length1 == numBlocks && kv.Length2 == blockSize
      && Partition(numBlocks, freeBlocks, tables)
      && tables.Keys <= lens.Keys
      && FreeAreZero(freeBlocks)
    }

    ghost predicate FreeAreZero(free: seq<nat>)
      reads kv
    {
      forall l, b, o :: 0 <= l < kv.Length0 && 0 <= b < kv.Length1 && b in free && 0 <= o < kv.Length2 ==>
        kv[l, b, o] == zero
    }

    /** Token positions that the slot's table reaches. */
    function Reach(slot: int): nat
      reads this
    {
      TableLen(tables, slot) * blockSize
    }

    /** The block of position `p`, looked up in the slot's table. */
    function BlockOf(slot: int, p: nat): (b: nat)
      requires Valid() && p < Reach(slot)
      reads this, kv
      ensures b < numBlocks && BlockIndex(p, blockSize) < TableLen(tables, slot)
      ensures b == Table(tables, slot)[BlockIndex(p, blockSize)] && b !in freeBlocks
    {
      QuotientBelow(p, TableLen(tables, slot), blockSize);
      assert TableOk(numBlocks, freeBlocks, tables[slot]);
      tables[slot][BlockIndex(p, blockSize)]
    }

    /** Key and value of position `p`, found through the slot's block table. */
    function Cell(slot: int, layer: nat, p: nat): KV
      requires Valid() && layer < numLayers && p < Reach(slot)
      reads this, kv
    {
      kv[layer, BlockOf(slot, p), BlockOffset(p, blockSize)]
    }

    /** All that one slot can see of one layer, in position order. */
    ghost function Row(slot: int, layer: nat): (row: seq<KV>)
      requires Valid() && layer < numLayers
      reads this, kv
      ensures |row| == Reach(slot)
      ensures forall p :: 0 <= p < |row| ==> row[p] == Cell(slot, layer, p)
    {
      seq(Reach(slot), p requires Valid() && layer < numLayers && 0 <= p < Reach(slot) reads this, kv =>
        Cell(slot, layer, p))
    }

    constructor (numLayers: nat, blockSize: nat, maxSlots: nat, maxSeqLen: nat, zero: KV)
      requires blockSize > 0
      ensures Valid() && fresh(kv)
      ensures this.numLayers == numLayers && this.blockSize == blockSize && this.maxSlots == maxSlots
      ensures this.zero == zero
      ensures maxBlocksPerSeq == CeilDiv(maxSeqLen, blockSize)
      ensures numBlocks == maxSlots * maxBlocksPerSeq
      ensures tables == map[] && lens == map[] && |freeBlocks| == numBlocks
      ensures forall i :: 0 <= i < numBlocks ==> freeBlocks[i] == numBlocks - 1 - i
    {
      this.numLayers, this.blockSize, this.maxSlots, this.zero := numLayers, blockSize, maxSlots, zero;
      var perSeq := CeilDiv(maxSeqLen, blockSize);
      maxBlocksPerSeq := perSeq;
      var n: nat := maxSlots * perSeq;
      numBlocks := n;
      kv := new KV[numLayers, n, blockSize]((_, _, _) => zero);
      freeBlocks := seq(n, i requires 0 <= i < n => n - 1 - i);
      tables := map[];
      lens := map[];
      new;
      forall b: nat | b < numBlocks ensures b in freeBlocks { assert freeBlocks[numBlocks - 1 - b] == b; }
    }

    /** allocate_blocks: false stands for the "not enough free blocks" exception. */
    method AllocateBlocks(slot: int, n: nat) returns (ok: bool)
      requires Valid()
      modifies this
      ensures Valid()
      ensures ok <==> n <= |old(freeBlocks)|
      ensures !ok ==> freeBlocks == old(freeBlocks) && tables == old(tables) && lens == old(lens)
      ensures ok ==> freeBlocks == old(freeBlocks)[..|old(freeBlocks)| - n]
      ensures ok ==> slot in tables && tables == old(tables)[slot := tables[slot]]
      ensures ok && slot in old(tables) ==>
        |tables[slot]| == |old(tables)[slot]| + n && old(tables)[slot] <= tables[slot] && lens == old(lens)
      ensures ok && slot !in old(tables) ==> |tables[slot]| == n && lens == old(lens)[slot := 0]
      ensures ok ==> tables[slot] == Table(old(tables), slot) + FromTop(old(freeBlocks), n)
    {
      if |freeBlocks| < n {
        return false;
      }
      var blocks: seq<nat> := [];
      var rest := freeBlocks;
      for i := 0 to n
        invariant |rest| == |freeBlocks| - i && rest == freeBlocks[..|freeBlocks| - i]
        invariant |blocks| == i && forall j :: 0 <= j < i ==> blocks[j] == freeBlocks[|freeBlocks| - 1 - j]
      {
        blocks := blocks + [rest[|rest| - 1]];
        rest := rest[..|rest| - 1];
      }
      assert Popped(freeBlocks, rest, blocks);
      assert blocks == FromTop(freeBlocks, n);
      Regrouped(numBlocks, freeBlocks, rest, blocks, tables, slot);
      if slot !in tables {
        lens := lens[slot := 0];
      }
      freeBlocks := rest;
      tables := tables[slot := Table(tables, slot) + blocks];
      ok := true;
    }

    /** ensure_blocks_for_length. */
    method EnsureBlocks(slot: int, neededLen: nat) returns (ok: bool)
      requires Valid()
      modifies this
      ensures Valid()
      ensures ok <==> CeilDiv(neededLen, blockSize) <= TableLen(old(tables), slot) + |old(freeBlocks)|
      ensures !ok ==> freeBlocks == old(freeBlocks) && tables == old(tables) && lens == old(lens)
      ensures ok ==> CeilDiv(neededLen, blockSize) <= TableLen(tables, slot)
      ensures ok && CeilDiv(neededLen, blockSize) <= TableLen(old(tables), slot) ==>
        tables == old(tables) && lens == old(lens)
      ensures ok && CeilDiv(neededLen, blockSize) > TableLen(old(tables), slot) ==>
        && slot in tables && tables == old(tables)[slot := tables[slot]]
        && |tables[slot]| == CeilDiv(neededLen, blockSize)
        && (slot in old(tables) ==> old(tables)[slot] <= tables[slot] && lens == old(lens))
        && (slot !in old(tables) ==> lens == old(lens)[slot := 0])
      ensures ok ==> neededLen <= Reach(slot)
      ensures forall l: nat :: l < numLayers ==> old(Row(slot, l)) <= Row(slot, l)
      ensures forall s, l: nat :: l < numLayers && s != slot ==> Row(s, l) == old(Row(s, l))
    {
      var needed := CeilDiv(neededLen, blockSize);
      var current := TableLen(tables, slot);
      ok := true;
      if needed > current {
        hide FromTop;
        ok := AllocateBlocks(slot, needed - current);
      }
      if ok { CeilDivRoom(neededLen, blockSize, TableLen(tables, slot)); }
      ProductOrder(TableLen(old(tables), slot), TableLen(tables, slot), blockSize);
      forall s, l: nat, q: nat | l < numLayers && q < old(Reach(s))
        ensures q < Reach(s) && Cell(s, l, q) == old(Cell(s, l, q))
      {
        assert old(BlockOf(s, q)) == BlockOf(s, q);
      }
    }

    /** Zero all layers of some blocks. */
    method ZeroBlocks(blocks: seq<nat>)
      requires kv.Length0 == numLayers
      modifies kv
      ensures forall l, b, o :: 0 <= l < kv.Length0 && 0 <= b < kv.Length1 && 0 <= o < kv.Length2 ==>
        kv[l, b, o] == if b in blocks then zero else old(kv[l, b, o])
    {
      for l := 0 to numLayers
        invariant forall k, b, o :: 0 <= k < kv.Length0 && 0 <= b < kv.Length1 && 0 <= o < kv.Length2 ==>
          kv[k, b, o] == if k < l && b in blocks then zero else old(kv[k, b, o])
      {
        forall b, o | 0 <= b < kv.Length1 && b in blocks && 0 <= o < kv.Length2 {
          kv[l, b, o] := zero;
        }
      }
    }

    /** free_slot: the blocks are zeroed first, then pushed on the free stack. */
    method FreeSlot(slot: int)
      requires Valid()
      modifies this, kv
      ensures Valid()
      ensures tables == Without(old(tables), slot) && lens == Without(old(lens), slot)
      ensures freeBlocks == old(freeBlocks) + Table(old(tables), slot)
      ensures forall l, b, o :: 0 <= l < kv.Length0 && 0 <= b < kv.Length1 && 0 <= o < kv.Length2 ==>
        kv[l, b, o] == if b in Table(old(tables), slot) then zero else old(kv[l, b, o])
      ensures forall s, l: nat :: l < numLayers && s != slot ==> Row(s, l) == old(Row(s, l))
    {
      var blocks := Table(tables, slot);
      ZeroBlocks(blocks);
      Returned(numBlocks, freeBlocks, tables, slot);
      freeBlocks := freeBlocks + blocks;
      tables := tables - {slot};
      lens := lens - {slot};
      forall s, l: nat, q: nat | l < numLayers && s != slot && q < Reach(s)
        ensures Cell(s, l, q) == old(Cell(s, l, q)) {
        assert BlockOf(s, q) == old(BlockOf(s, q)) && BlockOf(s, q) !in blocks;
      }
    }

    /** With fewer than max_slots other live slots, and every table within its length cap, allocation never fails. */
    lemma NeverExhausted(slot: int, neededLen: nat, maxSeqLen: nat)
      requires Valid() && numBlocks == maxSlots * maxBlocksPerSeq
      requires maxBlocksPerSeq == CeilDiv(maxSeqLen, blockSize) && neededLen <= maxSeqLen
      requires forall s :: s in tables ==> |tables[s]| <= maxBlocksPerSeq
      requires |Without(tables, slot)| < maxSlots
      ensures CeilDiv(neededLen, blockSize) <= TableLen(tables, slot) + |freeBlocks|
    {
      CeilDivMono(neededLen, maxSeqLen, blockSize);
      EnoughLeft(numBlocks, freeBlocks, tables, slot, maxSlots, maxBlocksPerSeq);
    }

    /** Two positions never share a cell: not within a slot, not across slots. */
    lemma CellsDistinct(slot: int, p: nat, slot': int, p': nat)
      requires Valid() && p < Reach(slot) && p' < Reach(slot') && (slot != slot' || p != p')
      ensures BlockOf(slot, p) != BlockOf(slot', p') || BlockOffset(p, blockSize) != BlockOffset(p', blockSize)
    {
      QuotientBelow(p, TableLen(tables, slot), blockSize);
      QuotientBelow(p', TableLen(tables, slot'), blockSize);
      assert TableOk(numBlocks, freeBlocks, tables[slot]);
      if slot != slot' {
        assert Disjoint(tables[slot], tables[slot']);
      } else if BlockIndex(p, blockSize) == BlockIndex(p', blockSize) {
        if BlockOffset(p, blockSize) == BlockOffset(p', blockSize) { PositionUnique(p, p', blockSize); }
      }
    }

    method Load(slot: int, layer: nat, p: nat) returns (v: KV)
      requires Valid() && layer < numLayers && p < Reach(slot)
      ensures v == Row(slot, layer)[p]
    {
      v := Cell(slot, layer, p);
    }

    /** Store one token's key and value at position `p` of a slot. */
    method Store(slot: int, layer: nat, p: nat, v: KV)
      requires Valid() && layer < numLayers && p < Reach(slot)
      modifies kv
      ensures Valid() && Row(slot, layer) == old(Row(slot, layer))[p := v]
      ensures forall s, l: nat :: l < numLayers && (s != slot || l != layer) ==> Row(s, l) == old(Row(s, l))
    {
      var b, o := BlockOf(slot, p), BlockOffset(p, blockSize);
      kv[layer, b, o] := v;
      forall s, l: nat, q: nat | l < numLayers && q < Reach(s) && (s != slot || l != layer || q != p)
        ensures Cell(s, l, q) == old(Cell(s, l, q))
      {
        if s != slot || q != p { CellsDistinct(s, q, slot, p); }
      }
    }

    /** A new request starts with nothing cached. */
    method Track(slot: int)
      requires Valid() && slot !in tables
      modifies this`lens
      ensures Valid() && lens == old(lens)[slot := 0] && Without(lens, slot) == Without(old(lens), slot)
      ensures forall s, l: nat :: l < numLayers ==> Row(s, l) == old(Row(s, l))
    {
      lens := lens[slot := 0];
    }

    /** advance_seq_lens_by for one slot. */
    method Advance(slot: int, count: nat)
      requires Valid() && slot in lens
      modifies this`lens
      ensures Valid() && lens == old(lens)[slot := old(lens)[slot] + count]
      ensures Without(lens, slot) == Without(old(lens), slot)
      ensures forall s, l: nat :: l < numLayers ==> Row(s, l) == old(Row(s, l))
    {
      lens := lens[slot := lens[slot] + count];
    }
  }
}
