/** The worker's side of the slot buffers: mappings, the remembered shape, and the split of what comes back. */
module WorkerSlots {
  import opened Linear
  import opened BatchedExec
  import opened SplitLora

  const MAX_SLOTS_PER_WORKER: nat := 8

  /** One entry of the fixed table.  Buffers are named by their position in the shared memory, sizes count cells. */
  datatype Context = Context(slotId: int, isOpen: bool, input: nat, output: nat, inSize: nat, outSize: nat, bx: nat,
                             tx: nat, dx: nat)

  const CLOSED := Context(-1, false, 0, 0, 0, 0, 0, 0, 0)

  function OpenCount(cs: seq<Context>): nat {
    if cs == [] then 0 else OpenCount(cs[..|cs| - 1]) + if cs[|cs| - 1].isOpen then 1 else 0
  }

  lemma {:induction false} OpenBound(cs: seq<Context>)
    ensures OpenCount(cs) <= |cs|
    ensures OpenCount(cs) == |cs| ==> forall i :: 0 <= i < |cs| ==> cs[i].isOpen
  {
    if cs != [] { OpenBound(cs[..|cs| - 1]); }
  }

  lemma {:induction false} OpenUpdate(cs: seq<Context>, i: nat, c: Context)
    requires i < |cs|
    ensures OpenCount(cs[i := c]) == OpenCount(cs) - (if cs[i].isOpen then 1 else 0) + if c.isOpen then 1 else 0
  {
    var front, last := cs[..|cs| - 1], cs[|cs| - 1];
    if i == |cs| - 1 {
      assert cs[i := c][..|cs| - 1] == front;
    } else {
      OpenUpdate(front, i, c);
      assert cs[i := c][..|cs| - 1] == front[i := c];
    }
  }

  predicate Is(c: Context, slot: int) {
    c.isOpen && c.slotId == slot
  }

  /** The first open entry for a slot, or the length of the table. */
  function Lookup(cs: seq<Context>, slot: int, from: nat): (i: nat)
    requires from <= |cs|
    ensures from <= i <= |cs| && (i < |cs| ==> cs[i].isOpen && cs[i].slotId == slot)
    ensures forall k :: from <= k < i ==> !cs[k].isOpen || cs[k].slotId != slot
    decreases |cs| - from
  {
    if from == |cs| || Is(cs[from], slot) then from else Lookup(cs, slot, from + 1)
  }

  /** The rows that lie in an output buffer, as the remembered shape reads them. */
  function RowsBack(mem: Vec, n: nat, dims: seq<nat>): (rows: Mat)
    requires n * DimsBefore(dims, |dims|) <= |mem|
    ensures Shaped(rows, n, DimsBefore(dims, |dims|))
  {
    View(mem, n, DimsBefore(dims, |dims|))
  }

  /** split_with_sizes on the last dimension: part `j` takes the j-th columns of every row. */
  function SplitRows(rows: Mat, dims: seq<nat>, j: nat): (part: Mat)
    requires j < |dims| && Shaped(rows, |rows|, DimsBefore(dims, |dims|))
    ensures Shaped(part, |rows|, dims[j])
  {
    seq(|rows|, r requires 0 <= r < |rows| && j < |dims| && |rows[r]| == DimsBefore(dims, |dims|) =>
      Part(rows[r], dims, j))
  }

  class Manager {
    const contexts: array<Context>
    var numOwned: nat
    /** Every mapped buffer, shared with the aggregator. */
    var memory: seq<Vec>

    ghost predicate Valid()
      reads this, contexts
    {
      && contexts.Length == MAX_SLOTS_PER_WORKER && numOwned == OpenCount(contexts[..])
      && forall i :: 0 <= i < contexts.Length && contexts[i].isOpen ==> Mapped(contexts[i], memory)
    }

    static ghost predicate Mapped(c: Context, memory: seq<Vec>) {
      && c.input < |memory| && c.output < |memory| && c.input != c.output
      && c.inSize <= |memory[c.input]| && c.outSize <= |memory[c.output]|
    }

    constructor (memory: seq<Vec>)
      ensures Valid() && fresh(contexts) && this.memory == memory && numOwned == 0
    {
      contexts := new Context[MAX_SLOTS_PER_WORKER](_ => CLOSED);
      numOwned := 0;
      this.memory := memory;
      new;
      NoneOpen(contexts[..]);
    }

    method Find(slot: int) returns (i: nat)
      requires Valid()
      ensures i == Lookup(contexts[..], slot, 0)
    {
      i := 0;
      while i < contexts.Length && !Is(contexts[i], slot)
        invariant 0 <= i <= contexts.Length && Lookup(contexts[..], slot, 0) == Lookup(contexts[..], slot, i)
      {
        i := i + 1;
      }
    }

    /** open_slot: false only when all entries are taken; the second test never fails on its own. */
    method Open(slot: int, input: nat, output: nat, inSize: nat, outSize: nat) returns (ok: bool)
      requires Valid() && Mapped(Context(slot, true, input, output, inSize, outSize, 0, 0, 0), memory)
      modifies this`numOwned, contexts
      ensures Valid() && (ok <==> old(numOwned) < 8)
      ensures ok ==>
        exists i :: (0 <= i < contexts.Length && !old(contexts[i]).isOpen
                     && contexts[..]
                       == old(contexts[..])[i := Context(slot, true, input, output, inSize, outSize, 0, 0, 0)])
      ensures !ok ==> contexts[..] == old(contexts[..])
    {
      if numOwned >= MAX_SLOTS_PER_WORKER { return false; }
      var i := 0;
      while i < contexts.Length && contexts[i].isOpen
        invariant 0 <= i <= contexts.Length && forall k :: 0 <= k < i ==> contexts[k].isOpen
      {
        i := i + 1;
      }
      if i == contexts.Length {
        AllOpen(contexts[..]);
        assert false;
      }
      OpenUpdate(contexts[..], i, Context(slot, true, input, output, inSize, outSize, 0, 0, 0));
      contexts[i] := Context(slot, true, input, output, inSize, outSize, 0, 0, 0);
      assert contexts[..] == old(contexts[..])[i := Context(slot, true, input, output, inSize, outSize, 0, 0, 0)];
      numOwned := numOwned + 1;
      ok := true;
    }

    /** close_slot */
    method Close(slot: int) returns (ok: bool)
      requires Valid()
      modifies this`numOwned, contexts
      ensures Valid()
      ensures var i := Lookup(old(contexts[..]), slot, 0);
        && (ok <==> i < contexts.Length)
        && contexts[..] == if ok then old(contexts[..])[i := old(contexts[..])[i].(slotId := -1, isOpen := false)]
                           else old(contexts[..])
    {
      var i := Find(slot);
      if i == contexts.Length { return false; }
      OpenUpdate(contexts[..], i, contexts[i].(slotId := -1, isOpen := false));
      contexts[i] := contexts[i].(slotId := -1, isOpen := false);
      assert contexts[..] == old(contexts[..])[i := old(contexts[..])[i].(slotId := -1, isOpen := false)];
      numOwned := numOwned - 1;
      ok := true;
    }

    /** prepare_input_slot: the rows are copied to the start of the input buffer and their shape is remembered. */
    method PrepareInput(slot: int, x: Mat, bx: nat, tx: nat, dx: nat) returns (ok: bool)
      requires Valid() && Shaped(x, bx * tx, dx)
      modifies this`memory, contexts
      ensures Valid() && numOwned == old(numOwned)
      ensures var i := Lookup(old(contexts[..]), slot, 0);
        && (ok <==> i < contexts.Length && bx * tx * dx <= old(contexts[..])[i].inSize)
        && (!ok ==> contexts[..] == old(contexts[..]) && memory == old(memory))
        && (ok ==>
              && contexts[..] == old(contexts[..])[i := old(contexts[..])[i].(bx := bx, tx := tx, dx := dx)]
              && |Flat(x)| == bx * tx * dx && old(contexts[..])[i].input < |old(memory)|
              && |Flat(x)| <= |old(memory)[old(contexts[..])[i].input]|
              && memory == old(memory)[old(contexts[..])[i].input :=
                             Overwrite(old(memory)[old(contexts[..])[i].input], Flat(x))])
    {
      var i := Find(slot);
      if i == contexts.Length { return false; }
      FlatLength(x, dx);
      var c := contexts[i];
      if bx * tx * dx > c.inSize { return false; }
      OpenUpdate(contexts[..], i, c.(bx := bx, tx := tx, dx := dx));
      memory := memory[c.input := Overwrite(memory[c.input], Flat(x))];
      contexts[i] := c.(bx := bx, tx := tx, dx := dx);
      assert contexts[..] == old(contexts[..])[i := c.(bx := bx, tx := tx, dx := dx)];
      ok := true;
    }

    /** get_outputs_slot: as many rows as the last prepared input had, split on the last dimension. */
    method GetOutputs(slot: int, dims: seq<nat>) returns (ok: bool, parts: seq<Mat>)
      requires Valid()
      ensures var i := Lookup(contexts[..], slot, 0);
        && (ok <==>
              i < contexts.Length && contexts[i].bx * contexts[i].tx * DimsBefore(dims, |dims|) <= contexts[i].outSize)
        && (ok ==>
              && contexts[i].output < |memory|
              && contexts[i].bx * contexts[i].tx * DimsBefore(dims, |dims|) <= |memory[contexts[i].output]|
              && |parts| == |dims|
              && forall j :: 0 <= j < |dims| ==>
                   parts[j] ==
                   SplitRows(RowsBack(memory[contexts[i].output], contexts[i].bx * contexts[i].tx, dims), dims, j))
    {
      parts := [];
      var i := Find(slot);
      if i == contexts.Length { return false, []; }
      var c := contexts[i];
      var total := 0;
      for j := 0 to |dims|
        invariant total == DimsBefore(dims, j)
      {
        total := total + dims[j];
      }
      if c.bx * c.tx * total > c.outSize { return false, []; }
      var rows := RowsBack(memory[c.output], c.bx * c.tx, dims);
      for j := 0 to |dims|
        invariant |parts| == j && forall k :: 0 <= k < j ==> parts[k] == SplitRows(rows, dims, k)
      {
        parts := parts + [SplitRows(rows, dims, j)];
      }
      ok := true;
    }
  }

  lemma {:induction false} NoneOpen(cs: seq<Context>)
    requires forall i :: 0 <= i < |cs| ==> !cs[i].isOpen
    ensures OpenCount(cs) == 0
  {
    if cs != [] { NoneOpen(cs[..|cs| - 1]); }
  }

  lemma {:induction false} AllOpen(cs: seq<Context>)
    requires forall i :: 0 <= i < |cs| ==> cs[i].isOpen
    ensures OpenCount(cs) == |cs|
  {
    if cs != [] { AllOpen(cs[..|cs| - 1]); }
  }

  /** After a barrier the split gives every row its own projection: part `j` of row `r` is x·Wⱼᵀ for the r-th row that
      the worker prepared, whatever else lies in the buffer. */
  lemma SplitOfOwnResult(m: Model, layer: nat, ws: seq<Mat>, x: Mat, mem: Vec, j: nat, r: nat)
    requires ModelOk(m) && layer < |m.layers| && m.layers[layer].qkv == CatRows(ws)
    requires Shaped(x, |x|, m.hidden) && r < |x| && j < |ws|
    requires forall k :: 0 <= k < |ws| ==> Shaped(ws[k], |ws[k]|, m.hidden)
    requires |SoloCells(m, Qkv, layer, x)| <= |mem|
    ensures DimsBefore(RowCounts(ws), |ws|) == m.qkvDim && |x| * m.qkvDim <= |mem|
    ensures var back := RowsBack(Overwrite(mem, SoloCells(m, Qkv, layer, x)), |x|, RowCounts(ws));
      SplitRows(back, RowCounts(ws), j)[r] == ApplyRow(ws[j], x[r])
  {
    FusedBase(ws, x[r], j);
    var y := SoloRows(m, Qkv, layer, x);
    FlatLength(y, m.qkvDim);
    ViewOfOverwrite(mem, y, m.qkvDim);
    assert y[r] == ApplyRow(CatRows(ws), x[r]);
  }

  /** The same for gate and up. */
  lemma SplitOfGateUp(m: Model, layer: nat, ws: seq<Mat>, x: Mat, mem: Vec, j: nat, r: nat)
    requires ModelOk(m) && layer < |m.layers| && m.layers[layer].gateUp == CatRows(ws)
    requires Shaped(x, |x|, m.hidden) && r < |x| && j < |ws|
    requires forall k :: 0 <= k < |ws| ==> Shaped(ws[k], |ws[k]|, m.hidden)
    requires |SoloCells(m, GateUp, layer, x)| <= |mem|
    ensures DimsBefore(RowCounts(ws), |ws|) == m.gateUpDim && |x| * m.gateUpDim <= |mem|
    ensures var back := RowsBack(Overwrite(mem, SoloCells(m, GateUp, layer, x)), |x|, RowCounts(ws));
      SplitRows(back, RowCounts(ws), j)[r] == ApplyRow(ws[j], x[r])
  {
    FusedBase(ws, x[r], j);
    var y := SoloRows(m, GateUp, layer, x);
    FlatLength(y, m.gateUpDim);
    ViewOfOverwrite(mem, y, m.gateUpDim);
    assert y[r] == ApplyRow(CatRows(ws), x[r]);
  }
}
