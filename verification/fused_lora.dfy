/** Construction of the fused LoRA tensors, and the worker's forward pass through them. */
module FusedLora {
  import opened Linear
  import opened SplitLora
  import opened Wrappers

  /** cat([Aᵀ·s, ...], dim=1), one row per input feature. */
  function FusedARow(mods: seq<Option<LoraModule>>, rank: nat, inF: nat, k: nat): (row: Vec)
    requires k < inF && forall i :: 0 <= i < |mods| && mods[i].Some? ==> Shaped(mods[i].value.a, rank, inF)
    ensures |row| == BlockStart(|mods|, rank)
  {
    if mods == [] then []
    else FusedARow(mods[..|mods| - 1], rank, inF, k) + BlockARow(mods[|mods| - 1], rank, inF, k)
  }

  function BlockARow(md: Option<LoraModule>, rank: nat, inF: nat, k: nat): (row: Vec)
    requires k < inF && (md.Some? ==> Shaped(md.value.a, rank, inF))
    ensures |row| == rank
  {
    seq(rank, r requires 0 <= r < rank && k < inF && (md.Some? ==> Shaped(md.value.a, rank, inF)) =>
      BlockColumn(md, rank, inF, r)[k])
  }

  function FusedAOf(mods: seq<Option<LoraModule>>, dims: seq<nat>, rank: nat, inF: nat): (fa: Mat)
    requires GroupOk(mods, dims, rank, inF)
    ensures Shaped(fa, inF, BlockStart(|mods|, rank))
  {
    seq(inF, k requires 0 <= k < inF && GroupOk(mods, dims, rank, inF) => FusedARow(mods, rank, inF, k))
  }

  /** Entry (at, c) once the first `n` blocks have been written over zeros. */
  function BlockEntry(mods: seq<Option<LoraModule>>, dims: seq<nat>, rank: nat, inF: nat, n: nat, at: nat, c: nat): real
    requires GroupOk(mods, dims, rank, inF) && n <= |mods|
  {
    if n == 0 then 0.0
    else if BlockStart(n - 1, rank) <= at < BlockStart(n - 1, rank) + rank
         && DimsBefore(dims, n - 1) <= c < DimsBefore(dims, n - 1) + dims[n - 1] then
      BlockRow(mods[n - 1], rank, dims[n - 1], c - DimsBefore(dims, n - 1))[at - BlockStart(n - 1, rank)]
    else BlockEntry(mods, dims, rank, inF, n - 1, at, c)
  }

  function FusedBOf(mods: seq<Option<LoraModule>>, dims: seq<nat>, rank: nat, inF: nat): (fb: Mat)
    requires GroupOk(mods, dims, rank, inF)
    ensures Shaped(fb, BlockStart(|mods|, rank), DimsBefore(dims, |dims|))
  {
    PartialB(mods, dims, rank, inF, |mods|)
  }

  function PartialB(mods: seq<Option<LoraModule>>, dims: seq<nat>, rank: nat, inF: nat, n: nat): (fb: Mat)
    requires GroupOk(mods, dims, rank, inF) && n <= |mods|
    ensures Shaped(fb, BlockStart(|mods|, rank), DimsBefore(dims, |dims|))
    ensures forall at, c :: 0 <= at < |fb| && 0 <= c < |fb[at]| ==>
      fb[at][c] == BlockEntry(mods, dims, rank, inF, n, at, c)
  {
    seq(BlockStart(|mods|, rank), at requires 0 <= at && GroupOk(mods, dims, rank, inF) && n <= |mods| =>
      seq(DimsBefore(dims, |dims|), c requires 0 <= c && GroupOk(mods, dims, rank, inF) && n <= |mods| =>
        BlockEntry(mods, dims, rank, inF, n, at, c)))
  }

  lemma {:induction false} FusedARowAt(mods: seq<Option<LoraModule>>, rank: nat, inF: nat, k: nat, i: nat, r: nat)
    requires k < inF && forall j :: 0 <= j < |mods| && mods[j].Some? ==> Shaped(mods[j].value.a, rank, inF)
    requires i < |mods| && r < rank
    ensures BlockStart(i, rank) + r < BlockStart(|mods|, rank)
    ensures FusedARow(mods, rank, inF, k)[BlockStart(i, rank) + r] == BlockColumn(mods[i], rank, inF, r)[k]
  {
    BlocksGrow(i + 1, |mods|, rank);
    if i < |mods| - 1 {
      FusedARowAt(mods[..|mods| - 1], rank, inF, k, i, r);
    }
  }

  lemma FusedAOfOk(mods: seq<Option<LoraModule>>, dims: seq<nat>, rank: nat, inF: nat)
    requires GroupOk(mods, dims, rank, inF)
    ensures IsFusedA(FusedAOf(mods, dims, rank, inF), mods, dims, rank, inF)
  {
    var fa := FusedAOf(mods, dims, rank, inF);
    forall i, r | 0 <= i < |mods| && 0 <= r < rank ensures FusedColumn(fa, mods[i], rank, inF, i, r) {
      BlocksGrow(i + 1, |mods|, rank);
      forall k | 0 <= k < inF
        ensures fa[k][BlockStart(i, rank) + r] == BlockColumn(mods[i], rank, inF, r)[k]
      {
        FusedARowAt(mods, rank, inF, k, i, r);
      }
    }
  }

  lemma {:induction false} BlockEntryIs(mods: seq<Option<LoraModule>>, dims: seq<nat>, rank: nat, inF: nat, n: nat,
                                        at: nat, i: nat, o: nat)
    requires GroupOk(mods, dims, rank, inF) && n <= |mods| && i < |mods| && o < dims[i]
    ensures BlockEntry(mods, dims, rank, inF, n, at, DimsBefore(dims, i) + o)
         == if i < n && BlockStart(i, rank) <= at < BlockStart(i, rank) + rank
            then BlockRow(mods[i], rank, dims[i], o)[at - BlockStart(i, rank)] else 0.0
  {
    if n > 0 {
      BlockEntryIs(mods, dims, rank, inF, n - 1, at, i, o);
      if i < n - 1 { DimsGrow(dims, i + 1, n - 1); } else if i > n - 1 { DimsGrow(dims, n, i); }
    }
  }

  lemma FusedBOfOk(mods: seq<Option<LoraModule>>, dims: seq<nat>, rank: nat, inF: nat)
    requires GroupOk(mods, dims, rank, inF)
    ensures IsFusedB(FusedBOf(mods, dims, rank, inF), mods, dims, rank, inF)
  {
    var fb := FusedBOf(mods, dims, rank, inF);
    forall i, o | 0 <= i < |mods| && 0 <= o < dims[i]
      ensures DiagonalColumn(fb, BlockStart(i, rank), BlockRow(mods[i], rank, dims[i], o), DimsBefore(dims, i) + o)
    {
      FusedBColumn(mods, dims, rank, inF, i, o);
    }
  }

  lemma FusedBColumn(mods: seq<Option<LoraModule>>, dims: seq<nat>, rank: nat, inF: nat, i: nat, o: nat)
    requires GroupOk(mods, dims, rank, inF) && i < |mods| && o < dims[i]
    ensures DiagonalColumn(FusedBOf(mods, dims, rank, inF), BlockStart(i, rank), BlockRow(mods[i], rank, dims[i], o),
                           DimsBefore(dims, i) + o)
  {
    var fb, block := FusedBOf(mods, dims, rank, inF), BlockRow(mods[i], rank, dims[i], o);
    DimsGrow(dims, i + 1, |dims|);
    BlocksGrow(i + 1, |mods|, rank);
    hide BlockRow, BlockEntry;
    forall at | 0 <= at < |fb|
      ensures fb[at][DimsBefore(dims, i) + o]
           == if BlockStart(i, rank) <= at < BlockStart(i, rank) + rank then block[at - BlockStart(i, rank)] else 0.0
    {
      BlockEntryIs(mods, dims, rank, inF, |mods|, at, i, o);
    }
  }

  datatype Tensors = Tensors(fusedA: Mat, fusedB: Mat)

  /** Some module of the group is present. */
  predicate Covers(mods: seq<Option<LoraModule>>) {
    exists i :: 0 <= i < |mods| && mods[i].Some?
  }

  function TensorsOf(mods: seq<Option<LoraModule>>, dims: seq<nat>, rank: nat, inF: nat): Tensors
    requires GroupOk(mods, dims, rank, inF)
  {
    Tensors(FusedAOf(mods, dims, rank, inF), FusedBOf(mods, dims, rank, inF))
  }

  /** The loop over the group that appends each module's scaled A columns. */
  method ConcatA(mods: seq<Option<LoraModule>>, dims: seq<nat>, rank: nat, inF: nat) returns (fa: Mat)
    requires GroupOk(mods, dims, rank, inF)
    ensures fa == FusedAOf(mods, dims, rank, inF)
  {
    fa := seq(inF, _ => []);
    for i := 0 to |mods|
      invariant |fa| == inF
      invariant forall k :: 0 <= k < inF ==> fa[k] == FusedARow(mods[..i], rank, inF, k)
    {
      var cur := fa;
      ghost var front := mods[..i + 1];
      assert front[..|front| - 1] == mods[..i];
      fa := seq(inF, k
        requires 0 <= k < inF && |cur| == inF && (mods[i].Some? ==> Shaped(mods[i].value.a, rank, inF)) =>
        cur[k] + BlockARow(mods[i], rank, inF, k));
      forall k | 0 <= k < inF ensures fa[k] == FusedARow(front, rank, inF, k) {
        assert fa[k] == cur[k] + BlockARow(mods[i], rank, inF, k);
      }
    }
    assert mods[..|mods|] == mods;
  }

  /** The loop that copies each module's B block over zeros. */
  method FillB(mods: seq<Option<LoraModule>>, dims: seq<nat>, rank: nat, inF: nat) returns (fb: Mat)
    requires GroupOk(mods, dims, rank, inF)
    ensures fb == FusedBOf(mods, dims, rank, inF)
  {
    var rows, cols := BlockStart(|mods|, rank), DimsBefore(dims, |dims|);
    fb := seq(rows, _ => ZeroVec(cols));
    SameEntries(fb, PartialB(mods, dims, rank, inF, 0), rows, cols);
    for i := 0 to |mods|
      invariant fb == PartialB(mods, dims, rank, inF, i)
    {
      DimsGrow(dims, i + 1, |dims|);
      var next := WithBlock(fb, BlockStart(i, rank), DimsBefore(dims, i), mods[i], rank, dims[i]);
      assert next == PartialB(mods, dims, rank, inF, i + 1) by {
        SameEntries(next, PartialB(mods, dims, rank, inF, i + 1), rows, cols);
      }
      fb := next;
    }
  }

  /** Construction of the fused tensors of one group. */
  method BuildTensors(mods: seq<Option<LoraModule>>, dims: seq<nat>, rank: nat, inF: nat) returns (t: Tensors)
    requires GroupOk(mods, dims, rank, inF)
    ensures t == TensorsOf(mods, dims, rank, inF)
  {
    var fa := ConcatA(mods, dims, rank, inF);
    var fb := FillB(mods, dims, rank, inF);
    t := Tensors(fa, fb);
  }

  lemma SameEntries(m: Mat, n: Mat, rows: nat, cols: nat)
    requires Shaped(m, rows, cols) && Shaped(n, rows, cols)
    requires forall r, c :: 0 <= r < rows && 0 <= c < cols ==> m[r][c] == n[r][c]
    ensures m == n
  {
    forall r | 0 <= r < rows ensures m[r] == n[r] {
    }
  }

  /** fused_B[row : row + rank, col : col + width] = Bᵀ */
  function WithBlock(m: Mat, row: nat, col: nat, md: Option<LoraModule>, rank: nat, width: nat): (r: Mat)
    requires forall k :: 0 <= k < |m| ==> col + width <= |m[k]|
    requires md.Some? ==> Shaped(md.value.b, width, rank)
    ensures |r| == |m| && forall k :: 0 <= k < |m| ==> |r[k]| == |m[k]|
    ensures forall k, c :: 0 <= k < |m| && 0 <= c < |m[k]| ==>
      r[k][c] == if row <= k < row + rank && col <= c < col + width then BlockRow(md, rank, width, c - col)[k - row]
                 else m[k][c]
  {
    seq(|m|, k requires 0 <= k < |m| && col + width <= |m[k]| && (md.Some? ==> Shaped(md.value.b, width, rank)) =>
      seq(|m[k]|, c requires 0 <= c < |m[k]| && 0 <= k < |m| && (md.Some? ==> Shaped(md.value.b, width, rank)) =>
        if row <= k < row + rank && col <= c < col + width then BlockRow(md, rank, width, c - col)[k - row]
        else m[k][c]))
  }

  /** The forward pass over built tensors gives every projection its own delta; a group with no module gives none. */
  method ForwardSplit(t: Tensors, mods: seq<Option<LoraModule>>, dims: seq<nat>, rank: nat, x: Vec)
    returns (deltas: seq<Option<Vec>>)
    requires GroupOk(mods, dims, rank, |x|) && t == TensorsOf(mods, dims, rank, |x|)
    ensures |deltas| == |mods|
    ensures !Covers(mods) ==> forall i :: 0 <= i < |mods| ==> deltas[i] == None
    ensures Covers(mods) ==> forall i :: 0 <= i < |mods| ==> deltas[i] == Some(OwnDelta(mods[i], rank, dims[i], x))
  {
    if !Covers(mods) {
      return seq(|mods|, _ => None);
    }
    FusedAOfOk(mods, dims, rank, |x|);
    FusedBOfOk(mods, dims, rank, |x|);
    var y := Forward(x, t.fusedA, t.fusedB, BlockStart(|mods|, rank), DimsBefore(dims, |dims|));
    deltas := [];
    for i := 0 to |mods|
      invariant |deltas| == i
      invariant forall j :: 0 <= j < i ==> deltas[j] == Some(OwnDelta(mods[j], rank, dims[j], x))
    {
      FusedDelta(mods, dims, rank, x, t.fusedA, t.fusedB, i);
      deltas := deltas + [Some(Part(y, dims, i))];
    }
  }
}
