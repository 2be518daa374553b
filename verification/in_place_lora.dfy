/** Overwriting the tensors of an existing LoRA module with those of another adapter. */
module InPlaceLora {
  import opened Linear
  import opened SplitLora
  import opened FusedLora
  import opened Wrappers

  // ----- dst.copy_(src): the source is stretched along every dimension in which it has length one -----

  ghost predicate Rect(m: Mat) {
    |m| > 0 && |m[0]| > 0 && Shaped(m, |m|, |m[0]|)
  }

  predicate CanCopy(dst: Mat, src: Mat)
    requires |dst| > 0 && |src| > 0
  {
    (|src| == |dst| || |src| == 1) && (|src[0]| == |dst[0]| || |src[0]| == 1)
  }

  function Copied(dst: Mat, src: Mat): (m: Mat)
    requires Rect(dst) && Rect(src) && CanCopy(dst, src)
    ensures Shaped(m, |dst|, |dst[0]|)
  {
    seq(|dst|, i requires 0 <= i < |dst| && Rect(dst) && Rect(src) && CanCopy(dst, src) =>
      seq(|dst[i]|, j requires 0 <= j < |dst[i]| && 0 <= i < |dst| && Rect(dst) && Rect(src) && CanCopy(dst, src) =>
        src[if |src| == 1 then 0 else i][if |src[0]| == 1 then 0 else j]))
  }

  lemma CopyOfSameShape(dst: Mat, src: Mat)
    requires Rect(dst) && Rect(src) && |dst| == |src| && |dst[0]| == |src[0]|
    ensures CanCopy(dst, src) && Copied(dst, src) == src
  {
    SameEntries(Copied(dst, src), src, |src|, |src[0]|);
  }

  // ----- One fused module -----

  function ZeroMat(rows: nat, cols: nat): (m: Mat)
    ensures Shaped(m, rows, cols)
  {
    seq(rows, _ => ZeroVec(cols))
  }

  /** A.t() * s */
  function ScaledTranspose(a: Mat, s: real): (t: Mat)
    requires Rect(a)
    ensures Shaped(t, |a[0]|, |a|)
  {
    seq(|a[0]|, k requires 0 <= k < |a[0]| && Rect(a) =>
      seq(|a|, r requires 0 <= r < |a| && 0 <= k < |a[0]| && Rect(a) => Times(s, a[r][k])))
  }

  /** B.t() */
  function Transpose(b: Mat): (t: Mat)
    requires Rect(b)
    ensures Shaped(t, |b[0]|, |b|)
  {
    seq(|b[0]|, r requires 0 <= r < |b[0]| && Rect(b) =>
      seq(|b|, o requires 0 <= o < |b| && 0 <= r < |b[0]| && Rect(b) => b[o][r]))
  }

  /** The modules' own parts of the two tensors, zeros for a missing module. */
  function PartA(md: Option<LoraModule>, s: real, rank: nat, inF: nat): (p: Mat)
    requires md.Some? ==> Rect(md.value.a) && Shaped(md.value.a, rank, inF)
    ensures Shaped(p, inF, rank)
  {
    if md.Some? then ScaledTranspose(md.value.a, s) else ZeroMat(inF, rank)
  }

  function PartB(md: Option<LoraModule>, rank: nat, width: nat): (p: Mat)
    requires md.Some? ==> Rect(md.value.b) && Shaped(md.value.b, width, rank)
    ensures Shaped(p, rank, width)
  {
    if md.Some? then Transpose(md.value.b) else ZeroMat(rank, width)
  }

  ghost predicate PartsOk(parts: seq<Mat>, rows: nat, rank: nat) {
    forall i :: 0 <= i < |parts| ==> Shaped(parts[i], rows, rank)
  }

  /** Row k of torch.cat(parts, dim=1). */
  function CatRow(parts: seq<Mat>, k: nat): Vec
    requires forall i :: 0 <= i < |parts| ==> k < |parts[i]|
  {
    if parts == [] then [] else CatRow(parts[..|parts| - 1], k) + parts[|parts| - 1][k]
  }

  function CatCols(parts: seq<Mat>): Mat
    requires parts != [] && forall i :: 0 <= i < |parts| ==> |parts[i]| == |parts[0]|
  {
    seq(|parts[0]|, k requires 0 <= k < |parts[0]| && forall i :: 0 <= i < |parts| ==> |parts[i]| == |parts[0]| =>
      CatRow(parts, k))
  }

  /** m[row : row + |block|, col : col + width] = block */
  function Pasted(m: Mat, row: nat, col: nat, block: Mat, width: nat): (r: Mat)
    requires Shaped(block, |block|, width)
    ensures |r| == |m| && forall k :: 0 <= k < |m| ==> |r[k]| == |m[k]|
  {
    seq(|m|, k requires 0 <= k < |m| && Shaped(block, |block|, width) =>
      seq(|m[k]|, c requires 0 <= c < |m[k]| && 0 <= k < |m| && Shaped(block, |block|, width) =>
        if row <= k < row + |block| && col <= c < col + width then block[k - row][c - col] else m[k][c]))
  }

  ghost predicate BlocksOk(blocks: seq<Mat>, dims: seq<nat>, rank: nat) {
    |blocks| == |dims| && forall i :: 0 <= i < |blocks| ==> Shaped(blocks[i], rank, dims[i])
  }

  /** The first `n` blocks pasted along the diagonal of a zero matrix. */
  function Diagonal(blocks: seq<Mat>, dims: seq<nat>, rank: nat, n: nat): (m: Mat)
    requires BlocksOk(blocks, dims, rank) && n <= |blocks|
    ensures Shaped(m, BlockStart(|blocks|, rank), DimsBefore(dims, |dims|))
  {
    if n == 0 then ZeroMat(BlockStart(|blocks|, rank), DimsBefore(dims, |dims|))
    else
      Pasted(Diagonal(blocks, dims, rank, n - 1), BlockStart(n - 1, rank), DimsBefore(dims, n - 1), blocks[n - 1],
             dims[n - 1])
  }

  /** The rank of the first module that is present. */
  function RankOf(mods: seq<Option<LoraModule>>): nat
    requires Covers(mods)
  {
    if mods[0].Some? then |mods[0].value.a|
    else
      assert Covers(mods[1..]) by {
        var i :| 0 <= i < |mods| && mods[i].Some?;
        assert mods[1..][i - 1].Some?;
      }
      RankOf(mods[1..])
  }

  lemma {:induction false} RankOfGroup(mods: seq<Option<LoraModule>>, dims: seq<nat>, rank: nat, inF: nat)
    requires Covers(mods) && GroupOk(mods, dims, rank, inF)
    ensures RankOf(mods) == rank
  {
    if mods[0].None? {
      var i :| 0 <= i < |mods| && mods[i].Some?;
      assert mods[1..][i - 1].Some?;
      RankOfGroup(mods[1..], dims[1..], rank, inF);
    }
  }

  // ----- The tensors computed in place are those of the constructor -----

  function PartsA(mods: seq<Option<LoraModule>>, s: real, dims: seq<nat>, rank: nat, inF: nat): (parts: seq<Mat>)
    requires GroupOk(mods, dims, rank, inF) && rank > 0 && inF > 0
    ensures |parts| == |mods| && PartsOk(parts, inF, rank)
  {
    seq(|mods|, i requires 0 <= i < |mods| && GroupOk(mods, dims, rank, inF) && rank > 0 && inF > 0 =>
      PartA(mods[i], s, rank, inF))
  }

  function PartsB(mods: seq<Option<LoraModule>>, dims: seq<nat>, rank: nat, inF: nat): (blocks: seq<Mat>)
    requires GroupOk(mods, dims, rank, inF) && rank > 0 && forall i :: 0 <= i < |dims| ==> dims[i] > 0
    ensures BlocksOk(blocks, dims, rank)
  {
    seq(|mods|, i requires 0 <= i < |mods| == |dims| && GroupOk(mods, dims, rank, inF) && rank > 0 && dims[i] > 0 =>
      PartB(mods[i], rank, dims[i]))
  }

  /** The module carries the scaling that its adapter's configuration gives. */
  predicate Scaled(mods: seq<Option<LoraModule>>, s: real) {
    forall i :: 0 <= i < |mods| && mods[i].Some? ==> mods[i].value.scaling == s
  }

  lemma PartAIsBlock(md: Option<LoraModule>, s: real, rank: nat, inF: nat, k: nat)
    requires md.Some? ==> Rect(md.value.a) && Shaped(md.value.a, rank, inF) && md.value.scaling == s
    requires k < inF
    ensures PartA(md, s, rank, inF)[k] == BlockARow(md, rank, inF, k)
  {
    forall r: nat | r < rank ensures PartA(md, s, rank, inF)[k][r] == BlockARow(md, rank, inF, k)[r] {
      if md.Some? { ScaleAt(s, md.value.a[r], k); }
    }
  }

  lemma {:induction false} CatRowIsFused(mods: seq<Option<LoraModule>>, s: real, dims: seq<nat>, rank: nat, inF: nat,
                                         k: nat)
    requires GroupOk(mods, dims, rank, inF) && rank > 0 && inF > 0 && Scaled(mods, s) && k < inF
    ensures CatRow(PartsA(mods, s, dims, rank, inF), k) == FusedARow(mods, rank, inF, k)
  {
    if mods != [] {
      var n := |mods| - 1;
      var parts := PartsA(mods, s, dims, rank, inF);
      assert parts[..n] == PartsA(mods[..n], s, dims[..n], rank, inF);
      CatRowIsFused(mods[..n], s, dims[..n], rank, inF, k);
      PartAIsBlock(mods[n], s, rank, inF, k);
    }
  }

  lemma CatIsFusedA(mods: seq<Option<LoraModule>>, s: real, dims: seq<nat>, rank: nat, inF: nat)
    requires GroupOk(mods, dims, rank, inF) && rank > 0 && inF > 0 && Scaled(mods, s) && mods != []
    ensures CatCols(PartsA(mods, s, dims, rank, inF)) == FusedAOf(mods, dims, rank, inF)
  {
    forall k: nat | k < inF
      ensures CatCols(PartsA(mods, s, dims, rank, inF))[k] == FusedAOf(mods, dims, rank, inF)[k]
    {
      CatRowIsFused(mods, s, dims, rank, inF, k);
    }
  }

  lemma PartBIsBlock(md: Option<LoraModule>, rank: nat, width: nat, r: nat, o: nat)
    requires md.Some? ==> Rect(md.value.b) && Shaped(md.value.b, width, rank)
    requires r < rank && o < width
    ensures PartB(md, rank, width)[r][o] == BlockRow(md, rank, width, o)[r]
  {
  }

  /** Pasting one more block sets the entries of that block and no other. */
  lemma PastedEntry(mods: seq<Option<LoraModule>>, dims: seq<nat>, rank: nat, inF: nat, n: nat, m: Mat, at: nat, c: nat)
    requires GroupOk(mods, dims, rank, inF) && rank > 0 && 0 < n <= |mods| && dims[n - 1] > 0
    requires at < |m| && c < |m[at]| && m[at][c] == BlockEntry(mods, dims, rank, inF, n - 1, at, c)
    ensures Pasted(m, BlockStart(n - 1, rank), DimsBefore(dims, n - 1), PartB(mods[n - 1], rank, dims[n - 1]),
                   dims[n - 1])[at][c]
         == BlockEntry(mods, dims, rank, inF, n, at, c)
  {
    var row, col := BlockStart(n - 1, rank), DimsBefore(dims, n - 1);
    if row <= at < row + rank && col <= c < col + dims[n - 1] {
      PartBIsBlock(mods[n - 1], rank, dims[n - 1], at - row, c - col);
    }
  }

  lemma PastedIsPartial(mods: seq<Option<LoraModule>>, dims: seq<nat>, rank: nat, inF: nat, n: nat)
    requires GroupOk(mods, dims, rank, inF) && rank > 0 && 0 < n <= |mods| && dims[n - 1] > 0
    ensures Pasted(PartialB(mods, dims, rank, inF, n - 1), BlockStart(n - 1, rank), DimsBefore(dims, n - 1),
                   PartB(mods[n - 1], rank, dims[n - 1]), dims[n - 1])
         == PartialB(mods, dims, rank, inF, n)
  {
    var m, want := PartialB(mods, dims, rank, inF, n - 1), PartialB(mods, dims, rank, inF, n);
    var got := Pasted(m, BlockStart(n - 1, rank), DimsBefore(dims, n - 1), PartB(mods[n - 1], rank, dims[n - 1]),
                      dims[n - 1]);
    hide Pasted, PartB, BlockEntry;
    forall at, c | 0 <= at < BlockStart(|mods|, rank) && 0 <= c < DimsBefore(dims, |dims|)
      ensures got[at][c] == want[at][c]
    {
      PastedEntry(mods, dims, rank, inF, n, m, at, c);
    }
    SameEntries(got, want, BlockStart(|mods|, rank), DimsBefore(dims, |dims|));
  }

  lemma NoBlocks(mods: seq<Option<LoraModule>>, dims: seq<nat>, rank: nat, inF: nat)
    requires GroupOk(mods, dims, rank, inF)
    ensures ZeroMat(BlockStart(|mods|, rank), DimsBefore(dims, |dims|)) == PartialB(mods, dims, rank, inF, 0)
  {
    SameEntries(ZeroMat(BlockStart(|mods|, rank), DimsBefore(dims, |dims|)), PartialB(mods, dims, rank, inF, 0),
                BlockStart(|mods|, rank), DimsBefore(dims, |dims|));
  }

  lemma {:induction false} DiagonalIsPartial(mods: seq<Option<LoraModule>>, dims: seq<nat>, rank: nat, inF: nat, n: nat)
    requires GroupOk(mods, dims, rank, inF) && rank > 0 && n <= |mods|
    requires forall i :: 0 <= i < |dims| ==> dims[i] > 0
    ensures Diagonal(PartsB(mods, dims, rank, inF), dims, rank, n) == PartialB(mods, dims, rank, inF, n)
  {
    hide Pasted, PartialB, PartB;
    if n == 0 {
      NoBlocks(mods, dims, rank, inF);
    } else {
      DiagonalIsPartial(mods, dims, rank, inF, n - 1);
      PastedIsPartial(mods, dims, rank, inF, n);
    }
  }

  // ----- Updating one existing module -----

  datatype Outcome<T> = Outcome(value: T, ok: bool)

  /** The fused tensors of a group, built at some rank. */
  ghost predicate FusedAt(t: Tensors, dims: seq<nat>, rank: nat, inF: nat) {
    && Shaped(t.fusedA, inF, BlockStart(|dims|, rank))
    && Shaped(t.fusedB, BlockStart(|dims|, rank), DimsBefore(dims, |dims|))
  }

  /** An existing fused module of the group's widths and the new modules for it. */
  ghost predicate Updatable(t: Tensors, mods: seq<Option<LoraModule>>, dims: seq<nat>) {
    && |mods| == |dims| > 1 && (forall i :: 0 <= i < |dims| ==> dims[i] > 0)
    && Rect(t.fusedA) && Rect(t.fusedB)
    && (Covers(mods) ==> RankOf(mods) > 0 && GroupOk(mods, dims, RankOf(mods), |t.fusedA|))
  }

  function NewA(t: Tensors, mods: seq<Option<LoraModule>>, dims: seq<nat>, s: real): Mat
    requires Updatable(t, mods, dims) && Covers(mods)
  {
    CatCols(PartsA(mods, s, dims, RankOf(mods), |t.fusedA|))
  }

  function NewB(t: Tensors, mods: seq<Option<LoraModule>>, dims: seq<nat>): Mat
    requires Updatable(t, mods, dims) && Covers(mods)
  {
    Diagonal(PartsB(mods, dims, RankOf(mods), |t.fusedA|), dims, RankOf(mods), |mods|)
  }

  lemma NewTensorsAreBuilt(t: Tensors, mods: seq<Option<LoraModule>>, dims: seq<nat>, s: real)
    requires Updatable(t, mods, dims) && Covers(mods) && Scaled(mods, s)
    ensures Tensors(NewA(t, mods, dims, s), NewB(t, mods, dims)) == TensorsOf(mods, dims, RankOf(mods), |t.fusedA|)
  {
    CatIsFusedA(mods, s, dims, RankOf(mods), |t.fusedA|);
    DiagonalIsPartial(mods, dims, RankOf(mods), |t.fusedA|, |mods|);
  }

  lemma {:induction false} CatRowLength(parts: seq<Mat>, rows: nat, rank: nat, k: nat)
    requires PartsOk(parts, rows, rank) && k < rows
    ensures |CatRow(parts, k)| == BlockStart(|parts|, rank)
  {
    if parts != [] { CatRowLength(parts[..|parts| - 1], rows, rank, k); }
  }

  lemma NewShapes(t: Tensors, mods: seq<Option<LoraModule>>, dims: seq<nat>, s: real)
    requires Updatable(t, mods, dims) && Covers(mods)
    ensures Shaped(NewA(t, mods, dims, s), |t.fusedA|, BlockStart(|dims|, RankOf(mods))) && Rect(NewA(t, mods, dims, s))
    ensures Shaped(NewB(t, mods, dims), BlockStart(|dims|, RankOf(mods)), DimsBefore(dims, |dims|))
    ensures Rect(NewB(t, mods, dims))
  {
    var parts := PartsA(mods, s, dims, RankOf(mods), |t.fusedA|);
    forall k: nat | k < |t.fusedA| ensures |CatRow(parts, k)| == BlockStart(|dims|, RankOf(mods)) {
      CatRowLength(parts, |t.fusedA|, RankOf(mods), k);
    }
    BlocksGrow(1, |dims|, RankOf(mods));
    DimsGrow(dims, 1, |dims|);
    assert BlockStart(1, RankOf(mods)) == RankOf(mods) && DimsBefore(dims, 1) == dims[0];
  }

  /** What the in-place update makes of an existing fused module: both tensors are computed anew and copied over the old
      ones, fused_A first; a group of which the new adapter has no module is left alone. */
  function UpdatedFused(t: Tensors, mods: seq<Option<LoraModule>>, dims: seq<nat>, s: real): Outcome<Tensors>
    requires Updatable(t, mods, dims)
  {
    if !Covers(mods) then Outcome(t, true)
    else
      NewShapes(t, mods, dims, s);
      var a, b := NewA(t, mods, dims, s), NewB(t, mods, dims);
      if !CanCopy(t.fusedA, a) then Outcome(t, false)
      else if !CanCopy(t.fusedB, b) then Outcome(t.(fusedA := Copied(t.fusedA, a)), false)
      else Outcome(Tensors(Copied(t.fusedA, a), Copied(t.fusedB, b)), true)
  }

  /** The loop over the new modules. */
  method CollectParts(t: Tensors, mods: seq<Option<LoraModule>>, dims: seq<nat>, s: real, rank: nat)
    returns (aWeights: seq<Mat>, bWeights: seq<Mat>)
    requires Updatable(t, mods, dims) && Covers(mods) && rank == RankOf(mods)
    ensures aWeights == PartsA(mods, s, dims, rank, |t.fusedA|) && bWeights == PartsB(mods, dims, rank, |t.fusedA|)
  {
    var inF := |t.fusedA|;
    aWeights, bWeights := [], [];
    hide PartA, PartB;
    for i := 0 to |mods|
      invariant |aWeights| == |bWeights| == i
      invariant forall j :: 0 <= j < i ==> aWeights[j] == PartA(mods[j], s, rank, inF)
      invariant forall j :: 0 <= j < i ==> bWeights[j] == PartB(mods[j], rank, dims[j])
    {
      aWeights := aWeights + [PartA(mods[i], s, rank, inF)];
      bWeights := bWeights + [PartB(mods[i], rank, dims[i])];
    }
  }

  /** The loop that copies the blocks over zeros. */
  method PasteBlocks(bWeights: seq<Mat>, dims: seq<nat>, rank: nat) returns (newB: Mat)
    requires BlocksOk(bWeights, dims, rank)
    ensures newB == Diagonal(bWeights, dims, rank, |bWeights|)
  {
    newB := ZeroMat(BlockStart(|bWeights|, rank), DimsBefore(dims, |dims|));
    var col := 0;
    for i := 0 to |bWeights|
      invariant newB == Diagonal(bWeights, dims, rank, i) && col == DimsBefore(dims, i)
    {
      newB := Pasted(newB, BlockStart(i, rank), col, bWeights[i], dims[i]);
      col := col + dims[i];
    }
  }

  method UpdateFusedLora(t: Tensors, mods: seq<Option<LoraModule>>, dims: seq<nat>, s: real)
    returns (res: Tensors, ok: bool)
    requires Updatable(t, mods, dims)
    ensures Outcome(res, ok) == UpdatedFused(t, mods, dims, s)
  {
    if !Covers(mods) {
      return t, true;
    }
    NewShapes(t, mods, dims, s);
    var aWeights, bWeights := CollectParts(t, mods, dims, s, RankOf(mods));
    hide Copied, CanCopy, CatCols, PartsA, PartsB, Diagonal, Rect;
    var newA := CatCols(aWeights);
    if !CanCopy(t.fusedA, newA) {
      return t, false;
    }
    res := t.(fusedA := Copied(t.fusedA, newA));
    var newB := PasteBlocks(bWeights, dims, RankOf(mods));
    if !CanCopy(t.fusedB, newB) {
      return res, false;
    }
    return res.(fusedB := Copied(t.fusedB, newB)), true;
  }

  /** Against a module built at rank `built`, the update of a group that both adapters cover fails, with nothing
      written, exactly when the ranks differ, and else leaves what the constructor builds for the new adapter. */
  lemma FusedUpdateExactly(t: Tensors, mods: seq<Option<LoraModule>>, dims: seq<nat>, s: real, built: nat)
    requires Updatable(t, mods, dims) && Covers(mods) && Scaled(mods, s) && built > 0
    requires FusedAt(t, dims, built, |t.fusedA|)
    ensures built == RankOf(mods) ==>
      UpdatedFused(t, mods, dims, s) == Outcome(TensorsOf(mods, dims, built, |t.fusedA|), true)
    ensures built != RankOf(mods) ==> UpdatedFused(t, mods, dims, s) == Outcome(t, false)
  {
    var a, b := NewA(t, mods, dims, s), NewB(t, mods, dims);
    NewShapes(t, mods, dims, s);
    if built == RankOf(mods) {
      NewTensorsAreBuilt(t, mods, dims, s);
      CopyOfSameShape(t.fusedA, a);
      CopyOfSameShape(t.fusedB, b);
    } else {
      BlockStartsDiffer(|dims|, built, RankOf(mods));
    }
  }

  lemma {:induction false} BlocksWiden(n: nat, p: nat, q: nat)
    requires n > 0 && p < q
    ensures n <= BlockStart(n, q) && BlockStart(n, p) < BlockStart(n, q)
  {
    if n > 1 { BlocksWiden(n - 1, p, q); }
  }

  /** Two or more blocks are never one column wide, and as wide as those of another rank only at that rank. */
  lemma BlockStartsDiffer(n: nat, p: nat, q: nat)
    requires n > 1 && p > 0 && q > 0 && p != q
    ensures BlockStart(n, p) != BlockStart(n, q) && BlockStart(n, q) > 1
  {
    BlocksWiden(n, 0, q);
    if p < q { BlocksWiden(n, p, q); } else { BlocksWiden(n, q, p); }
  }

  // ----- A module of its own -----

  /** lora_A, then lora_B, then the scaling. */
  function UpdatedSingle(md: LoraModule, next: LoraModule, s: real): Outcome<LoraModule>
    requires Rect(md.a) && Rect(md.b) && Rect(next.a) && Rect(next.b)
  {
    if !CanCopy(md.a, next.a) then Outcome(md, false)
    else if !CanCopy(md.b, next.b) then Outcome(md.(a := Copied(md.a, next.a)), false)
    else Outcome(LoraModule(Copied(md.a, next.a), Copied(md.b, next.b), s), true)
  }

  ghost predicate SingleOk(md: LoraModule, inF: nat, outF: nat) {
    inF > 0 && outF > 0 && |md.a| > 0 && ModuleOk(md, |md.a|, inF, outF)
  }

  /** Against a module of another rank the update fails, with nothing written, unless the new rank is one. */
  lemma SingleUpdateExactly(md: LoraModule, next: LoraModule, s: real, inF: nat, outF: nat)
    requires SingleOk(md, inF, outF) && SingleOk(next, inF, outF) && next.scaling == s
    ensures |md.a| == |next.a| ==> UpdatedSingle(md, next, s) == Outcome(next, true)
    ensures |md.a| != |next.a| > 1 ==> UpdatedSingle(md, next, s) == Outcome(md, false)
    ensures |md.a| != |next.a| == 1 ==>
      var got := UpdatedSingle(md, next, s);
      got.ok && SingleOk(got.value, inF, outF) && |got.value.a| == |md.a| && got.value != next
  {
    if |md.a| == |next.a| {
      CopyOfSameShape(md.a, next.a);
      CopyOfSameShape(md.b, next.b);
    }
  }

  lemma {:induction false} DotOfEqual(x: Vec, y: Vec, u: real, v: real)
    requires |x| == |y| && (forall i :: 0 <= i < |x| ==> x[i] == u && y[i] == v)
    ensures Dot(x, y) == Times(|x| as real, Times(u, v))
  {
    if x != [] {
      DotOfEqual(x[1..], y[1..], u, v);
      assert |x| as real == 1.0 + |x[1..]| as real;
    }
  }

  /** One entry of the stretched module's product. */
  lemma StretchedEntry(a: Mat, b: Mat, next: LoraModule, x: Vec, o: nat)
    requires Shaped(next.a, 1, |x|) && Shaped(next.b, |b|, 1) && o < |b|
    requires Shaped(a, |a|, |x|) && forall r :: 0 <= r < |a| ==> a[r] == next.a[0]
    requires |b[o]| == |a| && forall r :: 0 <= r < |a| ==> b[o][r] == next.b[o][0]
    ensures Dot(ApplyRow(a, x), b[o]) == Times(|a| as real, Dot(ApplyRow(next.a, x), next.b[o]))
  {
    var u, v := Dot(x, next.a[0]), next.b[o][0];
    DotOfEqual(ApplyRow(a, x), b[o], u, v);
    DotOfEqual(ApplyRow(next.a, x), next.b[o], u, v);
  }

  lemma Swapped(q: real, s: real, v: real)
    ensures Times(s, Times(q, v)) == Times(q, Times(s, v))
  {
  }

  lemma ScaledTwice(q: real, s: real, y: Vec, y1: Vec)
    requires |y| == |y1| && forall o :: 0 <= o < |y| ==> y[o] == Times(q, y1[o])
    ensures Scale(s, y) == Scale(q, Scale(s, y1))
  {
    var left, right := Scale(s, y), Scale(q, Scale(s, y1));
    forall o | 0 <= o < |y| ensures left[o] == right[o] {
      ScaleAt(s, y, o);
      ScaleAt(s, y1, o);
      ScaleAt(q, Scale(s, y1), o);
      Swapped(q, s, y1[o]);
    }
  }

  /** A module of rank one copied over a module of rank q is stretched q times, and adds q times its own delta. */
  lemma StretchedModule(md: LoraModule, next: LoraModule, s: real, inF: nat, outF: nat, x: Vec)
    requires SingleOk(md, inF, outF) && SingleOk(next, inF, outF) && next.scaling == s && |next.a| == 1 && |x| == inF
    ensures var got := UpdatedSingle(md, next, s);
      && got.ok && ModuleOk(got.value, |md.a|, inF, outF)
      && OwnDelta(Some(got.value), |md.a|, outF, x) == Scale(|md.a| as real, OwnDelta(Some(next), 1, outF, x))
  {
    var q := |md.a|;
    var got := UpdatedSingle(md, next, s).value;
    var y, y1 := ApplyRow(got.b, ApplyRow(got.a, x)), ApplyRow(next.b, ApplyRow(next.a, x));
    forall r | 0 <= r < q ensures got.a[r] == next.a[0] {
    }
    hide Scale, Dot;
    forall o | 0 <= o < outF ensures y[o] == Times(q as real, y1[o]) {
      StretchedEntry(got.a, got.b, next, x, o);
    }
    ScaledTwice(q as real, s, y, y1);
  }
}
