/** Fused base weights, the block-diagonal fused LoRA, and the split on the worker's side. */
module SplitLora {
  import opened Wrappers
  import opened Linear

  /** One adapter module: `a` is rank × in, `b` is out × rank. */
  datatype LoraModule = LoraModule(a: Mat, b: Mat, scaling: real)

  ghost predicate ModuleOk(md: LoraModule, rank: nat, inF: nat, outF: nat) {
    Shaped(md.a, rank, inF) && Shaped(md.b, outF, rank)
  }

  /** All modules of a group share one rank and one input width. */
  ghost predicate GroupOk(mods: seq<Option<LoraModule>>, dims: seq<nat>, rank: nat, inF: nat) {
    |mods| == |dims| && forall i :: 0 <= i < |mods| && mods[i].Some? ==> ModuleOk(mods[i].value, rank, inF, dims[i])
  }

  // ----- Vectors -----

  function Scale(s: real, v: Vec): (r: Vec)
    ensures |r| == |v|
  {
    if v == [] then [] else [Times(s, v[0])] + Scale(s, v[1..])
  }

  /** Named so that equal products are matched by name. */
  function Times(a: real, b: real): real {
    a * b
  }

  lemma {:induction false} ScaleAt(s: real, v: Vec, i: nat)
    requires i < |v|
    ensures Scale(s, v)[i] == Times(s, v[i])
  {
    if i > 0 { ScaleAt(s, v[1..], i - 1); }
  }

  function Column(m: Mat, c: nat): (v: Vec)
    requires forall r :: 0 <= r < |m| ==> c < |m[r]|
    ensures |v| == |m|
  {
    seq(|m|, r requires 0 <= r < |m| && c < |m[r]| => m[r][c])
  }

  /** Row vector times matrix. */
  function RowTimes(x: Vec, m: Mat, cols: nat): (y: Vec)
    requires Shaped(m, |x|, cols)
    ensures |y| == cols
  {
    seq(cols, c requires 0 <= c < cols && Shaped(m, |x|, cols) => Dot(x, Column(m, c)))
  }

  lemma {:induction false} DotScaled(x: Vec, v: Vec, s: real)
    requires |x| == |v|
    ensures Dot(x, Scale(s, v)) == Times(s, Dot(x, v))
    ensures Dot(Scale(s, x), v) == Times(s, Dot(x, v))
  {
    if |x| > 0 {
      DotScaled(x[1..], v[1..], s);
      assert x[0] * (s * v[0]) == s * (x[0] * v[0]) == (s * x[0]) * v[0];
    }
  }

  lemma {:induction false} DotZero(x: Vec)
    ensures Dot(x, ZeroVec(|x|)) == 0.0
    ensures Dot(ZeroVec(|x|), x) == 0.0
  {
    if |x| > 0 {
      DotZero(x[1..]);
      assert ZeroVec(|x|)[1..] == ZeroVec(|x| - 1);
    }
  }

  lemma {:induction false} DotConcat(a: Vec, b: Vec, c: Vec, d: Vec)
    requires |a| == |c| && |b| == |d|
    ensures Dot(a + b, c + d) == Dot(a, c) + Dot(b, d)
  {
    if |a| == 0 {
      assert a + b == b && c + d == d;
    } else {
      DotConcat(a[1..], b, c[1..], d);
      assert (a + b)[1..] == a[1..] + b;
      assert (c + d)[1..] == c[1..] + d;
    }
  }

  // ----- Splitting on the last dimension -----

  function DimsBefore(dims: seq<nat>, i: nat): nat
    requires i <= |dims|
  {
    if i == 0 then 0 else DimsBefore(dims, i - 1) + dims[i - 1]
  }

  lemma {:induction false} DimsGrow(dims: seq<nat>, i: nat, j: nat)
    requires i <= j <= |dims|
    ensures DimsBefore(dims, i) <= DimsBefore(dims, j)
    decreases j - i
  {
    if i < j { DimsGrow(dims, i, j - 1); }
  }

  /** The i-th part of a split with the given sizes. */
  function Part(v: Vec, dims: seq<nat>, i: nat): (p: Vec)
    requires i < |dims| && |v| == DimsBefore(dims, |dims|)
    ensures |p| == dims[i]
  {
    DimsGrow(dims, i + 1, |dims|);
    v[DimsBefore(dims, i)..DimsBefore(dims, i + 1)]
  }

  // ----- Fused base weights: cat along the output dimension -----

  function CatRows(ws: seq<Mat>): Mat {
    if ws == [] then [] else CatRows(ws[..|ws| - 1]) + ws[|ws| - 1]
  }

  function RowCounts(ws: seq<Mat>): (d: seq<nat>)
    ensures |d| == |ws|
  {
    seq(|ws|, i requires 0 <= i < |ws| => |ws[i]|)
  }

  lemma {:induction false} DimsOfPrefix(dims: seq<nat>, i: nat)
    requires i < |dims|
    ensures DimsBefore(dims[..|dims| - 1], i) == DimsBefore(dims, i)
  {
    if i > 0 { DimsOfPrefix(dims, i - 1); }
  }

  lemma {:induction false} CatShaped(ws: seq<Mat>, cols: nat)
    requires forall i :: 0 <= i < |ws| ==> Shaped(ws[i], |ws[i]|, cols)
    ensures Shaped(CatRows(ws), DimsBefore(RowCounts(ws), |ws|), cols)
  {
    if ws != [] {
      var front := ws[..|ws| - 1];
      CatShaped(front, cols);
      assert RowCounts(front) == RowCounts(ws)[..|ws| - 1];
      DimsOfPrefix(RowCounts(ws), |ws| - 1);
      assert Shaped(ws[|ws| - 1], |ws[|ws| - 1]|, cols);
    }
  }

  lemma {:induction false} CatRowAt(ws: seq<Mat>, i: nat, r: nat)
    requires i < |ws| && r < |ws[i]|
    ensures DimsBefore(RowCounts(ws), i) + r < |CatRows(ws)|
    ensures CatRows(ws)[DimsBefore(RowCounts(ws), i) + r] == ws[i][r]
  {
    var front := ws[..|ws| - 1];
    assert RowCounts(front) == RowCounts(ws)[..|ws| - 1];
    DimsOfPrefix(RowCounts(ws), i);
    CatLength(front);
    if i < |ws| - 1 { CatRowAt(front, i, r); }
  }

  lemma {:induction false} CatLength(ws: seq<Mat>)
    ensures |CatRows(ws)| == DimsBefore(RowCounts(ws), |ws|)
  {
    if ws != [] {
      var front := ws[..|ws| - 1];
      CatLength(front);
      assert RowCounts(front) == RowCounts(ws)[..|ws| - 1];
      DimsOfPrefix(RowCounts(ws), |ws| - 1);
    }
  }

  /** Splitting the fused matmul gives each projection's own matmul. */
  lemma FusedBase(ws: seq<Mat>, x: Vec, i: nat)
    requires (forall j :: 0 <= j < |ws| ==> Shaped(ws[j], |ws[j]|, |x|)) && i < |ws|
    ensures Shaped(CatRows(ws), |CatRows(ws)|, |x|) && |CatRows(ws)| == DimsBefore(RowCounts(ws), |ws|)
    ensures Part(ApplyRow(CatRows(ws), x), RowCounts(ws), i) == ApplyRow(ws[i], x)
  {
    CatShaped(ws, |x|);
    DimsGrow(RowCounts(ws), i + 1, |ws|);
    forall r | 0 <= r < |ws[i]|
      ensures ApplyRow(CatRows(ws), x)[DimsBefore(RowCounts(ws), i) + r] == ApplyRow(ws[i], x)[r]
    {
      CatRowAt(ws, i, r);
    }
  }

  // ----- The fused LoRA tensors -----

  /** First row of block `i`: i · rank. */
  function BlockStart(i: nat, rank: nat): nat {
    if i == 0 then 0 else BlockStart(i - 1, rank) + rank
  }

  lemma {:induction false} BlockStartIs(i: nat, rank: nat)
    ensures BlockStart(i, rank) == i * rank
  {
    if i > 0 {
      BlockStartIs(i - 1, rank);
      assert i * rank == (i - 1) * rank + rank;
    }
  }

  lemma {:induction false} BlocksGrow(i: nat, j: nat, rank: nat)
    requires i <= j
    ensures BlockStart(i, rank) <= BlockStart(j, rank)
    decreases j - i
  {
    if i < j { BlocksGrow(i, j - 1, rank); }
  }

  /** Column r of the i-th block of fused_A: the scaled r-th row of A, zero for an absent module. */
  function BlockColumn(md: Option<LoraModule>, rank: nat, inF: nat, r: nat): (v: Vec)
    requires r < rank && (md.Some? ==> Shaped(md.value.a, rank, inF))
    ensures |v| == inF
  {
    if md.Some? then Scale(md.value.scaling, md.value.a[r]) else ZeroVec(inF)
  }

  /** Column o of the i-th block of fused_B: the o-th row of B, zero for an absent module. */
  function BlockRow(md: Option<LoraModule>, rank: nat, outF: nat, o: nat): (v: Vec)
    requires o < outF && (md.Some? ==> Shaped(md.value.b, outF, rank))
    ensures |v| == rank
  {
    if md.Some? then md.value.b[o] else ZeroVec(rank)
  }

  /** fused_A is cat over the modules of Aᵀ·s along the columns. */
  ghost predicate IsFusedA(fa: Mat, mods: seq<Option<LoraModule>>, dims: seq<nat>, rank: nat, inF: nat)
    requires GroupOk(mods, dims, rank, inF)
  {
    && Shaped(fa, inF, BlockStart(|mods|, rank))
    && forall i, r :: 0 <= i < |mods| && 0 <= r < rank ==> FusedColumn(fa, mods[i], rank, inF, i, r)
  }

  ghost predicate FusedColumn(fa: Mat, md: Option<LoraModule>, rank: nat, inF: nat, i: nat, r: nat)
    requires r < rank && (md.Some? ==> Shaped(md.value.a, rank, inF))
  {
    && (forall k :: 0 <= k < |fa| ==> BlockStart(i, rank) + r < |fa[k]|)
    && Column(fa, BlockStart(i, rank) + r) == BlockColumn(md, rank, inF, r)
  }

  /** fused_B is block diagonal: block i at rows i·rank and columns Σ dims before i. */
  ghost predicate IsFusedB(fb: Mat, mods: seq<Option<LoraModule>>, dims: seq<nat>, rank: nat, inF: nat)
    requires GroupOk(mods, dims, rank, inF)
  {
    && Shaped(fb, BlockStart(|mods|, rank), DimsBefore(dims, |dims|))
    && forall i, o :: 0 <= i < |mods| && 0 <= o < dims[i] ==>
         DiagonalColumn(fb, BlockStart(i, rank), BlockRow(mods[i], rank, dims[i], o), DimsBefore(dims, i) + o)
  }

  /** Column `c` holds `block` from row `at` on, zeros above and below. */
  ghost predicate DiagonalColumn(fb: Mat, at: nat, block: Vec, c: nat) {
    && (forall k :: 0 <= k < |fb| ==> c < |fb[k]|)
    && at + |block| <= |fb|
    && Column(fb, c) == ZeroVec(at) + block + ZeroVec(|fb| - at - |block|)
  }

  /** dropout(x) @ fused_A @ fused_B, dropout being the identity at inference. */
  function Forward(x: Vec, fa: Mat, fb: Mat, mid: nat, total: nat): (y: Vec)
    requires Shaped(fa, |x|, mid) && Shaped(fb, mid, total)
    ensures |y| == total
  {
    RowTimes(RowTimes(x, fa, mid), fb, total)
  }

  /** The unfused adapter: s·(x·Aᵀ)·Bᵀ, and nothing for an absent module. */
  function OwnDelta(md: Option<LoraModule>, rank: nat, outF: nat, x: Vec): (d: Vec)
    requires md.Some? ==> ModuleOk(md.value, rank, |x|, outF)
    ensures |d| == outF
  {
    if md.Some? then Scale(md.value.scaling, ApplyRow(md.value.b, ApplyRow(md.value.a, x))) else ZeroVec(outF)
  }

  /** The part of x @ fused_A that belongs to one module. */
  function OwnMiddle(md: Option<LoraModule>, rank: nat, x: Vec): (h: Vec)
    requires md.Some? ==> Shaped(md.value.a, rank, |x|)
    ensures |h| == rank
  {
    if md.Some? then Scale(md.value.scaling, ApplyRow(md.value.a, x)) else ZeroVec(rank)
  }

  lemma MiddleEntry(md: Option<LoraModule>, rank: nat, x: Vec, fa: Mat, i: nat, r: nat)
    requires r < rank && (md.Some? ==> Shaped(md.value.a, rank, |x|)) && |fa| == |x|
    requires FusedColumn(fa, md, rank, |x|, i, r)
    ensures Dot(x, Column(fa, BlockStart(i, rank) + r)) == OwnMiddle(md, rank, x)[r]
  {
    var v := Column(fa, BlockStart(i, rank) + r);
    if md.Some? {
      var s, a := md.value.scaling, md.value.a;
      assert v == Scale(s, a[r]);
      DotScaled(x, a[r], s);
      ScaleAt(s, ApplyRow(a, x), r);
    } else {
      assert v == ZeroVec(|x|);
      DotZero(x);
    }
  }

  lemma MiddleEntryOf(mods: seq<Option<LoraModule>>, dims: seq<nat>, rank: nat, x: Vec, fa: Mat, i: nat, r: nat)
    requires GroupOk(mods, dims, rank, |x|) && IsFusedA(fa, mods, dims, rank, |x|) && i < |mods| && r < rank
    ensures BlockStart(i, rank) + r < BlockStart(|mods|, rank)
    ensures Dot(x, Column(fa, BlockStart(i, rank) + r)) == OwnMiddle(mods[i], rank, x)[r]
  {
    BlocksGrow(i + 1, |mods|, rank);
    assert FusedColumn(fa, mods[i], rank, |x|, i, r);
    MiddleEntry(mods[i], rank, x, fa, i, r);
  }

  lemma MiddleBlock(mods: seq<Option<LoraModule>>, dims: seq<nat>, rank: nat, x: Vec, fa: Mat, i: nat)
    requires GroupOk(mods, dims, rank, |x|) && IsFusedA(fa, mods, dims, rank, |x|) && i < |mods|
    ensures var h, at := RowTimes(x, fa, BlockStart(|mods|, rank)), BlockStart(i, rank);
      at + rank <= |h| && h[at..at + rank] == OwnMiddle(mods[i], rank, x)
  {
    hide Dot, Column, OwnMiddle;
    var h, at, own := RowTimes(x, fa, BlockStart(|mods|, rank)), BlockStart(i, rank), OwnMiddle(mods[i], rank, x);
    BlocksGrow(i + 1, |mods|, rank);
    forall r: nat | r < rank ensures h[at + r] == own[r] {
      MiddleEntryOf(mods, dims, rank, x, fa, i, r);
    }
    SliceIs(h, at, own);
  }

  lemma SliceIs(h: Vec, at: nat, part: Vec)
    requires at + |part| <= |h| && forall r: nat :: r < |part| ==> h[at + r] == part[r]
    ensures h[at..at + |part|] == part
  {
  }

  /** Zeros around one block leave the block's own product. */
  lemma BlockOnly(h: Vec, lo: nat, block: Vec, hi: nat)
    requires |h| == lo + |block| + hi
    ensures Dot(h, ZeroVec(lo) + block + ZeroVec(hi)) == Dot(h[lo..lo + |block|], block)
  {
    var a, b, c := h[..lo], h[lo..lo + |block|], h[lo + |block|..];
    assert h == (a + b) + c;
    DotConcat(a + b, c, ZeroVec(lo) + block, ZeroVec(hi));
    DotConcat(a, b, ZeroVec(lo), block);
    DotZero(a);
    DotZero(c);
  }

  lemma DeltaOfBlock(md: Option<LoraModule>, rank: nat, outF: nat, x: Vec, o: nat)
    requires (md.Some? ==> ModuleOk(md.value, rank, |x|, outF)) && o < outF
    ensures Dot(OwnMiddle(md, rank, x), BlockRow(md, rank, outF, o)) == OwnDelta(md, rank, outF, x)[o]
  {
    if md.Some? {
      DotScaled(ApplyRow(md.value.a, x), md.value.b[o], md.value.scaling);
      ScaleAt(md.value.scaling, ApplyRow(md.value.b, ApplyRow(md.value.a, x)), o);
    } else {
      DotZero(ZeroVec(rank));
    }
  }

  lemma DeltaEntry(mods: seq<Option<LoraModule>>, dims: seq<nat>, rank: nat, x: Vec, fa: Mat, fb: Mat, i: nat, o: nat)
    requires GroupOk(mods, dims, rank, |x|) && i < |mods| && o < dims[i]
    requires IsFusedA(fa, mods, dims, rank, |x|) && IsFusedB(fb, mods, dims, rank, |x|)
    ensures forall k :: 0 <= k < |fb| ==> DimsBefore(dims, i) + o < |fb[k]|
    ensures Dot(RowTimes(x, fa, BlockStart(|mods|, rank)), Column(fb, DimsBefore(dims, i) + o))
         == OwnDelta(mods[i], rank, dims[i], x)[o]
  {
    var h := RowTimes(x, fa, BlockStart(|mods|, rank));
    var at, block := BlockStart(i, rank), BlockRow(mods[i], rank, dims[i], o);
    assert DiagonalColumn(fb, at, block, DimsBefore(dims, i) + o);
    MiddleBlock(mods, dims, rank, x, fa, i);
    DeltaOfBlock(mods[i], rank, dims[i], x, o);
    DiagonalDot(h, fb, at, block, DimsBefore(dims, i) + o);
  }

  lemma DiagonalDot(h: Vec, fb: Mat, at: nat, block: Vec, c: nat)
    requires |h| == |fb| && DiagonalColumn(fb, at, block, c)
    ensures Dot(h, Column(fb, c)) == Dot(h[at..at + |block|], block)
  {
    BlockOnly(h, at, block, |fb| - at - |block|);
  }

  /** The fused delta, split, is each module's own delta. */
  lemma FusedDelta(mods: seq<Option<LoraModule>>, dims: seq<nat>, rank: nat, x: Vec, fa: Mat, fb: Mat, i: nat)
    requires GroupOk(mods, dims, rank, |x|) && i < |mods|
    requires IsFusedA(fa, mods, dims, rank, |x|) && IsFusedB(fb, mods, dims, rank, |x|)
    ensures Part(Forward(x, fa, fb, BlockStart(|mods|, rank), DimsBefore(dims, |dims|)), dims, i)
         == OwnDelta(mods[i], rank, dims[i], x)
  {
    hide Dot, Column, OwnDelta;
    var y := Forward(x, fa, fb, BlockStart(|mods|, rank), DimsBefore(dims, |dims|));
    var own := OwnDelta(mods[i], rank, dims[i], x);
    DimsGrow(dims, i + 1, |dims|);
    forall o: nat | o < dims[i] ensures y[DimsBefore(dims, i) + o] == own[o] {
      DeltaEntry(mods, dims, rank, x, fa, fb, i, o);
    }
    SliceIs(y, DimsBefore(dims, i), own);
  }

  /** The split layer equals the reference layer: for each projection i, x·Wᵢᵀ + sᵢ·(x·Aᵢᵀ)·Bᵢᵀ. */
  lemma SplitLayerIsReference(ws: seq<Mat>, mods: seq<Option<LoraModule>>, rank: nat, x: Vec, fa: Mat, fb: Mat, i: nat)
    requires (forall j :: 0 <= j < |ws| ==> Shaped(ws[j], |ws[j]|, |x|)) && i < |ws|
    requires GroupOk(mods, RowCounts(ws), rank, |x|)
    requires IsFusedA(fa, mods, RowCounts(ws), rank, |x|) && IsFusedB(fb, mods, RowCounts(ws), rank, |x|)
    ensures Shaped(CatRows(ws), |CatRows(ws)|, |x|) && |CatRows(ws)| == DimsBefore(RowCounts(ws), |ws|)
    ensures var dims := RowCounts(ws);
      AddVec(Part(ApplyRow(CatRows(ws), x), dims, i),
             Part(Forward(x, fa, fb, BlockStart(|mods|, rank), DimsBefore(dims, |dims|)), dims, i))
      == AddVec(ApplyRow(ws[i], x), OwnDelta(mods[i], rank, |ws[i]|, x))
  {
    FusedBase(ws, x, i);
    FusedDelta(mods, RowCounts(ws), rank, x, fa, fb, i);
  }
}
