/** Sizes of the slot buffers and of the staging rows against what the ops put into them. */
module BufferSizes {
  import opened Arithmetic
  import opened Linear
  import opened BatchedExec
  import opened LockStep
  import SplitLora
  import opened LockStepInv
  import opened LockStepSafety

  /** Model dimensions, bytes per element, and tokens per step. */
  datatype Dims = Dims(hidden: nat, inter: nat, kvHeads: nat, headDim: nat, elem: nat, maxSeq: nat)

  /** A token id is an int64. */
  const TOKEN_BYTES: nat := 8

  function Max(a: nat, b: nat): nat {
    if a >= b then a else b
  }

  function QkvDim(d: Dims): nat {
    d.hidden + d.kvHeads * d.headDim * 2
  }

  /** The width of the fused projection: queries, keys and values side by side. */
  lemma QkvDimIs(d: Dims, q: Mat, k: Mat, v: Mat)
    requires |q| == d.hidden && |k| == |v| == d.kvHeads * d.headDim
    ensures |SplitLora.CatRows([q, k, v])| == QkvDim(d)
  {
    assert [q, k, v][..2] == [q, k] && [q, k][..1] == [q] && [q][..0] == [];
    assert SplitLora.CatRows([]) == [] && SplitLora.CatRows([q]) == q;
    assert SplitLora.CatRows([q, k]) == q + k;
  }

  function Volume(rows: nat, width: nat, elem: nat): nat {
    rows * (width * elem)
  }

  function InputBufferSize(d: Dims): nat {
    Volume(d.maxSeq, Max(d.inter, d.hidden), d.elem)
  }

  function OutputBufferSize(d: Dims): nat {
    Volume(d.maxSeq, Max(d.inter * 2, QkvDim(d)), d.elem)
  }

  /** Bytes that a chunk of `n` tokens occupies in the slot's input buffer. */
  function InputBytes(d: Dims, op: Op, n: nat): nat {
    match op
    case Embed => n * TOKEN_BYTES
    case Down => Volume(n, d.inter, d.elem)
    case _ => Volume(n, d.hidden, d.elem)
  }

  /** Bytes that the op leaves in the slot's output buffer. */
  function OutputBytes(d: Dims, op: Op, n: nat): nat {
    match op
    case Qkv => Volume(n, QkvDim(d), d.elem)
    case GateUp => Volume(n, d.inter * 2, d.elem)
    case LmHead => TOKEN_BYTES
    case _ => Volume(n, d.hidden, d.elem)
  }

  predicate ChunkFits(d: Dims, op: Op, n: nat) {
    InputBytes(d, op, n) <= InputBufferSize(d) && OutputBytes(d, op, n) <= OutputBufferSize(d)
  }

  lemma Monotone(a: nat, b: nat, x: nat, y: nat)
    requires a <= b && x <= y
    ensures a * x <= b * y
  {
    assert b * y - a * x == (b - a) * y + a * (y - x);
    assert (b - a) * y >= 0 && a * (y - x) >= 0;
  }

  lemma VolumeGrows(rows: nat, rows': nat, width: nat, width': nat, elem: nat)
    requires rows <= rows' && width <= width'
    ensures Volume(rows, width, elem) <= Volume(rows', width', elem)
  {
    Monotone(width, width', elem, elem);
    Monotone(rows, rows', width * elem, width' * elem);
  }

  lemma TokensFit(n: nat, rows: nat, width: nat, elem: nat)
    requires 1 <= n <= rows && width * elem >= TOKEN_BYTES
    ensures n * TOKEN_BYTES <= Volume(rows, width, elem) && TOKEN_BYTES <= Volume(rows, width, elem)
  {
    Monotone(n, rows, TOKEN_BYTES, width * elem);
    Monotone(1, rows, TOKEN_BYTES, width * elem);
  }

  lemma FullChunkOfTokens(rows: nat, width: nat, elem: nat)
    requires rows >= 1 && rows * TOKEN_BYTES <= Volume(rows, width, elem)
    ensures width * elem >= TOKEN_BYTES
  {
    assert rows * (width * elem + 1) == rows * (width * elem) + rows;
    if width * elem + 1 <= TOKEN_BYTES { Monotone(rows, rows, width * elem + 1, TOKEN_BYTES); }
  }

  lemma EnoughForOp(d: Dims, op: Op, n: nat)
    requires 1 <= n <= d.maxSeq && Max(d.inter, d.hidden) * d.elem >= TOKEN_BYTES
    ensures ChunkFits(d, op, n)
  {
    var inWidth, outWidth := Max(d.inter, d.hidden), Max(d.inter * 2, QkvDim(d));
    Monotone(inWidth, outWidth, d.elem, d.elem);
    TokensFit(n, d.maxSeq, inWidth, d.elem);
    TokensFit(n, d.maxSeq, outWidth, d.elem);
    VolumeGrows(n, d.maxSeq, d.inter, inWidth, d.elem);
    VolumeGrows(n, d.maxSeq, d.hidden, inWidth, d.elem);
    VolumeGrows(n, d.maxSeq, d.hidden, outWidth, d.elem);
    VolumeGrows(n, d.maxSeq, QkvDim(d), outWidth, d.elem);
    VolumeGrows(n, d.maxSeq, d.inter * 2, outWidth, d.elem);
  }

  /** Every op's input and output fits the slot buffers, for any chunk the engine can submit, exactly when one row of
      the wider of the two inputs is at least as large as a token id. */
  lemma BuffersAlwaysFit(d: Dims)
    requires d.maxSeq >= 1
    ensures (forall op: Op, n: nat :: 1 <= n <= d.maxSeq ==> ChunkFits(d, op, n))
      <==> Max(d.inter, d.hidden) * d.elem >= 8
  {
    if Max(d.inter, d.hidden) * d.elem >= TOKEN_BYTES {
      forall op: Op, n: nat | 1 <= n <= d.maxSeq ensures ChunkFits(d, op, n) { EnoughForOp(d, op, n); }
    } else if ChunkFits(d, Embed, d.maxSeq) {
      FullChunkOfTokens(d.maxSeq, Max(d.inter, d.hidden), d.elem);
    }
  }

  /** Concrete dimensions for which they do not suffice: two bytes per row cannot hold one token id. */
  lemma TinyRowsTooSmall()
    ensures !ChunkFits(Dims(1, 1, 1, 1, 2, 1), Embed, 1)
  {
  }

  // ----- The same for the cells of the lock-step model -----

  predicate SizedLike(c: Config, d: Dims) {
    && c.model.hidden == d.hidden && c.model.inter == d.inter && c.model.qkvDim == QkvDim(d)
    && c.model.gateUpDim == d.inter * 2
    && c.maxTokens == d.maxSeq
    && c.inLen == d.maxSeq * Max(d.inter, d.hidden) && c.outLen == d.maxSeq * Max(d.inter * 2, QkvDim(d))
  }

  /** The bytes of an op are those of the cells that the executor reads and writes: eight for a token id, `elem` for any
      other cell. */
  lemma BytesOfCells(c: Config, d: Dims, op: Op, n: nat)
    requires SizedLike(c, d)
    ensures InputBytes(d, op, n) == n * InWidth(c.model, op) * (if op.Embed? then 8 else d.elem)
    ensures OutputBytes(d, op, n) == OutCells(c.model, op, n) * (if op.LmHead? then 8 else d.elem)
  {
    Regroup(n, InWidth(c.model, op), d.elem);
    Regroup(n, OutWidth(c.model, op), d.elem);
  }

  lemma Regroup(rows: nat, width: nat, elem: nat)
    ensures rows * width * elem == Volume(rows, width, elem)
  {
  }

  /** Buffers sized as the pool sizes them meet what the lock-step protocol asks of its configuration. */
  lemma PoolSizesSuffice(c: Config, d: Dims)
    requires SizedLike(c, d) && d.maxSeq >= 1 && d.hidden >= 1
    ensures BuffersSuffice(c) && 1 <= c.outLen
  {
    forall op: Op, n: nat | n <= c.maxTokens ensures RowsFit(c, op, n) { OpCellsFit(c, d, op, n); }
    Monotone(1, d.maxSeq, 1, Max(d.inter * 2, QkvDim(d)));
  }

  lemma OpCellsFit(c: Config, d: Dims, op: Op, n: nat)
    requires SizedLike(c, d) && d.maxSeq >= 1 && d.hidden >= 1 && n <= c.maxTokens
    ensures RowsFit(c, op, n)
  {
    var inWidth, outWidth := Max(d.inter, d.hidden), Max(d.inter * 2, QkvDim(d));
    assert InWidth(c.model, op) <= inWidth && OutWidth(c.model, op) <= outWidth;
    Monotone(n, d.maxSeq, InWidth(c.model, op), inWidth);
    if op.LmHead? {
      Monotone(1, d.maxSeq, 1, outWidth);
    } else {
      Monotone(n, d.maxSeq, OutWidth(c.model, op), outWidth);
    }
  }

  // ----- Staging rows -----

  function TotalTokens(cmds: seq<Command>): int {
    if cmds == [] then 0 else TotalTokens(cmds[..|cmds| - 1]) + Tokens(cmds[|cmds| - 1])
  }

  lemma {:induction false} TotalBound(cmds: seq<Command>, most: nat)
    requires forall i :: 0 <= i < |cmds| ==> 0 <= Tokens(cmds[i]) <= most
    ensures 0 <= TotalTokens(cmds) <= |cmds| * most
  {
    if cmds != [] {
      TotalBound(cmds[..|cmds| - 1], most);
      assert |cmds| * most == (|cmds| - 1) * most + most;
    }
  }

  lemma FetchedTokens(c: Config, s: State, i: nat)
    requires ConfigOk(c) && Inv(c, s) && s.agg.phase.Execute? && i < |s.agg.ptrs|
    ensures s.agg.ptrs[i] < |s.ring| && 0 <= Tokens(s.ring[s.agg.ptrs[i]].cmd) <= c.maxTokens
  {
    BatchEntry(c, s, i);
  }

  lemma ActiveBound(c: Config, s: State)
    requires ConfigOk(c) && Inv(c, s)
    ensures |s.agg.active| <= c.numSlots
  {
    forall t | t in s.agg.active ensures t in AllBelow(c.numSlots) {
      assert t in s.agg.active + s.active + s.joins + s.leaves + s.ready;
    }
    AllBelowSize(c.numSlots);
    SubsetSize(s.agg.active, AllBelow(c.numSlots));
  }

  /** In every run the rows of a batch fit the staging buffers of one full chunk per slot. */
  lemma StagingRowsSuffice(c: Config, s: State)
    requires ConfigOk(c) && Reachable(c, s) && s.agg.phase.Execute?
    ensures forall i :: 0 <= i < |s.agg.ptrs| ==> s.agg.ptrs[i] < |s.ring|
    ensures TotalTokens(FetchedCommands(s)) <= c.numSlots * c.maxTokens
  {
    ReachableInv(c, s);
    assert |s.agg.ptrs| == |s.agg.active|;
    ActiveBound(c, s);
    hide Inv, Reachable;
    forall i | 0 <= i < |s.agg.ptrs| ensures s.agg.ptrs[i] < |s.ring| { FetchedTokens(c, s, i); }
    var cmds := FetchedCommands(s);
    forall i | 0 <= i < |cmds| ensures 0 <= Tokens(cmds[i]) <= c.maxTokens { FetchedTokens(c, s, i); }
    TotalBound(cmds, c.maxTokens);
    Monotone(|cmds|, c.numSlots, c.maxTokens, c.maxTokens);
  }
}
