/** The aggregator's execution of one op for every slot that takes part in a barrier.

    A memory cell holds one exact number; a token id is stored as the number it is.
    Op codes in the source: o_proj 3, down_proj 6, fused qkv 9, fused gate/up 10, embed 11, lm_head 12. */
module BatchedExec {
  import opened Linear

  datatype Op = Embed | Qkv | OProj | GateUp | Down | LmHead

  datatype Command = Command(op: Op, layer: int, slotId: int, workerId: int, bx: int, tx: int)

  datatype LayerWeights = LayerWeights(qkv: Mat, o: Mat, oBias: Vec, gateUp: Mat, down: Mat, downBias: Vec)

  datatype Model = Model(hidden: nat, inter: nat, qkvDim: nat, gateUpDim: nat,
                         layers: seq<LayerWeights>, embed: Mat, lmHead: Mat)

  ghost predicate LayerOk(m: Model, lw: LayerWeights) {
    && Shaped(lw.qkv, m.qkvDim, m.hidden)
    && Shaped(lw.o, m.hidden, m.hidden)
    && (lw.oBias == [] || |lw.oBias| == m.hidden)
    && Shaped(lw.gateUp, m.gateUpDim, m.hidden)
    && Shaped(lw.down, m.hidden, m.inter)
    && (lw.downBias == [] || |lw.downBias| == m.hidden)
  }

  ghost predicate ModelOk(m: Model) {
    && (forall l :: 0 <= l < |m.layers| ==> LayerOk(m, m.layers[l]))
    && |m.embed| > 0 && Shaped(m.embed, |m.embed|, m.hidden)
    && |m.lmHead| > 0 && Shaped(m.lmHead, |m.lmHead|, m.hidden)
  }

  /** Only the four GEMM ops index the layer weights. */
  predicate LayerInRange(m: Model, op: Op, layer: int) {
    op.Embed? || op.LmHead? || 0 <= layer < |m.layers|
  }

  function InWidth(m: Model, op: Op): nat {
    match op
    case Embed => 1
    case Down => m.inter
    case _ => m.hidden
  }

  function OutWidth(m: Model, op: Op): nat {
    match op
    case Qkv => m.qkvDim
    case GateUp => m.gateUpDim
    case LmHead => 1
    case _ => m.hidden
  }

  /** Cells an op leaves in a slot's output buffer: one token id for lm_head, one row per token otherwise. */
  function OutCells(m: Model, op: Op, tokens: nat): nat {
    if op.LmHead? then 1 else tokens * OutWidth(m, op)
  }

  function Tokens(c: Command): int {
    c.bx * c.tx
  }

  /** Index of the first largest entry: greedy selection. */
  function ArgMax(v: Vec): (r: nat)
    requires |v| > 0
    ensures r < |v| && (forall j :: 0 <= j < |v| ==> v[j] <= v[r]) && (forall j :: 0 <= j < r ==> v[j] < v[r])
  {
    if |v| == 1 then 0
    else
      var k := ArgMax(v[..|v| - 1]);
      if v[|v| - 1] > v[k] then |v| - 1 else k
  }

  function ClampToken(t: int, vocab: nat): (r: nat)
    requires vocab > 0
    ensures r < vocab && (0 <= t < vocab ==> r == t)
  {
    if t < 0 then 0 else if t >= vocab then vocab - 1 else t
  }

  /** What every op does to one token's row; a row's result depends on that row only. */
  function RowOp(m: Model, op: Op, layer: int, row: Vec): (r: Vec)
    requires ModelOk(m) && LayerInRange(m, op, layer) && |row| == InWidth(m, op)
    ensures |r| == OutWidth(m, op)
  {
    match op
    case Embed => m.embed[ClampToken(row[0].Floor, |m.embed|)]
    case Qkv => ApplyRow(m.layers[layer].qkv, row)
    case OProj => AddBias(ApplyRow(m.layers[layer].o, row), m.layers[layer].oBias)
    case GateUp => ApplyRow(m.layers[layer].gateUp, row)
    case Down => AddBias(ApplyRow(m.layers[layer].down, row), m.layers[layer].downBias)
    case LmHead => [ArgMax(ApplyRow(m.lmHead, row)) as real]
  }

  /** One matmul over all rows of `x`. */
  function MapRows(m: Model, op: Op, layer: int, x: Mat): (y: Mat)
    requires ModelOk(m) && LayerInRange(m, op, layer) && Shaped(x, |x|, InWidth(m, op))
    ensures Shaped(y, |x|, OutWidth(m, op))
  {
    seq(|x|, i requires 0 <= i < |x| && ModelOk(m) && LayerInRange(m, op, layer) && |x[i]| == InWidth(m, op) =>
      RowOp(m, op, layer, x[i]))
  }

  /** The single-slot path: the slot's own rows, alone.  lm_head uses the last row only. */
  function SoloRows(m: Model, op: Op, layer: int, x: Mat): (y: Mat)
    requires ModelOk(m) && LayerInRange(m, op, layer) && Shaped(x, |x|, InWidth(m, op))
    requires op.LmHead? ==> |x| > 0
    ensures Shaped(y, if op.LmHead? then 1 else |x|, OutWidth(m, op))
  {
    if op.LmHead? then MapRows(m, op, layer, x[|x| - 1..]) else MapRows(m, op, layer, x)
  }

  // ----- The batched path: gather, one matmul, scatter -----

  /** torch::cat along the token dimension. */
  function Gather(xs: seq<Mat>): Mat {
    if xs == [] then [] else Gather(xs[..|xs| - 1]) + xs[|xs| - 1]
  }

  /** Rows contributed by the first `i` slots, the running `offset` of the scatter loops. */
  function Offset(xs: seq<Mat>, i: nat): nat
    requires i <= |xs|
  {
    if i == 0 then 0 else Offset(xs, i - 1) + |xs[i - 1]|
  }

  function LastRows(xs: seq<Mat>): seq<Mat>
    requires forall i :: 0 <= i < |xs| ==> |xs[i]| > 0
  {
    seq(|xs|, i requires 0 <= i < |xs| && |xs[i]| > 0 => xs[i][|xs[i]| - 1..])
  }

  /** The rows that enter the shared matmul. */
  function BatchInputs(op: Op, xs: seq<Mat>): seq<Mat>
    requires op.LmHead? ==> forall i :: 0 <= i < |xs| ==> |xs[i]| > 0
  {
    if op.LmHead? then LastRows(xs) else xs
  }

  ghost predicate AllShaped(m: Model, op: Op, xs: seq<Mat>) {
    forall i :: 0 <= i < |xs| ==> Shaped(xs[i], |xs[i]|, InWidth(m, op)) && (op.LmHead? ==> |xs[i]| > 0)
  }

  lemma {:induction false} OffsetOfPrefix(xs: seq<Mat>, i: nat)
    requires i < |xs|
    ensures Offset(xs[..|xs| - 1], i) == Offset(xs, i)
  {
    if i > 0 { OffsetOfPrefix(xs, i - 1); }
  }

  /** Gathered rows are the slots' rows in order, and none is lost. */
  lemma {:induction false} GatherSlice(xs: seq<Mat>, i: nat)
    requires i < |xs|
    ensures |Gather(xs)| == Offset(xs, |xs|)
    ensures Offset(xs, i) + |xs[i]| <= |Gather(xs)|
    ensures Gather(xs)[Offset(xs, i)..Offset(xs, i) + |xs[i]|] == xs[i]
  {
    var front := xs[..|xs| - 1];
    GatherLength(xs);
    GatherLength(front);
    OffsetOfPrefix(xs, |xs| - 1);
    var last := xs[|xs| - 1];
    assert Gather(xs) == Gather(front) + last;
    if i < |xs| - 1 {
      GatherSlice(front, i);
      OffsetOfPrefix(xs, i);
      assert front[i] == xs[i];
      SliceOfFront(Gather(front), last, Offset(xs, i), Offset(xs, i) + |xs[i]|);
    } else {
      assert (Gather(front) + last)[|Gather(front)|..|Gather(front)| + |last|] == last;
    }
    hide Gather;
  }

  lemma SliceOfFront(a: Mat, b: Mat, lo: nat, hi: nat)
    requires lo <= hi <= |a|
    ensures (a + b)[lo..hi] == a[lo..hi]
  {
  }

  lemma {:induction false} GatherLength(xs: seq<Mat>)
    ensures |Gather(xs)| == Offset(xs, |xs|)
  {
    if xs != [] {
      GatherLength(xs[..|xs| - 1]);
      OffsetOfPrefix(xs, |xs| - 1);
    }
  }

  lemma {:induction false} GatherShaped(xs: seq<Mat>, w: nat)
    requires forall i :: 0 <= i < |xs| ==> Shaped(xs[i], |xs[i]|, w)
    ensures Shaped(Gather(xs), |Gather(xs)|, w)
  {
    if xs != [] {
      GatherShaped(xs[..|xs| - 1], w);
      var last := xs[|xs| - 1];
      assert Shaped(last, |last|, w);
    }
  }

  /** The rows that the scatter loop copies to the i-th command's slot. */
  function BatchRows(m: Model, op: Op, layer: int, xs: seq<Mat>, i: nat): Mat
    requires ModelOk(m) && LayerInRange(m, op, layer) && AllShaped(m, op, xs) && i < |xs|
  {
    var ins := BatchInputs(op, xs);
    GatherShaped(ins, InWidth(m, op));
    GatherSlice(ins, i);
    MapRows(m, op, layer, Gather(ins))[Offset(ins, i)..Offset(ins, i) + |ins[i]|]
  }

  /** The matmul works row by row, so a slice of the batch's result is the result of that slice. */
  lemma MapSlice(m: Model, op: Op, layer: int, all: Mat, at: nat, n: nat)
    requires ModelOk(m) && LayerInRange(m, op, layer) && Shaped(all, |all|, InWidth(m, op)) && at + n <= |all|
    ensures MapRows(m, op, layer, all)[at..at + n] == MapRows(m, op, layer, all[at..at + n])
  {
    var part := all[at..at + n];
    forall r | 0 <= r < n ensures MapRows(m, op, layer, all)[at + r] == RowOp(m, op, layer, part[r]) {
      assert part[r] == all[at + r];
    }
  }

  lemma BatchInputsShaped(m: Model, op: Op, xs: seq<Mat>)
    requires AllShaped(m, op, xs)
    ensures |BatchInputs(op, xs)| == |xs|
    ensures forall i :: 0 <= i < |xs| ==> Shaped(BatchInputs(op, xs)[i], |BatchInputs(op, xs)[i]|, InWidth(m, op))
  {
  }

  /** Batching is invisible: whoever shares the matmul, a slot receives what it would have received alone. */
  lemma BatchIsSolo(m: Model, op: Op, layer: int, xs: seq<Mat>, i: nat)
    requires ModelOk(m) && LayerInRange(m, op, layer) && AllShaped(m, op, xs) && i < |xs|
    ensures BatchRows(m, op, layer, xs, i) == SoloRows(m, op, layer, xs[i])
  {
    hide Gather, Offset, MapRows, RowOp, ModelOk;
    var ins := BatchInputs(op, xs);
    BatchInputsShaped(m, op, xs);
    GatherShaped(ins, InWidth(m, op));
    GatherSlice(ins, i);
    MapSlice(m, op, layer, Gather(ins), Offset(ins, i), |ins[i]|);
  }

  // ----- Effect on the slot buffers -----

  /** Source checks on shapes: every path of embed and lm_head, and the one-slot GEMM path, bound bx and tx;
      the batched GEMM path relies on the ring's own validation and only needs a row count. */
  predicate DimsAccepted(op: Op, n: nat, c: Command) {
    if n == 1 || op.Embed? || op.LmHead? then 0 < c.bx <= 65536 && 0 < c.tx <= 65536 else 0 <= Tokens(c)
  }

  predicate CommandAccepted(op: Op, owner: seq<int>, n: nat, c: Command) {
    0 <= c.slotId < |owner| && owner[c.slotId] == c.workerId && DimsAccepted(op, n, c)
  }

  /** lm_head looks up the sampling state of the first command's worker, whose id it bounds. */
  predicate SamplerAccepted(op: Op, cmds: seq<Command>) {
    op.LmHead? && cmds != [] ==> 0 <= cmds[0].workerId <= 100000
  }

  /** Nothing is thrown: layer, worker id, slot id, ownership and shape checks all pass. */
  predicate Accepted(m: Model, op: Op, layer: int, owner: seq<int>, cmds: seq<Command>) {
    && LayerInRange(m, op, layer) && SamplerAccepted(op, cmds)
    && forall i :: 0 <= i < |cmds| ==> CommandAccepted(op, owner, |cmds|, cmds[i])
  }

  /** The checks one by one: the layer exists, the sampler's worker id is in range, and every command names an existing
      slot of its own worker with a shape that the path it takes accepts. */
  lemma AcceptedExactly(m: Model, op: Op, layer: int, owner: seq<int>, cmds: seq<Command>)
    requires cmds != []
    ensures Accepted(m, op, layer, owner, cmds) <==>
      && (op.Embed? || op.LmHead? || 0 <= layer < |m.layers|)
      && (op.LmHead? ==> 0 <= cmds[0].workerId <= 100000)
      && forall i :: 0 <= i < |cmds| ==>
           && 0 <= cmds[i].slotId < |owner| && owner[cmds[i].slotId] == cmds[i].workerId
           && if |cmds| == 1 || op.Embed? || op.LmHead? then
                0 < cmds[i].bx <= 65536 && 0 < cmds[i].tx <= 65536
              else cmds[i].bx * cmds[i].tx >= 0
  {
  }

  /** Raw views carry no bounds check, so the rows must lie inside the two buffers of the slot. */
  ghost predicate InBounds(m: Model, op: Op, ins: seq<Vec>, outs: seq<Vec>, c: Command) {
    && |ins| == |outs| && 0 <= c.slotId < |ins| && 0 <= Tokens(c) && (op.LmHead? ==> Tokens(c) > 0)
    && Tokens(c) * InWidth(m, op) <= |ins[c.slotId]|
    && OutCells(m, op, Tokens(c)) <= |outs[c.slotId]|
  }

  ghost predicate AllInBounds(m: Model, op: Op, ins: seq<Vec>, outs: seq<Vec>, cmds: seq<Command>) {
    forall i :: 0 <= i < |cmds| ==> InBounds(m, op, ins, outs, cmds[i])
  }

  function Input(m: Model, op: Op, ins: seq<Vec>, outs: seq<Vec>, c: Command): (x: Mat)
    requires InBounds(m, op, ins, outs, c)
    ensures |x| == Tokens(c) && Shaped(x, |x|, InWidth(m, op))
  {
    View(ins[c.slotId], Tokens(c), InWidth(m, op))
  }

  function Inputs(m: Model, op: Op, ins: seq<Vec>, outs: seq<Vec>, cmds: seq<Command>): (xs: seq<Mat>)
    requires AllInBounds(m, op, ins, outs, cmds)
    ensures |xs| == |cmds| && AllShaped(m, op, xs)
    ensures forall i :: 0 <= i < |cmds| ==>
      InBounds(m, op, ins, outs, cmds[i]) && xs[i] == Input(m, op, ins, outs, cmds[i])
  {
    if cmds == [] then []
    else
      assert InBounds(m, op, ins, outs, cmds[|cmds| - 1]);
      Inputs(m, op, ins, outs, cmds[..|cmds| - 1]) + [Input(m, op, ins, outs, cmds[|cmds| - 1])]
  }

  /** Rows written for the i-th command: the direct path for one command, the batched path for more. */
  function ResultRows(m: Model, op: Op, layer: int, xs: seq<Mat>, i: nat): Mat
    requires ModelOk(m) && LayerInRange(m, op, layer) && AllShaped(m, op, xs) && i < |xs|
  {
    if |xs| == 1 then SoloRows(m, op, layer, xs[0]) else BatchRows(m, op, layer, xs, i)
  }

  /** The cells written for every command, in the order of the commands. */
  function Results(m: Model, op: Op, layer: int, xs: seq<Mat>): (r: seq<Vec>)
    requires ModelOk(m) && LayerInRange(m, op, layer) && AllShaped(m, op, xs)
    ensures |r| == |xs|
  {
    seq(|xs|, i requires 0 <= i < |xs| && ModelOk(m) && LayerInRange(m, op, layer) && AllShaped(m, op, xs) =>
      Flat(ResultRows(m, op, layer, xs, i)))
  }

  /** What a slot's own rows give when they are run alone. */
  function SoloCells(m: Model, op: Op, layer: int, x: Mat): Vec
    requires ModelOk(m) && LayerInRange(m, op, layer) && Shaped(x, |x|, InWidth(m, op))
    requires op.LmHead? ==> |x| > 0
  {
    Flat(SoloRows(m, op, layer, x))
  }

  lemma ResultsAreSolo(m: Model, op: Op, layer: int, xs: seq<Mat>)
    requires ModelOk(m) && LayerInRange(m, op, layer) && AllShaped(m, op, xs)
    ensures forall i :: 0 <= i < |xs| ==>
      Results(m, op, layer, xs)[i] == SoloCells(m, op, layer, xs[i])
      && |Results(m, op, layer, xs)[i]| == OutCells(m, op, |xs[i]|)
  {
    forall i | 0 <= i < |xs|
      ensures Results(m, op, layer, xs)[i] == SoloCells(m, op, layer, xs[i])
      ensures |Results(m, op, layer, xs)[i]| == OutCells(m, op, |xs[i]|)
    {
      BatchIsSolo(m, op, layer, xs, i);
      FlatLength(SoloRows(m, op, layer, xs[i]), OutWidth(m, op));
    }
  }

  ghost predicate Fits(outs: seq<Vec>, cmds: seq<Command>, res: seq<Vec>) {
    |res| == |cmds| && forall i :: 0 <= i < |cmds| ==>
      0 <= cmds[i].slotId < |outs| && |res[i]| <= |outs[cmds[i].slotId]|
  }

  /** The output buffers after the first `n` results have been copied out. */
  function Scattered(outs: seq<Vec>, cmds: seq<Command>, res: seq<Vec>, n: nat): (r: seq<Vec>)
    requires Fits(outs, cmds, res) && n <= |cmds|
    ensures |r| == |outs| && forall s :: 0 <= s < |outs| ==> |r[s]| == |outs[s]|
  {
    if n == 0 then outs
    else
      var prev := Scattered(outs, cmds, res, n - 1);
      var slot := cmds[n - 1].slotId;
      prev[slot := Overwrite(prev[slot], res[n - 1])]
  }

  ghost predicate DistinctSlots(cmds: seq<Command>) {
    forall i, j :: 0 <= i < j < |cmds| ==> cmds[i].slotId != cmds[j].slotId
  }

  lemma {:induction false} ScatteredSlots(outs: seq<Vec>, cmds: seq<Command>, res: seq<Vec>, n: nat)
    requires Fits(outs, cmds, res) && n <= |cmds| && DistinctSlots(cmds)
    ensures var r := Scattered(outs, cmds, res, n);
      && (forall i :: 0 <= i < n ==> r[cmds[i].slotId] == Overwrite(outs[cmds[i].slotId], res[i]))
      && (forall s :: 0 <= s < |outs| && (forall i :: 0 <= i < n ==> cmds[i].slotId != s) ==> r[s] == outs[s])
  {
    if n > 0 {
      ScatteredSlots(outs, cmds, res, n - 1);
    }
  }

  lemma ResultsFit(m: Model, op: Op, layer: int, ins: seq<Vec>, outs: seq<Vec>, cmds: seq<Command>)
    requires ModelOk(m) && LayerInRange(m, op, layer) && AllInBounds(m, op, ins, outs, cmds)
    ensures Fits(outs, cmds, Results(m, op, layer, Inputs(m, op, ins, outs, cmds)))
  {
    ResultsAreSolo(m, op, layer, Inputs(m, op, ins, outs, cmds));
  }

  /** The output buffers after one barrier. */
  function Executed(m: Model, op: Op, layer: int, ins: seq<Vec>, outs: seq<Vec>, cmds: seq<Command>): (r: seq<Vec>)
    requires ModelOk(m) && LayerInRange(m, op, layer) && AllInBounds(m, op, ins, outs, cmds)
    ensures |r| == |outs|
  {
    var xs := Inputs(m, op, ins, outs, cmds);
    ResultsFit(m, op, layer, ins, outs, cmds);
    Scattered(outs, cmds, Results(m, op, layer, xs), |cmds|)
  }

  /** Co-tenancy is invisible in one barrier: every served slot holds, at the start of its output buffer, the
      result of its own rows run alone; every other slot's buffer is untouched. */
  lemma ExecutedSlots(m: Model, op: Op, layer: int, ins: seq<Vec>, outs: seq<Vec>, cmds: seq<Command>)
    requires ModelOk(m) && LayerInRange(m, op, layer) && AllInBounds(m, op, ins, outs, cmds) && DistinctSlots(cmds)
    ensures var r := Executed(m, op, layer, ins, outs, cmds);
      && (forall i :: 0 <= i < |cmds| ==>
            && InBounds(m, op, ins, outs, cmds[i])
            && var y := SoloCells(m, op, layer, Input(m, op, ins, outs, cmds[i]));
               |y| == OutCells(m, op, Tokens(cmds[i])) && r[cmds[i].slotId] == Overwrite(outs[cmds[i].slotId], y))
      && (forall s :: 0 <= s < |outs| && (forall i :: 0 <= i < |cmds| ==> cmds[i].slotId != s) ==> r[s] == outs[s])
  {
    var xs := Inputs(m, op, ins, outs, cmds);
    ResultsAreSolo(m, op, layer, xs);
    ScatteredSlots(outs, cmds, Results(m, op, layer, xs), |cmds|);
  }

  // ----- What the served cells are -----

  /** Row `r` of a linear layer: the r-th input row times each row of the weights, plus the bias if there is one. */
  ghost predicate LinearRow(inW: nat, w: Mat, bias: Vec, mem: Vec, out: Vec, r: nat)
    requires Shaped(w, |w|, inW) && (bias == [] || |bias| == |w|)
  {
    LinearAt(inW, w, bias, mem, r * inW, out, r * |w|)
  }

  /** The same for an input row that begins at cell `from` and an output row that begins at cell `to`. */
  ghost predicate LinearAt(inW: nat, w: Mat, bias: Vec, mem: Vec, from: nat, out: Vec, to: nat)
    requires Shaped(w, |w|, inW) && (bias == [] || |bias| == |w|)
  {
    && from + inW <= |mem| && to + |w| <= |out|
    && forall j :: 0 <= j < |w| ==>
         out[to + j] == Dot(mem[from..from + inW], w[j]) + if bias == [] then 0.0 else bias[j]
  }

  /** Row `r` of the embedding is the table row of the r-th token id. */
  ghost predicate EmbedRow(m: Model, mem: Vec, out: Vec, r: nat)
    requires ModelOk(m)
  {
    r < |mem| && EmbedAt(m, mem[r].Floor, out, r * m.hidden)
  }

  /** The table row of token `t`, clamped to the table, in an output row that begins at cell `to`. */
  ghost predicate EmbedAt(m: Model, t: int, out: Vec, to: nat)
    requires ModelOk(m)
  {
    && to + m.hidden <= |out|
    && out[to..to + m.hidden] == m.embed[if t < 0 then 0 else if t < |m.embed| then t else |m.embed| - 1]
  }

  /** The greedy token for the last of `n` rows. */
  ghost predicate GreedyToken(m: Model, mem: Vec, out: Vec, n: nat, t: nat)
    requires ModelOk(m) && n > 0
  {
    GreedyAt(m, mem, (n - 1) * m.hidden, out, t)
  }

  /** The token of the row that begins at cell `from`. */
  ghost predicate GreedyAt(m: Model, mem: Vec, from: nat, out: Vec, t: nat)
    requires ModelOk(m)
  {
    from + m.hidden <= |mem| && |out| > 0 && out[0] == t as real && Greedy(m, mem[from..from + m.hidden], t)
  }

  /** The least index with a largest logit. */
  ghost predicate Greedy(m: Model, x: Vec, t: int)
    requires ModelOk(m) && |x| == m.hidden
  {
    && 0 <= t < |m.lmHead|
    && (forall i :: 0 <= i < |m.lmHead| ==> Dot(x, m.lmHead[i]) <= Dot(x, m.lmHead[t]))
    && (forall i :: 0 <= i < t ==> Dot(x, m.lmHead[i]) < Dot(x, m.lmHead[t]))
  }

  /** What a slot's output buffer holds for the `n` rows of its input buffer, op by op. */
  ghost predicate Served(m: Model, op: Op, layer: int, mem: Vec, out: Vec, n: nat)
    requires ModelOk(m) && LayerInRange(m, op, layer)
  {
    match op
    case Embed => forall r: nat :: r < n ==> EmbedRow(m, mem, out, r)
    case Qkv => forall r: nat :: r < n ==> LinearRow(m.hidden, m.layers[layer].qkv, [], mem, out, r)
    case OProj =>
      forall r: nat :: r < n ==> LinearRow(m.hidden, m.layers[layer].o, m.layers[layer].oBias, mem, out, r)
    case GateUp => forall r: nat :: r < n ==> LinearRow(m.hidden, m.layers[layer].gateUp, [], mem, out, r)
    case Down =>
      forall r: nat :: r < n ==> LinearRow(m.inter, m.layers[layer].down, m.layers[layer].downBias, mem, out, r)
    case LmHead => n > 0 && exists t: nat :: GreedyToken(m, mem, out, n, t)
  }

  /** Every command's slot is served in full. */
  ghost predicate AllServed(m: Model, op: Op, layer: int, ins: seq<Vec>, outs: seq<Vec>, cmds: seq<Command>)
    requires ModelOk(m) && LayerInRange(m, op, layer)
  {
    forall i :: 0 <= i < |cmds| ==>
      && 0 <= cmds[i].slotId < |ins| && cmds[i].slotId < |outs| && Tokens(cmds[i]) >= 0
      && Served(m, op, layer, ins[cmds[i].slotId], outs[cmds[i].slotId], Tokens(cmds[i]))
  }

  /** Row `r` of what was copied out begins at cell `at`. */
  lemma RowCells(y: Mat, w: nat, out: Vec, r: nat, at: nat)
    requires Shaped(y, |y|, w) && r < |y| && at == r * w
    requires |Flat(y)| <= |out| && out[..|Flat(y)|] == Flat(y)
    ensures at + w <= |out| && out[at..at + w] == y[r]
  {
    FlatLength(y, w);
    RowInside(r, |y|, w);
    forall j: nat | j < w ensures out[at + j] == y[r][j] {
      FlatAt(y, w, r, j);
      assert out[at + j] == out[..|Flat(y)|][at + j];
    }
    hide Flat;
  }

  lemma LinearServed(inW: nat, w: Mat, bias: Vec, mem: Vec, out: Vec, n: nat, y: Mat, r: nat)
    requires Shaped(w, |w|, inW) && (bias == [] || |bias| == |w|) && n * inW <= |mem| && r < n
    requires Shaped(y, n, |w|) && y[r] == AddBias(ApplyRow(w, View(mem, n, inW)[r]), bias)
    requires |Flat(y)| <= |out| && out[..|Flat(y)|] == Flat(y)
    ensures LinearRow(inW, w, bias, mem, out, r)
  {
    var from, to := CellsBefore(r, inW), CellsBefore(r, |w|);
    ViewFrom(mem, n, inW, r, from);
    RowCells(y, |w|, out, r, to);
    hide Dot, Flat, View, ApplyRow, AddBias;
    LinearCells(inW, w, bias, mem, from, out, to, y[r]);
  }

  lemma LinearCells(inW: nat, w: Mat, bias: Vec, mem: Vec, from: nat, out: Vec, to: nat, y: Vec)
    requires Shaped(w, |w|, inW) && (bias == [] || |bias| == |w|) && from + inW <= |mem|
    requires y == AddBias(ApplyRow(w, mem[from..from + inW]), bias) && to + |w| <= |out| && out[to..to + |w|] == y
    ensures LinearAt(inW, w, bias, mem, from, out, to)
  {
    hide Dot;
    forall j: nat | j < |w| ensures out[to + j] == y[j] { assert out[to + j] == out[to..to + |w|][j]; }
  }

  lemma EmbedServed(m: Model, mem: Vec, out: Vec, n: nat, y: Mat, r: nat)
    requires ModelOk(m) && r < n && n * 1 <= |mem|
    requires Shaped(y, n, m.hidden) && y[r] == RowOp(m, Embed, 0, View(mem, n, 1)[r])
    requires |Flat(y)| <= |out| && out[..|Flat(y)|] == Flat(y)
    ensures EmbedRow(m, mem, out, r)
  {
    hide Flat, View;
    var to := CellsBefore(r, m.hidden);
    ViewFrom(mem, n, 1, r, r);
    var row := View(mem, n, 1)[r];
    assert row[0] == mem[r];
    RowCells(y, m.hidden, out, r, to);
    EmbedCells(m, row, out, to, y[r]);
  }

  lemma EmbedCells(m: Model, row: Vec, out: Vec, to: nat, y: Vec)
    requires ModelOk(m) && |row| == 1 && y == RowOp(m, Embed, 0, row)
    requires to + m.hidden <= |out| && out[to..to + m.hidden] == y
    ensures EmbedAt(m, row[0].Floor, out, to)
  {
  }

  lemma HeadServed(m: Model, mem: Vec, out: Vec, n: nat, y: Mat)
    requires ModelOk(m) && n > 0 && n * m.hidden <= |mem|
    requires y == SoloRows(m, LmHead, 0, View(mem, n, m.hidden)) && |out| > 0 && |Flat(y)| == 1 && out[0] == Flat(y)[0]
    ensures exists t: nat :: GreedyToken(m, mem, out, n, t)
  {
    hide View;
    var from := CellsBefore(n - 1, m.hidden);
    ViewFrom(mem, n, m.hidden, n - 1, from);
    var x := View(mem, n, m.hidden)[n - 1];
    FlatAt(y, 1, 0, 0);
    hide Flat, ModelOk, ApplyRow, ArgMax, GreedyAt;
    var t := HeadCells(m, mem, from, x, out, y[0]);
    assert GreedyToken(m, mem, out, n, t);
  }

  lemma HeadCells(m: Model, mem: Vec, from: nat, x: Vec, out: Vec, y: Vec) returns (t: nat)
    requires ModelOk(m) && from + m.hidden <= |mem| && x == mem[from..from + m.hidden]
    requires y == RowOp(m, LmHead, 0, x) && |out| > 0 && out[0] == y[0]
    ensures GreedyAt(m, mem, from, out, t)
  {
    hide Dot;
    t := ArgMax(ApplyRow(m.lmHead, x));
    var logits := ApplyRow(m.lmHead, x);
    assert forall i :: 0 <= i < |m.lmHead| ==> logits[i] == Dot(x, m.lmHead[i]);
  }

  lemma SoloServed(m: Model, op: Op, layer: int, mem: Vec, out: Vec, n: nat)
    requires ModelOk(m) && LayerInRange(m, op, layer) && n * InWidth(m, op) <= |mem| && (op.LmHead? ==> n > 0)
    requires var y := SoloCells(m, op, layer, View(mem, n, InWidth(m, op))); |y| <= |out| && out[..|y|] == y
    ensures Served(m, op, layer, mem, out, n)
  {
    var x := View(mem, n, InWidth(m, op));
    var y := SoloRows(m, op, layer, x);
    hide View, Flat, ApplyRow, AddBias, Dot, ArgMax;
    match op
    case Embed => forall r: nat | r < n ensures EmbedRow(m, mem, out, r) { EmbedServed(m, mem, out, n, y, r); }
    case Qkv => LinearAll(m.hidden, m.layers[layer].qkv, [], mem, out, n, y);
    case OProj => LinearAll(m.hidden, m.layers[layer].o, m.layers[layer].oBias, mem, out, n, y);
    case GateUp => LinearAll(m.hidden, m.layers[layer].gateUp, [], mem, out, n, y);
    case Down => LinearAll(m.inter, m.layers[layer].down, m.layers[layer].downBias, mem, out, n, y);
    case LmHead =>
      FlatLength(y, 1);
      HeadServed(m, mem, out, n, y);
  }

  lemma LinearAll(inW: nat, w: Mat, bias: Vec, mem: Vec, out: Vec, n: nat, y: Mat)
    requires Shaped(w, |w|, inW) && (bias == [] || |bias| == |w|) && n * inW <= |mem| && Shaped(y, n, |w|)
    requires forall r :: 0 <= r < n ==> y[r] == AddBias(ApplyRow(w, View(mem, n, inW)[r]), bias)
    requires |Flat(y)| <= |out| && out[..|Flat(y)|] == Flat(y)
    ensures forall r: nat :: r < n ==> LinearRow(inW, w, bias, mem, out, r)
  {
    forall r: nat | r < n ensures LinearRow(inW, w, bias, mem, out, r) {
      LinearServed(inW, w, bias, mem, out, n, y, r);
    }
  }

  lemma OverwriteServed(m: Model, op: Op, layer: int, mem: Vec, before: Vec, after: Vec, y: Vec, n: nat)
    requires ModelOk(m) && LayerInRange(m, op, layer) && n * InWidth(m, op) <= |mem| && (op.LmHead? ==> n > 0)
    requires y == SoloCells(m, op, layer, View(mem, n, InWidth(m, op)))
    requires |y| <= |before| && after == Overwrite(before, y)
    ensures Served(m, op, layer, mem, after, n)
  {
    hide SoloCells, Served, View;
    SoloServed(m, op, layer, mem, after, n);
  }

  /** After one barrier every served slot holds, op by op, what the op makes of the slot's own rows. */
  lemma ExecutedServed(m: Model, op: Op, layer: int, ins: seq<Vec>, outs: seq<Vec>, cmds: seq<Command>)
    requires ModelOk(m) && LayerInRange(m, op, layer) && AllInBounds(m, op, ins, outs, cmds)
    ensures DistinctSlots(cmds) ==> AllServed(m, op, layer, ins, Executed(m, op, layer, ins, outs, cmds), cmds)
  {
    hide Executed, SoloCells, Served, View, ModelOk, Overwrite;
    if DistinctSlots(cmds) {
      var after := Executed(m, op, layer, ins, outs, cmds);
      ExecutedSlots(m, op, layer, ins, outs, cmds);
      forall i | 0 <= i < |cmds|
        ensures Served(m, op, layer, ins[cmds[i].slotId], after[cmds[i].slotId], Tokens(cmds[i]))
      {
        var slot, c := cmds[i].slotId, cmds[i];
        assert InBounds(m, op, ins, outs, c);
        OverwriteServed(m, op, layer, ins[slot], outs[slot], after[slot],
                        SoloCells(m, op, layer, Input(m, op, ins, outs, c)), Tokens(c));
      }
    }
  }
}
