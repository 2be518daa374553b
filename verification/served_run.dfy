/** A decoding worker in a shared run: op by op it gets what its own request is to be served, whoever else is there. */
module ServedRun {
  import opened Linear
  import opened BatchedExec
  import opened LockStep
  import opened SharedRun
  import opened Decoder
  import opened Serving
  import opened Wrappers

  // ----- The network that a worker and the aggregator compute together -----

  /** The worker's own part: normalisation, its adapter's deltas, attention and activation, with the residuals.  A
      function of a row that was submitted and of the row that came back for it computes what both make together. */
  datatype Private<!Q, !KV> = Private(
    norm1: (nat, Vec) -> Vec,
    query: (nat, Vec, Vec, nat) -> Q,
    keyValue: (nat, Vec, Vec, nat) -> KV,
    attend: (nat, Q, seq<KV>) -> Vec,
    afterO: (nat, Vec, Vec, Vec) -> Vec,
    norm2: (nat, Vec) -> Vec,
    act: (nat, Vec, Vec) -> Vec,
    afterDown: (nat, Vec, Vec, Vec) -> Vec,
    norm: Vec -> Vec)

  /** The rows that are submitted have the model's widths. */
  ghost predicate PrivateOk<Q(!new), KV(!new)>(m: Model, pr: Private<Q, KV>) {
    && (forall l: nat, h: Vec :: |pr.norm1(l, h)| == m.hidden)
    && (forall l: nat, q: Q, kvs: seq<KV> :: |pr.attend(l, q, kvs)| == m.hidden)
    && (forall l: nat, h: Vec :: |pr.norm2(l, h)| == m.hidden)
    && (forall l: nat, x: Vec, y: Vec :: |pr.act(l, x, y)| == m.inter)
    && (forall h: Vec :: |pr.norm(h)| == m.hidden)
  }

  /** One row through one of the aggregator's ops. */
  ghost function RowOf(m: Model, op: Op, layer: nat, row: Vec): Vec {
    if ModelOk(m) && LayerInRange(m, op, layer) && |row| == InWidth(m, op) then RowOp(m, op, layer, row) else []
  }

  function FirstFloor(row: Vec): int {
    if row == [] then 0 else row[0].Floor
  }

  ghost function AfterO<Q, KV>(m: Model, pr: Private<Q, KV>, l: nat, h: Vec, a: Vec): Vec {
    pr.afterO(l, h, a, RowOf(m, OProj, l, a))
  }

  ghost function ActRow<Q, KV>(m: Model, pr: Private<Q, KV>, l: nat, h: Vec): Vec {
    pr.act(l, pr.norm2(l, h), RowOf(m, GateUp, l, pr.norm2(l, h)))
  }

  ghost function AfterDown<Q, KV>(m: Model, pr: Private<Q, KV>, l: nat, h: Vec, g: Vec): Vec {
    pr.afterDown(l, h, g, RowOf(m, Down, l, g))
  }

  /** The whole network, row by row. */
  ghost function NetOf<Q, KV>(m: Model, pr: Private<Q, KV>): Net<Vec, Q, KV> {
    Net(|m.layers|,
        (t: int) => RowOf(m, Embed, 0, [t as real]),
        (l: nat, h: Vec, p: nat) => pr.query(l, pr.norm1(l, h), RowOf(m, Qkv, l, pr.norm1(l, h)), p),
        (l: nat, h: Vec, p: nat) => pr.keyValue(l, pr.norm1(l, h), RowOf(m, Qkv, l, pr.norm1(l, h)), p),
        (l: nat, h: Vec, q: Q, kvs: seq<KV>) =>
          var h' := AfterO(m, pr, l, h, pr.attend(l, q, kvs));
          AfterDown(m, pr, l, h', ActRow(m, pr, l, h')),
        (h: Vec) => FirstFloor(RowOf(m, LmHead, 0, pr.norm(h))))
  }

  // ----- The worker's program -----

  /** What a worker holds between two ops: the tokens behind the cache, where the request stands, the keys and values
      per layer, the hidden rows, and the rows to submit or to add to. */
  datatype Work<KV> = Work(seen: seq<int>, now: Progress, cache: seq<seq<KV>>, hidden: seq<Vec>, rows: seq<Vec>)

  /** That, with the index of the next op and whether the request is done. */
  datatype Dec<KV> = Dec(k: nat, work: Work<KV>, done: bool)

  function TokenRows(input: seq<int>): (x: Mat)
    ensures |x| == |input|
  {
    seq(|input|, i requires 0 <= i < |input| => [input[i] as real])
  }

  /** The rows of the next op. */
  function Submitted<Q, KV>(pr: Private<Q, KV>, op: Op, l: nat, st: Work<KV>): Mat {
    match op
    case Embed => TokenRows(st.now.input)
    case Qkv => seq(|st.hidden|, i requires 0 <= i < |st.hidden| => pr.norm1(l, st.hidden[i]))
    case OProj => st.rows
    case GateUp => seq(|st.hidden|, i requires 0 <= i < |st.hidden| => pr.norm2(l, st.hidden[i]))
    case Down => st.rows
    case LmHead => seq(|st.hidden|, i requires 0 <= i < |st.hidden| => pr.norm(st.hidden[i]))
  }

  /** A request that is done submits nothing any more. */
  function Submit<Q, KV>(c: Config, pr: Private<Q, KV>, st: Dec<KV>): Submission {
    if st.done || st.k >= OpCount(c) then Submission([], 0, 0)
    else Submission(Submitted(pr, OpAt(c, st.k), LayerAt(c, st.k), st.work), 1, |st.work.now.input|)
  }

  /** The keys and values of the new rows, behind those of the cached tokens. */
  function Extended<Q, KV>(pr: Private<Q, KV>, l: nat, base: nat, row: seq<KV>, hidden: seq<Vec>, y: Mat): (r: seq<KV>)
    requires |y| == |hidden|
    ensures |r| == |row| + |hidden|
  {
    row + seq(|hidden|, i requires 0 <= i < |hidden| == |y| => pr.keyValue(l, pr.norm1(l, hidden[i]), y[i], base + i))
  }

  /** Causal attention of the new rows. */
  function Attended<Q, KV>(pr: Private<Q, KV>, l: nat, base: nat, row: seq<KV>, hidden: seq<Vec>, y: Mat): (r: seq<Vec>)
    requires |y| == |hidden| && base + |hidden| <= |row|
    ensures |r| == |hidden|
  {
    seq(|hidden|, i requires 0 <= i < |hidden| == |y| && base + |hidden| <= |row| =>
      pr.attend(l, pr.query(l, pr.norm1(l, hidden[i]), y[i], base + i), row[..base + i + 1]))
  }

  /** What the worker makes of the result rows of the four layer ops. */
  function LayerStep<Q, KV>(pr: Private<Q, KV>, op: Op, l: nat, st: Work<KV>, y: Mat): Work<KV> {
    var n := |st.now.input|;
    if |y| != n || |st.hidden| != n || |st.rows| != n || l >= |st.cache| then st
    else
      match op
      case Qkv =>
        var row := Extended(pr, l, |st.seen|, st.cache[l], st.hidden, y);
        if |row| < |st.seen| + n then st
        else st.(cache := st.cache[l := row], rows := Attended(pr, l, |st.seen|, row, st.hidden, y))
      case OProj =>
        st.(hidden := seq(n, i requires 0 <= i < n == |st.hidden| == |st.rows| == |y| =>
          pr.afterO(l, st.hidden[i], st.rows[i], y[i])))
      case GateUp =>
        st.(rows := seq(n, i requires 0 <= i < n == |st.hidden| == |y| =>
          pr.act(l, pr.norm2(l, st.hidden[i]), y[i])))
      case Down =>
        st.(hidden := seq(n, i requires 0 <= i < n == |st.hidden| == |st.rows| == |y| =>
          pr.afterDown(l, st.hidden[i], st.rows[i], y[i])))
      case _ => st
  }

  function RowsBack(y: Vec, n: nat, w: nat): Mat {
    if n * w <= |y| then View(y, n, w) else []
  }

  /** Everything but the lm_head. */
  function OpStep<Q, KV>(m: Model, pr: Private<Q, KV>, op: Op, l: nat, st: Work<KV>, y: Vec): Work<KV> {
    var back := RowsBack(y, |st.now.input|, OutWidth(m, op));
    if op.Embed? then st.(hidden := back, rows := back) else LayerStep(pr, op, l, st, back)
  }

  /** The end of a token: the sampled token is taken. */
  function TokenStep<KV>(st: Work<KV>, tok: int): Work<KV> {
    st.(seen := st.seen + st.now.input, now := WithToken(st.now, tok))
  }

  function Receive<Q, KV>(c: Config, pr: Private<Q, KV>, m: int, eos: Option<int>, st: Dec<KV>, y: Vec): Dec<KV> {
    if st.k >= OpCount(c) then st
    else if OpAt(c, st.k).LmHead? then
      var next := TokenStep(st.work, FirstFloor(y));
      Dec(0, next, Completed(next.now.generated, m, eos))
    else
      Dec(st.k + 1, OpStep(c.model, pr, OpAt(c, st.k), LayerAt(c, st.k), st.work, y), st.done)
  }

  /** A fresh request: its first chunk is next, and nothing is cached. */
  function Begin<H, Q, KV>(layers: nat, rq: Request<H, Q, KV>): Work<KV>
    requires rq.toks != [] && rq.chunkSize > 0
  {
    var parts := Split(rq.toks, rq.chunkSize);
    Work([], Progress(parts[0], parts[1..], []), seq(layers, _ => []), [], [])
  }

  ghost function Decoding<Q, KV>(c: Config, pr: Private<Q, KV>, rq: Request<Vec, Q, KV>): Program<Dec<KV>>
    requires rq.toks != [] && rq.chunkSize > 0
  {
    Program(Dec(0, Begin(|c.model.layers|, rq), false),
            (st: Dec<KV>) => Submit(c, pr, st),
            (st: Dec<KV>, y: Vec) => Receive(c, pr, rq.m, rq.eos, st, y))
  }

  // ----- Alone, the program computes the network -----

  /** The row sent to o_proj for position `p`. */
  ghost function AttRow<Q, KV>(m: Model, pr: Private<Q, KV>, toks: seq<int>, l: nat, p: nat): Vec
    requires p < |toks|
  {
    var net := NetOf(m, pr);
    pr.attend(l, net.query(l, HiddenAt(net, toks, l, p), p), KvPrefix(net, toks, l, p + 1))
  }

  /** The hidden row in the middle of a layer. */
  ghost function MidRow<Q, KV>(m: Model, pr: Private<Q, KV>, toks: seq<int>, l: nat, p: nat): Vec
    requires p < |toks|
  {
    AfterO(m, pr, l, HiddenAt(NetOf(m, pr), toks, l, p), AttRow(m, pr, toks, l, p))
  }

  lemma LayerOut<Q, KV>(m: Model, pr: Private<Q, KV>, toks: seq<int>, l: nat, p: nat)
    requires p < |toks|
    ensures HiddenAt(NetOf(m, pr), toks, l + 1, p)
         == AfterDown(m, pr, l, MidRow(m, pr, toks, l, p), ActRow(m, pr, l, MidRow(m, pr, toks, l, p)))
  {
  }

  lemma HeadIsGreedy(m: Model, x: Vec)
    requires ModelOk(m) && |x| == m.hidden
    ensures Greedy(m, x, FirstFloor(RowOf(m, LmHead, 0, x)))
  {
    hide Dot;
    var logits := ApplyRow(m.lmHead, x);
    assert RowOf(m, LmHead, 0, x) == [ArgMax(logits) as real];
    assert forall i :: 0 <= i < |m.lmHead| ==> logits[i] == Dot(x, m.lmHead[i]);
  }

  /** The network's next token: the least index with a largest logit, for the normalised last row of the last layer. */
  lemma NextIsGreedy<Q(!new), KV(!new)>(m: Model, pr: Private<Q, KV>, toks: seq<int>)
    requires ModelOk(m) && PrivateOk(m, pr) && toks != []
    ensures var net := NetOf(m, pr);
      Greedy(m, pr.norm(HiddenAt(net, toks, |m.layers|, |toks| - 1)), NextToken(net, toks))
  {
    hide ModelOk, HiddenAt, Greedy, RowOf, FirstFloor;
    HeadIsGreedy(m, pr.norm(HiddenAt(NetOf(m, pr), toks, |m.layers|, |toks| - 1)));
  }

  /** The network's first row of a position is the table row of its token. */
  lemma FirstIsTableRow<Q(!new), KV(!new)>(m: Model, pr: Private<Q, KV>, toks: seq<int>, p: nat)
    requires ModelOk(m) && PrivateOk(m, pr) && p < |toks|
    ensures
      var t, last := toks[p], |m.embed| - 1;
      HiddenAt(NetOf(m, pr), toks, 0, p) == m.embed[if t < 0 then 0 else if t > last then last else t]
  {
  }

  /** The hidden row of position `p` when this op is next. */
  ghost function HiddenRef<Q, KV>(m: Model, pr: Private<Q, KV>, toks: seq<int>, op: Op, l: nat, p: nat): Vec
    requires p < |toks|
  {
    match op
    case Embed => []
    case Qkv => HiddenAt(NetOf(m, pr), toks, l, p)
    case OProj => HiddenAt(NetOf(m, pr), toks, l, p)
    case GateUp => MidRow(m, pr, toks, l, p)
    case Down => MidRow(m, pr, toks, l, p)
    case LmHead => HiddenAt(NetOf(m, pr), toks, |m.layers|, p)
  }

  /** The row that this op is given for position `p`. */
  ghost function InputRef<Q, KV>(m: Model, pr: Private<Q, KV>, toks: seq<int>, op: Op, l: nat, p: nat): Vec
    requires p < |toks|
  {
    match op
    case Embed => [toks[p] as real]
    case Qkv => pr.norm1(l, HiddenRef(m, pr, toks, op, l, p))
    case OProj => AttRow(m, pr, toks, l, p)
    case GateUp => pr.norm2(l, HiddenRef(m, pr, toks, op, l, p))
    case Down => ActRow(m, pr, l, HiddenRef(m, pr, toks, op, l, p))
    case LmHead => pr.norm(HiddenRef(m, pr, toks, op, l, p))
  }

  ghost function Text<KV>(st: Work<KV>): seq<int> {
    st.seen + st.now.input
  }

  ghost predicate RowStands<Q, KV>(m: Model, pr: Private<Q, KV>, st: Work<KV>, op: Op, l: nat, i: nat)
    requires i < |st.now.input| == |st.hidden| == |st.rows|
  {
    var p := |st.seen| + i;
    && st.hidden[i] == HiddenRef(m, pr, Text(st), op, l, p)
    && (op.OProj? || op.Down? ==> st.rows[i] == InputRef(m, pr, Text(st), op, l, p))
  }

  ghost predicate RowsStand<Q, KV>(m: Model, pr: Private<Q, KV>, st: Work<KV>, op: Op, l: nat) {
    |st.hidden| == |st.rows| == |st.now.input|
    && forall i :: 0 <= i < |st.now.input| ==> RowStands(m, pr, st, op, l, i)
  }

  /** When this op is next, layer `j` has seen the new tokens. */
  predicate Past(op: Op, l: nat, j: nat) {
    match op
    case Embed => false
    case Qkv => j < l
    case LmHead => true
    case _ => j <= l
  }

  ghost predicate CacheAt<Q, KV>(m: Model, pr: Private<Q, KV>, st: Work<KV>, op: Op, l: nat, j: nat)
    requires j < |st.cache|
  {
    st.cache[j] == KvPrefix(NetOf(m, pr), Text(st), j, if Past(op, l, j) then |Text(st)| else |st.seen|)
  }

  /** Each layer holds the cached tokens, and the new ones once its own first op is over. */
  ghost predicate CacheStands<Q, KV>(m: Model, pr: Private<Q, KV>, st: Work<KV>, op: Op, l: nat) {
    |st.cache| == |m.layers| && forall j :: 0 <= j < |st.cache| ==> CacheAt(m, pr, st, op, l, j)
  }

  ghost predicate Stands<Q, KV>(m: Model, pr: Private<Q, KV>, st: Work<KV>, op: Op, l: nat) {
    && st.now.input != [] && LayerInRange(m, op, l) && CacheStands(m, pr, st, op, l)
    && (!op.Embed? ==> RowsStand(m, pr, st, op, l))
  }

  // ----- Submitted rows and what comes back for them -----

  lemma SubmittedAt<Q(!new), KV(!new)>(m: Model, pr: Private<Q, KV>, op: Op, l: nat, st: Work<KV>, i: nat)
    requires PrivateOk(m, pr) && (!op.Embed? ==> RowsStand(m, pr, st, op, l)) && i < |st.now.input|
    ensures var x := Submitted(pr, op, l, st);
      |x| == |st.now.input| && |x[i]| == InWidth(m, op) && x[i] == InputRef(m, pr, Text(st), op, l, |st.seen| + i)
  {
    hide HiddenRef, NetOf;
    if !op.Embed? { assert RowStands(m, pr, st, op, l, i); }
  }

  /** The submitted rows have the op's width. */
  lemma SubmittedShape<Q(!new), KV(!new)>(m: Model, pr: Private<Q, KV>, op: Op, l: nat, st: Work<KV>)
    requires Stands(m, pr, st, op, l) && PrivateOk(m, pr)
    ensures Shaped(Submitted(pr, op, l, st), |st.now.input|, InWidth(m, op))
  {
    hide Submitted, InWidth, CacheStands, RowsStand, PrivateOk;
    SubmittedAt(m, pr, op, l, st, 0);
    forall i: nat | i < |st.now.input| ensures |Submitted(pr, op, l, st)[i]| == InWidth(m, op) {
      SubmittedAt(m, pr, op, l, st, i);
    }
  }

  /** For a submission that runs alone every row goes through the op. */
  lemma SoloBack(m: Model, op: Op, l: nat, x: Mat, i: nat)
    requires ModelOk(m) && LayerInRange(m, op, l) && Shaped(x, |x|, InWidth(m, op)) && !op.LmHead? && i < |x|
    ensures var back := RowsBack(SoloCells(m, op, l, x), |x|, OutWidth(m, op));
      |back| == |x| && back[i] == RowOf(m, op, l, x[i])
  {
    var rows := SoloRows(m, op, l, x);
    FlatLength(rows, OutWidth(m, op));
    ViewOfPrefix(rows, [], OutWidth(m, op));
    assert Flat(rows) + [] == Flat(rows);
  }

  /** For lm_head the last one does. */
  lemma SoloHead(m: Model, l: nat, x: Mat)
    requires ModelOk(m) && Shaped(x, |x|, m.hidden) && x != []
    ensures SoloCells(m, LmHead, l, x) == RowOf(m, LmHead, 0, x[|x| - 1])
  {
    var rows := SoloRows(m, LmHead, l, x);
    assert rows[1..] == [];
    assert Flat(rows) == rows[0] + Flat(rows[1..]) == rows[0];
  }

  /** The result of the program's own rows, run alone. */
  ghost function OwnCells<Q(!new), KV(!new)>(m: Model, pr: Private<Q, KV>, op: Op, l: nat, st: Work<KV>): Vec
    requires ModelOk(m) && Stands(m, pr, st, op, l) && PrivateOk(m, pr)
  {
    SubmittedShape(m, pr, op, l, st);
    SoloCells(m, op, l, Submitted(pr, op, l, st))
  }

  /** Result rows that are those of the reference rows. */
  ghost predicate BackStands<Q, KV>(m: Model, pr: Private<Q, KV>, st: Work<KV>, op: Op, l: nat, back: Mat) {
    |back| == |st.now.input| && forall i :: 0 <= i < |back| ==> BackAt(m, pr, st, op, l, back, i)
  }

  ghost predicate BackAt<Q, KV>(m: Model, pr: Private<Q, KV>, st: Work<KV>, op: Op, l: nat, back: Mat, i: nat)
    requires i < |back| == |st.now.input|
  {
    back[i] == RowOf(m, op, l, InputRef(m, pr, Text(st), op, l, |st.seen| + i))
  }

  lemma OwnBack<Q(!new), KV(!new)>(m: Model, pr: Private<Q, KV>, op: Op, l: nat, st: Work<KV>)
    requires ModelOk(m) && Stands(m, pr, st, op, l) && PrivateOk(m, pr) && !op.LmHead?
    ensures BackStands(m, pr, st, op, l, RowsBack(OwnCells(m, pr, op, l, st), |st.now.input|, OutWidth(m, op)))
  {
    hide Submitted, InputRef, RowOf, RowsBack, SoloCells, InWidth, OutWidth, PrivateOk, CacheStands, RowsStand, ModelOk;
    SubmittedShape(m, pr, op, l, st);
    var x, back := Submitted(pr, op, l, st), RowsBack(OwnCells(m, pr, op, l, st), |st.now.input|, OutWidth(m, op));
    SoloBack(m, op, l, x, 0);
    forall i: nat | i < |back| ensures BackAt(m, pr, st, op, l, back, i) {
      SoloBack(m, op, l, x, i);
      SubmittedAt(m, pr, op, l, st, i);
    }
  }

  // ----- The rows after each op -----

  lemma EmbedIs<Q, KV>(m: Model, pr: Private<Q, KV>, toks: seq<int>, p: nat)
    requires p < |toks|
    ensures HiddenAt(NetOf(m, pr), toks, 0, p) == RowOf(m, Embed, 0, [toks[p] as real])
  {
    hide RowOf;
  }

  lemma KvIs<Q, KV>(m: Model, pr: Private<Q, KV>, toks: seq<int>, l: nat, p: nat, h: Vec, x: Vec)
    requires p < |toks| && h == HiddenAt(NetOf(m, pr), toks, l, p) && x == pr.norm1(l, h)
    ensures KvAt(NetOf(m, pr), toks, l, p) == pr.keyValue(l, x, RowOf(m, Qkv, l, x), p)
    ensures NetOf(m, pr).query(l, h, p) == pr.query(l, x, RowOf(m, Qkv, l, x), p)
  {
    hide RowOf, HiddenAt;
  }

  lemma EmbedRow<Q, KV>(m: Model, pr: Private<Q, KV>, st: Work<KV>, back: Mat, op: Op, l: nat, i: nat)
    requires BackStands(m, pr, st, Embed, 0, back) && Succ(m, Embed, 0, op, l) && i < |back|
    ensures RowStands(m, pr, st.(hidden := back, rows := back), op, l, i)
  {
    hide HiddenAt, NetOf, RowOf, MidRow, ActRow, AttRow;
    assert BackAt(m, pr, st, Embed, 0, back, i);
    EmbedIs(m, pr, Text(st), |st.seen| + i);
  }

  lemma EmbedRows<Q, KV>(m: Model, pr: Private<Q, KV>, st: Work<KV>, back: Mat, op: Op, l: nat)
    requires BackStands(m, pr, st, Embed, 0, back) && Succ(m, Embed, 0, op, l)
    ensures RowsStand(m, pr, st.(hidden := back, rows := back), op, l)
  {
    hide RowStands, BackAt;
    forall i | 0 <= i < |back| ensures RowStands(m, pr, st.(hidden := back, rows := back), op, l, i) {
      EmbedRow(m, pr, st, back, op, l, i);
    }
  }

  lemma OProjRows<Q, KV>(m: Model, pr: Private<Q, KV>, st: Work<KV>, l: nat, back: Mat)
    requires RowsStand(m, pr, st, OProj, l) && BackStands(m, pr, st, OProj, l, back) && l < |st.cache|
    ensures RowsStand(m, pr, LayerStep(pr, OProj, l, st, back), GateUp, l)
  {
    var st' := LayerStep(pr, OProj, l, st, back);
    hide NetOf, HiddenAt, AttRow, RowOf;
    forall i | 0 <= i < |back| ensures RowStands(m, pr, st', GateUp, l, i) {
      assert RowStands(m, pr, st, OProj, l, i) && BackAt(m, pr, st, OProj, l, back, i);
    }
  }

  lemma GateUpRows<Q, KV>(m: Model, pr: Private<Q, KV>, st: Work<KV>, l: nat, back: Mat)
    requires RowsStand(m, pr, st, GateUp, l) && BackStands(m, pr, st, GateUp, l, back) && l < |st.cache|
    ensures RowsStand(m, pr, LayerStep(pr, GateUp, l, st, back), Down, l)
  {
    var st' := LayerStep(pr, GateUp, l, st, back);
    hide NetOf, HiddenAt, AttRow, RowOf, MidRow;
    forall i | 0 <= i < |back| ensures RowStands(m, pr, st', Down, l, i) {
      assert RowStands(m, pr, st, GateUp, l, i) && BackAt(m, pr, st, GateUp, l, back, i);
    }
  }

  lemma DownRows<Q, KV>(m: Model, pr: Private<Q, KV>, st: Work<KV>, l: nat, back: Mat, op: Op, next: nat)
    requires RowsStand(m, pr, st, Down, l) && BackStands(m, pr, st, Down, l, back) && l < |st.cache|
    requires (op.Qkv? && next == l + 1) || (op.LmHead? && l + 1 == |m.layers|)
    ensures RowsStand(m, pr, LayerStep(pr, Down, l, st, back), op, next)
  {
    var st' := LayerStep(pr, Down, l, st, back);
    hide NetOf, HiddenAt, RowOf, MidRow, ActRow;
    forall i | 0 <= i < |back| ensures RowStands(m, pr, st', op, next, i) {
      assert RowStands(m, pr, st, Down, l, i) && BackAt(m, pr, st, Down, l, back, i);
      LayerOut(m, pr, Text(st), l, |st.seen| + i);
    }
  }

  // ----- The caches -----

  lemma {:induction false} KvLength<H, Q, KV>(net: Net<H, Q, KV>, toks: seq<int>, l: nat, n: nat, j: nat)
    requires j <= n <= |toks|
    ensures |KvPrefix(net, toks, l, n)| == n && KvPrefix(net, toks, l, n)[..j] == KvPrefix(net, toks, l, j)
  {
    if n > 0 && j < n {
      KvLength(net, toks, l, n - 1, j);
    } else if n > 0 {
      KvLength(net, toks, l, n - 1, n - 1);
    }
  }

  /** Appending the keys and values of the next positions, one after another. */
  lemma {:induction false} KvGrows<H, Q, KV>(net: Net<H, Q, KV>, toks: seq<int>, l: nat, base: nat, more: seq<KV>)
    requires base + |more| <= |toks| && forall i :: 0 <= i < |more| ==> more[i] == KvAt(net, toks, l, base + i)
    ensures KvPrefix(net, toks, l, base) + more == KvPrefix(net, toks, l, base + |more|)
  {
    if more == [] {
      assert KvPrefix(net, toks, l, base) + more == KvPrefix(net, toks, l, base);
    } else {
      var front, last := more[..|more| - 1], more[|more| - 1];
      KvGrows(net, toks, l, base, front);
      assert KvPrefix(net, toks, l, base) + more == KvPrefix(net, toks, l, base) + front + [last];
    }
  }

  lemma ExtendedAt<Q, KV>(m: Model, pr: Private<Q, KV>, st: Work<KV>, l: nat, back: Mat, i: nat)
    requires RowsStand(m, pr, st, Qkv, l) && BackStands(m, pr, st, Qkv, l, back) && i < |back|
    ensures pr.keyValue(l, pr.norm1(l, st.hidden[i]), back[i], |st.seen| + i)
         == KvAt(NetOf(m, pr), Text(st), l, |st.seen| + i)
    ensures pr.query(l, pr.norm1(l, st.hidden[i]), back[i], |st.seen| + i)
         == NetOf(m, pr).query(l, HiddenAt(NetOf(m, pr), Text(st), l, |st.seen| + i), |st.seen| + i)
  {
    hide HiddenAt, RowOf, KvAt, NetOf;
    assert RowStands(m, pr, st, Qkv, l, i) && BackAt(m, pr, st, Qkv, l, back, i);
    KvIs(m, pr, Text(st), l, |st.seen| + i, st.hidden[i], pr.norm1(l, st.hidden[i]));
  }

  lemma ExtendedIs<Q, KV>(m: Model, pr: Private<Q, KV>, st: Work<KV>, l: nat, back: Mat)
    requires RowsStand(m, pr, st, Qkv, l) && BackStands(m, pr, st, Qkv, l, back) && l < |st.cache|
    requires st.cache[l] == KvPrefix(NetOf(m, pr), Text(st), l, |st.seen|)
    ensures Extended(pr, l, |st.seen|, st.cache[l], st.hidden, back) == KvPrefix(NetOf(m, pr), Text(st), l, |Text(st)|)
  {
    var net, toks, base := NetOf(m, pr), Text(st), |st.seen|;
    hide NetOf, KvPrefix, KvAt, HiddenAt;
    var row := Extended(pr, l, base, st.cache[l], st.hidden, back);
    KvLength(net, toks, l, base, base);
    var more := row[base..];
    assert row == st.cache[l] + more;
    forall i | 0 <= i < |more| ensures more[i] == KvAt(net, toks, l, base + i) {
      ExtendedAt(m, pr, st, l, back, i);
    }
    hide *;
    KvGrows(net, toks, l, base, more);
  }

  lemma AttendedAt<Q, KV>(m: Model, pr: Private<Q, KV>, st: Work<KV>, l: nat, back: Mat, row: seq<KV>, i: nat)
    requires RowsStand(m, pr, st, Qkv, l) && BackStands(m, pr, st, Qkv, l, back) && i < |back|
    requires row == KvPrefix(NetOf(m, pr), Text(st), l, |Text(st)|) && |row| == |Text(st)|
    ensures Attended(pr, l, |st.seen|, row, st.hidden, back)[i] == AttRow(m, pr, Text(st), l, |st.seen| + i)
  {
    hide HiddenAt, RowOf, KvPrefix, NetOf;
    KvLength(NetOf(m, pr), Text(st), l, |Text(st)|, |st.seen| + i + 1);
    ExtendedAt(m, pr, st, l, back, i);
  }

  lemma QkvStep<Q, KV>(m: Model, pr: Private<Q, KV>, st: Work<KV>, l: nat, back: Mat)
    requires RowsStand(m, pr, st, Qkv, l) && BackStands(m, pr, st, Qkv, l, back) && l < |st.cache|
    requires st.cache[l] == KvPrefix(NetOf(m, pr), Text(st), l, |st.seen|)
    ensures var row := KvPrefix(NetOf(m, pr), Text(st), l, |Text(st)|);
      && |row| == |Text(st)|
      && LayerStep(pr, Qkv, l, st, back)
         == st.(cache := st.cache[l := row], rows := Attended(pr, l, |st.seen|, row, st.hidden, back))
  {
    ExtendedIs(m, pr, st, l, back);
    KvLength(NetOf(m, pr), Text(st), l, |Text(st)|, 0);
    hide NetOf, KvPrefix, Extended, Attended, RowStands, BackAt;
  }

  lemma QkvRow<Q, KV>(m: Model, pr: Private<Q, KV>, st: Work<KV>, l: nat, back: Mat, st': Work<KV>, i: nat)
    requires RowsStand(m, pr, st, Qkv, l) && BackStands(m, pr, st, Qkv, l, back) && i < |back|
    requires var row := KvPrefix(NetOf(m, pr), Text(st), l, |Text(st)|);
      |row| == |Text(st)| && st'.rows == Attended(pr, l, |st.seen|, row, st.hidden, back)
    requires st'.seen == st.seen && st'.now == st.now && st'.hidden == st.hidden
    ensures RowStands(m, pr, st', OProj, l, i)
  {
    hide NetOf, KvPrefix, HiddenAt, Attended, AttRow, RowOf, MidRow, ActRow;
    AttendedAt(m, pr, st, l, back, KvPrefix(NetOf(m, pr), Text(st), l, |Text(st)|), i);
    assert RowStands(m, pr, st, Qkv, l, i);
  }

  lemma QkvRows<Q, KV>(m: Model, pr: Private<Q, KV>, st: Work<KV>, l: nat, back: Mat)
    requires RowsStand(m, pr, st, Qkv, l) && BackStands(m, pr, st, Qkv, l, back) && l < |st.cache|
    requires st.cache[l] == KvPrefix(NetOf(m, pr), Text(st), l, |st.seen|)
    ensures RowsStand(m, pr, LayerStep(pr, Qkv, l, st, back), OProj, l)
  {
    QkvStep(m, pr, st, l, back);
    var st' := LayerStep(pr, Qkv, l, st, back);
    hide NetOf, KvPrefix, Attended, RowStands, BackAt, LayerStep, Text;
    forall i | 0 <= i < |back| ensures RowStands(m, pr, st', OProj, l, i) {
      QkvRow(m, pr, st, l, back, st', i);
    }
  }

  /** The ops of a token in their order. */
  predicate Succ(m: Model, op: Op, l: nat, op': Op, l': nat) {
    match op
    case Embed => if |m.layers| == 0 then op'.LmHead? else op'.Qkv? && l' == 0
    case Qkv => op'.OProj? && l' == l
    case OProj => op'.GateUp? && l' == l
    case GateUp => op'.Down? && l' == l
    case Down => if l + 1 == |m.layers| then op'.LmHead? else op'.Qkv? && l' == l + 1
    case LmHead => false
  }

  lemma OpOrder(c: Config, k: nat)
    requires k < OpCount(c)
    ensures (OpAt(c, k).LmHead? <==> k + 1 == OpCount(c)) && (OpAt(c, k).Embed? ==> LayerAt(c, k) == 0)
    ensures k + 1 < OpCount(c) ==> Succ(c.model, OpAt(c, k), LayerAt(c, k), OpAt(c, k + 1), LayerAt(c, k + 1))
  {
  }

  /** After any op but the fused qkv the caches stand as they did. */
  lemma CacheStays<Q, KV>(m: Model, pr: Private<Q, KV>, st: Work<KV>, st': Work<KV>, op: Op, l: nat, op': Op, l': nat)
    requires CacheStands(m, pr, st, op, l) && LayerInRange(m, op, l) && !op.Qkv? && Succ(m, op, l, op', l')
    requires st'.seen == st.seen && st'.now == st.now && st'.cache == st.cache
    ensures CacheStands(m, pr, st', op', l')
  {
    hide KvPrefix, NetOf;
    forall j | 0 <= j < |st.cache| ensures CacheAt(m, pr, st', op', l', j) {
      assert CacheAt(m, pr, st, op, l, j);
      assert Past(op, l, j) == Past(op', l', j);
    }
  }

  lemma CacheGrows<Q, KV>(m: Model, pr: Private<Q, KV>, st: Work<KV>, st': Work<KV>, l: nat)
    requires CacheStands(m, pr, st, Qkv, l) && l < |m.layers|
    requires st' == st.(cache := st.cache[l := KvPrefix(NetOf(m, pr), Text(st), l, |Text(st)|)], rows := st'.rows)
    ensures CacheStands(m, pr, st', OProj, l)
  {
    hide KvPrefix, NetOf;
    forall j | 0 <= j < |st.cache| ensures CacheAt(m, pr, st', OProj, l, j) {
      assert CacheAt(m, pr, st, Qkv, l, j);
    }
  }

  // ----- One op, one token, one request -----

  lemma LayerStands<Q, KV>(m: Model, pr: Private<Q, KV>, st: Work<KV>, op: Op, l: nat, op': Op, l': nat, back: Mat)
    requires Stands(m, pr, st, op, l) && Succ(m, op, l, op', l') && (op.OProj? || op.GateUp? || op.Down?)
    requires BackStands(m, pr, st, op, l, back)
    ensures Stands(m, pr, LayerStep(pr, op, l, st, back), op', l')
  {
    var st' := LayerStep(pr, op, l, st, back);
    assert st'.now == st.now && st'.seen == st.seen && st'.cache == st.cache;
    hide LayerStep, BackStands, RowsStand, CacheStands;
    CacheStays(m, pr, st, st', op, l, op', l');
    LayerRows(m, pr, st, op, l, op', l', back);
  }

  lemma LayerRows<Q, KV>(m: Model, pr: Private<Q, KV>, st: Work<KV>, op: Op, l: nat, op': Op, l': nat, back: Mat)
    requires RowsStand(m, pr, st, op, l) && Succ(m, op, l, op', l') && (op.OProj? || op.GateUp? || op.Down?)
    requires BackStands(m, pr, st, op, l, back) && l < |st.cache|
    ensures RowsStand(m, pr, LayerStep(pr, op, l, st, back), op', l')
  {
    hide LayerStep, BackStands, RowsStand;
    match op
    case OProj => OProjRows(m, pr, st, l, back);
    case GateUp => GateUpRows(m, pr, st, l, back);
    case Down => DownRows(m, pr, st, l, back, op', l');
  }

  lemma EmbedStands<Q, KV>(m: Model, pr: Private<Q, KV>, st: Work<KV>, op': Op, l': nat, back: Mat)
    requires Stands(m, pr, st, Embed, 0) && Succ(m, Embed, 0, op', l') && BackStands(m, pr, st, Embed, 0, back)
    ensures Stands(m, pr, st.(hidden := back, rows := back), op', l')
  {
    hide BackStands, RowsStand, CacheStands;
    CacheStays(m, pr, st, st.(hidden := back, rows := back), Embed, 0, op', l');
    EmbedRows(m, pr, st, back, op', l');
  }

  lemma QkvStands<Q, KV>(m: Model, pr: Private<Q, KV>, st: Work<KV>, l: nat, back: Mat)
    requires Stands(m, pr, st, Qkv, l) && BackStands(m, pr, st, Qkv, l, back)
    ensures Stands(m, pr, LayerStep(pr, Qkv, l, st, back), OProj, l)
  {
    assert CacheAt(m, pr, st, Qkv, l, l);
    hide BackStands, RowsStand, LayerStep, NetOf, KvPrefix, CacheStands, Attended;
    QkvStep(m, pr, st, l, back);
    QkvRows(m, pr, st, l, back);
    CacheGrows(m, pr, st, LayerStep(pr, Qkv, l, st, back), l);
  }

  /** Every op but the lm_head leaves rows and caches as the network has them before the next op. */
  lemma OpStands<Q(!new), KV(!new)>(m: Model, pr: Private<Q, KV>, st: Work<KV>, op: Op, l: nat, op': Op, l': nat)
    requires ModelOk(m) && Stands(m, pr, st, op, l) && PrivateOk(m, pr) && Succ(m, op, l, op', l')
    requires op.Embed? ==> l == 0
    ensures var st' := OpStep(m, pr, op, l, st, OwnCells(m, pr, op, l, st));
      Stands(m, pr, st', op', l') && st'.seen == st.seen && st'.now == st.now
  {
    var back := RowsBack(OwnCells(m, pr, op, l, st), |st.now.input|, OutWidth(m, op));
    OwnBack(m, pr, op, l, st);
    StepKeepsRequest(pr, op, l, st, back);
    hide Stands, BackStands, OwnCells, RowsBack, PrivateOk, OutWidth, ModelOk, LayerStep;
    if op.Embed? {
      EmbedStands(m, pr, st, op', l', back);
    } else if op.Qkv? {
      QkvStands(m, pr, st, l, back);
    } else {
      LayerStands(m, pr, st, op, l, op', l', back);
    }
  }

  lemma StepKeepsRequest<Q, KV>(pr: Private<Q, KV>, op: Op, l: nat, st: Work<KV>, back: Mat)
    ensures var st' := LayerStep(pr, op, l, st, back); st'.seen == st.seen && st'.now == st.now
  {
  }

  lemma NextIs<Q, KV>(m: Model, pr: Private<Q, KV>, toks: seq<int>, l: nat)
    requires toks != []
    ensures NextToken(NetOf(m, pr), toks)
         == FirstFloor(RowOf(m, LmHead, 0, InputRef(m, pr, toks, LmHead, l, |toks| - 1)))
  {
    hide HiddenAt, RowOf;
  }

  lemma HeadBack<Q(!new), KV(!new)>(m: Model, pr: Private<Q, KV>, st: Work<KV>, l: nat)
    requires ModelOk(m) && Stands(m, pr, st, LmHead, l) && PrivateOk(m, pr)
    ensures Text(st) != []
    ensures OwnCells(m, pr, LmHead, l, st) == RowOf(m, LmHead, 0, InputRef(m, pr, Text(st), LmHead, l, |Text(st)| - 1))
  {
    hide CacheStands, RowsStand, PrivateOk, Submitted, SoloCells, RowOf, InputRef, ModelOk;
    var x, last := Submitted(pr, LmHead, l, st), |st.now.input| - 1;
    SubmittedShape(m, pr, LmHead, l, st);
    SubmittedAt(m, pr, LmHead, l, st, last);
    SoloHead(m, l, x);
  }

  /** The lm_head gives the naive next token of the whole text. */
  lemma HeadIsNext<Q(!new), KV(!new)>(m: Model, pr: Private<Q, KV>, st: Work<KV>, l: nat)
    requires ModelOk(m) && Stands(m, pr, st, LmHead, l) && PrivateOk(m, pr)
    ensures Text(st) != [] && FirstFloor(OwnCells(m, pr, LmHead, l, st)) == NextToken(NetOf(m, pr), Text(st))
  {
    HeadBack(m, pr, st, l);
    hide *;
    NextIs(m, pr, Text(st), l);
  }

  lemma TokenStands<Q, KV>(m: Model, pr: Private<Q, KV>, st: Work<KV>, l: nat, tok: int)
    requires Stands(m, pr, st, LmHead, l) && TokenStep(st, tok).now.input != []
    ensures Stands(m, pr, TokenStep(st, tok), Embed, 0)
  {
    var st' := TokenStep(st, tok);
    hide RowsStand, KvPrefix, NetOf;
    forall j | 0 <= j < |st.cache| ensures CacheAt(m, pr, st', Embed, 0, j) {
      assert CacheAt(m, pr, st, LmHead, l, j);
      PrefixOfPrefix(NetOf(m, pr), Text(st), Text(st'), j, |Text(st)|);
    }
  }

  /** The chunks that are still to come and the next input fit one step. */
  predicate Short(p: Progress, chunkSize: nat) {
    0 < |p.input| <= chunkSize && forall i :: 0 <= i < |p.chunks| ==> 0 < |p.chunks[i]| <= chunkSize
  }

  /** Where a decoding worker stands: its request is answered, or under way with everything as the network has it. */
  ghost predicate DecOk<Q, KV>(c: Config, pr: Private<Q, KV>, rq: Request<Vec, Q, KV>, st: Dec<KV>) {
    && rq.toks != [] && rq.chunkSize > 0 && st.k < OpCount(c)
    && if st.done then st.work.now.generated == Answer(rq)
       else
         && Stands(c.model, pr, st.work, OpAt(c, st.k), LayerAt(c, st.k))
         && Underway(rq, st.work.seen, st.work.now) && Short(st.work.now, rq.chunkSize)
  }

  ghost predicate RequestOk<Q(!new), KV(!new)>(c: Config, pr: Private<Q, KV>, rq: Request<Vec, Q, KV>) {
    && ConfigOk(c) && PrivateOk(c.model, pr) && rq.net == NetOf(c.model, pr) && rq.toks != []
    && 0 < rq.chunkSize <= c.maxTokens && c.maxTokens <= 65536
  }

  lemma BeginOk<Q(!new), KV(!new)>(c: Config, pr: Private<Q, KV>, rq: Request<Vec, Q, KV>)
    requires RequestOk(c, pr, rq)
    ensures DecOk(c, pr, rq, Dec(0, Begin(|c.model.layers|, rq), false))
  {
    var parts := Split(rq.toks, rq.chunkSize);
    SplitJoins(rq.toks, rq.chunkSize);
    Starts(rq, parts);
    hide Underway, Split, NetOf;
    var st := Begin(|c.model.layers|, rq);
    forall j | 0 <= j < |st.cache| ensures CacheAt(c.model, pr, st, Embed, 0, j) {
    }
  }

  /** Whatever is under way submits rows that the executor accepts, so its run never ends here. */
  lemma SubmissionAccepted<Q(!new), KV(!new)>(c: Config, pr: Private<Q, KV>, rq: Request<Vec, Q, KV>, st: Dec<KV>)
    requires RequestOk(c, pr, rq) && DecOk(c, pr, rq, st) && !st.done
    ensures var sub := Submit(c, pr, st); RowsOk(c, st.k, sub.x, sub.bx, sub.tx)
    ensures var op, l := OpAt(c, st.k), LayerAt(c, st.k);
      SoloCells(c.model, op, l, Submit(c, pr, st).x) == OwnCells(c.model, pr, op, l, st.work)
  {
    SubmittedShape(c.model, pr, OpAt(c, st.k), LayerAt(c, st.k), st.work);
    hide Stands, PrivateOk, OpAt, LayerAt, Submitted, SoloCells, Underway, InWidth, NetOf;
  }

  lemma OpOk<Q(!new), KV(!new)>(c: Config, pr: Private<Q, KV>, rq: Request<Vec, Q, KV>, st: Dec<KV>, op: Op, l: nat)
    requires RequestOk(c, pr, rq) && DecOk(c, pr, rq, st) && !st.done && st.k + 1 < OpCount(c)
    requires op == OpAt(c, st.k) && l == LayerAt(c, st.k)
    ensures var next := OpStep(c.model, pr, op, l, st.work, OwnCells(c.model, pr, op, l, st.work));
      DecOk(c, pr, rq, Dec(st.k + 1, next, false))
  {
    hide OpStep, OwnCells, Stands, PrivateOk, NetOf, Underway, Short, OpAt, LayerAt, OpCount, Succ, ModelOk, Answer;
    var op', l' := OpAt(c, st.k + 1), LayerAt(c, st.k + 1);
    OpOrder(c, st.k);
    OpStands(c.model, pr, st.work, op, l, op', l');
  }

  /** The end of a token: the request is answered, or under way with one chunk less or one token more. */
  lemma HeadOk<Q(!new), KV(!new)>(c: Config, pr: Private<Q, KV>, rq: Request<Vec, Q, KV>, st: Work<KV>, l: nat)
    requires RequestOk(c, pr, rq) && Stands(c.model, pr, st, LmHead, l) && Underway(rq, st.seen, st.now)
    requires Short(st.now, rq.chunkSize)
    ensures var next := TokenStep(st, FirstFloor(OwnCells(c.model, pr, LmHead, l, st)));
      DecOk(c, pr, rq, Dec(0, next, Completed(next.now.generated, rq.m, rq.eos)))
  {
    var m, tok := c.model, FirstFloor(OwnCells(c.model, pr, LmHead, l, st));
    HeadIsNext(m, pr, st, l);
    assert tok == NextToken(rq.net, st.seen + st.now.input);
    ShortStays(st.now, tok, rq.chunkSize);
    hide OwnCells, Stands, PrivateOk, NetOf, Underway, NextToken, ConfigOk, Short, WithToken, FirstFloor, Answer;
    assert Took(rq.net, st.seen, st.now, WithToken(st.now, tok)) by { InputNonEmpty(st.now, rq.chunkSize); }
    StepTaken(rq, st.seen, st.now, WithToken(st.now, tok));
    InputNonEmpty(WithToken(st.now, tok), rq.chunkSize);
    TokenStands(m, pr, st, l, tok);
  }

  lemma ShortStays(p: Progress, tok: int, chunkSize: nat)
    requires Short(p, chunkSize)
    ensures Short(WithToken(p, tok), chunkSize)
  {
  }

  lemma InputNonEmpty(p: Progress, chunkSize: nat)
    requires Short(p, chunkSize)
    ensures p.input != []
  {
  }

  /** One result of the worker's own rows keeps all of this. */
  lemma ReceiveOk<Q(!new), KV(!new)>(c: Config, pr: Private<Q, KV>, rq: Request<Vec, Q, KV>, st: Dec<KV>)
    requires RequestOk(c, pr, rq) && DecOk(c, pr, rq, st) && !st.done
    ensures var y := OwnCells(c.model, pr, OpAt(c, st.k), LayerAt(c, st.k), st.work);
      var st' := Receive(c, pr, rq.m, rq.eos, st, y);
      DecOk(c, pr, rq, st') && st'.k == if st.k + 1 == OpCount(c) then 0 else st.k + 1
  {
    hide OpStep, OwnCells, Stands, PrivateOk, NetOf, Underway, Short, OpAt, LayerAt, OpCount, Succ, Completed,
      TokenStep, Answer, ConfigOk;
    var op, l := OpAt(c, st.k), LayerAt(c, st.k);
    OpOrder(c, st.k);
    if op.LmHead? {
      HeadOk(c, pr, rq, st.work, l);
    } else {
      OpOk(c, pr, rq, st, op, l);
    }
  }

  // ----- The shared run -----

  lemma SoloStep<Q(!new), KV(!new)>(c: Config, pr: Private<Q, KV>, rq: Request<Vec, Q, KV>, st: Dec<KV>, k: nat, y: Vec)
    requires RequestOk(c, pr, rq) && DecOk(c, pr, rq, st) && (!st.done ==> st.k == k) && k < OpCount(c)
    requires var sub := Submit(c, pr, st);
      RowsOk(c, k, sub.x, sub.bx, sub.tx) && y == SoloCells(c.model, OpAt(c, k), LayerAt(c, k), sub.x)
    ensures var st' := Receive(c, pr, rq.m, rq.eos, st, y);
      !st.done && DecOk(c, pr, rq, st') && st'.k == if k + 1 == OpCount(c) then 0 else k + 1
  {
    hide OpAt, LayerAt, OpCount, Stands, PrivateOk, NetOf, Underway, Short, Answer, ConfigOk, SoloCells, OwnCells,
      Receive, Submitted;
    SubmissionAccepted(c, pr, rq, st);
    ReceiveOk(c, pr, rq, st);
  }

  /** Alone, the program keeps to its request from the first op to the last token. */
  lemma {:induction false} SoloDecodes<Q(!new), KV(!new)>(c: Config, pr: Private<Q, KV>, rq: Request<Vec, Q, KV>,
                                                          ys: seq<Vec>)
    requires RequestOk(c, pr, rq) && IsSolo(c, Decoding(c, pr, rq), ys)
    ensures DecOk(c, pr, rq, After(Decoding(c, pr, rq), ys))
    ensures var st := After(Decoding(c, pr, rq), ys); !st.done ==> st.k == OpIndex(c, |ys|)
  {
    hide DecOk, OpAt, LayerAt, OpCount, SoloCells, Submit, Receive, ConfigOk, PrivateOk, NetOf, Begin, RowsOk;
    var p := Decoding(c, pr, rq);
    if ys == [] {
      BeginOk(c, pr, rq);
    } else {
      var n := |ys| - 1;
      SoloPrefix(c, p, ys, n);
      SoloDecodes(c, pr, rq, ys[..n]);
      assert SoloAt(c, p, ys, n);
      SoloStep(c, pr, rq, After(p, ys[..n]), OpIndex(c, n), ys[n]);
    }
  }

  /** In every run of the protocol, whoever joins, leaves and shares its batches, what a worker has generated by any
      time is the beginning of its own answer: the naive tokens of its own prompt, under its own adapter.  When it is
      done it has the whole answer, and until then its next submission is one that the executor accepts. */
  lemma ServedInSharedRun<Q(!new), KV(!new)>(c: Config, pr: Private<Q, KV>, rq: Request<Vec, Q, KV>, run: seq<State>,
                                             labels: seq<Label>, w: nat, n: nat)
    requires RequestOk(c, pr, rq) && IsLabelled(c, run, labels) && n <= |labels| && w < c.numWorkers
    requires Follows(Decoding(c, pr, rq), run, labels, w)
    ensures var st := After(Decoding(c, pr, rq), Reads(run, labels, w, n));
      && st.work.now.generated <= Answer(rq)
      && (st.done ==> st.work.now.generated == Answer(rq) && (rq.m >= 1 ==> Ends(Answer(rq), rq.m, rq.eos)))
      && (!st.done ==> st.k < OpCount(c) && var sub := Submit(c, pr, st); RowsOk(c, st.k, sub.x, sub.bx, sub.tx))
  {
    hide OpAt, LayerAt, OpCount, Stands, PrivateOk, NetOf, Underway, Answer, ConfigOk, Submit, RowsOk, Follows,
      Decoding;
    var p := Decoding(c, pr, rq);
    SharedIsSolo(c, p, run, labels, w, n);
    SoloDecodes(c, pr, rq, Reads(run, labels, w, n));
    var st := After(p, Reads(run, labels, w, n));
    if rq.m >= 1 { AnswerEnds(rq); }
    if !st.done {
      GeneratedSoFar(rq, st.work.seen, st.work.now);
      SubmissionAccepted(c, pr, rq, st);
    }
  }

  /** For a request as the HTTP front hands it on, the answer is the naive one whatever budget was asked for. */
  lemma AnswerIsNaive<Q, KV>(m: Model, pr: Private<Q, KV>, prompt: seq<int>, maxTokens: int, maxSeqLen: nat,
                             chunkSize: nat, eos: Option<int>)
    requires prompt != [] && maxSeqLen >= 2
    ensures var toks := Truncated(prompt, maxSeqLen);
      var budget := Capped(Requested(maxTokens, maxSeqLen), |toks|, maxSeqLen);
      budget >= 1
      && Answer(Request(NetOf(m, pr), toks, budget, chunkSize, eos)) == Naive(NetOf(m, pr), toks, budget, eos)
  {
    hide NetOf, Naive;
    FrontServesNaive(NetOf(m, pr), prompt, maxTokens, maxSeqLen, chunkSize, eos);
  }
}
