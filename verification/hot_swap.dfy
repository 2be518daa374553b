/** Swapping the LoRA adapter of a running worker. */
module HotSwap {
  import opened Linear
  import opened SplitLora
  import opened FusedLora
  import opened InPlaceLora
  import opened Wrappers

  datatype Proj = QProj | KProj | VProj | OProj | GateProj | UpProj | DownProj

  type pos = n: nat | n > 0 witness 1

  datatype Info = Info(hidden: pos, kvDim: pos, inter: pos)

  /** A loaded adapter: rank, optional lora_alpha (the rank when absent), and (A, B) per layer and projection. */
  datatype Adapter = Adapter(rank: nat, alpha: Option<real>, modules: map<(nat, Proj), (Mat, Mat)>)

  function OutDim(info: Info, p: Proj): pos {
    match p
    case KProj => info.kvDim
    case VProj => info.kvDim
    case GateProj => info.inter
    case UpProj => info.inter
    case _ => info.hidden
  }

  function InDim(info: Info, p: Proj): pos {
    if p.DownProj? then info.inter else info.hidden
  }

  ghost predicate AdapterOk(info: Info, ad: Adapter) {
    && ad.rank > 0
    && forall l, p :: (l, p) in ad.modules ==>
         Shaped(ad.modules[(l, p)].0, ad.rank, InDim(info, p)) && Shaped(ad.modules[(l, p)].1, OutDim(info, p), ad.rank)
  }

  function Scaling(ad: Adapter): real
    requires ad.rank > 0
  {
    (if ad.alpha.Some? then ad.alpha.value else ad.rank as real) / ad.rank as real
  }

  function Lookup(ad: Adapter, layer: nat, p: Proj): Option<LoraModule>
    requires ad.rank > 0
  {
    if (layer, p) in ad.modules then
      Some(LoraModule(ad.modules[(layer, p)].0, ad.modules[(layer, p)].1, Scaling(ad)))
    else None
  }

  // ----- The two fused groups -----

  function QkvMods(ad: Adapter, layer: nat): seq<Option<LoraModule>>
    requires ad.rank > 0
  {
    [Lookup(ad, layer, QProj), Lookup(ad, layer, KProj), Lookup(ad, layer, VProj)]
  }

  function GateUpMods(ad: Adapter, layer: nat): seq<Option<LoraModule>>
    requires ad.rank > 0
  {
    [Lookup(ad, layer, GateProj), Lookup(ad, layer, UpProj)]
  }

  function QkvDims(info: Info): seq<nat> {
    [info.hidden, info.kvDim, info.kvDim]
  }

  function GateUpDims(info: Info): seq<nat> {
    [info.inter, info.inter]
  }

  lemma GroupsOk(info: Info, ad: Adapter, layer: nat)
    requires AdapterOk(info, ad)
    ensures GroupOk(QkvMods(ad, layer), QkvDims(info), ad.rank, info.hidden)
    ensures GroupOk(GateUpMods(ad, layer), GateUpDims(info), ad.rank, info.hidden)
  {
  }

  /** All LoRA tensors of one layer. */
  datatype LayerTensors = LayerTensors(qkv: Option<Tensors>, gateUp: Option<Tensors>, o: Option<LoraModule>,
                                       down: Option<LoraModule>)

  function FreshGroup(mods: seq<Option<LoraModule>>, dims: seq<nat>, rank: nat, inF: nat): Option<Tensors>
    requires GroupOk(mods, dims, rank, inF)
  {
    if Covers(mods) then Some(TensorsOf(mods, dims, rank, inF)) else None
  }

  /** The layer as a fresh build from the adapter leaves it. */
  function FreshLayer(info: Info, ad: Adapter, layer: nat): LayerTensors
    requires AdapterOk(info, ad)
  {
    GroupsOk(info, ad, layer);
    LayerTensors(FreshGroup(QkvMods(ad, layer), QkvDims(info), ad.rank, info.hidden),
                 FreshGroup(GateUpMods(ad, layer), GateUpDims(info), ad.rank, info.hidden),
                 Lookup(ad, layer, OProj), Lookup(ad, layer, DownProj))
  }

  // ----- What a fresh layer adds -----

  /** From cell `at` on, `d` is (alpha / r)·(x·Aᵀ)·Bᵀ with the adapter's own A and B for this layer and projection,
      and zero when it has none. */
  ghost predicate OwnPart(ad: Adapter, layer: nat, p: Proj, x: Vec, d: Vec, at: nat, width: nat)
    requires ad.rank > 0
  {
    && at + width <= |d|
    && var part := d[at..at + width];
       if (layer, p) in ad.modules then
         var (a, b) := ad.modules[(layer, p)];
         var alpha := if ad.alpha.Some? then ad.alpha.value else ad.rank as real;
         && Shaped(a, |a|, |x|) && Shaped(b, width, |a|)
         && forall o :: 0 <= o < width ==> part[o] == alpha / ad.rank as real * Dot(ApplyRow(a, x), b[o])
       else forall o :: 0 <= o < width ==> part[o] == 0.0
  }

  /** The fused tensors add to every projection of a group what the adapter has for it, each at its own columns. */
  ghost predicate QkvAdds(info: Info, ad: Adapter, layer: nat, t: Tensors, x: Vec)
    requires ad.rank > 0 && |x| == info.hidden
  {
    var mid, total := |t.fusedB|, info.hidden + info.kvDim + info.kvDim;
    && Shaped(t.fusedA, |x|, mid) && Shaped(t.fusedB, mid, total)
    && var d := Forward(x, t.fusedA, t.fusedB, mid, total);
       && OwnPart(ad, layer, QProj, x, d, 0, info.hidden)
       && OwnPart(ad, layer, KProj, x, d, info.hidden, info.kvDim)
       && OwnPart(ad, layer, VProj, x, d, info.hidden + info.kvDim, info.kvDim)
  }

  ghost predicate GateUpAdds(info: Info, ad: Adapter, layer: nat, t: Tensors, x: Vec)
    requires ad.rank > 0 && |x| == info.hidden
  {
    var mid, total := |t.fusedB|, info.inter + info.inter;
    && Shaped(t.fusedA, |x|, mid) && Shaped(t.fusedB, mid, total)
    && var d := Forward(x, t.fusedA, t.fusedB, mid, total);
       && OwnPart(ad, layer, GateProj, x, d, 0, info.inter)
       && OwnPart(ad, layer, UpProj, x, d, info.inter, info.inter)
  }

  /** lora_B(lora_A(x)) * scaling */
  ghost predicate ModuleAdds(ad: Adapter, layer: nat, p: Proj, md: LoraModule, x: Vec, outF: nat)
    requires ad.rank > 0
  {
    && ModuleOk(md, ad.rank, |x|, outF)
    && OwnPart(ad, layer, p, x, Scale(md.scaling, ApplyRow(md.b, ApplyRow(md.a, x))), 0, outF)
  }

  /** The fused groups exist when the adapter has one of their projections, and add what it has. */
  ghost predicate GroupsAdd(info: Info, ad: Adapter, layer: nat, t: LayerTensors) {
    && ad.rank > 0
    && (t.qkv.Some? <==>
          (layer, QProj) in ad.modules || (layer, KProj) in ad.modules || (layer, VProj) in ad.modules)
    && (t.gateUp.Some? <==> (layer, GateProj) in ad.modules || (layer, UpProj) in ad.modules)
    && (t.qkv.Some? ==> forall x: Vec :: |x| == info.hidden ==> QkvAdds(info, ad, layer, t.qkv.value, x))
    && (t.gateUp.Some? ==> forall x: Vec :: |x| == info.hidden ==> GateUpAdds(info, ad, layer, t.gateUp.value, x))
  }

  /** The layer adds to every projection what the adapter has for it, and nothing where it has nothing. */
  ghost predicate LayerAdds(info: Info, ad: Adapter, layer: nat, t: LayerTensors) {
    && GroupsAdd(info, ad, layer, t)
    && (t.o.Some? <==> (layer, OProj) in ad.modules) && (t.down.Some? <==> (layer, DownProj) in ad.modules)
    && (t.o.Some? ==>
          forall x: Vec :: |x| == info.hidden ==> ModuleAdds(ad, layer, OProj, t.o.value, x, info.hidden))
    && (t.down.Some? ==>
          forall x: Vec :: |x| == info.inter ==> ModuleAdds(ad, layer, DownProj, t.down.value, x, info.hidden))
  }

  lemma OwnDeltaIsPart(info: Info, ad: Adapter, layer: nat, p: Proj, x: Vec, d: Vec, at: nat, width: nat)
    requires AdapterOk(info, ad) && |x| == InDim(info, p) && width == OutDim(info, p)
    requires at + width <= |d| && d[at..at + width] == OwnDelta(Lookup(ad, layer, p), ad.rank, width, x)
    ensures OwnPart(ad, layer, p, x, d, at, width)
  {
    var own := OwnDelta(Lookup(ad, layer, p), ad.rank, width, x);
    hide Dot, Scale;
    if (layer, p) in ad.modules {
      var (a, b) := ad.modules[(layer, p)];
      forall o: nat | o < width ensures own[o] == Times(Scaling(ad), Dot(ApplyRow(a, x), b[o])) {
        ScaleAt(Scaling(ad), ApplyRow(b, ApplyRow(a, x)), o);
      }
    }
  }

  lemma FreshQkvAdds(info: Info, ad: Adapter, layer: nat, x: Vec)
    requires AdapterOk(info, ad) && |x| == info.hidden
    ensures GroupOk(QkvMods(ad, layer), QkvDims(info), ad.rank, info.hidden)
    ensures QkvAdds(info, ad, layer, TensorsOf(QkvMods(ad, layer), QkvDims(info), ad.rank, info.hidden), x)
  {
    GroupsOk(info, ad, layer);
    var mods, dims, rank := QkvMods(ad, layer), QkvDims(info), ad.rank;
    var t := TensorsOf(mods, dims, rank, info.hidden);
    FusedAOfOk(mods, dims, rank, |x|);
    FusedBOfOk(mods, dims, rank, |x|);
    FusedDelta(mods, dims, rank, x, t.fusedA, t.fusedB, 0);
    FusedDelta(mods, dims, rank, x, t.fusedA, t.fusedB, 1);
    FusedDelta(mods, dims, rank, x, t.fusedA, t.fusedB, 2);
    QkvOffsets(info);
    hide OwnDelta, Forward, FusedAOf, FusedBOf, OwnPart, DimsBefore, IsFusedA, IsFusedB, AdapterOk;
    var d := Forward(x, t.fusedA, t.fusedB, BlockStart(|mods|, rank), DimsBefore(dims, |dims|));
    OwnDeltaIsPart(info, ad, layer, QProj, x, d, 0, info.hidden);
    OwnDeltaIsPart(info, ad, layer, KProj, x, d, info.hidden, info.kvDim);
    OwnDeltaIsPart(info, ad, layer, VProj, x, d, info.hidden + info.kvDim, info.kvDim);
  }

  lemma QkvOffsets(info: Info)
    ensures DimsBefore(QkvDims(info), 0) == 0 && DimsBefore(QkvDims(info), 1) == info.hidden
    ensures DimsBefore(QkvDims(info), 2) == info.hidden + info.kvDim
    ensures DimsBefore(QkvDims(info), 3) == info.hidden + info.kvDim + info.kvDim
  {
  }

  lemma FreshGateUpAdds(info: Info, ad: Adapter, layer: nat, x: Vec)
    requires AdapterOk(info, ad) && |x| == info.hidden
    ensures GroupOk(GateUpMods(ad, layer), GateUpDims(info), ad.rank, info.hidden)
    ensures GateUpAdds(info, ad, layer, TensorsOf(GateUpMods(ad, layer), GateUpDims(info), ad.rank, info.hidden), x)
  {
    GroupsOk(info, ad, layer);
    var mods, dims, rank := GateUpMods(ad, layer), GateUpDims(info), ad.rank;
    var t := TensorsOf(mods, dims, rank, info.hidden);
    FusedAOfOk(mods, dims, rank, |x|);
    FusedBOfOk(mods, dims, rank, |x|);
    FusedDelta(mods, dims, rank, x, t.fusedA, t.fusedB, 0);
    FusedDelta(mods, dims, rank, x, t.fusedA, t.fusedB, 1);
    GateUpOffsets(info);
    hide OwnDelta, Forward, FusedAOf, FusedBOf, OwnPart, DimsBefore, IsFusedA, IsFusedB, AdapterOk;
    var d := Forward(x, t.fusedA, t.fusedB, BlockStart(|mods|, rank), DimsBefore(dims, |dims|));
    OwnDeltaIsPart(info, ad, layer, GateProj, x, d, 0, info.inter);
    OwnDeltaIsPart(info, ad, layer, UpProj, x, d, info.inter, info.inter);
  }

  lemma GateUpOffsets(info: Info)
    ensures DimsBefore(GateUpDims(info), 0) == 0 && DimsBefore(GateUpDims(info), 1) == info.inter
    ensures DimsBefore(GateUpDims(info), 2) == info.inter + info.inter
  {
  }

  lemma FreshSingleAdds(info: Info, ad: Adapter, layer: nat, p: Proj, x: Vec)
    requires AdapterOk(info, ad) && (layer, p) in ad.modules && |x| == InDim(info, p)
    ensures ModuleAdds(ad, layer, p, Lookup(ad, layer, p).value, x, OutDim(info, p))
  {
    var md := Lookup(ad, layer, p).value;
    var d := Scale(md.scaling, ApplyRow(md.b, ApplyRow(md.a, x)));
    assert d[0..0 + OutDim(info, p)] == OwnDelta(Some(md), ad.rank, OutDim(info, p), x);
    OwnDeltaIsPart(info, ad, layer, p, x, d, 0, OutDim(info, p));
  }

  lemma CoversKeys(ad: Adapter, layer: nat)
    requires ad.rank > 0
    ensures Covers(QkvMods(ad, layer)) <==>
      (layer, QProj) in ad.modules || (layer, KProj) in ad.modules || (layer, VProj) in ad.modules
    ensures Covers(GateUpMods(ad, layer)) <==> (layer, GateProj) in ad.modules || (layer, UpProj) in ad.modules
  {
    var qkv, gateUp := QkvMods(ad, layer), GateUpMods(ad, layer);
    assert Covers(qkv) <==> qkv[0].Some? || qkv[1].Some? || qkv[2].Some?;
    assert Covers(gateUp) <==> gateUp[0].Some? || gateUp[1].Some?;
  }

  lemma FreshGroupsAdd(info: Info, ad: Adapter, layer: nat)
    requires AdapterOk(info, ad)
    ensures GroupsAdd(info, ad, layer, FreshLayer(info, ad, layer))
  {
    hide QkvAdds, GateUpAdds, QkvMods, GateUpMods, TensorsOf, Lookup, Covers;
    GroupsOk(info, ad, layer);
    CoversKeys(ad, layer);
    forall x: Vec | |x| == info.hidden
      ensures QkvAdds(info, ad, layer, TensorsOf(QkvMods(ad, layer), QkvDims(info), ad.rank, info.hidden), x)
      ensures GateUpAdds(info, ad, layer, TensorsOf(GateUpMods(ad, layer), GateUpDims(info), ad.rank, info.hidden), x)
    {
      FreshQkvAdds(info, ad, layer, x);
      FreshGateUpAdds(info, ad, layer, x);
    }
  }

  lemma FreshModuleAdds(info: Info, ad: Adapter, layer: nat, p: Proj)
    requires AdapterOk(info, ad)
    ensures Lookup(ad, layer, p).Some? <==> (layer, p) in ad.modules
    ensures (layer, p) in ad.modules ==>
      forall x: Vec :: |x| == InDim(info, p) ==>
        ModuleAdds(ad, layer, p, Lookup(ad, layer, p).value, x, OutDim(info, p))
  {
    hide ModuleAdds;
    if (layer, p) in ad.modules {
      forall x: Vec | |x| == InDim(info, p)
        ensures ModuleAdds(ad, layer, p, Lookup(ad, layer, p).value, x, OutDim(info, p))
      {
        FreshSingleAdds(info, ad, layer, p, x);
      }
    }
  }

  /** A fresh layer adds to every projection exactly what its adapter has for that projection. */
  lemma FreshAdds(info: Info, ad: Adapter, layer: nat)
    requires AdapterOk(info, ad)
    ensures LayerAdds(info, ad, layer, FreshLayer(info, ad, layer))
  {
    hide AdapterOk, GroupsAdd, ModuleAdds, QkvMods, GateUpMods, FreshGroup, Lookup, GroupOk;
    GroupsOk(info, ad, layer);
    FreshGroupsAdd(info, ad, layer);
    FreshModuleAdds(info, ad, layer, OProj);
    FreshModuleAdds(info, ad, layer, DownProj);
  }

  // ----- Equal rank: tensors are overwritten in place -----

  /** The layer's fused modules were built at rank `built`; a module of its own may have been left at another rank. */
  ghost predicate LayerAt(info: Info, t: LayerTensors, built: nat) {
    && built > 0
    && (t.qkv.Some? ==> FusedAt(t.qkv.value, QkvDims(info), built, info.hidden))
    && (t.gateUp.Some? ==> FusedAt(t.gateUp.value, GateUpDims(info), built, info.hidden))
    && (t.o.Some? ==> SingleOk(t.o.value, info.hidden, info.hidden))
    && (t.down.Some? ==> SingleOk(t.down.value, info.inter, info.hidden))
  }

  lemma FreshIsAt(info: Info, ad: Adapter, layer: nat)
    requires AdapterOk(info, ad)
    ensures LayerAt(info, FreshLayer(info, ad, layer), ad.rank)
  {
    GroupsOk(info, ad, layer);
  }

  lemma GroupUpdatable(t: Tensors, mods: seq<Option<LoraModule>>, dims: seq<nat>, rank: nat, inF: nat, built: nat)
    requires GroupOk(mods, dims, rank, inF) && FusedAt(t, dims, built, inF) && rank > 0 && built > 0 && inF > 0
    requires |dims| > 1 && forall i :: 0 <= i < |dims| ==> dims[i] > 0
    ensures Updatable(t, mods, dims) && (Covers(mods) ==> RankOf(mods) == rank)
  {
    if Covers(mods) { RankOfGroup(mods, dims, rank, inF); }
    BlocksGrow(1, |dims|, built);
    DimsGrow(dims, 1, |dims|);
    assert BlockStart(1, built) == built && DimsBefore(dims, 1) == dims[0];
  }

  /** An absent fused module stays absent. */
  function UpdatedGroup(t: Option<Tensors>, mods: seq<Option<LoraModule>>, dims: seq<nat>, s: real)
    : Outcome<Option<Tensors>>
    requires t.Some? ==> Updatable(t.value, mods, dims)
  {
    if t.None? then Outcome(None, true)
    else
      var got := UpdatedFused(t.value, mods, dims, s);
      Outcome(Some(got.value), got.ok)
  }

  /** A module that either side lacks is left alone. */
  function UpdatedModule(md: Option<LoraModule>, next: Option<LoraModule>, s: real): Outcome<Option<LoraModule>>
    requires md.Some? ==> Rect(md.value.a) && Rect(md.value.b)
    requires next.Some? ==> Rect(next.value.a) && Rect(next.value.b)
  {
    if md.None? || next.None? then Outcome(md, true)
    else
      var got := UpdatedSingle(md.value, next.value, s);
      Outcome(Some(got.value), got.ok)
  }

  ghost predicate LayerUpdatable(info: Info, t: LayerTensors, ad: Adapter, layer: nat) {
    && ad.rank > 0
    && (t.qkv.Some? ==> Updatable(t.qkv.value, QkvMods(ad, layer), QkvDims(info)))
    && (t.gateUp.Some? ==> Updatable(t.gateUp.value, GateUpMods(ad, layer), GateUpDims(info)))
    && (t.o.Some? ==> Rect(t.o.value.a) && Rect(t.o.value.b))
    && (t.down.Some? ==> Rect(t.down.value.a) && Rect(t.down.value.b))
    && forall p :: (layer, p) in ad.modules ==> Rect(ad.modules[(layer, p)].0) && Rect(ad.modules[(layer, p)].1)
  }

  /** The fused groups, then o_proj, then down_proj; the first copy that fails ends the update with what was done so
      far. */
  function InOrder(t: LayerTensors, qkv: Outcome<Option<Tensors>>, gateUp: Outcome<Option<Tensors>>,
                   o: Outcome<Option<LoraModule>>, down: Outcome<Option<LoraModule>>): Outcome<LayerTensors> {
    if !qkv.ok then Outcome(t.(qkv := qkv.value), false)
    else if !gateUp.ok then Outcome(t.(qkv := qkv.value, gateUp := gateUp.value), false)
    else if !o.ok then Outcome(t.(qkv := qkv.value, gateUp := gateUp.value, o := o.value), false)
    else Outcome(LayerTensors(qkv.value, gateUp.value, o.value, down.value), down.ok)
  }

  function UpdatedLayer(info: Info, t: LayerTensors, ad: Adapter, layer: nat): Outcome<LayerTensors>
    requires LayerUpdatable(info, t, ad, layer)
  {
    InOrder(t, UpdatedGroup(t.qkv, QkvMods(ad, layer), QkvDims(info), Scaling(ad)),
            UpdatedGroup(t.gateUp, GateUpMods(ad, layer), GateUpDims(info), Scaling(ad)),
            UpdatedModule(t.o, Lookup(ad, layer, OProj), Scaling(ad)),
            UpdatedModule(t.down, Lookup(ad, layer, DownProj), Scaling(ad)))
  }

  lemma AllInOrder(t: LayerTensors, qkv: Outcome<Option<Tensors>>, gateUp: Outcome<Option<Tensors>>,
                   o: Outcome<Option<LoraModule>>, down: Outcome<Option<LoraModule>>, want: LayerTensors)
    ensures InOrder(t, qkv, gateUp, o, down).ok <==> qkv.ok && gateUp.ok && o.ok && down.ok
    ensures InOrder(t, qkv, gateUp, o, down) == Outcome(want, true) <==>
      && qkv == Outcome(want.qkv, true) && gateUp == Outcome(want.gateUp, true)
      && o == Outcome(want.o, true) && down == Outcome(want.down, true)
  {
  }

  lemma CanUpdate(info: Info, t: LayerTensors, built: nat, ad: Adapter, layer: nat)
    requires LayerAt(info, t, built) && AdapterOk(info, ad)
    ensures LayerUpdatable(info, t, ad, layer)
  {
    GroupsOk(info, ad, layer);
    if t.qkv.Some? {
      GroupUpdatable(t.qkv.value, QkvMods(ad, layer), QkvDims(info), ad.rank, info.hidden, built);
    }
    if t.gateUp.Some? {
      GroupUpdatable(t.gateUp.value, GateUpMods(ad, layer), GateUpDims(info), ad.rank, info.hidden, built);
    }
  }

  // ----- Different rank: fused groups are rebuilt, existing single modules are replaced or left zeroed -----

  function ZeroLike(m: Mat): (z: Mat)
    ensures |z| == |m| && forall i :: 0 <= i < |m| ==> z[i] == ZeroVec(|m[i]|)
  {
    seq(|m|, i requires 0 <= i < |m| => ZeroVec(|m[i]|))
  }

  function Zeroed(md: LoraModule): LoraModule {
    LoraModule(ZeroLike(md.a), ZeroLike(md.b), md.scaling)
  }

  function RecreatedSingle(prev: Option<LoraModule>, next: Option<LoraModule>): Option<LoraModule> {
    if prev.None? then None else if next.Some? then next else Some(Zeroed(prev.value))
  }

  function RecreatedLayer(info: Info, prev: LayerTensors, ad: Adapter, layer: nat): LayerTensors
    requires AdapterOk(info, ad)
  {
    FreshLayer(info, ad, layer)
      .(o := RecreatedSingle(prev.o, Lookup(ad, layer, OProj)),
        down := RecreatedSingle(prev.down, Lookup(ad, layer, DownProj)))
  }

  // ----- When is a swap as good as a rebuild? -----

  /** Every copy finds tensors that it fits: fused modules of the new rank, and single modules of the new rank, to which
      rank one always stretches. */
  predicate Fits(t: LayerTensors, built: nat, ad: Adapter, layer: nat)
    requires ad.rank > 0
  {
    && (t.qkv.Some? && Covers(QkvMods(ad, layer)) ==> built == ad.rank)
    && (t.gateUp.Some? && Covers(GateUpMods(ad, layer)) ==> built == ad.rank)
    && (t.o.Some? && (layer, OProj) in ad.modules ==> |t.o.value.a| == ad.rank || ad.rank == 1)
    && (t.down.Some? && (layer, DownProj) in ad.modules ==> |t.down.value.a| == ad.rank || ad.rank == 1)
  }

  /** The layer has exactly the groups that the adapter covers, each at the adapter's rank. */
  predicate SameShape(t: LayerTensors, built: nat, ad: Adapter, layer: nat)
    requires ad.rank > 0
  {
    && (t.qkv.Some? <==> Covers(QkvMods(ad, layer))) && (t.gateUp.Some? <==> Covers(GateUpMods(ad, layer)))
    && (t.qkv.Some? || t.gateUp.Some? ==> built == ad.rank)
    && (t.o.Some? <==> (layer, OProj) in ad.modules) && (t.o.Some? ==> |t.o.value.a| == ad.rank)
    && (t.down.Some? <==> (layer, DownProj) in ad.modules) && (t.down.Some? ==> |t.down.value.a| == ad.rank)
  }

  lemma GroupExactly(t: Option<Tensors>, mods: seq<Option<LoraModule>>, dims: seq<nat>, s: real, rank: nat, inF: nat,
                     built: nat)
    requires GroupOk(mods, dims, rank, inF) && rank > 0 && built > 0 && inF > 0 && Scaled(mods, s)
    requires |dims| > 1 && forall i :: 0 <= i < |dims| ==> dims[i] > 0
    requires t.Some? ==> FusedAt(t.value, dims, built, inF)
    ensures t.Some? ==> Updatable(t.value, mods, dims)
    ensures var got := UpdatedGroup(t, mods, dims, s);
      && (got.ok <==> (t.Some? && Covers(mods) ==> built == rank))
      && (got == Outcome(FreshGroup(mods, dims, rank, inF), true)
          <==> (t.Some? <==> Covers(mods)) && (t.Some? ==> built == rank))
      && (got.value.Some? <==> t.Some?) && (t.Some? ==> FusedAt(got.value.value, dims, built, inF))
  {
    if t.Some? {
      GroupUpdatable(t.value, mods, dims, rank, inF, built);
      if Covers(mods) { FusedUpdateExactly(t.value, mods, dims, s, built); }
    }
  }

  lemma ModuleExactly(md: Option<LoraModule>, next: Option<LoraModule>, s: real, rank: nat, inF: nat, outF: nat)
    requires md.Some? ==> SingleOk(md.value, inF, outF)
    requires next.Some? ==> SingleOk(next.value, inF, outF) && |next.value.a| == rank && next.value.scaling == s
    ensures var got := UpdatedModule(md, next, s);
      && (got.ok <==> (md.Some? && next.Some? ==> |md.value.a| == rank || rank == 1))
      && (got == Outcome(next, true) <==> (md.Some? <==> next.Some?) && (md.Some? ==> |md.value.a| == rank))
      && (got.value.Some? <==> md.Some?)
      && (md.Some? ==> SingleOk(got.value.value, inF, outF) && |got.value.value.a| == |md.value.a|)
  {
    if md.Some? && next.Some? { SingleUpdateExactly(md.value, next.value, s, inF, outF); }
  }

  lemma FusedExactly(info: Info, t: LayerTensors, built: nat, ad: Adapter, layer: nat)
    requires LayerAt(info, t, built) && AdapterOk(info, ad)
    ensures LayerUpdatable(info, t, ad, layer)
    ensures
      var got := UpdatedGroup(t.qkv, QkvMods(ad, layer), QkvDims(info), Scaling(ad));
      var want := FreshLayer(info, ad, layer);
      && (got.ok <==> (t.qkv.Some? && Covers(QkvMods(ad, layer)) ==> built == ad.rank))
      && (got == Outcome(want.qkv, true)
          <==> (t.qkv.Some? <==> Covers(QkvMods(ad, layer))) && (t.qkv.Some? ==> built == ad.rank))
      && LayerAt(info, t.(qkv := got.value), built)
    ensures
      var got := UpdatedGroup(t.gateUp, GateUpMods(ad, layer), GateUpDims(info), Scaling(ad));
      var want := FreshLayer(info, ad, layer);
      && (got.ok <==> (t.gateUp.Some? && Covers(GateUpMods(ad, layer)) ==> built == ad.rank))
      && (got == Outcome(want.gateUp, true)
          <==> (t.gateUp.Some? <==> Covers(GateUpMods(ad, layer))) && (t.gateUp.Some? ==> built == ad.rank))
      && LayerAt(info, t.(gateUp := got.value), built)
  {
    CanUpdate(info, t, built, ad, layer);
    GroupsOk(info, ad, layer);
    GroupExactly(t.qkv, QkvMods(ad, layer), QkvDims(info), Scaling(ad), ad.rank, info.hidden, built);
    GroupExactly(t.gateUp, GateUpMods(ad, layer), GateUpDims(info), Scaling(ad), ad.rank, info.hidden, built);
  }

  lemma SinglesExactly(info: Info, t: LayerTensors, built: nat, ad: Adapter, layer: nat)
    requires LayerAt(info, t, built) && AdapterOk(info, ad)
    ensures LayerUpdatable(info, t, ad, layer)
    ensures var got, next := UpdatedModule(t.o, Lookup(ad, layer, OProj), Scaling(ad)), Lookup(ad, layer, OProj);
      && (got.ok <==> (t.o.Some? && (layer, OProj) in ad.modules ==> |t.o.value.a| == ad.rank || ad.rank == 1))
      && (got == Outcome(next, true)
          <==> (t.o.Some? <==> (layer, OProj) in ad.modules) && (t.o.Some? ==> |t.o.value.a| == ad.rank))
      && LayerAt(info, t.(o := got.value), built)
    ensures
      var got := UpdatedModule(t.down, Lookup(ad, layer, DownProj), Scaling(ad));
      var next := Lookup(ad, layer, DownProj);
      && (got.ok <==> (t.down.Some? && (layer, DownProj) in ad.modules ==> |t.down.value.a| == ad.rank || ad.rank == 1))
      && (got == Outcome(next, true)
          <==> (t.down.Some? <==> (layer, DownProj) in ad.modules) && (t.down.Some? ==> |t.down.value.a| == ad.rank))
      && LayerAt(info, t.(down := got.value), built)
  {
    CanUpdate(info, t, built, ad, layer);
    ModuleExactly(t.o, Lookup(ad, layer, OProj), Scaling(ad), ad.rank, info.hidden, info.hidden);
    ModuleExactly(t.down, Lookup(ad, layer, DownProj), Scaling(ad), ad.rank, info.inter, info.hidden);
  }

  lemma UpdateKeepsShapes(info: Info, t: LayerTensors, built: nat, ad: Adapter, layer: nat)
    requires LayerAt(info, t, built) && AdapterOk(info, ad)
    ensures LayerUpdatable(info, t, ad, layer)
    ensures LayerAt(info, UpdatedLayer(info, t, ad, layer).value, built)
  {
    FusedExactly(info, t, built, ad, layer);
    SinglesExactly(info, t, built, ad, layer);
    hide UpdatedGroup, UpdatedModule, FreshLayer, FusedAt, SingleOk, LayerUpdatable, AdapterOk;
  }

  /** For any state a layer can be in, the in-place update goes through exactly when every copy fits. */
  lemma UpdateFits(info: Info, t: LayerTensors, built: nat, ad: Adapter, layer: nat)
    requires LayerAt(info, t, built) && AdapterOk(info, ad)
    ensures LayerUpdatable(info, t, ad, layer)
    ensures UpdatedLayer(info, t, ad, layer).ok <==> Fits(t, built, ad, layer)
  {
    FusedExactly(info, t, built, ad, layer);
    SinglesExactly(info, t, built, ad, layer);
    AllInOrder(t, UpdatedGroup(t.qkv, QkvMods(ad, layer), QkvDims(info), Scaling(ad)),
               UpdatedGroup(t.gateUp, GateUpMods(ad, layer), GateUpDims(info), Scaling(ad)),
               UpdatedModule(t.o, Lookup(ad, layer, OProj), Scaling(ad)),
               UpdatedModule(t.down, Lookup(ad, layer, DownProj), Scaling(ad)), FreshLayer(info, ad, layer));
    hide UpdatedGroup, UpdatedModule, FreshLayer, LayerAt, LayerUpdatable, AdapterOk, Covers, QkvMods, GateUpMods,
      Lookup, InOrder;
  }

  /** For any state a layer can be in, the in-place update leaves every tensor equal to a fresh build exactly when
      the layer has the adapter's own groups at the adapter's own rank.  A group that only the layer has keeps its
      stale tensors, and one that only the adapter covers is lost. */
  lemma InPlaceIsRebuild(info: Info, t: LayerTensors, built: nat, ad: Adapter, layer: nat)
    requires LayerAt(info, t, built) && AdapterOk(info, ad)
    ensures LayerUpdatable(info, t, ad, layer)
    ensures UpdatedLayer(info, t, ad, layer) == Outcome(FreshLayer(info, ad, layer), true)
        <==> SameShape(t, built, ad, layer)
  {
    FusedExactly(info, t, built, ad, layer);
    SinglesExactly(info, t, built, ad, layer);
    var want := FreshLayer(info, ad, layer);
    assert want.o == Lookup(ad, layer, OProj) && want.down == Lookup(ad, layer, DownProj);
    AllInOrder(t, UpdatedGroup(t.qkv, QkvMods(ad, layer), QkvDims(info), Scaling(ad)),
               UpdatedGroup(t.gateUp, GateUpMods(ad, layer), GateUpDims(info), Scaling(ad)),
               UpdatedModule(t.o, Lookup(ad, layer, OProj), Scaling(ad)),
               UpdatedModule(t.down, Lookup(ad, layer, DownProj), Scaling(ad)), FreshLayer(info, ad, layer));
    hide UpdatedGroup, UpdatedModule, FreshLayer, LayerAt, LayerUpdatable, AdapterOk, Covers, QkvMods, GateUpMods,
      Lookup, InOrder;
  }

  /** The adapters cover the same groups of this layer. */
  predicate SameCoverage(prev: Adapter, next: Adapter, layer: nat)
    requires prev.rank > 0 && next.rank > 0
  {
    && Covers(QkvMods(prev, layer)) == Covers(QkvMods(next, layer))
    && Covers(GateUpMods(prev, layer)) == Covers(GateUpMods(next, layer))
    && ((layer, OProj) in prev.modules <==> (layer, OProj) in next.modules)
    && ((layer, DownProj) in prev.modules <==> (layer, DownProj) in next.modules)
  }

  /** Swapping to an adapter of the same rank and coverage and back restores every tensor. */
  lemma SwapBackRestores(info: Info, a: Adapter, b: Adapter, layer: nat)
    requires AdapterOk(info, a) && AdapterOk(info, b) && a.rank == b.rank && SameCoverage(a, b, layer)
    ensures LayerUpdatable(info, FreshLayer(info, a, layer), b, layer)
    ensures UpdatedLayer(info, FreshLayer(info, a, layer), b, layer) == Outcome(FreshLayer(info, b, layer), true)
    ensures LayerUpdatable(info, FreshLayer(info, b, layer), a, layer)
    ensures UpdatedLayer(info, FreshLayer(info, b, layer), a, layer) == Outcome(FreshLayer(info, a, layer), true)
  {
    FreshIsAt(info, a, layer);
    FreshIsAt(info, b, layer);
    InPlaceIsRebuild(info, FreshLayer(info, a, layer), a.rank, b, layer);
    InPlaceIsRebuild(info, FreshLayer(info, b, layer), b.rank, a, layer);
  }

  /** A concrete stale swap: the next adapter has no o_proj module, yet after the in-place swap the layer still adds
      the old module's delta, 1 on the input 1, where a fresh build adds nothing. */
  lemma StaleModuleSurvives(info: Info, prev: Adapter, next: Adapter)
    requires info == Info(1, 1, 1)
    requires prev == Adapter(1, None, map[(0, OProj) := ([[1.0]], [[1.0]])]) && next == Adapter(1, None, map[])
    ensures AdapterOk(info, prev) && AdapterOk(info, next)
    ensures LayerUpdatable(info, FreshLayer(info, prev, 0), next, 0)
    ensures var got := UpdatedLayer(info, FreshLayer(info, prev, 0), next, 0);
      && got.ok && got.value.o.Some? && ModuleOk(got.value.o.value, 1, 1, 1)
      && OwnDelta(got.value.o, 1, 1, [1.0])[0] == 1.0
      && OwnDelta(FreshLayer(info, next, 0).o, 1, 1, [1.0])[0] == 0.0
  {
    FreshIsAt(info, prev, 0);
    UpdateFits(info, FreshLayer(info, prev, 0), 1, next, 0);
    var md := LoraModule([[1.0]], [[1.0]], 1.0);
    assert Lookup(prev, 0, OProj) == Some(md);
    var h := ApplyRow(md.a, [1.0]);
    assert Dot([1.0], [1.0]) == 1.0 + Dot([1.0][1..], [1.0][1..]) == 1.0;
    assert h == [1.0];
    assert ApplyRow(md.b, h) == [1.0];
    ScaleAt(1.0, [1.0], 0);
  }

  lemma {:induction false} ScaleOfZero(s: real, n: nat)
    ensures Scale(s, ZeroVec(n)) == ZeroVec(n)
  {
    if n > 0 {
      assert ZeroVec(n)[1..] == ZeroVec(n - 1);
      ScaleOfZero(s, n - 1);
    }
  }

  lemma ZeroedAddsNothing(md: LoraModule, rank: nat, outF: nat, x: Vec)
    requires ModuleOk(md, rank, |x|, outF)
    ensures ModuleOk(Zeroed(md), rank, |x|, outF)
    ensures OwnDelta(Some(Zeroed(md)), rank, outF, x) == ZeroVec(outF)
  {
    var z := Zeroed(md);
    var h := ApplyRow(z.a, x);
    forall j | 0 <= j < outF ensures ApplyRow(z.b, h)[j] == 0.0 { DotZero(h); }
    assert ApplyRow(z.b, h) == ZeroVec(outF);
    ScaleOfZero(md.scaling, outF);
  }

  /** What a single module contributes, at whatever rank it has. */
  function SingleDelta(md: Option<LoraModule>, inF: nat, outF: nat, x: Vec): Vec
    requires |x| == inF && (md.Some? ==> ModuleOk(md.value, |md.value.a|, inF, outF))
  {
    OwnDelta(md, if md.Some? then |md.value.a| else 0, outF, x)
  }

  /** After a swap between different ranks the fused groups are those of a fresh build for any coverage, and a single
      module computes what a fresh build would, unless only the new adapter has it: then it is dropped. */
  lemma RecreateIsRebuild(info: Info, prev: LayerTensors, next: Adapter, layer: nat, x: Vec, y: Vec)
    requires AdapterOk(info, next) && |x| == info.hidden && |y| == info.inter
    requires prev.o.Some? ==> ModuleOk(prev.o.value, |prev.o.value.a|, info.hidden, info.hidden)
    requires prev.down.Some? ==> ModuleOk(prev.down.value, |prev.down.value.a|, info.inter, info.hidden)
    ensures var got, now := RecreatedLayer(info, prev, next, layer), FreshLayer(info, next, layer);
      && got.qkv == now.qkv && got.gateUp == now.gateUp
      && (got.o.Some? ==> ModuleOk(got.o.value, |got.o.value.a|, info.hidden, info.hidden))
      && (prev.o.Some? || now.o.None? ==>
            SingleDelta(got.o, info.hidden, info.hidden, x) == SingleDelta(now.o, info.hidden, info.hidden, x))
      && (prev.o.None? && now.o.Some? ==> got.o == None)
      && (got.down.Some? ==> ModuleOk(got.down.value, |got.down.value.a|, info.inter, info.hidden))
      && (prev.down.Some? || now.down.None? ==>
            SingleDelta(got.down, info.inter, info.hidden, y) == SingleDelta(now.down, info.inter, info.hidden, y))
      && (prev.down.None? && now.down.Some? ==> got.down == None)
  {
    if prev.o.Some? && Lookup(next, layer, OProj).None? {
      ZeroedAddsNothing(prev.o.value, |prev.o.value.a|, info.hidden, x);
    }
    if prev.down.Some? && Lookup(next, layer, DownProj).None? {
      ZeroedAddsNothing(prev.down.value, |prev.down.value.a|, info.hidden, y);
    }
  }

  lemma RecreatedIsAt(info: Info, t: LayerTensors, built: nat, ad: Adapter, layer: nat)
    requires LayerAt(info, t, built) && AdapterOk(info, ad)
    ensures LayerAt(info, RecreatedLayer(info, t, ad, layer), ad.rank)
  {
    FreshIsAt(info, ad, layer);
  }

  /** A module that a swap between ranks left zeroed keeps its old rank q.  When a later adapter of the current rank
      brings the module back, the in-place swap fails; only at rank one does it go through, and then the module adds
      q times what the adapter says. */
  lemma ReturningModule(info: Info, t: LayerTensors, built: nat, mid: Adapter, next: Adapter, layer: nat, x: Vec)
    requires LayerAt(info, t, built) && AdapterOk(info, mid) && AdapterOk(info, next) && mid.rank == next.rank
    requires t.o.Some? && (layer, OProj) !in mid.modules && (layer, OProj) in next.modules
    requires |t.o.value.a| != next.rank && |x| == info.hidden
    ensures var t1 := RecreatedLayer(info, t, mid, layer);
      && LayerUpdatable(info, t1, next, layer) && (next.rank > 1 ==> !UpdatedLayer(info, t1, next, layer).ok)
    ensures next.rank == 1 ==>
      var got := UpdatedModule(RecreatedLayer(info, t, mid, layer).o, Lookup(next, layer, OProj), Scaling(next));
      var q := |t.o.value.a|;
      && got.ok && got.value.Some? && ModuleOk(got.value.value, q, info.hidden, info.hidden)
      && OwnDelta(got.value, q, info.hidden, x)
         == Scale(q as real, OwnDelta(Lookup(next, layer, OProj), 1, info.hidden, x))
  {
    var t1 := RecreatedLayer(info, t, mid, layer);
    RecreatedIsAt(info, t, built, mid, layer);
    UpdateFits(info, t1, mid.rank, next, layer);
    if next.rank == 1 {
      var md := Lookup(next, layer, OProj).value;
      StretchedModule(t1.o.value, md, Scaling(next), info.hidden, info.hidden, x);
    }
  }

  /** After an update in place of a layer of the adapter's own shape, the layer adds exactly what the adapter has. */
  lemma UpdatedAdds(info: Info, t: LayerTensors, built: nat, ad: Adapter, layer: nat)
    requires LayerAt(info, t, built) && AdapterOk(info, ad) && SameShape(t, built, ad, layer)
    ensures LayerUpdatable(info, t, ad, layer) && LayerAdds(info, ad, layer, UpdatedLayer(info, t, ad, layer).value)
  {
    hide LayerAt, AdapterOk, SameShape, LayerAdds, UpdatedLayer, FreshLayer, LayerUpdatable;
    InPlaceIsRebuild(info, t, built, ad, layer);
    FreshAdds(info, ad, layer);
  }

  /** After a swap between ranks the fused groups do, and so does every single module that both sides have. */
  ghost predicate RecreatedAdds(info: Info, ad: Adapter, layer: nat, was: LayerTensors, t: LayerTensors) {
    && GroupsAdd(info, ad, layer, t)
    && (t.o.Some? <==> was.o.Some?) && (t.down.Some? <==> was.down.Some?)
    && (was.o.Some? && (layer, OProj) in ad.modules ==>
          forall x: Vec :: |x| == info.hidden ==> ModuleAdds(ad, layer, OProj, t.o.value, x, info.hidden))
    && (was.down.Some? && (layer, DownProj) in ad.modules ==>
          forall x: Vec :: |x| == info.inter ==> ModuleAdds(ad, layer, DownProj, t.down.value, x, info.hidden))
  }

  lemma RecreateAdds(info: Info, was: LayerTensors, ad: Adapter, layer: nat)
    requires AdapterOk(info, ad)
    ensures RecreatedAdds(info, ad, layer, was, RecreatedLayer(info, was, ad, layer))
  {
    hide AdapterOk, QkvAdds, GateUpAdds, ModuleAdds, FreshGroup, QkvMods, GateUpMods, Zeroed;
    FreshAdds(info, ad, layer);
    var rebuilt, t := FreshLayer(info, ad, layer), RecreatedLayer(info, was, ad, layer);
    assert t.qkv == rebuilt.qkv && t.gateUp == rebuilt.gateUp;
  }

  /** The worker's adapter state, changed layer by layer under the swap lock. */
  class AdapterManager {
    const info: Info
    var layers: seq<LayerTensors>
    var rank: nat
    ghost var built: nat

    ghost predicate Valid()
      reads this
    {
      forall l :: 0 <= l < |layers| ==> LayerAt(info, layers[l], built)
    }

    constructor (info: Info, numLayers: nat, ad: Adapter)
      requires AdapterOk(info, ad)
      ensures Valid() && this.info == info && rank == 0 && built == ad.rank && |layers| == numLayers
      ensures forall l :: 0 <= l < numLayers ==>
        layers[l] == FreshLayer(info, ad, l) && LayerAdds(info, ad, l, layers[l])
    {
      this.info := info;
      rank := 0;
      built := ad.rank;
      layers := seq(numLayers, l requires 0 <= l && AdapterOk(info, ad) => FreshLayer(info, ad, l));
      new;
      forall l | 0 <= l < numLayers ensures LayerAt(info, layers[l], ad.rank) && LayerAdds(info, ad, l, layers[l]) {
        FreshIsAt(info, ad, l);
        FreshAdds(info, ad, l);
      }
    }

    /** set_adapter */
    method SetAdapter(r: nat)
      requires Valid()
      modifies this`rank
      ensures Valid() && rank == r
    {
      rank := r;
    }

    /** Overwrites one layer, stopping at the first copy that does not fit. */
    method UpdateLayer(t: LayerTensors, ad: Adapter, l: nat) returns (res: LayerTensors, ok: bool)
      requires LayerUpdatable(info, t, ad, l)
      ensures Outcome(res, ok) == UpdatedLayer(info, t, ad, l)
    {
      var s := Scaling(ad);
      res, ok := t, true;
      if t.qkv.Some? {
        var g, fits := UpdateFusedLora(t.qkv.value, QkvMods(ad, l), QkvDims(info), s);
        res, ok := res.(qkv := Some(g)), fits;
        if !ok { return; }
      }
      if t.gateUp.Some? {
        var g, fits := UpdateFusedLora(t.gateUp.value, GateUpMods(ad, l), GateUpDims(info), s);
        res, ok := res.(gateUp := Some(g)), fits;
        if !ok { return; }
      }
      var o, down := UpdatedModule(t.o, Lookup(ad, l, OProj), s), UpdatedModule(t.down, Lookup(ad, l, DownProj), s);
      res, ok := res.(o := o.value), o.ok;
      if ok {
        res, ok := res.(down := down.value), down.ok;
      }
    }

    method RebuildGroup(mods: seq<Option<LoraModule>>, dims: seq<nat>, r: nat, inF: nat) returns (res: Option<Tensors>)
      requires GroupOk(mods, dims, r, inF)
      ensures res == FreshGroup(mods, dims, r, inF)
    {
      if !Covers(mods) {
        return None;
      }
      var t := BuildTensors(mods, dims, r, inF);
      res := Some(t);
    }

    method RecreateLayers(ad: Adapter)
      requires Valid() && AdapterOk(info, ad)
      modifies this`layers, this`built
      ensures Valid() && built == ad.rank && |layers| == |old(layers)|
      ensures forall l :: 0 <= l < |layers| ==> layers[l] == RecreatedLayer(info, old(layers)[l], ad, l)
    {
      for l := 0 to |layers|
        invariant |layers| == |old(layers)| && built == old(built)
        invariant forall j :: l <= j < |layers| ==> layers[j] == old(layers)[j]
        invariant forall j :: 0 <= j < l ==> layers[j] == RecreatedLayer(info, old(layers)[j], ad, j)
      {
        GroupsOk(info, ad, l);
        var t := layers[l];
        var qkv := RebuildGroup(QkvMods(ad, l), QkvDims(info), ad.rank, info.hidden);
        var gateUp := RebuildGroup(GateUpMods(ad, l), GateUpDims(info), ad.rank, info.hidden);
        layers := layers[l := LayerTensors(qkv, gateUp, RecreatedSingle(t.o, Lookup(ad, l, OProj)),
                                           RecreatedSingle(t.down, Lookup(ad, l, DownProj)))];
      }
      built := ad.rank;
      forall l | 0 <= l < |layers| ensures LayerAt(info, layers[l], built) {
        RecreatedIsAt(info, old(layers)[l], old(built), ad, l);
      }
    }

    /** Updates layer after layer; a copy that does not fit ends the swap with layer `done` half updated. */
    method UpdateLayers(ad: Adapter) returns (ok: bool, ghost done: nat)
      requires Valid() && AdapterOk(info, ad)
      modifies this`layers
      ensures Valid() && |layers| == |old(layers)|
      ensures done <= |layers| && (ok <==> done == |layers|)
      ensures forall l :: 0 <= l < |layers| ==> LayerUpdatable(info, old(layers)[l], ad, l)
      ensures forall l :: 0 <= l < done ==> Fits(old(layers)[l], built, ad, l)
      ensures !ok ==> !Fits(old(layers)[done], built, ad, done)
      ensures forall l :: 0 <= l < |layers| ==>
        layers[l] == if l <= done then UpdatedLayer(info, old(layers)[l], ad, l).value else old(layers)[l]
    {
      forall l | 0 <= l < |layers|
        ensures LayerUpdatable(info, layers[l], ad, l)
        ensures UpdatedLayer(info, layers[l], ad, l).ok <==> Fits(layers[l], built, ad, l)
        ensures LayerAt(info, UpdatedLayer(info, layers[l], ad, l).value, built)
      {
        UpdateFits(info, layers[l], built, ad, l);
        UpdateKeepsShapes(info, layers[l], built, ad, l);
      }
      hide UpdatedLayer, Fits, LayerUpdatable, LayerAt, AdapterOk;
      done := 0;
      for l := 0 to |layers|
        invariant |layers| == |old(layers)| && done == l && Valid()
        invariant forall j :: l <= j < |layers| ==> layers[j] == old(layers)[j]
        invariant forall j :: 0 <= j < l ==> Fits(old(layers)[j], built, ad, j)
        invariant forall j :: 0 <= j < l ==> layers[j] == UpdatedLayer(info, old(layers)[j], ad, j).value
      {
        var t, fits := UpdateLayer(layers[l], ad, l);
        layers := layers[l := t];
        if !fits {
          return false, l;
        }
        done := l + 1;
      }
      ok := true;
    }

    /** swap_adapter: a failed load changes nothing; the rank decides between recreating and overwriting; a failed
        overwrite keeps the layers written so far and the old rank. */
    method Swap(loaded: Option<Adapter>) returns (ok: bool, ghost done: nat)
      requires Valid() && (loaded.Some? ==> AdapterOk(info, loaded.value))
      modifies this
      ensures Valid() && |layers| == |old(layers)|
      ensures loaded.None? ==> !ok && layers == old(layers)
      ensures rank == if ok then loaded.value.rank else old(rank)
      ensures loaded.Some? && old(rank) != loaded.value.rank && old(rank) != 0 ==>
        && ok && built == loaded.value.rank
        && forall l :: 0 <= l < |layers| ==>
             && layers[l] == RecreatedLayer(info, old(layers)[l], loaded.value, l)
             && RecreatedAdds(info, loaded.value, l, old(layers)[l], layers[l])
      ensures loaded.Some? && (old(rank) == loaded.value.rank || old(rank) == 0) ==>
        && built == old(built) && done <= |layers|
        && (ok <==> forall l :: 0 <= l < |layers| ==> Fits(old(layers)[l], built, loaded.value, l))
        && (ok <==> done == |layers|) && (!ok ==> !Fits(old(layers)[done], built, loaded.value, done))
        && (forall l :: 0 <= l < |layers| ==>
              && LayerUpdatable(info, old(layers)[l], loaded.value, l)
              && layers[l] == if l <= done then UpdatedLayer(info, old(layers)[l], loaded.value, l).value
                              else old(layers)[l])
        && (ok ==> forall l :: 0 <= l < |layers| && SameShape(old(layers)[l], built, loaded.value, l) ==>
              LayerAdds(info, loaded.value, l, layers[l]))
    {
      hide UpdatedLayer, RecreatedLayer, Fits, LayerUpdatable, LayerAt, SameShape, LayerAdds, RecreatedAdds;
      done := 0;
      if loaded.None? {
        return false, done;
      }
      var ad := loaded.value;
      if rank != ad.rank && rank != 0 {
        forall l | 0 <= l < |layers|
          ensures RecreatedAdds(info, ad, l, layers[l], RecreatedLayer(info, layers[l], ad, l))
        {
          RecreateAdds(info, layers[l], ad, l);
        }
        RecreateLayers(ad);
        ok := true;
      } else {
        forall l | 0 <= l < |layers| && SameShape(layers[l], built, ad, l)
          ensures LayerUpdatable(info, layers[l], ad, l)
          ensures LayerAdds(info, ad, l, UpdatedLayer(info, layers[l], ad, l).value)
        {
          UpdatedAdds(info, layers[l], built, ad, l);
        }
        ok, done := UpdateLayers(ad);
      }
      if ok {
        rank := ad.rank;
      }
    }

    /** Swapping away and back, between adapters of one rank and one coverage, succeeds and restores every layer. */
    method SwapThereAndBack(a: Adapter, b: Adapter) returns (ok: bool)
      requires AdapterOk(info, a) && AdapterOk(info, b) && a.rank == b.rank == rank == built
      requires forall l :: 0 <= l < |layers| ==> layers[l] == FreshLayer(info, a, l) && SameCoverage(a, b, l)
      requires Valid()
      modifies this
      ensures ok && layers == old(layers) && rank == old(rank)
    {
      ghost var start := layers;
      forall l | 0 <= l < |layers|
        ensures LayerUpdatable(info, start[l], b, l) && Fits(start[l], built, b, l)
        ensures UpdatedLayer(info, start[l], b, l).value == FreshLayer(info, b, l)
        ensures LayerUpdatable(info, FreshLayer(info, b, l), a, l) && Fits(FreshLayer(info, b, l), built, a, l)
        ensures UpdatedLayer(info, FreshLayer(info, b, l), a, l).value == start[l]
      {
        SwapBackRestores(info, a, b, l);
        FreshIsAt(info, b, l);
        UpdateFits(info, start[l], built, b, l);
        UpdateFits(info, FreshLayer(info, b, l), built, a, l);
      }
      hide UpdatedLayer, FreshLayer, Fits, SameCoverage, LayerUpdatable, LayerAt;
      var there, n := Swap(Some(b));
      assert forall l :: 0 <= l < |layers| ==> layers[l] == FreshLayer(info, b, l);
      var back, m := Swap(Some(a));
      ok := there && back;
    }
  }
}
