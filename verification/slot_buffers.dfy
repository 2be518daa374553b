/** The aggregator's slot buffers and the loops that serve a barrier on them. */
module SlotBuffers {
  import opened Linear
  import opened BatchedExec

  /** `res[i]` is what the shared result `y` holds for the i-th slot. */
  ghost predicate PartsMatch(y: Mat, xs: seq<Mat>, res: seq<Vec>) {
    |res| == |xs| && forall i :: 0 <= i < |xs| ==> PartMatches(y, xs, res[i], i)
  }

  ghost predicate PartMatches(y: Mat, xs: seq<Mat>, cells: Vec, i: nat)
    requires i < |xs|
  {
    Offset(xs, i) + |xs[i]| <= |y| && cells == Flat(y[Offset(xs, i)..Offset(xs, i) + |xs[i]|])
  }

  lemma ScatteredStep(outs: seq<Vec>, cmds: seq<Command>, res: seq<Vec>, i: nat)
    requires Fits(outs, cmds, res) && i < |cmds|
    ensures var prev, slot := Scattered(outs, cmds, res, i), cmds[i].slotId;
      && 0 <= slot < |prev| && |res[i]| <= |prev[slot]|
      && Scattered(outs, cmds, res, i + 1) == prev[slot := Overwrite(prev[slot], res[i])]
  {
  }

  lemma BatchPartsMatch(m: Model, op: Op, layer: int, xs: seq<Mat>)
    requires ModelOk(m) && LayerInRange(m, op, layer) && AllShaped(m, op, xs) && |xs| > 1
    ensures var parts := BatchInputs(op, xs);
      && |parts| == |xs| && AllShaped(m, op, parts) && Shaped(Gather(parts), |Gather(parts)|, InWidth(m, op))
      && |Gather(parts)| == Offset(parts, |parts|)
      && PartsMatch(MapRows(m, op, layer, Gather(parts)), parts, Results(m, op, layer, xs))
  {
    var parts := BatchInputs(op, xs);
    GatherShaped(parts, InWidth(m, op));
    GatherLength(parts);
    forall i | 0 <= i < |parts|
      ensures PartMatches(MapRows(m, op, layer, Gather(parts)), parts, Results(m, op, layer, xs)[i], i)
    {
      GatherSlice(parts, i);
      assert ResultRows(m, op, layer, xs, i) == BatchRows(m, op, layer, xs, i);
    }
  }

  class Buffers {
    const ins: seq<array<real>>
    const outs: seq<array<real>>
    var owner: seq<int>

    ghost predicate Valid()
      reads this
    {
      && |ins| == |outs| == |owner|
      && (forall i, j :: 0 <= i < j < |outs| ==> outs[i] != outs[j])
      && (forall i, j :: 0 <= i < |ins| && 0 <= j < |outs| ==> ins[i] != outs[j])
    }

    ghost function Ins(): (r: seq<Vec>)
      reads ins
      ensures |r| == |ins| && forall i :: 0 <= i < |ins| ==> r[i] == ins[i][..]
    {
      seq(|ins|, i requires 0 <= i < |ins| reads ins => ins[i][..])
    }

    ghost function Outs(): (r: seq<Vec>)
      reads outs
      ensures |r| == |outs| && forall i :: 0 <= i < |outs| ==> r[i] == outs[i][..]
    {
      seq(|outs|, i requires 0 <= i < |outs| reads outs => outs[i][..])
    }

    /** The checks made before anything is written; false stands for the exception. */
    method Validate(op: Op, cmds: seq<Command>) returns (ok: bool)
      requires Valid()
      ensures ok <==> forall i :: 0 <= i < |cmds| ==> CommandAccepted(op, owner, |cmds|, cmds[i])
    {
      for i := 0 to |cmds|
        invariant forall j :: 0 <= j < i ==> CommandAccepted(op, owner, |cmds|, cmds[j])
      {
        if !CommandAccepted(op, owner, |cmds|, cmds[i]) {
          return false;
        }
      }
      ok := true;
    }

    /** One view per command on the slot's input buffer. */
    method GatherViews(m: Model, op: Op, cmds: seq<Command>) returns (xs: seq<Mat>)
      requires Valid() && AllInBounds(m, op, Ins(), Outs(), cmds)
      ensures xs == Inputs(m, op, Ins(), Outs(), cmds)
    {
      xs := [];
      for i := 0 to |cmds|
        invariant |xs| == i
        invariant forall j :: 0 <= j < i ==> InBounds(m, op, Ins(), Outs(), cmds[j])
        invariant forall j :: 0 <= j < i ==> xs[j] == Input(m, op, Ins(), Outs(), cmds[j])
      {
        assert InBounds(m, op, Ins(), Outs(), cmds[i]);
        var slot := cmds[i].slotId;
        xs := xs + [View(ins[slot][..], Tokens(cmds[i]), InWidth(m, op))];
      }
    }

    method CopyTo(out: array<real>, data: Vec)
      requires |data| <= out.Length
      modifies out
      ensures out[..] == Overwrite(old(out[..]), data)
    {
      for i := 0 to |data|
        invariant forall k :: 0 <= k < i ==> out[k] == data[k]
        invariant forall k :: i <= k < out.Length ==> out[k] == old(out[k])
      {
        out[i] := data[i];
      }
    }

    method CopyOut(slot: int, data: Vec)
      requires Valid() && 0 <= slot < |outs| && |data| <= outs[slot].Length
      modifies outs
      ensures Outs() == old(Outs())[slot := Overwrite(old(Outs())[slot], data)]
    {
      ghost var before := Outs();
      CopyTo(outs[slot], data);
      forall s | 0 <= s < |outs| ensures Outs()[s] == before[slot := Overwrite(before[slot], data)][s] {
        if s != slot { assert outs[s] != outs[slot]; }
      }
    }

    /** Copy `counts[i]` rows of the shared result to the i-th slot, at a running offset. */
    method Scatter(y: Mat, xs: seq<Mat>, cmds: seq<Command>, ghost res: seq<Vec>)
      requires Valid() && Fits(Outs(), cmds, res) && |xs| == |cmds| && |y| == Offset(xs, |xs|)
      requires PartsMatch(y, xs, res)
      modifies outs
      ensures Outs() == Scattered(old(Outs()), cmds, res, |cmds|)
    {
      ghost var before := Outs();
      var offset := 0;
      for i := 0 to |cmds|
        invariant offset == Offset(xs, i)
        invariant Outs() == Scattered(before, cmds, res, i)
      {
        assert PartMatches(y, xs, res[i], i);
        ScatteredStep(before, cmds, res, i);
        CopyOut(cmds[i].slotId, Flat(y[offset..offset + |xs[i]|]));
        offset := offset + |xs[i]|;
      }
    }

    /** execute_batched_embed_slots, execute_batched_gemm_slots and the greedy
        execute_batched_lm_head_sample_slots: they differ in the row operation, in the shape checks and in
        lm_head gathering only the last row of each slot. */
    method ExecuteBatched(m: Model, op: Op, layer: int, cmds: seq<Command>) returns (ok: bool)
      requires Valid() && ModelOk(m)
      requires Accepted(m, op, layer, owner, cmds) ==> AllInBounds(m, op, Ins(), Outs(), cmds)
      modifies outs
      ensures ok <==> cmds == [] || Accepted(m, op, layer, owner, cmds)
      ensures Outs() == if ok && cmds != [] then Executed(m, op, layer, old(Ins()), old(Outs()), cmds) else old(Outs())
      ensures ok && cmds != [] && DistinctSlots(cmds) ==> AllServed(m, op, layer, Ins(), Outs(), cmds)
      ensures Ins() == old(Ins())
    {
      hide AllServed, Executed, ModelOk, AllInBounds, CommandAccepted, SamplerAccepted, LayerInRange, DistinctSlots;
      if cmds == [] {
        return true;
      }
      if !LayerInRange(m, op, layer) || !SamplerAccepted(op, cmds) {
        return false;
      }
      ok := Validate(op, cmds);
      if !ok {
        return;
      }
      WriteResults(m, op, layer, cmds);
    }

    /** The direct path for one command, the gather, matmul and scatter path for more. */
    method WriteResults(m: Model, op: Op, layer: int, cmds: seq<Command>)
      requires Valid() && ModelOk(m) && LayerInRange(m, op, layer) && cmds != []
      requires AllInBounds(m, op, Ins(), Outs(), cmds)
      modifies outs
      ensures Outs() == Executed(m, op, layer, old(Ins()), old(Outs()), cmds)
      ensures DistinctSlots(cmds) ==> AllServed(m, op, layer, old(Ins()), Outs(), cmds)
    {
      hide AllServed, ModelOk, Scattered, Results, Inputs;
      ExecutedServed(m, op, layer, Ins(), Outs(), cmds);
      ResultsFit(m, op, layer, Ins(), Outs(), cmds);
      var xs := GatherViews(m, op, cmds);
      if |cmds| == 1 {
        assert xs == [xs[0]] && cmds == [cmds[0]];
        WriteDirect(m, op, layer, xs[0], cmds[0], cmds);
      } else {
        WriteGathered(m, op, layer, xs, cmds);
      }
    }

    /** One command: the op on the view, copied to the slot's output buffer. */
    method WriteDirect(m: Model, op: Op, layer: int, x: Mat, c: Command, ghost cmds: seq<Command>)
      requires Valid() && ModelOk(m) && LayerInRange(m, op, layer) && AllShaped(m, op, [x]) && cmds == [c]
      requires Fits(Outs(), cmds, Results(m, op, layer, [x]))
      modifies outs
      ensures Outs() == Scattered(old(Outs()), cmds, Results(m, op, layer, [x]), 1)
    {
      hide ModelOk;
      assert [x][0] == x;
      ghost var res := Results(m, op, layer, [x]);
      ResultsAreSolo(m, op, layer, [x]);
      var only := Flat(SoloRows(m, op, layer, x));
      assert only == res[0];
      ScatteredStep(Outs(), cmds, res, 0);
      CopyOut(c.slotId, only);
    }

    /** More commands: their rows gathered, one result for all of them, and its parts copied out. */
    method WriteGathered(m: Model, op: Op, layer: int, xs: seq<Mat>, cmds: seq<Command>)
      requires Valid() && ModelOk(m) && LayerInRange(m, op, layer) && AllShaped(m, op, xs) && |xs| == |cmds| > 1
      requires Fits(Outs(), cmds, Results(m, op, layer, xs))
      modifies outs
      ensures Outs() == Scattered(old(Outs()), cmds, Results(m, op, layer, xs), |cmds|)
    {
      hide ModelOk, Scattered;
      var parts := BatchInputs(op, xs);
      BatchPartsMatch(m, op, layer, xs);
      var y := MapRows(m, op, layer, Gather(parts));
      Scatter(y, parts, cmds, Results(m, op, layer, xs));
    }
  }
}
