/** `GdnState`, `forward` and `forward_with_state` of the gated-delta-net mixer
    (qwen35-forward/gdn/src/lib.rs). */
module GdnForward {
  import opened Options
  import opened FlatTensor
  import opened Rows
  import opened Axes
  import opened LinearLayer
  import opened Convolution
  import opened DeltaRule
  import opened DeltaForward
  import opened DeltaPrepare
  import opened GdnMixer
  import opened GdnStages
  import opened GdnRefinement

  // ------------------------------------------------------------------ the output half

  /** Steps 1 to 6 of one call. */
  ghost predicate Ran<F(!new), D>(m: Mixer<F, D>, x: seq<F>, b: nat, t: nat, conv0: Option<seq<F>>, ssm: seq<F>, tr: Trace<F>,
                            conv1: seq<F>, p: Operands<F>, ssm1: seq<F>, deltaOut: seq<F>)
    requires m.Valid() && |x| == b * t * m.cfg.hidden
  {
    && HoldsHeads(ssm, b * m.cfg.numV, m.cfg.headK, m.cfg.headV)
    && HoldsHeads(ssm1, b * m.cfg.numV, m.cfg.headK, m.cfg.headV)
    && Convolving(m, x, b, t, conv0, tr, conv1) && Splitting(m, x, b, t, tr) && Gating(m, x, b, t, tr)
    && Fits(ShapeOf(m, b, t), p)
    && Prepared(m.ops, ShapeOf(m, b, t), Operands(tr.q, tr.k, tr.v, tr.g, tr.beta), p)
    && Recurred(m.ops, ShapeOf(m, b, t), p, ssm, ssm1, deltaOut)
  }

  /** Steps 7 and 8. */
  ghost predicate Finished<F(!new), D>(m: Mixer<F, D>, x: seq<F>, b: nat, t: nat, z: seq<F>, deltaOut: seq<F>,
                                 normed: seq<F>, out: seq<F>)
    requires m.Valid() && |x| == b * t * m.cfg.hidden
  {
    && RowsMapped(m.ops, m.w.z, None, x, b * t, m.cfg.hidden, m.cfg.ValueDim(), z)
    && |normed| == b * t * m.cfg.ValueDim()
    && GatedTo(m.ops, m.w.norm, deltaOut, z, normed, m.cfg.headV, m.cfg.eps, b * t * m.cfg.numV)
    && RowsMapped(m.ops, m.w.out, None, normed, b * t, m.cfg.ValueDim(), m.cfg.hidden, out)
  }

  /** The convolution context that one call hands to the next. */
  lemma ContextsAdvance<F(!new), D>(m: Mixer<F, D>, x: seq<F>, b: nat, t: nat, conv0: Option<seq<F>>, ssm: seq<F>, tr: Trace<F>,
                              conv1: seq<F>, p: Operands<F>, ssm1: seq<F>, deltaOut: seq<F>, bi: nat)
    requires m.Valid() && |x| == b * t * m.cfg.hidden && bi < b
    requires Ran(m, x, b, t, conv0, ssm, tr, conv1, p, ssm1, deltaOut)
    ensures BatchAt(m, Some(conv1), ssm1, b, bi).conv
         == Advance(m, BatchAt(m, conv0, ssm, b, bi), BatchRows(x, b, t, m.cfg.hidden, bi)).conv
  {
    var l := BatchAt(m, Some(conv1), ssm1, b, bi).conv;
    var r := Advance(m, BatchAt(m, conv0, ssm, b, bi), BatchRows(x, b, t, m.cfg.hidden, bi)).conv;
    forall c: nat | c < m.cfg.ConvDim() ensures l[c] == r[c] {
      ChannelRow(m, x, b, t, conv0, ssm, tr, conv1, bi, c);
    }
  }

  lemma HeadsAdvance<F(!new), D>(m: Mixer<F, D>, x: seq<F>, b: nat, t: nat, conv0: Option<seq<F>>, ssm: seq<F>, tr: Trace<F>,
                           conv1: seq<F>, p: Operands<F>, ssm1: seq<F>, deltaOut: seq<F>, bi: nat)
    requires m.Valid() && |x| == b * t * m.cfg.hidden && bi < b
    requires Ran(m, x, b, t, conv0, ssm, tr, conv1, p, ssm1, deltaOut)
    ensures BatchAt(m, Some(conv1), ssm1, b, bi).ssm
         == Advance(m, BatchAt(m, conv0, ssm, b, bi), BatchRows(x, b, t, m.cfg.hidden, bi)).ssm
  {
    var l := BatchAt(m, Some(conv1), ssm1, b, bi).ssm;
    var r := Advance(m, BatchAt(m, conv0, ssm, b, bi), BatchRows(x, b, t, m.cfg.hidden, bi)).ssm;
    forall h: nat | h < m.cfg.numV ensures l[h] == r[h] {
      HeadNext(m, x, b, t, conv0, ssm, tr, conv1, p, ssm1, deltaOut, bi, h);
    }
  }

  /** One head after the recurrence: its next state ... */
  lemma HeadNext<F(!new), D>(m: Mixer<F, D>, x: seq<F>, b: nat, t: nat, conv0: Option<seq<F>>, ssm: seq<F>, tr: Trace<F>,
                       conv1: seq<F>, p: Operands<F>, ssm1: seq<F>, deltaOut: seq<F>, bi: nat, h: nat)
    requires m.Valid() && |x| == b * t * m.cfg.hidden && bi < b && h < m.cfg.numV
    requires Ran(m, x, b, t, conv0, ssm, tr, conv1, p, ssm1, deltaOut)
    ensures var st, xs := BatchAt(m, conv0, ssm, b, bi), BatchRows(x, b, t, m.cfg.hidden, bi);
            BatchAt(m, Some(conv1), ssm1, b, bi).ssm[h] == Advance(m, st, xs).ssm[h]
  {
    var s := ShapeOf(m, b, t);
    var st, xs := BatchAt(m, conv0, ssm, b, bi), BatchRows(x, b, t, m.cfg.hidden, bi);
    InputsMatch(m, x, b, t, conv0, ssm, tr, conv1, p, bi, h);
    assert HeadDone(m.ops, s, p, ssm, ssm1, deltaOut, bi, h, t);
    assert Inputs(s, p, bi, h)[..t] == Inputs(s, p, bi, h);
    assert st.ssm[h] == HeadState(s, ssm, bi, h);
    assert BatchAt(m, Some(conv1), ssm1, b, bi).ssm[h] == HeadState(s, ssm1, bi, h);
  }

  /** ... and its outputs. */
  lemma HeadResult<F(!new), D>(m: Mixer<F, D>, x: seq<F>, b: nat, t: nat, conv0: Option<seq<F>>, ssm: seq<F>, tr: Trace<F>,
                         conv1: seq<F>, p: Operands<F>, ssm1: seq<F>, deltaOut: seq<F>, bi: nat, h: nat, i: nat)
    requires m.Valid() && |x| == b * t * m.cfg.hidden && bi < b && h < m.cfg.numV && i < t
    requires Ran(m, x, b, t, conv0, ssm, tr, conv1, p, ssm1, deltaOut)
    ensures var st, xs := BatchAt(m, conv0, ssm, b, bi), BatchRows(x, b, t, m.cfg.hidden, bi);
            && Ix3(bi, t, i, m.cfg.numV, h) * m.cfg.headV + m.cfg.headV <= |deltaOut|
            && Row(deltaOut, Ix3(bi, t, i, m.cfg.numV, h), m.cfg.headV) == HeadOut(m, st, xs, h, i)
  {
    var s := ShapeOf(m, b, t);
    InputsMatch(m, x, b, t, conv0, ssm, tr, conv1, p, bi, h);
    assert HeadDone(m.ops, s, p, ssm, ssm1, deltaOut, bi, h, t);
    assert BatchAt(m, conv0, ssm, b, bi).ssm[h] == HeadState(s, ssm, bi, h);
    assert OutDone(m.ops, s, p, ssm, deltaOut, bi, i, h);
    Ix3Fits(b, bi, t, i, m.cfg.numV, h, m.cfg.headV);
  }

  /** Row `i` of every head's output is in place. */
  ghost predicate HeadOutputs<F(!new), D>(m: Mixer<F, D>, st: BatchState<F>, xs: seq<seq<F>>, t: nat, deltaOut: seq<F>,
                                    bi: nat, i: nat)
    requires m.Valid() && StateShaped(m.cfg, st) && InputRows(xs, m.cfg.hidden) && i < |xs|
  {
    forall h: nat {:trigger HeadOut(m, st, xs, h, i)} :: h < m.cfg.numV ==>
      && Ix3(bi, t, i, m.cfg.numV, h) * m.cfg.headV + m.cfg.headV <= |deltaOut|
      && Row(deltaOut, Ix3(bi, t, i, m.cfg.numV, h), m.cfg.headV) == HeadOut(m, st, xs, h, i)
  }

  /** The gated norm and the output projection of one row, given its heads' outputs. */
  lemma OutputRow<F(!new), D>(m: Mixer<F, D>, x: seq<F>, b: nat, t: nat, st: BatchState<F>, z: seq<F>, deltaOut: seq<F>,
                        normed: seq<F>, out: seq<F>, bi: nat, i: nat)
    requires m.Valid() && |x| == b * t * m.cfg.hidden && bi < b && i < t && StateShaped(m.cfg, st)
    requires Finished(m, x, b, t, z, deltaOut, normed, out)
    requires HeadOutputs(m, st, BatchRows(x, b, t, m.cfg.hidden, bi), t, deltaOut, bi, i)
    ensures |out| == b * t * m.cfg.hidden
    ensures RowAt(out, b, t, m.cfg.hidden, bi, i) == FinishRow(m, HeadOutRows(m, st, BatchRows(x, b, t, m.cfg.hidden, bi))[i], RowAt(x, b, t, m.cfg.hidden, bi, i))
  {
    var xs := BatchRows(x, b, t, m.cfg.hidden, bi);
    var vd := m.cfg.ValueDim();
    MappedRow(m.ops, m.w.out, normed, b, t, vd, m.cfg.hidden, out, bi, i);
    MappedRow(m.ops, m.w.z, x, b, t, m.cfg.hidden, vd, z, bi, i);
    var heads := NormedHeads(m, HeadOutRows(m, st, xs)[i], RowAt(x, b, t, m.cfg.hidden, bi, i));
    var l, r := RowAt(normed, b, t, vd, bi, i), Joined(heads, m.cfg.headV);
    forall h: nat | h < m.cfg.numV
      ensures h * m.cfg.headV + m.cfg.headV <= |l| && Row(l, h, m.cfg.headV) == Row(r, h, m.cfg.headV)
    {
      NormedHeadRow(m, x, b, t, z, deltaOut, normed, bi, i, h, HeadOut(m, st, xs, h, i));
      JoinedRow(heads, m.cfg.headV, h);
    }
    RowsDetermine(l, r, m.cfg.numV, m.cfg.headV);
  }

  lemma NormedHeadRow<F(!new), D>(m: Mixer<F, D>, x: seq<F>, b: nat, t: nat, z: seq<F>, deltaOut: seq<F>,
                            normed: seq<F>, bi: nat, i: nat, h: nat, o: seq<F>)
    requires m.Valid() && |x| == b * t * m.cfg.hidden && bi < b && i < t && h < m.cfg.numV && |o| == m.cfg.headV
    requires RowsMapped(m.ops, m.w.z, None, x, b * t, m.cfg.hidden, m.cfg.ValueDim(), z)
    requires |normed| == b * t * m.cfg.ValueDim()
    requires GatedTo(m.ops, m.w.norm, deltaOut, z, normed, m.cfg.headV, m.cfg.eps, b * t * m.cfg.numV)
    requires Ix3(bi, t, i, m.cfg.numV, h) * m.cfg.headV + m.cfg.headV <= |deltaOut|
    requires Row(deltaOut, Ix3(bi, t, i, m.cfg.numV, h), m.cfg.headV) == o
    ensures h * m.cfg.headV + m.cfg.headV <= m.cfg.ValueDim()
    ensures Row(RowAt(normed, b, t, m.cfg.ValueDim(), bi, i), h, m.cfg.headV)
         == NormedHead(m, o, RowAt(x, b, t, m.cfg.hidden, bi, i), h)
  {
    var vd, r := m.cfg.ValueDim(), Ix(bi, t, i);
    HeadShare(m, h);
    IxFits(bi, b, t, i);
    RowFits(r, b * t, vd);
    MappedRow(m.ops, m.w.z, x, b, t, m.cfg.hidden, vd, z, bi, i);
    NestedRow(normed, r, m.cfg.numV, h, m.cfg.headV);
    NestedRow(z, r, m.cfg.numV, h, m.cfg.headV);
    IxFits(r, b * t, m.cfg.numV, h);
    assert RowGated(m.ops, m.w.norm, deltaOut, z, normed, m.cfg.headV, m.cfg.eps, Ix(r, m.cfg.numV, h));
  }

  /** Batch `bi` is mixed: its outputs and its next state are those of `GdnMixer`. */
  ghost predicate BatchMixed<F(!new), D>(m: Mixer<F, D>, x: seq<F>, b: nat, t: nat, st: BatchState<F>,
                                   out: seq<F>, next: BatchState<F>, bi: nat)
    requires m.Valid() && |x| == b * t * m.cfg.hidden && bi < b && StateShaped(m.cfg, st)
  {
    && |out| == b * t * m.cfg.hidden
    && BatchRows(out, b, t, m.cfg.hidden, bi) == Mix(m, st, BatchRows(x, b, t, m.cfg.hidden, bi))
    && next == Advance(m, st, BatchRows(x, b, t, m.cfg.hidden, bi))
  }

  lemma BatchOutputs<F(!new), D>(m: Mixer<F, D>, x: seq<F>, b: nat, t: nat, conv0: Option<seq<F>>, ssm: seq<F>, tr: Trace<F>,
                           conv1: seq<F>, p: Operands<F>, ssm1: seq<F>, deltaOut: seq<F>, normed: seq<F>, out: seq<F>,
                           bi: nat, i: nat)
    requires m.Valid() && |x| == b * t * m.cfg.hidden && bi < b && i < t
    requires Ran(m, x, b, t, conv0, ssm, tr, conv1, p, ssm1, deltaOut)
    requires Finished(m, x, b, t, tr.z, deltaOut, normed, out)
    ensures |out| == b * t * m.cfg.hidden
    ensures RowAt(out, b, t, m.cfg.hidden, bi, i)
         == FinishRow(m, HeadOutRows(m, BatchAt(m, conv0, ssm, b, bi), BatchRows(x, b, t, m.cfg.hidden, bi))[i],
                      RowAt(x, b, t, m.cfg.hidden, bi, i))
  {
    AllHeadOutputs(m, x, b, t, conv0, ssm, tr, conv1, p, ssm1, deltaOut, bi, i);
    OutputRow(m, x, b, t, BatchAt(m, conv0, ssm, b, bi), tr.z, deltaOut, normed, out, bi, i);
  }

  lemma AllHeadOutputs<F(!new), D>(m: Mixer<F, D>, x: seq<F>, b: nat, t: nat, conv0: Option<seq<F>>, ssm: seq<F>, tr: Trace<F>,
                             conv1: seq<F>, p: Operands<F>, ssm1: seq<F>, deltaOut: seq<F>, bi: nat, i: nat)
    requires m.Valid() && |x| == b * t * m.cfg.hidden && bi < b && i < t
    requires Ran(m, x, b, t, conv0, ssm, tr, conv1, p, ssm1, deltaOut)
    ensures HeadOutputs(m, BatchAt(m, conv0, ssm, b, bi), BatchRows(x, b, t, m.cfg.hidden, bi), t, deltaOut, bi, i)
  {
    var st, xs := BatchAt(m, conv0, ssm, b, bi), BatchRows(x, b, t, m.cfg.hidden, bi);
    forall h: nat | h < m.cfg.numV
      ensures Ix3(bi, t, i, m.cfg.numV, h) * m.cfg.headV + m.cfg.headV <= |deltaOut|
      ensures Row(deltaOut, Ix3(bi, t, i, m.cfg.numV, h), m.cfg.headV) == HeadOut(m, st, xs, h, i)
    {
      HeadResult(m, x, b, t, conv0, ssm, tr, conv1, p, ssm1, deltaOut, bi, h, i);
    }
  }

  lemma BatchIsMixed<F(!new), D>(m: Mixer<F, D>, x: seq<F>, b: nat, t: nat, conv0: Option<seq<F>>, ssm: seq<F>, tr: Trace<F>,
                           conv1: seq<F>, p: Operands<F>, ssm1: seq<F>, deltaOut: seq<F>, normed: seq<F>, out: seq<F>,
                           bi: nat)
    requires m.Valid() && |x| == b * t * m.cfg.hidden && bi < b
    requires Ran(m, x, b, t, conv0, ssm, tr, conv1, p, ssm1, deltaOut)
    requires Finished(m, x, b, t, tr.z, deltaOut, normed, out)
    ensures BatchMixed(m, x, b, t, BatchAt(m, conv0, ssm, b, bi), out, BatchAt(m, Some(conv1), ssm1, b, bi), bi)
  {
    var st, xs := BatchAt(m, conv0, ssm, b, bi), BatchRows(x, b, t, m.cfg.hidden, bi);
    ContextsAdvance(m, x, b, t, conv0, ssm, tr, conv1, p, ssm1, deltaOut, bi);
    HeadsAdvance(m, x, b, t, conv0, ssm, tr, conv1, p, ssm1, deltaOut, bi);
    var l, r := BatchRows(out, b, t, m.cfg.hidden, bi), Mix(m, st, xs);
    forall i: nat | i < t ensures l[i] == r[i] {
      BatchOutputs(m, x, b, t, conv0, ssm, tr, conv1, p, ssm1, deltaOut, normed, out, bi, i);
    }
  }

  // ------------------------------------------------------------------ the state object

  /** `GdnState`: what the mixer carries between calls. */
  class GdnState<F(!new)> {
    var conv: seq<F>
    var ssm: array<F>

    ghost predicate Holds<D>(m: Mixer<F, D>, b: nat)
      reads this, ssm
    {
      && |conv| == b * m.cfg.ConvDim() * Keep(m.cfg.kernel)
      && HoldsHeads(ssm[..], b * m.cfg.numV, m.cfg.headK, m.cfg.headV)
    }

    /** Batch `bi`'s share. */
    ghost function Batch<D>(m: Mixer<F, D>, b: nat, bi: nat): (r: BatchState<F>)
      reads this, ssm
      requires Holds(m, b) && bi < b
      ensures StateShaped(m.cfg, r)
    {
      BatchAt(m, Some(conv), ssm[..], b, bi)
    }

    /** `GdnState::new`. */
    constructor New<D>(m: Mixer<F, D>, b: nat)
      ensures fresh(ssm) && Holds(m, b)
      ensures forall bi: nat {:trigger Batch(m, b, bi)} :: bi < b ==> Batch(m, b, bi) == FreshState(m)
    {
      conv := seq(b * m.cfg.ConvDim() * Keep(m.cfg.kernel), _ => m.ops.zero);
      ssm := new F[b * m.cfg.numV * m.cfg.headK * m.cfg.headV](_ => m.ops.zero);
      new;
      forall bi: nat | bi < b ensures Batch(m, b, bi) == FreshState(m) {
        ZerosAreFresh(m, Some(conv), ssm[..], b, bi);
      }
    }
  }

  lemma ZerosAreFresh<F(!new), D>(m: Mixer<F, D>, conv: Option<seq<F>>, ssm: seq<F>, b: nat, bi: nat)
    requires bi < b && HoldsHeads(ssm, b * m.cfg.numV, m.cfg.headK, m.cfg.headV)
    requires conv.Some? ==> |conv.value| == b * m.cfg.ConvDim() * Keep(m.cfg.kernel)
    requires conv.Some? ==> forall j :: 0 <= j < |conv.value| ==> conv.value[j] == m.ops.zero
    requires forall j :: 0 <= j < |ssm| ==> ssm[j] == m.ops.zero
    ensures BatchAt(m, conv, ssm, b, bi) == FreshState(m)
  {
    var l, r := BatchAt(m, conv, ssm, b, bi), FreshState(m);
    forall c: nat | c < m.cfg.ConvDim() ensures l.conv[c] == r.conv[c] {
      ZeroContext(m, conv, b, bi, c);
    }
    forall h: nat | h < m.cfg.numV ensures l.ssm[h] == r.ssm[h] {
      ZeroHead(m, ssm, b, bi, h);
    }
  }

  lemma ZeroContext<F(!new), D>(m: Mixer<F, D>, conv: Option<seq<F>>, b: nat, bi: nat, c: nat)
    requires bi < b && c < m.cfg.ConvDim()
    requires conv.Some? ==> |conv.value| == b * m.cfg.ConvDim() * Keep(m.cfg.kernel)
    requires conv.Some? ==> forall j :: 0 <= j < |conv.value| ==> conv.value[j] == m.ops.zero
    ensures ContextAt(m, conv, b, bi, c) == seq(Keep(m.cfg.kernel), _ => m.ops.zero)
  {
    IxFits(bi, b, m.cfg.ConvDim(), c);
    RowFits(Ix(bi, m.cfg.ConvDim(), c), b * m.cfg.ConvDim(), Keep(m.cfg.kernel));
  }

  lemma ZeroHead<F(!new), D>(m: Mixer<F, D>, ssm: seq<F>, b: nat, bi: nat, h: nat)
    requires bi < b && h < m.cfg.numV && HoldsHeads(ssm, b * m.cfg.numV, m.cfg.headK, m.cfg.headV)
    requires forall j :: 0 <= j < |ssm| ==> ssm[j] == m.ops.zero
    ensures HeadState(ShapeOf(m, b, 0), ssm, bi, h)
         == seq(m.cfg.headK, _ => seq(m.cfg.headV, _ => m.ops.zero))
  {
    IxFits(bi, b, m.cfg.numV, h);
    HeadFits(ssm, b * m.cfg.numV, Ix(bi, m.cfg.numV, h), m.cfg.headK, m.cfg.headV);
    forall k: nat | k < m.cfg.headK
      ensures Row(ssm, Ix(Ix(bi, m.cfg.numV, h), m.cfg.headK, k), m.cfg.headV) == seq(m.cfg.headV, _ => m.ops.zero)
    {
    }
  }

  // ------------------------------------------------------------------ the call

  /** Steps 1 to 5: projections, convolution, split, gates, head expansion. */
  method PrepareOperands<F(!new), D>(m: Mixer<F, D>, x: seq<F>, b: nat, t: nat, threads: nat, conv0: Option<seq<F>>)
    returns (tr: Trace<F>, conv1: seq<F>)
    requires m.Valid() && |x| == b * t * m.cfg.hidden
    requires conv0.Some? ==> |conv0.value| == b * m.cfg.ConvDim() * Keep(m.cfg.kernel)
    ensures Convolving(m, x, b, t, conv0, tr, conv1) && Splitting(m, x, b, t, tr) && Gating(m, x, b, t, tr)
    ensures RowsMapped(m.ops, m.w.z, None, x, b * t, m.cfg.hidden, m.cfg.ValueDim(), tr.z)
  {
    var ops, cfg, w := m.ops, m.cfg, m.w;
    var rows, C := b * t, cfg.ConvDim();
    var mixed := Linear(ops, w.qkv, None, x, rows, cfg.hidden, C, threads);
    var z := Linear(ops, w.z, None, x, rows, cfg.hidden, cfg.ValueDim(), threads);
    var bb := Linear(ops, w.b, None, x, rows, cfg.hidden, cfg.numV, threads);
    var aa := Linear(ops, w.a, None, x, rows, cfg.hidden, cfg.numV, threads);
    var bct := SwapAxes(mixed, b, t, C, 1, ops.zero);
    var conv, next := ConvForward(ops, w.conv, None, bct, b, C, t, cfg.kernel, conv0);
    var back := SwapAxes(conv, b, C, t, 1, ops.zero);
    var q0, k0, v := SplitQkv(back, rows, cfg.KeyDim(), cfg.ValueDim(), ops.zero);
    var beta, g := Gates(ops, w.aLog, w.dtBias, aa, bb, rows, cfg.numV);
    Associate(rows, cfg.numK, cfg.headK);
    var q := RepeatInterleaveHeads(q0, b, t, cfg.numK, cfg.headK, cfg.Ratio(), ops.zero);
    var k := RepeatInterleaveHeads(k0, b, t, cfg.numK, cfg.headK, cfg.Ratio(), ops.zero);
    tr := Trace(mixed, z, bb, aa, bct, conv, back, q0, k0, v, beta, g, q, k);
    conv1 := next;
  }

  /** Steps 6 to 8: the recurrence in place, the gated norm, the output projection. */
  method Finish<F(!new), D>(m: Mixer<F, D>, x: seq<F>, b: nat, t: nat, threads: nat, tr: Trace<F>, ssm: array<F>,
                      ghost conv0: Option<seq<F>>, ghost conv1: seq<F>) returns (out: seq<F>)
    requires m.Valid() && |x| == b * t * m.cfg.hidden
    requires HoldsHeads(ssm[..], b * m.cfg.numV, m.cfg.headK, m.cfg.headV)
    requires Convolving(m, x, b, t, conv0, tr, conv1) && Splitting(m, x, b, t, tr) && Gating(m, x, b, t, tr)
    requires RowsMapped(m.ops, m.w.z, None, x, b * t, m.cfg.hidden, m.cfg.ValueDim(), tr.z)
    modifies ssm
    ensures HoldsHeads(ssm[..], b * m.cfg.numV, m.cfg.headK, m.cfg.headV)
    ensures Mixed(m, x, b, t, conv0, old(ssm[..]), out, conv1, ssm[..])
  {
    OperandShapes(m, x, b, t, tr);
    ghost var ssm0 := ssm[..];
    var deltaOut, p := ForwardPreparedInto(m.ops, ShapeOf(m, b, t), Operands(tr.q, tr.k, tr.v, tr.g, tr.beta), ssm);
    Associate(b * t, m.cfg.numV, m.cfg.headV);
    var normed := RmsnormGated(m.ops, m.w.norm, deltaOut, tr.z, b * t * m.cfg.numV, m.cfg.headV, m.cfg.eps);
    out := Linear(m.ops, m.w.out, None, normed, b * t, m.cfg.ValueDim(), m.cfg.hidden, threads);
    AllMixed(m, x, b, t, conv0, ssm0, tr, conv1, p, ssm[..], deltaOut, normed, out);
  }

  /** Every batch is mixed. */
  ghost predicate Mixed<F(!new), D>(m: Mixer<F, D>, x: seq<F>, b: nat, t: nat, conv0: Option<seq<F>>, ssm0: seq<F>,
                              out: seq<F>, conv1: seq<F>, ssm1: seq<F>)
    requires m.Valid() && |x| == b * t * m.cfg.hidden
  {
    && HoldsHeads(ssm0, b * m.cfg.numV, m.cfg.headK, m.cfg.headV)
    && HoldsHeads(ssm1, b * m.cfg.numV, m.cfg.headK, m.cfg.headV)
    && |conv1| == b * m.cfg.ConvDim() * Keep(m.cfg.kernel)
    && (conv0.Some? ==> |conv0.value| == b * m.cfg.ConvDim() * Keep(m.cfg.kernel))
    && |out| == b * t * m.cfg.hidden
    && forall bi: nat {:trigger BatchAt(m, Some(conv1), ssm1, b, bi)} :: bi < b ==>
         BatchMixed(m, x, b, t, BatchAt(m, conv0, ssm0, b, bi), out, BatchAt(m, Some(conv1), ssm1, b, bi), bi)
  }

  lemma AllMixed<F(!new), D>(m: Mixer<F, D>, x: seq<F>, b: nat, t: nat, conv0: Option<seq<F>>, ssm: seq<F>, tr: Trace<F>,
                       conv1: seq<F>, p: Operands<F>, ssm1: seq<F>, deltaOut: seq<F>, normed: seq<F>, out: seq<F>)
    requires m.Valid() && |x| == b * t * m.cfg.hidden
    requires Ran(m, x, b, t, conv0, ssm, tr, conv1, p, ssm1, deltaOut)
    requires Finished(m, x, b, t, tr.z, deltaOut, normed, out)
    ensures Mixed(m, x, b, t, conv0, ssm, out, conv1, ssm1)
  {
    forall bi: nat | bi < b
      ensures BatchMixed(m, x, b, t, BatchAt(m, conv0, ssm, b, bi), out, BatchAt(m, Some(conv1), ssm1, b, bi), bi)
    {
      BatchIsMixed(m, x, b, t, conv0, ssm, tr, conv1, p, ssm1, deltaOut, normed, out, bi);
    }
  }

  /** `forward_with_state`: continues from the state, which is advanced in place. */
  method ForwardWithState<F(!new), D>(m: Mixer<F, D>, x: seq<F>, b: nat, t: nat, threads: nat, state: GdnState<F>)
    returns (out: seq<F>)
    requires m.Valid() && |x| == b * t * m.cfg.hidden && state.Holds(m, b)
    modifies state`conv, state.ssm
    ensures state.Holds(m, b) && |out| == b * t * m.cfg.hidden
    ensures forall bi: nat {:trigger state.Batch(m, b, bi)} :: bi < b ==>
      BatchMixed(m, x, b, t, old(state.Batch(m, b, bi)), out, state.Batch(m, b, bi), bi)
  {
    ghost var conv0 := Some(state.conv);
    var tr, conv1 := PrepareOperands(m, x, b, t, threads, Some(state.conv));
    out := Finish(m, x, b, t, threads, tr, state.ssm, conv0, conv1);
    state.conv := conv1;
  }

  /** `forward`: the whole sequence from a zero state that is dropped afterwards. */
  method Forward<F(!new), D>(m: Mixer<F, D>, x: seq<F>, b: nat, t: nat, threads: nat) returns (out: seq<F>)
    requires m.Valid() && |x| == b * t * m.cfg.hidden
    ensures |out| == b * t * m.cfg.hidden
    ensures forall bi: nat {:trigger BatchRows(out, b, t, m.cfg.hidden, bi)} :: bi < b ==>
      BatchRows(out, b, t, m.cfg.hidden, bi) == Mix(m, FreshState(m), BatchRows(x, b, t, m.cfg.hidden, bi))
  {
    var tr, conv1 := PrepareOperands(m, x, b, t, threads, None);
    var ssm := new F[b * m.cfg.numV * m.cfg.headK * m.cfg.headV](_ => m.ops.zero);
    ghost var ssm0 := ssm[..];
    out := Finish(m, x, b, t, threads, tr, ssm, None, conv1);
    forall bi: nat | bi < b
      ensures BatchRows(out, b, t, m.cfg.hidden, bi) == Mix(m, FreshState(m), BatchRows(x, b, t, m.cfg.hidden, bi))
    {
      ZerosAreFresh(m, None, ssm0, b, bi);
      assert BatchMixed(m, x, b, t, BatchAt(m, None, ssm0, b, bi), out, BatchAt(m, Some(conv1), ssm[..], b, bi), bi);
    }
  }
}
