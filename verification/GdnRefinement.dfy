/** Why the flat stages of the mixer compute, batch by batch, what `GdnMixer` states. */
module GdnRefinement {
  import opened Options
  import opened FlatTensor
  import opened Rows
  import opened Axes
  import opened LinearLayer
  import opened Convolution
  import opened DeltaRule
  import opened DeltaForward
  import opened DeltaPrepare
  import opened GdnMixer
  import opened GdnStages

  /** The intermediate tensors of one call, as `GdnTrace` names them. */
  datatype Trace<F> = Trace(
    mixed: seq<F>, z: seq<F>, b: seq<F>, a: seq<F>, bct: seq<F>, conv: seq<F>, back: seq<F>,
    qRaw: seq<F>, kRaw: seq<F>, v: seq<F>, beta: seq<F>, g: seq<F>, q: seq<F>, k: seq<F>)

  /** The projections and the convolution. */
  ghost predicate Convolving<F(!new), D>(m: Mixer<F, D>, x: seq<F>, b: nat, t: nat, conv0: Option<seq<F>>,
                                   tr: Trace<F>, conv1: seq<F>)
    requires m.Valid() && |x| == b * t * m.cfg.hidden
  {
    var C := m.cfg.ConvDim();
    && RowsMapped(m.ops, m.w.qkv, None, x, b * t, m.cfg.hidden, C, tr.mixed)
    && Swapped(tr.mixed, tr.bct, b, t, C, 1)
    && (conv0.Some? ==> |conv0.value| == b * C * Keep(m.cfg.kernel))
    && Convolved(m.ops, m.w.conv, None, tr.bct, b, C, t, m.cfg.kernel, conv0, tr.conv, conv1)
    && Swapped(tr.conv, tr.back, b, C, t, 1)
  }

  /** The operands of the delta rule. */
  ghost predicate Splitting<F(!new), D>(m: Mixer<F, D>, x: seq<F>, b: nat, t: nat, tr: Trace<F>)
    requires m.Valid() && |x| == b * t * m.cfg.hidden
  {
    var kd, vd, C, h, rows := m.cfg.KeyDim(), m.cfg.ValueDim(), m.cfg.ConvDim(), m.cfg.numV, b * t;
    && |tr.back| == b * t * C
    && |tr.qRaw| == rows * kd && CutTo(tr.back, C, 0, kd, tr.qRaw, rows)
    && |tr.kRaw| == rows * kd && CutTo(tr.back, C, kd, kd, tr.kRaw, rows)
    && |tr.v| == rows * vd && CutTo(tr.back, C, kd * 2, vd, tr.v, rows)
    && Repeated(tr.qRaw, tr.q, rows * m.cfg.numK, m.cfg.Ratio(), m.cfg.headK)
    && Repeated(tr.kRaw, tr.k, rows * m.cfg.numK, m.cfg.Ratio(), m.cfg.headK)
  }

  ghost predicate Gating<F(!new), D>(m: Mixer<F, D>, x: seq<F>, b: nat, t: nat, tr: Trace<F>)
    requires m.Valid() && |x| == b * t * m.cfg.hidden
  {
    var h, rows := m.cfg.numV, b * t;
    && RowsMapped(m.ops, m.w.b, None, x, rows, m.cfg.hidden, h, tr.b)
    && RowsMapped(m.ops, m.w.a, None, x, rows, m.cfg.hidden, h, tr.a)
    && |tr.beta| == |tr.g| == rows * h
    && forall r: nat, j: nat {:trigger GateDone(m.ops, m.w.aLog, m.w.dtBias, tr.a, tr.b, tr.beta, tr.g, h, r, j)} ::
         r < rows && j < h ==> GateDone(m.ops, m.w.aLog, m.w.dtBias, tr.a, tr.b, tr.beta, tr.g, h, r, j)
  }

  // ------------------------------------------------------------------ the state

  /** Channel `c` of batch `bi`; a call without a state starts from zeros. */
  ghost function ContextAt<F(!new), D>(m: Mixer<F, D>, conv: Option<seq<F>>, b: nat, bi: nat, c: nat): (r: seq<F>)
    requires bi < b && c < m.cfg.ConvDim()
    requires conv.Some? ==> |conv.value| == b * m.cfg.ConvDim() * Keep(m.cfg.kernel)
    ensures |r| == Keep(m.cfg.kernel)
  {
    if conv.Some? then
      IxFits(bi, b, m.cfg.ConvDim(), c);
      RowFits(Ix(bi, m.cfg.ConvDim(), c), b * m.cfg.ConvDim(), Keep(m.cfg.kernel));
      Row(conv.value, Ix(bi, m.cfg.ConvDim(), c), Keep(m.cfg.kernel))
    else seq(Keep(m.cfg.kernel), _ => m.ops.zero)
  }

  function ShapeOf<F(!new), D>(m: Mixer<F, D>, b: nat, t: nat): Shape {
    Shape(b, t, m.cfg.numV, m.cfg.headK, m.cfg.headV)
  }

  /** Batch `bi`'s share of the flat state. */
  ghost function BatchAt<F(!new), D>(m: Mixer<F, D>, conv: Option<seq<F>>, ssm: seq<F>, b: nat, bi: nat): (r: BatchState<F>)
    requires bi < b && HoldsHeads(ssm, b * m.cfg.numV, m.cfg.headK, m.cfg.headV)
    requires conv.Some? ==> |conv.value| == b * m.cfg.ConvDim() * Keep(m.cfg.kernel)
    ensures StateShaped(m.cfg, r)
  {
    BatchState(
      seq(m.cfg.ConvDim(), c requires 0 <= c < m.cfg.ConvDim() => ContextAt(m, conv, b, bi, c)),
      seq(m.cfg.numV, h requires 0 <= h < m.cfg.numV => HeadState(ShapeOf(m, b, 0), ssm, bi, h)))
  }

  // ------------------------------------------------------------------ the convolution

  lemma SingleElement<F>(s: seq<F>, n: nat)
    requires n * 1 + 1 <= |s|
    ensures n < |s| && Row(s, n, 1)[0] == s[n]
  {
  }

  /** A swap of single elements, read as rows. */
  lemma SwappedElement<F>(x: seq<F>, y: seq<F>, b: nat, m: nat, n: nat, bi: nat, i: nat, j: nat)
    requires |x| == b * m * n * 1 && Swapped(x, y, b, m, n, 1) && bi < b && i < m && j < n
    ensures Ix(bi, m, i) * n + n <= |x| && Ix(bi, n, j) * m + m <= |y|
    ensures Row(y, Ix(bi, n, j), m)[i] == Row(x, Ix(bi, m, i), n)[j]
  {
    Ix3Fits(b, bi, m, i, n, j, 1);
    Ix3Fits(b, bi, n, j, m, i, 1);
    IxFits(bi, b, m, i);
    IxFits(bi, b, n, j);
    RowFits(Ix(bi, m, i), b * m, n);
    RowFits(Ix(bi, n, j), b * n, m);
    assert VectorSwapped(x, y, m, n, 1, bi, i, j);
    SingleElement(x, Ix3(bi, m, i, n, j));
    SingleElement(y, Ix3(bi, n, j, m, i));
    RowElement(x, Ix(bi, m, i), n, j);
    RowElement(y, Ix(bi, n, j), m, i);
  }

  lemma SignalRow<F(!new), D>(m: Mixer<F, D>, x: seq<F>, b: nat, t: nat, conv0: Option<seq<F>>, tr: Trace<F>,
                        conv1: seq<F>, bi: nat, c: nat)
    requires m.Valid() && |x| == b * t * m.cfg.hidden && bi < b && c < m.cfg.ConvDim()
    requires Convolving(m, x, b, t, conv0, tr, conv1)
    ensures Ix(bi, m.cfg.ConvDim(), c) * t + t <= |tr.bct|
    ensures Row(tr.bct, Ix(bi, m.cfg.ConvDim(), c), t) == Signal(m, BatchRows(x, b, t, m.cfg.hidden, bi), c)
  {
    var C := m.cfg.ConvDim();
    IxFits(bi, b, C, c);
    RowFits(Ix(bi, C, c), b * C, t);
    var xs := BatchRows(x, b, t, m.cfg.hidden, bi);
    var l, r := Row(tr.bct, Ix(bi, C, c), t), Signal(m, xs, c);
    forall i: nat | i < t ensures l[i] == r[i] {
      SwappedElement(tr.mixed, tr.bct, b, t, C, bi, i, c);
      MappedRow(m.ops, m.w.qkv, x, b, t, m.cfg.hidden, C, tr.mixed, bi, i);
      assert xs[i] == RowAt(x, b, t, m.cfg.hidden, bi, i);
    }
  }

  /** One channel's outputs and next context. */
  lemma ChannelRow<F(!new), D>(m: Mixer<F, D>, x: seq<F>, b: nat, t: nat, conv0: Option<seq<F>>, ssm: seq<F>, tr: Trace<F>,
                         conv1: seq<F>, bi: nat, c: nat)
    requires m.Valid() && |x| == b * t * m.cfg.hidden && bi < b && c < m.cfg.ConvDim()
    requires HoldsHeads(ssm, b * m.cfg.numV, m.cfg.headK, m.cfg.headV)
    requires Convolving(m, x, b, t, conv0, tr, conv1)
    ensures Ix(bi, m.cfg.ConvDim(), c) * t + t <= |tr.conv|
    ensures Row(tr.conv, Ix(bi, m.cfg.ConvDim(), c), t)
         == ChannelOut(m, BatchAt(m, conv0, ssm, b, bi), BatchRows(x, b, t, m.cfg.hidden, bi), c)
    ensures ContextAt(m, Some(conv1), b, bi, c)
         == ChannelNext(m, BatchAt(m, conv0, ssm, b, bi), BatchRows(x, b, t, m.cfg.hidden, bi), c)
  {
    var C := m.cfg.ConvDim();
    assert ChannelDone(m.ops, m.w.conv, None, tr.bct, C, t, m.cfg.kernel, conv0, tr.conv, conv1, bi, c);
    SignalRow(m, x, b, t, conv0, tr, conv1, bi, c);
    assert BatchAt(m, conv0, ssm, b, bi).conv[c] == ContextAt(m, conv0, b, bi, c);
  }

  lemma ConvRowAt<F(!new), D>(m: Mixer<F, D>, x: seq<F>, b: nat, t: nat, conv0: Option<seq<F>>, ssm: seq<F>, tr: Trace<F>,
                        conv1: seq<F>, bi: nat, i: nat)
    requires m.Valid() && |x| == b * t * m.cfg.hidden && bi < b && i < t
    requires HoldsHeads(ssm, b * m.cfg.numV, m.cfg.headK, m.cfg.headV)
    requires Convolving(m, x, b, t, conv0, tr, conv1)
    ensures Ix(bi, t, i) * m.cfg.ConvDim() + m.cfg.ConvDim() <= |tr.back|
    ensures Row(tr.back, Ix(bi, t, i), m.cfg.ConvDim())
         == ConvRows(m, BatchAt(m, conv0, ssm, b, bi), BatchRows(x, b, t, m.cfg.hidden, bi))[i]
  {
    var C := m.cfg.ConvDim();
    IxFits(bi, b, t, i);
    RowFits(Ix(bi, t, i), b * t, C);
    var st, xs := BatchAt(m, conv0, ssm, b, bi), BatchRows(x, b, t, m.cfg.hidden, bi);
    var l, r := Row(tr.back, Ix(bi, t, i), C), ConvRows(m, st, xs)[i];
    forall c: nat | c < C ensures l[c] == r[c] {
      SwappedElement(tr.conv, tr.back, b, C, t, bi, c, i);
      ChannelRow(m, x, b, t, conv0, ssm, tr, conv1, bi, c);
    }
  }

  // ------------------------------------------------------------------ the operands

  /** An expanded head reads the key head `h / ratio` of its row. */
  lemma ExpandedRow<F>(raw: seq<F>, y: seq<F>, rows: nat, n: nat, ratio: nat, d: nat, r: nat, h: nat)
    requires |raw| == rows * (n * d) && Repeated(raw, y, rows * n, ratio, d)
    requires r < rows && ratio > 0 && h < n * ratio
    ensures h / ratio < n && h / ratio * d + d <= n * d && r * (n * d) + n * d <= |raw|
    ensures Ix(r, n * ratio, h) * d + d <= |y|
    ensures Row(y, Ix(r, n * ratio, h), d) == Row(Row(raw, r, n * d), h / ratio, d)
  {
    WalkStart(h, n, ratio);
    var j, rep := h / ratio, h % ratio;
    RowFits(j, n, d);
    RowFits(r, rows, n * d);
    Associate(rows, n, d);
    IxFits(r, rows, n, j);
    assert Copied(raw, y, ratio, d, Ix(r, n, j), rep);
    IxNested(r, n, j, ratio);
    assert Ix(Ix(r, n, j), ratio, rep) == Ix(r, n * ratio, h);
    NestedRow(raw, r, n, j, d);
  }

  lemma OperandShapes<F(!new), D>(m: Mixer<F, D>, x: seq<F>, b: nat, t: nat, tr: Trace<F>)
    requires m.Valid() && |x| == b * t * m.cfg.hidden && Splitting(m, x, b, t, tr) && Gating(m, x, b, t, tr)
    ensures Fits(ShapeOf(m, b, t), Operands(tr.q, tr.k, tr.v, tr.g, tr.beta))
  {
    Associate(b * t, m.cfg.numK, m.cfg.Ratio());
    Associate(b * t, m.cfg.numV, m.cfg.headV);
  }

  lemma KeyRows<F(!new), D>(m: Mixer<F, D>, x: seq<F>, b: nat, t: nat, tr: Trace<F>, bi: nat, i: nat, h: nat, u: seq<F>)
    requires m.Valid() && |x| == b * t * m.cfg.hidden && Splitting(m, x, b, t, tr)
    requires bi < b && i < t && h < m.cfg.numV && |u| == m.cfg.ConvDim()
    requires RowAt(tr.back, b, t, m.cfg.ConvDim(), bi, i) == u
    ensures var n, d, kd, j := Ix3(bi, t, i, m.cfg.numV, h), m.cfg.headK, m.cfg.KeyDim(), h / m.cfg.Ratio();
            && n * d + d <= |tr.q| && n * d + d <= |tr.k| && j * d + d <= kd
            && Row(tr.q, n, d) == Row(u[..kd], j, d) && Row(tr.k, n, d) == Row(u[kd..2 * kd], j, d)
  {
    HeadShare(m, h);
    var r, kd := Ix(bi, t, i), m.cfg.KeyDim();
    IxFits(bi, b, t, i);
    assert ColumnsCut(tr.back, m.cfg.ConvDim(), 0, kd, tr.qRaw, r);
    assert ColumnsCut(tr.back, m.cfg.ConvDim(), kd, kd, tr.kRaw, r);
    ExpandedRow(tr.qRaw, tr.q, b * t, m.cfg.numK, m.cfg.Ratio(), m.cfg.headK, r, h);
    ExpandedRow(tr.kRaw, tr.k, b * t, m.cfg.numK, m.cfg.Ratio(), m.cfg.headK, r, h);
  }

  lemma ValueRows<F(!new), D>(m: Mixer<F, D>, x: seq<F>, b: nat, t: nat, tr: Trace<F>, bi: nat, i: nat, h: nat, u: seq<F>)
    requires m.Valid() && |x| == b * t * m.cfg.hidden && Splitting(m, x, b, t, tr)
    requires bi < b && i < t && h < m.cfg.numV && |u| == m.cfg.ConvDim()
    requires RowAt(tr.back, b, t, m.cfg.ConvDim(), bi, i) == u
    ensures var n, d, kd := Ix3(bi, t, i, m.cfg.numV, h), m.cfg.headV, m.cfg.KeyDim();
            && n * d + d <= |tr.v| && h * d + d <= m.cfg.ValueDim()
            && Row(tr.v, n, d) == Row(u[2 * kd..], h, d)
  {
    HeadShare(m, h);
    var r, kd, vd := Ix(bi, t, i), m.cfg.KeyDim(), m.cfg.ValueDim();
    IxFits(bi, b, t, i);
    assert ColumnsCut(tr.back, m.cfg.ConvDim(), kd * 2, vd, tr.v, r);
    RowFits(r, b * t, vd);
    NestedRow(tr.v, r, m.cfg.numV, h, m.cfg.headV);
    assert u[kd * 2..kd * 2 + vd] == u[2 * kd..];
  }

  lemma GateElements<F(!new), D>(m: Mixer<F, D>, x: seq<F>, b: nat, t: nat, tr: Trace<F>, bi: nat, i: nat, h: nat)
    requires m.Valid() && |x| == b * t * m.cfg.hidden && Gating(m, x, b, t, tr)
    requires bi < b && i < t && h < m.cfg.numV
    ensures var n, xr := Ix3(bi, t, i, m.cfg.numV, h), RowAt(x, b, t, m.cfg.hidden, bi, i);
            && n < |tr.g| && n < |tr.beta|
            && tr.g[n] == DecayAt(m, xr, h) && tr.beta[n] == BetaAt(m, xr, h)
  {
    IxFits(bi, b, t, i);
    var r := Ix(bi, t, i);
    MappedRow(m.ops, m.w.b, x, b, t, m.cfg.hidden, m.cfg.numV, tr.b, bi, i);
    MappedRow(m.ops, m.w.a, x, b, t, m.cfg.hidden, m.cfg.numV, tr.a, bi, i);
    RowElement(tr.b, r, m.cfg.numV, h);
    RowElement(tr.a, r, m.cfg.numV, h);
    assert GateDone(m.ops, m.w.aLog, m.w.dtBias, tr.a, tr.b, tr.beta, tr.g, m.cfg.numV, r, h);
  }

  /** What the recurrence of head `h` is fed. */
  lemma InputMatches<F(!new), D>(m: Mixer<F, D>, x: seq<F>, b: nat, t: nat, conv0: Option<seq<F>>, ssm: seq<F>,
                           tr: Trace<F>, conv1: seq<F>, bi: nat, i: nat, h: nat)
    requires m.Valid() && |x| == b * t * m.cfg.hidden && bi < b && i < t && h < m.cfg.numV
    requires HoldsHeads(ssm, b * m.cfg.numV, m.cfg.headK, m.cfg.headV)
    requires Convolving(m, x, b, t, conv0, tr, conv1) && Splitting(m, x, b, t, tr) && Gating(m, x, b, t, tr)
    ensures Fits(ShapeOf(m, b, t), Operands(tr.q, tr.k, tr.v, tr.g, tr.beta))
    ensures var st, xs := BatchAt(m, conv0, ssm, b, bi), BatchRows(x, b, t, m.cfg.hidden, bi);
            InputAt(ShapeOf(m, b, t), Operands(tr.q, tr.k, tr.v, tr.g, tr.beta), bi, i, h)
              == RawInput(m, ConvRows(m, st, xs)[i], xs[i], h)
  {
    OperandShapes(m, x, b, t, tr);
    var st, xs := BatchAt(m, conv0, ssm, b, bi), BatchRows(x, b, t, m.cfg.hidden, bi);
    var u := ConvRows(m, st, xs)[i];
    ConvRowAt(m, x, b, t, conv0, ssm, tr, conv1, bi, i);
    KeyRows(m, x, b, t, tr, bi, i, h, u);
    ValueRows(m, x, b, t, tr, bi, i, h, u);
    GateElements(m, x, b, t, tr, bi, i, h);
  }

  lemma InputsMatch<F(!new), D>(m: Mixer<F, D>, x: seq<F>, b: nat, t: nat, conv0: Option<seq<F>>, ssm: seq<F>,
                          tr: Trace<F>, conv1: seq<F>, p: Operands<F>, bi: nat, h: nat)
    requires m.Valid() && |x| == b * t * m.cfg.hidden && bi < b && h < m.cfg.numV
    requires HoldsHeads(ssm, b * m.cfg.numV, m.cfg.headK, m.cfg.headV)
    requires Convolving(m, x, b, t, conv0, tr, conv1) && Splitting(m, x, b, t, tr) && Gating(m, x, b, t, tr)
    requires Fits(ShapeOf(m, b, t), p)
    requires Prepared(m.ops, ShapeOf(m, b, t), Operands(tr.q, tr.k, tr.v, tr.g, tr.beta), p)
    ensures Inputs(ShapeOf(m, b, t), p, bi, h)
         == HeadInputs(m, BatchAt(m, conv0, ssm, b, bi), BatchRows(x, b, t, m.cfg.hidden, bi), h)
  {
    OperandShapes(m, x, b, t, tr);
    var st, xs := BatchAt(m, conv0, ssm, b, bi), BatchRows(x, b, t, m.cfg.hidden, bi);
    var l, r := Inputs(ShapeOf(m, b, t), p, bi, h), HeadInputs(m, st, xs, h);
    forall i: nat | i < t ensures l[i] == r[i] {
      InputMatches(m, x, b, t, conv0, ssm, tr, conv1, bi, i, h);
      PreparedInput(m.ops, ShapeOf(m, b, t), Operands(tr.q, tr.k, tr.v, tr.g, tr.beta), p, bi, i, h);
    }
  }
}
