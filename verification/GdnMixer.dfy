/** What the gated-delta-net mixer computes for one batch (qwen35-forward/gdn/src/lib.rs):
    a chunk of input rows and a carried state give the output rows and the next state. */
module GdnMixer {
  import opened Options
  import opened FlatTensor
  import opened FloatOps
  import opened Rows
  import opened Norms
  import opened LinearLayer
  import opened Convolution
  import opened DeltaRule
  import opened DeltaPrepare

  datatype Config<F> = Config(hidden: nat, numK: nat, numV: nat, headK: nat, headV: nat, kernel: nat, eps: F)
  {
    function KeyDim(): nat { numK * headK }
    function ValueDim(): nat { numV * headV }
    function ConvDim(): nat { KeyDim() * 2 + ValueDim() }
    function Ratio(): nat
      requires numK > 0
    {
      numV / numK
    }
  }

  datatype Weights<F> = Weights(
    qkv: seq<F>, z: seq<F>, b: seq<F>, a: seq<F>, conv: seq<F>,
    aLog: seq<F>, dtBias: seq<F>, norm: seq<F>, out: seq<F>)

  datatype Mixer<!F, !D> = Mixer(ops: Ops<F, D>, cfg: Config<F>, w: Weights<F>)
  {
    /** The shapes the code asserts or indexes by. */
    predicate Valid() {
      && cfg.numK > 0 && cfg.numV == cfg.numK * cfg.Ratio()
      && |w.qkv| == cfg.ConvDim() * cfg.hidden && |w.z| == cfg.ValueDim() * cfg.hidden
      && |w.b| == cfg.numV * cfg.hidden && |w.a| == cfg.numV * cfg.hidden
      && |w.conv| == cfg.ConvDim() * cfg.kernel
      && |w.aLog| == cfg.numV && |w.dtBias| == cfg.numV && |w.norm| == cfg.headV
      && |w.out| == cfg.hidden * cfg.ValueDim()
    }
  }

  /** One batch's share of `GdnState`: the left context of every convolution channel and the
      recurrent state of every head. */
  datatype BatchState<F> = BatchState(conv: seq<seq<F>>, ssm: seq<Matrix<F>>)

  predicate StateShaped<F>(cfg: Config<F>, st: BatchState<F>) {
    && |st.conv| == cfg.ConvDim() && (forall c :: 0 <= c < |st.conv| ==> |st.conv[c]| == Keep(cfg.kernel))
    && |st.ssm| == cfg.numV && (forall h :: 0 <= h < |st.ssm| ==> IsMatrix(st.ssm[h], cfg.headK, cfg.headV))
  }

  // ------------------------------------------------------------------ convolution

  function MixedRow<F, D>(m: Mixer<F, D>, x: seq<F>): (r: seq<F>)
    requires m.Valid() && |x| == m.cfg.hidden
    ensures |r| == m.cfg.ConvDim()
  {
    LinearRow(m.ops, m.w.qkv, None, x, m.cfg.hidden, m.cfg.ConvDim())
  }

  /** What channel `c` receives over the chunk. */
  function Signal<F, D>(m: Mixer<F, D>, xs: seq<seq<F>>, c: nat): (r: seq<F>)
    requires m.Valid() && InputRows(xs, m.cfg.hidden) && c < m.cfg.ConvDim()
    ensures |r| == |xs|
  {
    seq(|xs|, i requires 0 <= i < |xs| => MixedRow(m, xs[i])[c])
  }

  function Taps1<F, D>(m: Mixer<F, D>, c: nat): (r: seq<F>)
    requires m.Valid() && c < m.cfg.ConvDim()
    ensures |r| == m.cfg.kernel
  {
    RowFits(c, m.cfg.ConvDim(), m.cfg.kernel);
    Row(m.w.conv, c, m.cfg.kernel)
  }

  function ChannelOut<F, D>(m: Mixer<F, D>, st: BatchState<F>, xs: seq<seq<F>>, c: nat): (r: seq<F>)
    requires m.Valid() && StateShaped(m.cfg, st) && InputRows(xs, m.cfg.hidden) && c < m.cfg.ConvDim()
    ensures |r| == |xs|
  {
    ConvRow(m.ops, Taps1(m, c), None, st.conv[c] + Signal(m, xs, c), |xs|)
  }

  function ChannelNext<F, D>(m: Mixer<F, D>, st: BatchState<F>, xs: seq<seq<F>>, c: nat): (r: seq<F>)
    requires m.Valid() && StateShaped(m.cfg, st) && InputRows(xs, m.cfg.hidden) && c < m.cfg.ConvDim()
    ensures |r| == Keep(m.cfg.kernel)
  {
    Context(st.conv[c] + Signal(m, xs, c), |xs|)
  }

  function ChannelOuts<F, D>(m: Mixer<F, D>, st: BatchState<F>, xs: seq<seq<F>>): (r: seq<seq<F>>)
    requires m.Valid() && StateShaped(m.cfg, st) && InputRows(xs, m.cfg.hidden)
    ensures |r| == m.cfg.ConvDim() && InputRows(r, |xs|)
  {
    seq(m.cfg.ConvDim(), c requires 0 <= c < m.cfg.ConvDim() => ChannelOut(m, st, xs, c))
  }

  /** Row `i` holds all channels at time `i` of the chunk. */
  function ConvRows<F, D>(m: Mixer<F, D>, st: BatchState<F>, xs: seq<seq<F>>): (r: seq<seq<F>>)
    requires m.Valid() && StateShaped(m.cfg, st) && InputRows(xs, m.cfg.hidden)
    ensures |r| == |xs| && InputRows(r, m.cfg.ConvDim())
  {
    Transposed(ChannelOuts(m, st, xs), |xs|)
  }

  // ------------------------------------------------------------------ heads

  function BetaAt<F, D>(m: Mixer<F, D>, x: seq<F>, h: nat): F
    requires m.Valid() && |x| == m.cfg.hidden && h < m.cfg.numV
  {
    m.ops.sigmoid(LinearRow(m.ops, m.w.b, None, x, m.cfg.hidden, m.cfg.numV)[h])
  }

  /** The log decay `-exp(A_log) * softplus(a + dt_bias)`. */
  function LogDecay<F, D>(ops: Ops<F, D>, aLog: F, dtBias: F, a: F): F {
    ops.mul(ops.neg(ops.exp(aLog)), ops.softplus(ops.add(a, dtBias)))
  }

  function DecayAt<F, D>(m: Mixer<F, D>, x: seq<F>, h: nat): F
    requires m.Valid() && |x| == m.cfg.hidden && h < m.cfg.numV
  {
    var a := LinearRow(m.ops, m.w.a, None, x, m.cfg.hidden, m.cfg.numV)[h];
    LogDecay(m.ops, m.w.aLog[h], m.w.dtBias[h], a)
  }

  lemma HeadShare<F, D>(m: Mixer<F, D>, h: nat)
    requires m.Valid() && h < m.cfg.numV
    ensures m.cfg.Ratio() > 0 && h / m.cfg.Ratio() < m.cfg.numK
    ensures h / m.cfg.Ratio() * m.cfg.headK + m.cfg.headK <= m.cfg.KeyDim()
    ensures h * m.cfg.headV + m.cfg.headV <= m.cfg.ValueDim()
  {
    assert m.cfg.Ratio() == 0 ==> m.cfg.numV == 0;
    WalkStart(h, m.cfg.numK, m.cfg.Ratio());
    RowFits(h / m.cfg.Ratio(), m.cfg.numK, m.cfg.headK);
    RowFits(h, m.cfg.numV, m.cfg.headV);
  }

  /** Head `h`'s raw operands: its query and key come from key head `h / ratio`. `u` is the
      convolved row, `x` the input row. */
  function RawInput<F, D>(m: Mixer<F, D>, u: seq<F>, x: seq<F>, h: nat): (r: HeadInput<F>)
    requires m.Valid() && |u| == m.cfg.ConvDim() && |x| == m.cfg.hidden && h < m.cfg.numV
    ensures InputShaped(r, m.cfg.headK, m.cfg.headV)
  {
    HeadShare(m, h);
    var kd := m.cfg.KeyDim();
    HeadInput(Row(u[..kd], h / m.cfg.Ratio(), m.cfg.headK),
              Row(u[kd..2 * kd], h / m.cfg.Ratio(), m.cfg.headK),
              Row(u[2 * kd..], h, m.cfg.headV),
              DecayAt(m, x, h), BetaAt(m, x, h))
  }

  function InputOf<F, D>(m: Mixer<F, D>, u: seq<F>, x: seq<F>, h: nat): (r: HeadInput<F>)
    requires m.Valid() && |u| == m.cfg.ConvDim() && |x| == m.cfg.hidden && h < m.cfg.numV
    ensures InputShaped(r, m.cfg.headK, m.cfg.headV)
  {
    PrepareInput(m.ops, RawInput(m, u, x, h))
  }

  function InputFrom<F(!new), D>(m: Mixer<F, D>, h: nat): (f: (seq<F>, seq<F>) --> HeadInput<F>)
    requires m.Valid() && h < m.cfg.numV
    ensures forall u, x :: |u| == m.cfg.ConvDim() && |x| == m.cfg.hidden ==>
              f.requires(u, x) && f(u, x) == InputOf(m, u, x, h)
  {
    (u: seq<F>, x: seq<F>) requires |u| == m.cfg.ConvDim() && |x| == m.cfg.hidden => InputOf(m, u, x, h)
  }

  /** What the recurrence of head `h` is fed over the chunk. */
  function HeadInputs<F(!new), D>(m: Mixer<F, D>, st: BatchState<F>, xs: seq<seq<F>>, h: nat): (r: seq<HeadInput<F>>)
    requires m.Valid() && StateShaped(m.cfg, st) && InputRows(xs, m.cfg.hidden) && h < m.cfg.numV
    ensures |r| == |xs| && AllShaped(r, m.cfg.headK, m.cfg.headV)
  {
    Map2(InputFrom(m, h), ConvRows(m, st, xs), xs)
  }

  function HeadOut<F(!new), D>(m: Mixer<F, D>, st: BatchState<F>, xs: seq<seq<F>>, h: nat, i: nat): (r: seq<F>)
    requires m.Valid() && StateShaped(m.cfg, st) && InputRows(xs, m.cfg.hidden) && h < m.cfg.numV && i < |xs|
    ensures |r| == m.cfg.headV
  {
    OutAt(m.ops, st.ssm[h], HeadInputs(m, st, xs, h), m.cfg.headK, m.cfg.headV, i)
  }

  // ------------------------------------------------------------------ output

  /** `rmsnorm_gated` on one row: weight times normed value times SiLU of the gate. */
  function GatedNorm<F, D>(ops: Ops<F, D>, w: seq<F>, x: seq<F>, z: seq<F>, eps: F): (r: seq<F>)
    requires |w| == |x| == |z|
    ensures |r| == |x|
  {
    seq(|x|, i requires 0 <= i < |x| =>
      ops.mul(ops.mul(w[i], ops.mul(x[i], InverseRms(ops, x, eps))),
              ops.div(z[i], ops.add(ops.one, ops.exp(ops.neg(z[i]))))))
  }

  function ZRow<F, D>(m: Mixer<F, D>, x: seq<F>): (r: seq<F>)
    requires m.Valid() && |x| == m.cfg.hidden
    ensures |r| == m.cfg.ValueDim()
  {
    LinearRow(m.ops, m.w.z, None, x, m.cfg.hidden, m.cfg.ValueDim())
  }

  function NormedHead<F, D>(m: Mixer<F, D>, o: seq<F>, x: seq<F>, h: nat): (r: seq<F>)
    requires m.Valid() && |x| == m.cfg.hidden && h < m.cfg.numV && |o| == m.cfg.headV
    ensures |r| == m.cfg.headV
  {
    HeadShare(m, h);
    GatedNorm(m.ops, m.w.norm, o, Row(ZRow(m, x), h, m.cfg.headV), m.cfg.eps)
  }

  predicate HeadsShaped<F>(cfg: Config<F>, os: seq<seq<F>>) {
    |os| == cfg.numV && InputRows(os, cfg.headV)
  }

  function HeadOuts<F(!new), D>(m: Mixer<F, D>, st: BatchState<F>, xs: seq<seq<F>>): (r: seq<seq<seq<F>>>)
    requires m.Valid() && StateShaped(m.cfg, st) && InputRows(xs, m.cfg.hidden)
    ensures |r| == m.cfg.numV && InputRows(r, |xs|)
    ensures forall h :: 0 <= h < |r| ==> IsMatrix(r[h], |xs|, m.cfg.headV)
  {
    seq(m.cfg.numV, h requires 0 <= h < m.cfg.numV =>
      Outs(m.ops, st.ssm[h], HeadInputs(m, st, xs, h), m.cfg.headK, m.cfg.headV))
  }

  /** Row `i` holds all heads' outputs at time `i` of the chunk. */
  function HeadOutRows<F(!new), D>(m: Mixer<F, D>, st: BatchState<F>, xs: seq<seq<F>>): (r: seq<seq<seq<F>>>)
    requires m.Valid() && StateShaped(m.cfg, st) && InputRows(xs, m.cfg.hidden)
    ensures |r| == |xs| && forall i :: 0 <= i < |r| ==> HeadsShaped(m.cfg, r[i])
  {
    Transposed(HeadOuts(m, st, xs), |xs|)
  }

  function NormedHeads<F, D>(m: Mixer<F, D>, os: seq<seq<F>>, x: seq<F>): (r: seq<seq<F>>)
    requires m.Valid() && HeadsShaped(m.cfg, os) && |x| == m.cfg.hidden
    ensures HeadsShaped(m.cfg, r)
  {
    seq(m.cfg.numV, h requires 0 <= h < m.cfg.numV => NormedHead(m, os[h], x, h))
  }

  /** The gated norm and the output projection of one row. */
  function FinishRow<F, D>(m: Mixer<F, D>, os: seq<seq<F>>, x: seq<F>): (r: seq<F>)
    requires m.Valid() && HeadsShaped(m.cfg, os) && |x| == m.cfg.hidden
    ensures |r| == m.cfg.hidden
  {
    LinearRow(m.ops, m.w.out, None, Joined(NormedHeads(m, os, x), m.cfg.headV), m.cfg.ValueDim(), m.cfg.hidden)
  }

  function FinishWith<F(!new), D>(m: Mixer<F, D>): (f: (seq<seq<F>>, seq<F>) --> seq<F>)
    requires m.Valid()
    ensures forall os, x :: HeadsShaped(m.cfg, os) && |x| == m.cfg.hidden ==>
              f.requires(os, x) && f(os, x) == FinishRow(m, os, x)
  {
    (os: seq<seq<F>>, x: seq<F>) requires HeadsShaped(m.cfg, os) && |x| == m.cfg.hidden => FinishRow(m, os, x)
  }

  /** The mixer's output for a chunk. */
  function Mix<F(!new), D>(m: Mixer<F, D>, st: BatchState<F>, xs: seq<seq<F>>): (r: seq<seq<F>>)
    requires m.Valid() && StateShaped(m.cfg, st) && InputRows(xs, m.cfg.hidden)
    ensures |r| == |xs|
  {
    Map2(FinishWith(m), HeadOutRows(m, st, xs), xs)
  }

  /** The state it leaves. */
  function Advance<F(!new), D>(m: Mixer<F, D>, st: BatchState<F>, xs: seq<seq<F>>): (r: BatchState<F>)
    requires m.Valid() && StateShaped(m.cfg, st) && InputRows(xs, m.cfg.hidden)
    ensures StateShaped(m.cfg, r)
  {
    BatchState(
      seq(m.cfg.ConvDim(), c requires 0 <= c < m.cfg.ConvDim() => ChannelNext(m, st, xs, c)),
      seq(m.cfg.numV, h requires 0 <= h < m.cfg.numV =>
        StateAfter(m.ops, st.ssm[h], HeadInputs(m, st, xs, h), m.cfg.headK, m.cfg.headV)))
  }

  /** `GdnState::new`. */
  function FreshState<F, D>(m: Mixer<F, D>): (r: BatchState<F>)
    ensures StateShaped(m.cfg, r)
  {
    BatchState(
      seq(m.cfg.ConvDim(), _ => seq(Keep(m.cfg.kernel), _ => m.ops.zero)),
      seq(m.cfg.numV, _ => seq(m.cfg.headK, _ => seq(m.cfg.headV, _ => m.ops.zero))))
  }

  // ------------------------------------------------------------------ splitting the time axis

  lemma ChannelSplits<F(!new), D>(m: Mixer<F, D>, st: BatchState<F>, xs: seq<seq<F>>, ys: seq<seq<F>>, c: nat)
    requires m.Valid() && StateShaped(m.cfg, st) && c < m.cfg.ConvDim()
    requires InputRows(xs, m.cfg.hidden) && InputRows(ys, m.cfg.hidden)
    ensures InputRows(xs + ys, m.cfg.hidden)
    ensures ChannelOut(m, st, xs + ys, c) == ChannelOut(m, st, xs, c) + ChannelOut(m, Advance(m, st, xs), ys, c)
    ensures ChannelNext(m, st, xs + ys, c) == ChannelNext(m, Advance(m, st, xs), ys, c)
  {
    assert Signal(m, xs + ys, c) == Signal(m, xs, c) + Signal(m, ys, c);
    ConvRowSplits(m.ops, Taps1(m, c), None, st.conv[c], Signal(m, xs, c), Signal(m, ys, c));
    assert Advance(m, st, xs).conv[c] == ChannelNext(m, st, xs, c);
  }

  lemma ConvRowsSplit<F(!new), D>(m: Mixer<F, D>, st: BatchState<F>, xs: seq<seq<F>>, ys: seq<seq<F>>)
    requires m.Valid() && StateShaped(m.cfg, st)
    requires InputRows(xs, m.cfg.hidden) && InputRows(ys, m.cfg.hidden) && InputRows(xs + ys, m.cfg.hidden)
    ensures ConvRows(m, st, xs + ys) == ConvRows(m, st, xs) + ConvRows(m, Advance(m, st, xs), ys)
  {
    var l, a, c := ChannelOuts(m, st, xs + ys), ChannelOuts(m, st, xs), ChannelOuts(m, Advance(m, st, xs), ys);
    forall k: nat | k < |l| ensures l[k] == a[k] + c[k] {
      ChannelSplits(m, st, xs, ys, k);
    }
    TransposedSplits(l, a, c, |xs|, |ys|);
  }

  lemma InputsSplit<F(!new), D>(m: Mixer<F, D>, st: BatchState<F>, xs: seq<seq<F>>, ys: seq<seq<F>>, h: nat)
    requires m.Valid() && StateShaped(m.cfg, st) && h < m.cfg.numV
    requires InputRows(xs, m.cfg.hidden) && InputRows(ys, m.cfg.hidden) && InputRows(xs + ys, m.cfg.hidden)
    ensures HeadInputs(m, st, xs + ys, h) == HeadInputs(m, st, xs, h) + HeadInputs(m, Advance(m, st, xs), ys, h)
  {
    ConvRowsSplit(m, st, xs, ys);
    Map2Splits(InputFrom(m, h), ConvRows(m, st, xs), ConvRows(m, Advance(m, st, xs), ys), xs, ys);
  }

  lemma HeadSplits<F(!new), D>(m: Mixer<F, D>, st: BatchState<F>, xs: seq<seq<F>>, ys: seq<seq<F>>, h: nat)
    requires m.Valid() && StateShaped(m.cfg, st) && h < m.cfg.numV
    requires InputRows(xs, m.cfg.hidden) && InputRows(ys, m.cfg.hidden) && InputRows(xs + ys, m.cfg.hidden)
    ensures HeadOuts(m, st, xs + ys)[h] == HeadOuts(m, st, xs)[h] + HeadOuts(m, Advance(m, st, xs), ys)[h]
  {
    InputsSplit(m, st, xs, ys, h);
    var us, vs := HeadInputs(m, st, xs, h), HeadInputs(m, Advance(m, st, xs), ys, h);
    OutsSplit(m.ops, st.ssm[h], us, vs, m.cfg.headK, m.cfg.headV);
    assert Advance(m, st, xs).ssm[h] == StateAfter(m.ops, st.ssm[h], us, m.cfg.headK, m.cfg.headV);
  }

  lemma HeadOutRowsSplit<F(!new), D>(m: Mixer<F, D>, st: BatchState<F>, xs: seq<seq<F>>, ys: seq<seq<F>>)
    requires m.Valid() && StateShaped(m.cfg, st)
    requires InputRows(xs, m.cfg.hidden) && InputRows(ys, m.cfg.hidden) && InputRows(xs + ys, m.cfg.hidden)
    ensures HeadOutRows(m, st, xs + ys) == HeadOutRows(m, st, xs) + HeadOutRows(m, Advance(m, st, xs), ys)
  {
    var l, a, c := HeadOuts(m, st, xs + ys), HeadOuts(m, st, xs), HeadOuts(m, Advance(m, st, xs), ys);
    forall h: nat | h < |l| ensures l[h] == a[h] + c[h] {
      HeadSplits(m, st, xs, ys, h);
    }
    TransposedSplits(l, a, c, |xs|, |ys|);
  }

  /** Two chunks with the state carried between them give the outputs and the state of one
      chunk of both. */
  lemma ChunkSplits<F(!new), D>(m: Mixer<F, D>, st: BatchState<F>, xs: seq<seq<F>>, ys: seq<seq<F>>)
    requires m.Valid() && StateShaped(m.cfg, st)
    requires InputRows(xs, m.cfg.hidden) && InputRows(ys, m.cfg.hidden)
    ensures InputRows(xs + ys, m.cfg.hidden)
    ensures Mix(m, st, xs + ys) == Mix(m, st, xs) + Mix(m, Advance(m, st, xs), ys)
    ensures Advance(m, st, xs + ys) == Advance(m, Advance(m, st, xs), ys)
  {
    RowsAppend(xs, ys, m.cfg.hidden);
    HeadOutRowsSplit(m, st, xs, ys);
    Map2Splits(FinishWith(m), HeadOutRows(m, st, xs), HeadOutRows(m, Advance(m, st, xs), ys), xs, ys);
    NextStateSplits(m, st, xs, ys);
  }

  lemma NextStateSplits<F(!new), D>(m: Mixer<F, D>, st: BatchState<F>, xs: seq<seq<F>>, ys: seq<seq<F>>)
    requires m.Valid() && StateShaped(m.cfg, st)
    requires InputRows(xs, m.cfg.hidden) && InputRows(ys, m.cfg.hidden) && InputRows(xs + ys, m.cfg.hidden)
    ensures Advance(m, st, xs + ys) == Advance(m, Advance(m, st, xs), ys)
  {
    var l, r := Advance(m, st, xs + ys), Advance(m, Advance(m, st, xs), ys);
    forall c: nat | c < m.cfg.ConvDim() ensures l.conv[c] == r.conv[c] {
      ChannelSplits(m, st, xs, ys, c);
    }
    forall h: nat | h < m.cfg.numV ensures l.ssm[h] == r.ssm[h] {
      InputsSplit(m, st, xs, ys, h);
      StateSplits(m.ops, st.ssm[h], HeadInputs(m, st, xs, h), HeadInputs(m, Advance(m, st, xs), ys, h),
                  m.cfg.headK, m.cfg.headV);
    }
  }

  /** The state and the outputs after the chunks have been fed one call at a time. */
  function Fed<F(!new), D>(m: Mixer<F, D>, st: BatchState<F>, chunks: seq<seq<seq<F>>>): (r: (BatchState<F>, seq<seq<F>>))
    requires m.Valid() && StateShaped(m.cfg, st) && AllRows(chunks, m.cfg.hidden)
    ensures StateShaped(m.cfg, r.0)
  {
    if chunks == [] then (st, [])
    else
      var n := |chunks| - 1;
      var before := Fed(m, st, chunks[..n]);
      (Advance(m, before.0, chunks[n]), before.1 + Mix(m, before.0, chunks[n]))
  }

  /** Feeding a sequence in any chunks is feeding it whole, to the last bit. */
  lemma {:induction false} AnySplit<F(!new), D>(m: Mixer<F, D>, st: BatchState<F>, chunks: seq<seq<seq<F>>>)
    requires m.Valid() && StateShaped(m.cfg, st) && AllRows(chunks, m.cfg.hidden)
    ensures InputRows(Whole(chunks), m.cfg.hidden)
    ensures Fed(m, st, chunks).0 == Advance(m, st, Whole(chunks))
    ensures Fed(m, st, chunks).1 == Mix(m, st, Whole(chunks))
  {
    WholeRows(chunks, m.cfg.hidden);
    if chunks == [] {
      NoRows(m, st);
    } else {
      var n := |chunks| - 1;
      AnySplit(m, st, chunks[..n]);
      ChunkSplits(m, st, Whole(chunks[..n]), chunks[n]);
    }
  }

  lemma NoRows<F(!new), D>(m: Mixer<F, D>, st: BatchState<F>)
    requires m.Valid() && StateShaped(m.cfg, st)
    ensures Advance(m, st, []) == st && Mix(m, st, []) == []
  {
    var r := Advance(m, st, []);
    forall c: nat | c < m.cfg.ConvDim() ensures r.conv[c] == st.conv[c] {
      assert st.conv[c] + Signal(m, [], c) == st.conv[c];
    }
    forall h: nat | h < m.cfg.numV ensures r.ssm[h] == st.ssm[h] {
      assert HeadInputs(m, st, [], h) == [];
    }
  }
}
