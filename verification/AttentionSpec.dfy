/** What the full-attention mixer computes (qwen35-forward/gdn/src/attention.rs), stated on
    the whole sequence of one batch: row `p` is a function of the input rows up to `p`. */
module AttentionSpec {
  import opened Options
  import opened FlatTensor
  import opened FloatOps
  import opened Rows
  import opened Norms
  import opened LinearLayer

  datatype Config<F> = Config(hidden: nat, heads: nat, kvHeads: nat, d: nat, rotary: nat, theta: F, eps: F)
  {
    /** `num_attention_heads // num_key_value_heads`. */
    function Groups(): nat
      requires kvHeads > 0
    {
      heads / kvHeads
    }
    function Half(): nat { rotary / 2 }
  }

  datatype Weights<F> = Weights(q: seq<F>, k: seq<F>, v: seq<F>, o: seq<F>, qNorm: seq<F>, kNorm: seq<F>)

  datatype Layer<!F, !D> = Layer(ops: Ops<F, D>, cfg: Config<F>, w: Weights<F>)
  {
    /** The shapes the code asserts or indexes by; whole groups, or a query head would read
        past the last key head. */
    predicate Valid() {
      && cfg.kvHeads > 0 && cfg.heads == cfg.kvHeads * cfg.Groups() && cfg.rotary <= cfg.d
      && |w.q| == cfg.heads * (2 * cfg.d) * cfg.hidden
      && |w.k| == cfg.kvHeads * cfg.d * cfg.hidden && |w.v| == cfg.kvHeads * cfg.d * cfg.hidden
      && |w.o| == cfg.hidden * (cfg.heads * cfg.d)
      && |w.qNorm| == cfg.d && |w.kNorm| == cfg.d
    }
    function Scaling(): F { ops.powf(ops.ofNat(cfg.d), ops.minusHalf) }
  }

  // ------------------------------------------------------------------ rotary embedding

  /** `p / theta^(2i / rotary)`. */
  function Angle<F, D>(m: Layer<F, D>, p: nat, i: nat): F {
    var e := m.ops.div(m.ops.ofNat(2 * i), m.ops.ofNat(m.cfg.rotary));
    m.ops.mul(m.ops.ofNat(p), m.ops.div(m.ops.one, m.ops.powf(m.cfg.theta, e)))
  }

  /** Slot `i` and slot `i + half` carry the same angle; the slot an odd `rotary` leaves over
      is never written. */
  function CosRow<F, D>(m: Layer<F, D>, p: nat): (r: seq<F>)
    ensures |r| == m.cfg.rotary
  {
    seq(m.cfg.rotary, j requires 0 <= j < m.cfg.rotary =>
      if j < m.cfg.Half() then m.ops.cos(Angle(m, p, j))
      else if j < 2 * m.cfg.Half() then m.ops.cos(Angle(m, p, j - m.cfg.Half()))
      else m.ops.zero)
  }

  function SinRow<F, D>(m: Layer<F, D>, p: nat): (r: seq<F>)
    ensures |r| == m.cfg.rotary
  {
    seq(m.cfg.rotary, j requires 0 <= j < m.cfg.rotary =>
      if j < m.cfg.Half() then m.ops.sin(Angle(m, p, j))
      else if j < 2 * m.cfg.Half() then m.ops.sin(Angle(m, p, j - m.cfg.Half()))
      else m.ops.zero)
  }

  /** `rotate_half`: the second half negated, then the first. */
  function RotateHalf<F, D>(ops: Ops<F, D>, x: seq<F>): (r: seq<F>)
    ensures |r| == |x|
  {
    var half := |x| / 2;
    seq(|x|, i requires 0 <= i < |x| =>
      if i < half then ops.neg(x[i + half]) else if i < 2 * half then x[i - half] else ops.zero)
  }

  /** The first `|cos|` entries rotated, the rest passed through. */
  function Rotated<F, D>(ops: Ops<F, D>, x: seq<F>, cos: seq<F>, sin: seq<F>): (r: seq<F>)
    requires |cos| == |sin| <= |x|
    ensures |r| == |x|
  {
    var rot := x[..|cos|];
    var rh := RotateHalf(ops, rot);
    seq(|x|, i requires 0 <= i < |x| =>
      if i < |cos| then ops.add(ops.mul(rot[i], cos[i]), ops.mul(rh[i], sin[i])) else x[i])
  }

  // ------------------------------------------------------------------ one query

  /** `rmsnorm_1plus` on one row. */
  function NormOnePlus<F, D>(ops: Ops<F, D>, w: seq<F>, x: seq<F>, eps: F): (r: seq<F>)
    requires |w| == |x|
    ensures |r| == |x|
  {
    seq(|x|, i requires 0 <= i < |x| =>
      ops.mul(ops.mul(x[i], InverseRms(ops, x, eps)), ops.add(ops.one, w[i])))
  }

  function Dot<F, D>(ops: Ops<F, D>, x: seq<F>, y: seq<F>, n: nat): F
    requires n <= |x| && n <= |y|
  {
    if n == 0 then ops.zero else ops.add(Dot(ops, x, y, n - 1), ops.mul(x[n - 1], y[n - 1]))
  }

  /** The maximum, by the comparison the code makes. */
  function Largest<F, D>(ops: Ops<F, D>, s: seq<F>, n: nat): F
    requires n <= |s|
  {
    if n == 0 then ops.negInfinity
    else
      var m := Largest(ops, s, n - 1);
      if ops.greater(s[n - 1], m) then s[n - 1] else m
  }

  function Exponential<F, D>(ops: Ops<F, D>, s: seq<F>, i: nat): F
    requires i < |s|
  {
    ops.exp(ops.sub(s[i], Largest(ops, s, |s|)))
  }

  function ExpSum<F, D>(ops: Ops<F, D>, s: seq<F>, n: nat): F
    requires n <= |s|
  {
    if n == 0 then ops.zero else ops.add(ExpSum(ops, s, n - 1), Exponential(ops, s, n - 1))
  }

  function Softmax<F, D>(ops: Ops<F, D>, s: seq<F>): (r: seq<F>)
    ensures |r| == |s|
  {
    seq(|s|, i requires 0 <= i < |s| =>
      ops.mul(Exponential(ops, s, i), ops.div(ops.one, ExpSum(ops, s, |s|))))
  }

  function Scores<F, D>(ops: Ops<F, D>, q: seq<F>, keys: seq<seq<F>>, scaling: F): (r: seq<F>)
    requires InputRows(keys, |q|)
    ensures |r| == |keys|
  {
    seq(|keys|, j requires 0 <= j < |keys| => ops.mul(Dot(ops, q, keys[j], |q|), scaling))
  }

  function WeightedSum<F, D>(ops: Ops<F, D>, w: seq<F>, values: seq<seq<F>>, i: nat, n: nat): F
    requires n <= |w| && n <= |values| && forall j :: 0 <= j < |values| ==> i < |values[j]|
  {
    if n == 0 then ops.zero
    else ops.add(WeightedSum(ops, w, values, i, n - 1), ops.mul(w[n - 1], values[n - 1][i]))
  }

  /** One query over the keys and values it may see. */
  function Attended<F, D>(ops: Ops<F, D>, q: seq<F>, keys: seq<seq<F>>, values: seq<seq<F>>, scaling: F): (r: seq<F>)
    requires InputRows(keys, |q|) && InputRows(values, |q|) && |keys| == |values|
    ensures |r| == |q|
  {
    var w := Softmax(ops, Scores(ops, q, keys, scaling));
    seq(|q|, i requires 0 <= i < |q| => WeightedSum(ops, w, values, i, |values|))
  }

  // ------------------------------------------------------------------ one position

  function QueryGate<F, D>(m: Layer<F, D>, x: seq<F>, h: nat): (r: seq<F>)
    requires m.Valid() && |x| == m.cfg.hidden && h < m.cfg.heads
    ensures |r| == 2 * m.cfg.d
  {
    RowFits(h, m.cfg.heads, 2 * m.cfg.d);
    Row(LinearRow(m.ops, m.w.q, None, x, m.cfg.hidden, m.cfg.heads * (2 * m.cfg.d)), h, 2 * m.cfg.d)
  }

  /** The head's query at absolute position `p`. */
  function QueryAt<F, D>(m: Layer<F, D>, x: seq<F>, p: nat, h: nat): (r: seq<F>)
    requires m.Valid() && |x| == m.cfg.hidden && h < m.cfg.heads
    ensures |r| == m.cfg.d
  {
    Rotated(m.ops, NormOnePlus(m.ops, m.w.qNorm, QueryGate(m, x, h)[..m.cfg.d], m.cfg.eps), CosRow(m, p), SinRow(m, p))
  }

  function KeyAt<F, D>(m: Layer<F, D>, x: seq<F>, p: nat, kv: nat): (r: seq<F>)
    requires m.Valid() && |x| == m.cfg.hidden && kv < m.cfg.kvHeads
    ensures |r| == m.cfg.d
  {
    RowFits(kv, m.cfg.kvHeads, m.cfg.d);
    var full := LinearRow(m.ops, m.w.k, None, x, m.cfg.hidden, m.cfg.kvHeads * m.cfg.d);
    Rotated(m.ops, NormOnePlus(m.ops, m.w.kNorm, Row(full, kv, m.cfg.d), m.cfg.eps), CosRow(m, p), SinRow(m, p))
  }

  function ValueAt<F, D>(m: Layer<F, D>, x: seq<F>, kv: nat): (r: seq<F>)
    requires m.Valid() && |x| == m.cfg.hidden && kv < m.cfg.kvHeads
    ensures |r| == m.cfg.d
  {
    RowFits(kv, m.cfg.kvHeads, m.cfg.d);
    Row(LinearRow(m.ops, m.w.v, None, x, m.cfg.hidden, m.cfg.kvHeads * m.cfg.d), kv, m.cfg.d)
  }

  function Keys<F, D>(m: Layer<F, D>, xs: seq<seq<F>>, kv: nat, n: nat): (r: seq<seq<F>>)
    requires m.Valid() && InputRows(xs, m.cfg.hidden) && kv < m.cfg.kvHeads && n <= |xs|
    ensures |r| == n && InputRows(r, m.cfg.d)
  {
    seq(n, j requires 0 <= j < n => KeyAt(m, xs[j], j, kv))
  }

  function Values<F, D>(m: Layer<F, D>, xs: seq<seq<F>>, kv: nat, n: nat): (r: seq<seq<F>>)
    requires m.Valid() && InputRows(xs, m.cfg.hidden) && kv < m.cfg.kvHeads && n <= |xs|
    ensures |r| == n && InputRows(r, m.cfg.d)
  {
    seq(n, j requires 0 <= j < n => ValueAt(m, xs[j], kv))
  }

  /** Query head `h` reads key head `h / groups`. */
  lemma KeyHead<F, D>(m: Layer<F, D>, h: nat)
    requires m.Valid() && h < m.cfg.heads
    ensures m.cfg.Groups() > 0 && h / m.cfg.Groups() < m.cfg.kvHeads
  {
    assert m.cfg.Groups() == 0 ==> m.cfg.heads == 0;
    WalkStart(h, m.cfg.kvHeads, m.cfg.Groups());
  }

  function KvOf<F, D>(m: Layer<F, D>, h: nat): (kv: nat)
    requires m.Valid() && h < m.cfg.heads
    ensures m.cfg.Groups() > 0 && kv == h / m.cfg.Groups() < m.cfg.kvHeads
  {
    KeyHead(m, h);
    h / m.cfg.Groups()
  }

  function HeadAt<F, D>(m: Layer<F, D>, xs: seq<seq<F>>, p: nat, h: nat): (r: seq<F>)
    requires m.Valid() && InputRows(xs, m.cfg.hidden) && h < m.cfg.heads && p < |xs|
    ensures |r| == m.cfg.d
  {
    var kv := KvOf(m, h);
    Attended(m.ops, QueryAt(m, xs[p], p, h), Keys(m, xs, kv, p + 1), Values(m, xs, kv, p + 1), m.Scaling())
  }

  /** The output gate: `x * sigmoid(gate)`. */
  function Gated<F, D>(ops: Ops<F, D>, x: seq<F>, gate: seq<F>): (r: seq<F>)
    requires |x| == |gate|
    ensures |r| == |x|
  {
    seq(|x|, i requires 0 <= i < |x| =>
      ops.mul(x[i], ops.div(ops.one, ops.add(ops.one, ops.exp(ops.neg(gate[i]))))))
  }

  function GatedHeads<F, D>(m: Layer<F, D>, xs: seq<seq<F>>, p: nat): (r: seq<seq<F>>)
    requires m.Valid() && InputRows(xs, m.cfg.hidden) && p < |xs|
    ensures |r| == m.cfg.heads && InputRows(r, m.cfg.d)
  {
    seq(m.cfg.heads, h requires 0 <= h < m.cfg.heads =>
      Gated(m.ops, HeadAt(m, xs, p, h), QueryGate(m, xs[p], h)[m.cfg.d..]))
  }

  function OutRow<F, D>(m: Layer<F, D>, xs: seq<seq<F>>, p: nat): (r: seq<F>)
    requires m.Valid() && InputRows(xs, m.cfg.hidden) && p < |xs|
    ensures |r| == m.cfg.hidden
  {
    LinearRow(m.ops, m.w.o, None, Joined(GatedHeads(m, xs, p), m.cfg.d), m.cfg.heads * m.cfg.d, m.cfg.hidden)
  }

  function RowFrom<F(!new), D>(m: Layer<F, D>, xs: seq<seq<F>>): (f: nat --> seq<F>)
    requires m.Valid() && InputRows(xs, m.cfg.hidden)
    ensures forall p: nat :: p < |xs| ==> f.requires(p) && f(p) == OutRow(m, xs, p)
  {
    (p: nat) requires p < |xs| => OutRow(m, xs, p)
  }

  /** Uncached attention over a whole sequence. */
  function Attention<F(!new), D>(m: Layer<F, D>, xs: seq<seq<F>>): (r: seq<seq<F>>)
    requires m.Valid() && InputRows(xs, m.cfg.hidden)
    ensures |r| == |xs|
  {
    Tabulated(|xs|, RowFrom(m, xs))
  }

  /** The rows of a chunk that follows `past`. */
  function Continued<F(!new), D>(m: Layer<F, D>, past: seq<seq<F>>, xs: seq<seq<F>>): (r: seq<seq<F>>)
    requires m.Valid() && InputRows(past, m.cfg.hidden) && InputRows(xs, m.cfg.hidden)
    ensures |r| == |xs|
  {
    RowsAppend(past, xs, m.cfg.hidden);
    Attention(m, past + xs)[|past|..]
  }

  // ------------------------------------------------------------------ causality

  /** What comes after position `p` does not change its row. */
  lemma Causal<F, D>(m: Layer<F, D>, xs: seq<seq<F>>, ys: seq<seq<F>>, p: nat)
    requires m.Valid() && InputRows(xs, m.cfg.hidden) && InputRows(ys, m.cfg.hidden) && p < |xs|
    ensures InputRows(xs + ys, m.cfg.hidden) && OutRow(m, xs + ys, p) == OutRow(m, xs, p)
  {
    var l, r := GatedHeads(m, xs + ys, p), GatedHeads(m, xs, p);
    forall h: nat | h < m.cfg.heads ensures l[h] == r[h] {
      var kv := KvOf(m, h);
      assert Keys(m, xs + ys, kv, p + 1) == Keys(m, xs, kv, p + 1);
      assert Values(m, xs + ys, kv, p + 1) == Values(m, xs, kv, p + 1);
    }
    assert l == r;
  }

  /** A cached chunk extends the whole-sequence result. */
  lemma ContinuesWhole<F(!new), D>(m: Layer<F, D>, past: seq<seq<F>>, xs: seq<seq<F>>)
    requires m.Valid() && InputRows(past, m.cfg.hidden) && InputRows(xs, m.cfg.hidden)
    ensures InputRows(past + xs, m.cfg.hidden)
    ensures Attention(m, past + xs) == Attention(m, past) + Continued(m, past, xs)
  {
    RowsAppend(past, xs, m.cfg.hidden);
    var f, g := RowFrom(m, past + xs), RowFrom(m, past);
    forall p: nat | p < |past| ensures f(p) == g(p) {
      Causal(m, past, xs, p);
    }
    TabulatedPrefix(|past|, |past + xs|, f, g);
  }
}
