/** Why the flat stages of attention compute what `AttentionSpec` states. */
module AttentionRefinement {
  import opened Options
  import opened FlatTensor
  import opened FloatOps
  import opened Axes
  import opened Rows
  import opened LinearLayer
  import opened AttentionSpec
  import opened AttentionRows
  import opened AttentionCache
  import opened AttentionAttend

  /** Steps 1 to 4 of `forward_impl`. */
  datatype Trace<F> = Trace(
    qFull: seq<F>, kFull: seq<F>, vFull: seq<F>, q: seq<F>, gate: seq<F>,
    qNormed: seq<F>, kNormed: seq<F>, qRot: seq<F>, kRot: seq<F>)

  ghost predicate Projected<F, D>(m: Layer<F, D>, x: seq<F>, b: nat, t: nat, tr: Trace<F>)
    requires m.Valid() && |x| == b * t * m.cfg.hidden
  {
    var n, h, kvh, d := m.cfg.hidden, m.cfg.heads, m.cfg.kvHeads, m.cfg.d;
    && RowsMapped(m.ops, m.w.q, None, x, b * t, n, h * (2 * d), tr.qFull)
    && RowsMapped(m.ops, m.w.k, None, x, b * t, n, kvh * d, tr.kFull)
    && RowsMapped(m.ops, m.w.v, None, x, b * t, n, kvh * d, tr.vFull)
    && |tr.q| == |tr.gate| == b * t * h * d
    && CutTo(tr.qFull, 2 * d, 0, d, tr.q, b * t * h) && CutTo(tr.qFull, 2 * d, d, d, tr.gate, b * t * h)
  }

  ghost predicate Turned<F, D>(m: Layer<F, D>, b: nat, t: nat, cos: seq<F>, sin: seq<F>, raw: seq<F>, normed: seq<F>,
                               rot: seq<F>, w: seq<F>, heads: nat)
  {
    var d, rd := m.cfg.d, m.cfg.rotary;
    && |normed| == b * t * heads * d && |rot| == |normed|
    && (forall r: nat {:trigger RowNormedPlus(m.ops, w, raw, normed, d, m.cfg.eps, r)} :: r < b * t * heads ==>
          RowNormedPlus(m.ops, w, raw, normed, d, m.cfg.eps, r))
    && (forall bi: nat, ti: nat, hh: nat
          {:trigger RowRotated(m.ops, normed, rot, d, cos, sin, rd, Ix3(bi, t, ti, heads, hh), ti)} ::
          bi < b && ti < t && hh < heads ==>
            RowRotated(m.ops, normed, rot, d, cos, sin, rd, Ix3(bi, t, ti, heads, hh), ti))
  }

  ghost predicate Ready<F, D>(m: Layer<F, D>, x: seq<F>, b: nat, t: nat, start: nat, cos: seq<F>, sin: seq<F>, tr: Trace<F>)
    requires m.Valid() && |x| == b * t * m.cfg.hidden
  {
    && Projected(m, x, b, t, tr) && Tables(m, cos, sin, t, start)
    && Turned(m, b, t, cos, sin, tr.q, tr.qNormed, tr.qRot, m.w.qNorm, m.cfg.heads)
    && Turned(m, b, t, cos, sin, tr.kFull, tr.kNormed, tr.kRot, m.w.kNorm, m.cfg.kvHeads)
  }

  // ------------------------------------------------------------------ rows of the operands

  /** A normed and rotated row. */
  lemma TurnedRow<F, D>(m: Layer<F, D>, b: nat, t: nat, start: nat, cos: seq<F>, sin: seq<F>, raw: seq<F>,
                        normed: seq<F>, rot: seq<F>, w: seq<F>, heads: nat, bi: nat, ti: nat, hh: nat)
    requires m.Valid() && Tables(m, cos, sin, t, start) && bi < b && ti < t && hh < heads
    requires Turned(m, b, t, cos, sin, raw, normed, rot, w, heads)
    ensures var r := Ix3(bi, t, ti, heads, hh);
            && r * m.cfg.d + m.cfg.d <= |raw| && r * m.cfg.d + m.cfg.d <= |rot| && |w| == m.cfg.d
            && Row(rot, r, m.cfg.d)
               == Rotated(m.ops, NormOnePlus(m.ops, w, Row(raw, r, m.cfg.d), m.cfg.eps), CosRow(m, start + ti), SinRow(m, start + ti))
  {
    var r := Ix3(bi, t, ti, heads, hh);
    Ix3Fits(b, bi, t, ti, heads, hh, m.cfg.d);
    assert RowNormedPlus(m.ops, w, raw, normed, m.cfg.d, m.cfg.eps, r);
    assert RowRotated(m.ops, normed, rot, m.cfg.d, cos, sin, m.cfg.rotary, r, ti);
    assert TableRow(m, cos, sin, start, ti);
  }

  /** A head's vector of a projection. */
  lemma ProjectedHead<F, D>(ops: Ops<F, D>, w: seq<F>, x: seq<F>, b: nat, t: nat, hidden: nat, heads: nat, d: nat,
                            y: seq<F>, bi: nat, ti: nat, hh: nat)
    requires LinearLayer.Shaped(w, None, hidden, heads * d) && |x| == b * t * hidden && bi < b && ti < t && hh < heads
    requires RowsMapped(ops, w, None, x, b * t, hidden, heads * d, y)
    ensures hh * d + d <= heads * d && Ix3(bi, t, ti, heads, hh) * d + d <= |y|
    ensures Row(y, Ix3(bi, t, ti, heads, hh), d)
         == Row(LinearRow(ops, w, None, RowAt(x, b, t, hidden, bi, ti), hidden, heads * d), hh, d)
  {
    MappedRow(ops, w, x, b, t, hidden, heads * d, y, bi, ti);
    NestedRow(y, Ix(bi, t, ti), heads, hh, d);
  }

  lemma QueryRow<F, D>(m: Layer<F, D>, x: seq<F>, b: nat, t: nat, start: nat, cos: seq<F>, sin: seq<F>, tr: Trace<F>,
                       bi: nat, ti: nat, hh: nat)
    requires m.Valid() && |x| == b * t * m.cfg.hidden && Ready(m, x, b, t, start, cos, sin, tr)
    requires bi < b && ti < t && hh < m.cfg.heads
    ensures var r, d := Ix3(bi, t, ti, m.cfg.heads, hh), m.cfg.d;
            && r * d + d <= |tr.qRot| && r * d + d <= |tr.gate|
            && Row(tr.qRot, r, d) == QueryAt(m, RowAt(x, b, t, m.cfg.hidden, bi, ti), start + ti, hh)
            && Row(tr.gate, r, d) == QueryGate(m, RowAt(x, b, t, m.cfg.hidden, bi, ti), hh)[d..]
  {
    var r, d, h := Ix3(bi, t, ti, m.cfg.heads, hh), m.cfg.d, m.cfg.heads;
    Ix3Fits(b, bi, t, ti, h, hh, d);
    ProjectedHead(m.ops, m.w.q, x, b, t, m.cfg.hidden, h, 2 * d, tr.qFull, bi, ti, hh);
    assert ColumnsCut(tr.qFull, 2 * d, 0, d, tr.q, r) && ColumnsCut(tr.qFull, 2 * d, d, d, tr.gate, r);
    TurnedRow(m, b, t, start, cos, sin, tr.q, tr.qNormed, tr.qRot, m.w.qNorm, h, bi, ti, hh);
    var full := QueryGate(m, RowAt(x, b, t, m.cfg.hidden, bi, ti), hh);
    assert full[d..d + d] == full[d..] && full[0..0 + d] == full[..d];
  }

  lemma KeyRow<F, D>(m: Layer<F, D>, x: seq<F>, b: nat, t: nat, start: nat, cos: seq<F>, sin: seq<F>, tr: Trace<F>,
                     bi: nat, ti: nat, kv: nat)
    requires m.Valid() && |x| == b * t * m.cfg.hidden && Ready(m, x, b, t, start, cos, sin, tr)
    requires bi < b && ti < t && kv < m.cfg.kvHeads
    ensures var r, d := Ix3(bi, t, ti, m.cfg.kvHeads, kv), m.cfg.d;
            && r * d + d <= |tr.kRot| && r * d + d <= |tr.vFull|
            && Row(tr.kRot, r, d) == KeyAt(m, RowAt(x, b, t, m.cfg.hidden, bi, ti), start + ti, kv)
            && Row(tr.vFull, r, d) == ValueAt(m, RowAt(x, b, t, m.cfg.hidden, bi, ti), kv)
  {
    var d, h := m.cfg.d, m.cfg.kvHeads;
    ProjectedHead(m.ops, m.w.k, x, b, t, m.cfg.hidden, h, d, tr.kFull, bi, ti, kv);
    ProjectedHead(m.ops, m.w.v, x, b, t, m.cfg.hidden, h, d, tr.vFull, bi, ti, kv);
    TurnedRow(m, b, t, start, cos, sin, tr.kFull, tr.kNormed, tr.kRot, m.w.kNorm, h, bi, ti, kv);
  }

  // ------------------------------------------------------------------ the cache

  /** What each batch has been fed. */
  ghost predicate Histories<F>(hist: seq<seq<seq<F>>>, b: nat, len: nat, n: nat) {
    |hist| == b && forall bi :: 0 <= bi < b ==> |hist[bi]| == len && InputRows(hist[bi], n)
  }

  ghost predicate Remembered<F, D>(m: Layer<F, D>, k: seq<F>, v: seq<F>, len: nat, xs: seq<seq<F>>, bi: nat, kv: nat, j: nat)
    requires m.Valid() && InputRows(xs, m.cfg.hidden) && |xs| == len && kv < m.cfg.kvHeads && j < len
  {
    var n, d := Ix3(bi, m.cfg.kvHeads, kv, len, j), m.cfg.d;
    && n * d + d <= |k| && n * d + d <= |v|
    && Row(k, n, d) == KeyAt(m, xs[j], j, kv) && Row(v, n, d) == ValueAt(m, xs[j], kv)
  }

  /** The cache holds, in order, the rotated key and the value of every position fed so far. */
  ghost predicate Remembers<F, D>(m: Layer<F, D>, k: seq<F>, v: seq<F>, len: nat, b: nat, hist: seq<seq<seq<F>>>)
    requires m.Valid()
  {
    && Histories(hist, b, len, m.cfg.hidden)
    && |k| == b * m.cfg.kvHeads * len * m.cfg.d && |v| == |k|
    && forall bi: nat, kv: nat, j: nat {:trigger Remembered(m, k, v, len, hist[bi], bi, kv, j)} ::
         bi < b && kv < m.cfg.kvHeads && j < len ==> Remembered(m, k, v, len, hist[bi], bi, kv, j)
  }

  /** Every batch's history with its rows of `x` added. */
  ghost function Extended<F>(hist: seq<seq<seq<F>>>, x: seq<F>, b: nat, t: nat, n: nat, len: nat): (r: seq<seq<seq<F>>>)
    requires Histories(hist, b, len, n) && |x| == b * t * n
    ensures Histories(r, b, len + t, n)
  {
    seq(b, bi requires 0 <= bi < b => hist[bi] + BatchRows(x, b, t, n, bi))
  }

  ghost function NoHistory<F>(b: nat, n: nat): (r: seq<seq<seq<F>>>)
    ensures Histories(r, b, 0, n)
  {
    seq(b, _ => [])
  }

  lemma AppendRemembers<F, D>(m: Layer<F, D>, x: seq<F>, b: nat, t: nat, start: nat, cos: seq<F>, sin: seq<F>,
                              tr: Trace<F>, hist: seq<seq<seq<F>>>, k: seq<F>, v: seq<F>, k': seq<F>, v': seq<F>)
    requires m.Valid() && |x| == b * t * m.cfg.hidden && Ready(m, x, b, t, start, cos, sin, tr)
    requires Remembers(m, k, v, start, b, hist)
    requires Appended(k, tr.kRot, k', b, start, t, m.cfg.kvHeads, m.cfg.d)
    requires Appended(v, tr.vFull, v', b, start, t, m.cfg.kvHeads, m.cfg.d)
    ensures Remembers(m, k', v', start + t, b, Extended(hist, x, b, t, m.cfg.hidden, start))
  {
    var after := Extended(hist, x, b, t, m.cfg.hidden, start);
    var kvh, d, total := m.cfg.kvHeads, m.cfg.d, start + t;
    forall bi: nat, kv: nat, j: nat | bi < b && kv < kvh && j < total
      ensures Remembered(m, k', v', total, after[bi], bi, kv, j)
    {
      assert VectorAppended(k, tr.kRot, k', start, t, kvh, d, bi, kv, j);
      assert VectorAppended(v, tr.vFull, v', start, t, kvh, d, bi, kv, j);
      if j < start {
        assert Remembered(m, k, v, start, hist[bi], bi, kv, j);
      } else {
        KeyRow(m, x, b, t, start, cos, sin, tr, bi, j - start, kv);
        assert after[bi][j] == RowAt(x, b, t, m.cfg.hidden, bi, j - start);
      }
    }
  }

  /** Without a cache the keys and values of the chunk are all there is. */
  lemma TransposeRemembers<F, D>(m: Layer<F, D>, x: seq<F>, b: nat, t: nat, cos: seq<F>, sin: seq<F>,
                                 tr: Trace<F>, k: seq<F>, v: seq<F>)
    requires m.Valid() && |x| == b * t * m.cfg.hidden && Ready(m, x, b, t, 0, cos, sin, tr)
    requires Swapped(tr.kRot, k, b, t, m.cfg.kvHeads, m.cfg.d) && Swapped(tr.vFull, v, b, t, m.cfg.kvHeads, m.cfg.d)
    ensures Remembers(m, k, v, t, b, Extended(NoHistory(b, m.cfg.hidden), x, b, t, m.cfg.hidden, 0))
  {
    var after := Extended(NoHistory(b, m.cfg.hidden), x, b, t, m.cfg.hidden, 0);
    var kvh, d := m.cfg.kvHeads, m.cfg.d;
    forall bi: nat, kv: nat, j: nat | bi < b && kv < kvh && j < t
      ensures Remembered(m, k, v, t, after[bi], bi, kv, j)
    {
      assert VectorSwapped(tr.kRot, k, t, kvh, d, bi, j, kv);
      assert VectorSwapped(tr.vFull, v, t, kvh, d, bi, j, kv);
      KeyRow(m, x, b, t, 0, cos, sin, tr, bi, j, kv);
      assert after[bi][j] == RowAt(x, b, t, m.cfg.hidden, bi, j);
    }
  }

  // ------------------------------------------------------------------ the queries

  function WindowOf<F, D>(m: Layer<F, D>, tr: Trace<F>, keys: seq<F>, values: seq<F>, b: nat, t: nat, start: nat): Window<F> {
    Window(tr.qRot, keys, values, b, t, start, m.cfg.heads, m.cfg.kvHeads, m.cfg.d, m.Scaling())
  }

  /** The cached vectors a query reads are the keys and values of its past. */
  lemma PastVectors<F, D>(m: Layer<F, D>, keys: seq<F>, values: seq<F>, len: nat, b: nat, hist: seq<seq<seq<F>>>,
                          bi: nat, kv: nat, n: nat)
    requires m.Valid() && Remembers(m, keys, values, len, b, hist) && bi < b && kv < m.cfg.kvHeads && n <= len
    requires (Ix3(bi, m.cfg.kvHeads, kv, len, 0) + n) * m.cfg.d <= |keys|
    ensures Vectors(keys, Ix3(bi, m.cfg.kvHeads, kv, len, 0), n, m.cfg.d) == Keys(m, hist[bi], kv, n)
    ensures Vectors(values, Ix3(bi, m.cfg.kvHeads, kv, len, 0), n, m.cfg.d) == Values(m, hist[bi], kv, n)
  {
    var base, d := Ix3(bi, m.cfg.kvHeads, kv, len, 0), m.cfg.d;
    forall j: nat | j < n
      ensures Is(VectorAt(keys, base, n, d, j), KeyAt(m, hist[bi][j], j, kv))
      ensures Is(VectorAt(values, base, n, d, j), ValueAt(m, hist[bi][j], kv))
    {
      PastVector(m, keys, values, len, b, hist, bi, kv, n, j);
    }
    SameRows(Vectors(keys, base, n, d), Keys(m, hist[bi], kv, n));
    SameRows(Vectors(values, base, n, d), Values(m, hist[bi], kv, n));
  }

  lemma PastVector<F, D>(m: Layer<F, D>, keys: seq<F>, values: seq<F>, len: nat, b: nat, hist: seq<seq<seq<F>>>,
                         bi: nat, kv: nat, n: nat, j: nat)
    requires m.Valid() && Remembers(m, keys, values, len, b, hist) && bi < b && kv < m.cfg.kvHeads && j < n <= len
    requires (Ix3(bi, m.cfg.kvHeads, kv, len, 0) + n) * m.cfg.d <= |keys|
    ensures Is(VectorAt(keys, Ix3(bi, m.cfg.kvHeads, kv, len, 0), n, m.cfg.d, j), KeyAt(m, hist[bi][j], j, kv))
    ensures Is(VectorAt(values, Ix3(bi, m.cfg.kvHeads, kv, len, 0), n, m.cfg.d, j), ValueAt(m, hist[bi][j], kv))
  {
    assert Remembered(m, keys, values, len, hist[bi], bi, kv, j);
    assert Ix3(bi, m.cfg.kvHeads, kv, len, j) == Ix3(bi, m.cfg.kvHeads, kv, len, 0) + j;
  }

  lemma HeadRow<F, D>(m: Layer<F, D>, x: seq<F>, b: nat, t: nat, start: nat, cos: seq<F>, sin: seq<F>, tr: Trace<F>,
                      keys: seq<F>, values: seq<F>, hist: seq<seq<seq<F>>>, out: seq<F>, bi: nat, ti: nat, hh: nat)
    requires m.Valid() && |x| == b * t * m.cfg.hidden && Ready(m, x, b, t, start, cos, sin, tr)
    requires bi < b && ti < t && hh < m.cfg.heads && Histories(hist, b, start, m.cfg.hidden)
    requires Remembers(m, keys, values, start + t, b, Extended(hist, x, b, t, m.cfg.hidden, start))
    requires WindowOf(m, tr, keys, values, b, t, start).Valid()
    requires QueryDone(m.ops, WindowOf(m, tr, keys, values, b, t, start), out, bi, hh, ti)
    ensures Ix3(bi, m.cfg.heads, hh, t, ti) * m.cfg.d + m.cfg.d <= |out|
    ensures Is(Row(out, Ix3(bi, m.cfg.heads, hh, t, ti), m.cfg.d),
               HeadAt(m, hist[bi] + BatchRows(x, b, t, m.cfg.hidden, bi), start + ti, hh))
  {
    QueryFits(WindowOf(m, tr, keys, values, b, t, start), bi, hh, ti);
    QueryArguments(m, x, b, t, start, cos, sin, tr, keys, values, hist, bi, ti, hh);
    assert QueryDone(m.ops, WindowOf(m, tr, keys, values, b, t, start), out, bi, hh, ti);
  }

  /** What one query is given: its own vector, and the keys and values up to its position. */
  lemma QueryArguments<F, D>(m: Layer<F, D>, x: seq<F>, b: nat, t: nat, start: nat, cos: seq<F>, sin: seq<F>, tr: Trace<F>,
                             keys: seq<F>, values: seq<F>, hist: seq<seq<seq<F>>>, bi: nat, ti: nat, hh: nat)
    requires m.Valid() && |x| == b * t * m.cfg.hidden && Ready(m, x, b, t, start, cos, sin, tr)
    requires bi < b && ti < t && hh < m.cfg.heads && Histories(hist, b, start, m.cfg.hidden)
    requires Remembers(m, keys, values, start + t, b, Extended(hist, x, b, t, m.cfg.hidden, start))
    requires (Ix3(bi, m.cfg.kvHeads, KvOf(m, hh), start + t, 0) + (start + ti + 1)) * m.cfg.d <= |keys|
    requires Ix3(bi, t, ti, m.cfg.heads, hh) * m.cfg.d + m.cfg.d <= |tr.qRot|
    ensures InputRows(hist[bi] + BatchRows(x, b, t, m.cfg.hidden, bi), m.cfg.hidden)
    ensures var xs, p, base := hist[bi] + BatchRows(x, b, t, m.cfg.hidden, bi), start + ti,
                               Ix3(bi, m.cfg.kvHeads, KvOf(m, hh), start + t, 0);
            && Is(Row(tr.qRot, Ix3(bi, t, ti, m.cfg.heads, hh), m.cfg.d), QueryAt(m, xs[p], p, hh))
            && Is(Vectors(keys, base, p + 1, m.cfg.d), Keys(m, xs, KvOf(m, hh), p + 1))
            && Is(Vectors(values, base, p + 1, m.cfg.d), Values(m, xs, KvOf(m, hh), p + 1))
  {
    var after := Extended(hist, x, b, t, m.cfg.hidden, start);
    assert after[bi] == hist[bi] + BatchRows(x, b, t, m.cfg.hidden, bi);
    QueryRow(m, x, b, t, start, cos, sin, tr, bi, ti, hh);
    PastVectors(m, keys, values, start + t, b, after, bi, KvOf(m, hh), start + ti + 1);
    assert after[bi][start + ti] == RowAt(x, b, t, m.cfg.hidden, bi, ti);
  }

  // ------------------------------------------------------------------ the output

  /** A gated head, given the attention output in `[B, T, H, D]` order. */
  lemma GatedRow<F, D>(ops: Ops<F, D>, x: seq<F>, gate: seq<F>, r: nat, d: nat)
    requires |x| == |gate| && r * d + d <= |x|
    ensures Row(Gated(ops, x, gate), r, d) == Gated(ops, Row(x, r, d), Row(gate, r, d))
  {
    var base := r * d;
    var l, rr := Row(Gated(ops, x, gate), r, d), Gated(ops, Row(x, r, d), Row(gate, r, d));
    forall j: nat | j < d ensures l[j] == rr[j] {
      assert l[j] == Gated(ops, x, gate)[base + j];
      assert Row(x, r, d)[j] == x[base + j] && Row(gate, r, d)[j] == gate[base + j];
    }
  }

  ghost predicate HeadsInPlace<F, D>(m: Layer<F, D>, attn: seq<F>, gate: seq<F>, xs: seq<seq<F>>, t: nat, bi: nat,
                                     ti: nat, p: nat)
    requires m.Valid() && InputRows(xs, m.cfg.hidden) && p < |xs|
  {
    forall hh: nat {:trigger HeadAt(m, xs, p, hh)} :: hh < m.cfg.heads ==>
      && Ix3(bi, t, ti, m.cfg.heads, hh) * m.cfg.d + m.cfg.d <= |attn|
      && Ix3(bi, t, ti, m.cfg.heads, hh) * m.cfg.d + m.cfg.d <= |gate|
      && Is(Row(attn, Ix3(bi, t, ti, m.cfg.heads, hh), m.cfg.d), HeadAt(m, xs, p, hh))
      && Is(Row(gate, Ix3(bi, t, ti, m.cfg.heads, hh), m.cfg.d), QueryGate(m, xs[p], hh)[m.cfg.d..])
  }

  lemma OutputRow<F, D>(m: Layer<F, D>, b: nat, t: nat, attn: seq<F>, gate: seq<F>, out: seq<F>, xs: seq<seq<F>>,
                        bi: nat, ti: nat, p: nat)
    requires m.Valid() && bi < b && ti < t && InputRows(xs, m.cfg.hidden) && p < |xs|
    requires |attn| == |gate| == b * t * (m.cfg.heads * m.cfg.d)
    requires HeadsInPlace(m, attn, gate, xs, t, bi, ti, p)
    requires RowsMapped(m.ops, m.w.o, None, Gated(m.ops, attn, gate), b * t, m.cfg.heads * m.cfg.d, m.cfg.hidden, out)
    ensures |out| == b * t * m.cfg.hidden
    ensures Is(RowAt(out, b, t, m.cfg.hidden, bi, ti), OutRow(m, xs, p))
  {
    var h, d, gated := m.cfg.heads, m.cfg.d, Gated(m.ops, attn, gate);
    MappedRow(m.ops, m.w.o, gated, b, t, h * d, m.cfg.hidden, out, bi, ti);
    var heads := GatedHeads(m, xs, p);
    var l, r := RowAt(gated, b, t, h * d, bi, ti), Joined(heads, d);
    forall hh: nat | hh < h ensures hh * d + d <= |l| && Row(l, hh, d) == Row(r, hh, d) {
      IxFits(bi, b, t, ti);
      RowFits(Ix(bi, t, ti), b * t, h * d);
      NestedRow(gated, Ix(bi, t, ti), h, hh, d);
      assert Is(Row(attn, Ix3(bi, t, ti, h, hh), d), HeadAt(m, xs, p, hh));
      GatedRow(m.ops, attn, gate, Ix3(bi, t, ti, h, hh), d);
      JoinedRow(heads, d, hh);
    }
    RowsDetermine(l, r, h, d);
  }
}
