/** `AttnState`, `forward` and `forward_with_state` of full attention
    (qwen35-forward/gdn/src/attention.rs), and a decode in chunks against the uncached run. */
module Attention {
  import opened Options
  import opened FlatTensor
  import opened Axes
  import opened Rows
  import opened LinearLayer
  import opened AttentionRows
  import opened AttentionCache
  import opened AttentionAttend
  import opened AttentionRefinement

  type Layer<!F, !D> = AttentionSpec.Layer<F, D>

  /** `AttnState`: the keys and values of every position seen so far. */
  class AttnState<F(!new)> {
    var k: seq<F>
    var v: seq<F>
    var len: nat

    ghost predicate Holds<D>(m: Layer<F, D>, b: nat, hist: seq<seq<seq<F>>>)
      reads this
      requires m.Valid()
    {
      Remembers(m, k, v, len, b, hist)
    }

    /** `AttnState::new`. */
    constructor New()
      ensures k == [] && v == [] && len == 0
    {
      k, v, len := [], [], 0;
    }

    /** `append_kv`: the cache grows by the chunk. */
    method AppendKv(kRot: seq<F>, vFlat: seq<F>, b: nat, t: nat, kvh: nat, d: nat, zero: F)
      requires |k| == b * kvh * len * d && |v| == |k|
      requires |kRot| == b * t * kvh * d && |vFlat| == |kRot|
      modifies this
      ensures Appended(old(k), kRot, k, b, old(len), t, kvh, d)
      ensures Appended(old(v), vFlat, v, b, old(len), t, kvh, d)
      ensures len == old(len) + t
    {
      var nk := Append(k, kRot, b, len, t, kvh, d, zero);
      var nv := Append(v, vFlat, b, len, t, kvh, d, zero);
      k := nk;
      v := nv;
      len := len + t;
    }
  }

  lemma EmptyRemembers<F(!new), D>(m: Layer<F, D>, b: nat)
    requires m.Valid()
    ensures Remembers(m, [], [], 0, b, NoHistory(b, m.cfg.hidden))
  {
  }

  // ------------------------------------------------------------------ the call

  /** Steps 1 to 4: projections, split, norms, rotary embedding. */
  method Project<F(!new), D>(m: Layer<F, D>, x: seq<F>, b: nat, t: nat, ghost start: nat, cos: seq<F>, sin: seq<F>, threads: nat)
    returns (tr: Trace<F>)
    requires m.Valid() && |x| == b * t * m.cfg.hidden && Tables(m, cos, sin, t, start)
    ensures Ready(m, x, b, t, start, cos, sin, tr)
  {
    var ops, h, kvh, d := m.ops, m.cfg.heads, m.cfg.kvHeads, m.cfg.d;
    var rows := b * t;
    var qFull := Linear(ops, m.w.q, None, x, rows, m.cfg.hidden, h * (2 * d), threads);
    var kFull := Linear(ops, m.w.k, None, x, rows, m.cfg.hidden, kvh * d, threads);
    var vFull := Linear(ops, m.w.v, None, x, rows, m.cfg.hidden, kvh * d, threads);
    Associate(rows, h, 2 * d);
    Associate(rows, kvh, d);
    var q, gate := SplitGate(qFull, rows, h, d, ops.zero);
    var qNormed := RmsnormOnePlus(ops, m.w.qNorm, q, rows * h, d, m.cfg.eps);
    var kNormed := RmsnormOnePlus(ops, m.w.kNorm, kFull, rows * kvh, d, m.cfg.eps);
    var qRot := ApplyRope(ops, qNormed, b, t, h, d, cos, sin, m.cfg.rotary);
    var kRot := ApplyRope(ops, kNormed, b, t, kvh, d, cos, sin, m.cfg.rotary);
    tr := Trace(qFull, kFull, vFull, q, gate, qNormed, kNormed, qRot, kRot);
  }

  /** Every batch's output continues its history. */
  ghost predicate Attends<F(!new), D>(m: Layer<F, D>, x: seq<F>, b: nat, t: nat, hist: seq<seq<seq<F>>>, len: nat, out: seq<F>)
    requires m.Valid() && |x| == b * t * m.cfg.hidden && Histories(hist, b, len, m.cfg.hidden)
  {
    && |out| == b * t * m.cfg.hidden
    && forall bi: nat {:trigger BatchRows(out, b, t, m.cfg.hidden, bi)} :: bi < b ==>
         BatchRows(out, b, t, m.cfg.hidden, bi)
           == AttentionSpec.Continued(m, hist[bi], BatchRows(x, b, t, m.cfg.hidden, bi))
  }

  ghost predicate AllDone<F(!new), D>(m: Layer<F, D>, w: Window<F>, out: seq<F>)
    requires w.Valid()
  {
    forall bi: nat, hh: nat, ti: nat {:trigger QueryDone(m.ops, w, out, bi, hh, ti)} ::
      bi < w.b && hh < w.h && ti < w.t ==> QueryDone(m.ops, w, out, bi, hh, ti)
  }

  /** Steps 5 and 6 of one head of one row. */
  lemma HeadAttends<F(!new), D>(m: Layer<F, D>, x: seq<F>, b: nat, t: nat, start: nat, cos: seq<F>, sin: seq<F>, tr: Trace<F>,
                          keys: seq<F>, values: seq<F>, hist: seq<seq<seq<F>>>, bhtd: seq<F>, attn: seq<F>,
                          bi: nat, ti: nat, hh: nat)
    requires m.Valid() && |x| == b * t * m.cfg.hidden && Ready(m, x, b, t, start, cos, sin, tr)
    requires bi < b && ti < t && hh < m.cfg.heads && Histories(hist, b, start, m.cfg.hidden)
    requires Remembers(m, keys, values, start + t, b, Extended(hist, x, b, t, m.cfg.hidden, start))
    requires WindowOf(m, tr, keys, values, b, t, start).Valid()
    requires AllDone(m, WindowOf(m, tr, keys, values, b, t, start), bhtd)
    requires Swapped(bhtd, attn, b, m.cfg.heads, t, m.cfg.d)
    ensures var r, d := Ix3(bi, t, ti, m.cfg.heads, hh), m.cfg.d;
            && r * d + d <= |attn| && r * d + d <= |tr.gate|
            && Is(Row(attn, r, d), AttentionSpec.HeadAt(m, hist[bi] + BatchRows(x, b, t, m.cfg.hidden, bi), start + ti, hh))
            && Is(Row(tr.gate, r, d), AttentionSpec.QueryGate(m, RowAt(x, b, t, m.cfg.hidden, bi, ti), hh)[d..])
  {
    assert QueryDone(m.ops, WindowOf(m, tr, keys, values, b, t, start), bhtd, bi, hh, ti);
    HeadRow(m, x, b, t, start, cos, sin, tr, keys, values, hist, bhtd, bi, ti, hh);
    QueryRow(m, x, b, t, start, cos, sin, tr, bi, ti, hh);
    assert VectorSwapped(bhtd, attn, m.cfg.heads, t, m.cfg.d, bi, hh, ti);
  }

  /** Output row `ti` of batch `bi` is the attention row that follows `past`. */
  ghost predicate RowContinues<F(!new), D>(m: Layer<F, D>, x: seq<F>, b: nat, t: nat, past: seq<seq<F>>, out: seq<F>,
                                     bi: nat, ti: nat)
    requires m.Valid() && |x| == b * t * m.cfg.hidden && |out| == |x| && bi < b && ti < t
    requires InputRows(past, m.cfg.hidden)
  {
    Is(RowAt(out, b, t, m.cfg.hidden, bi, ti),
       AttentionSpec.OutRow(m, past + BatchRows(x, b, t, m.cfg.hidden, bi), |past| + ti))
  }

  /** Steps 7 and 8 of one row, given its heads. */
  lemma RowAttends<F(!new), D>(m: Layer<F, D>, x: seq<F>, b: nat, t: nat, attn: seq<F>, gate: seq<F>, past: seq<seq<F>>,
                               out: seq<F>, bi: nat, ti: nat)
    requires m.Valid() && |x| == b * t * m.cfg.hidden && |out| == |x| && bi < b && ti < t && InputRows(past, m.cfg.hidden)
    requires |attn| == |gate| == b * t * (m.cfg.heads * m.cfg.d)
    requires HeadsInPlace(m, attn, gate, past + BatchRows(x, b, t, m.cfg.hidden, bi), t, bi, ti, |past| + ti)
    requires RowsMapped(m.ops, m.w.o, None, AttentionSpec.Gated(m.ops, attn, gate), b * t, m.cfg.heads * m.cfg.d, m.cfg.hidden, out)
    ensures RowContinues(m, x, b, t, past, out, bi, ti)
  {
    OutputRow(m, b, t, attn, gate, out, past + BatchRows(x, b, t, m.cfg.hidden, bi), bi, ti, |past| + ti);
  }

  lemma HeadsAttend<F(!new), D>(m: Layer<F, D>, x: seq<F>, b: nat, t: nat, start: nat, cos: seq<F>, sin: seq<F>, tr: Trace<F>,
                                keys: seq<F>, values: seq<F>, hist: seq<seq<seq<F>>>, bhtd: seq<F>, attn: seq<F>,
                                bi: nat, ti: nat)
    requires m.Valid() && |x| == b * t * m.cfg.hidden && Ready(m, x, b, t, start, cos, sin, tr)
    requires bi < b && ti < t && Histories(hist, b, start, m.cfg.hidden)
    requires Remembers(m, keys, values, start + t, b, Extended(hist, x, b, t, m.cfg.hidden, start))
    requires WindowOf(m, tr, keys, values, b, t, start).Valid()
    requires AllDone(m, WindowOf(m, tr, keys, values, b, t, start), bhtd)
    requires Swapped(bhtd, attn, b, m.cfg.heads, t, m.cfg.d)
    ensures HeadsInPlace(m, attn, tr.gate, hist[bi] + BatchRows(x, b, t, m.cfg.hidden, bi), t, bi, ti, start + ti)
  {
    var xs := hist[bi] + BatchRows(x, b, t, m.cfg.hidden, bi);
    var p := start + ti;
    assert xs[p] == RowAt(x, b, t, m.cfg.hidden, bi, ti);
    forall hh: nat | hh < m.cfg.heads
      ensures Ix3(bi, t, ti, m.cfg.heads, hh) * m.cfg.d + m.cfg.d <= |attn|
      ensures Ix3(bi, t, ti, m.cfg.heads, hh) * m.cfg.d + m.cfg.d <= |tr.gate|
      ensures Is(Row(attn, Ix3(bi, t, ti, m.cfg.heads, hh), m.cfg.d), AttentionSpec.HeadAt(m, xs, p, hh))
      ensures Is(Row(tr.gate, Ix3(bi, t, ti, m.cfg.heads, hh), m.cfg.d), AttentionSpec.QueryGate(m, xs[p], hh)[m.cfg.d..])
    {
      HeadAttends(m, x, b, t, start, cos, sin, tr, keys, values, hist, bhtd, attn, bi, ti, hh);
    }
  }

  lemma BatchAttends<F(!new), D>(m: Layer<F, D>, x: seq<F>, b: nat, t: nat, start: nat, cos: seq<F>, sin: seq<F>, tr: Trace<F>,
                           keys: seq<F>, values: seq<F>, hist: seq<seq<seq<F>>>, bhtd: seq<F>, attn: seq<F>, out: seq<F>,
                           bi: nat)
    requires m.Valid() && |x| == b * t * m.cfg.hidden && Ready(m, x, b, t, start, cos, sin, tr)
    requires bi < b && Histories(hist, b, start, m.cfg.hidden)
    requires Remembers(m, keys, values, start + t, b, Extended(hist, x, b, t, m.cfg.hidden, start))
    requires WindowOf(m, tr, keys, values, b, t, start).Valid()
    requires AllDone(m, WindowOf(m, tr, keys, values, b, t, start), bhtd)
    requires Swapped(bhtd, attn, b, m.cfg.heads, t, m.cfg.d)
    requires |attn| == |tr.gate| == b * t * (m.cfg.heads * m.cfg.d)
    requires RowsMapped(m.ops, m.w.o, None, AttentionSpec.Gated(m.ops, attn, tr.gate), b * t, m.cfg.heads * m.cfg.d, m.cfg.hidden, out)
    requires |out| == b * t * m.cfg.hidden
    ensures BatchRows(out, b, t, m.cfg.hidden, bi)
         == AttentionSpec.Continued(m, hist[bi], BatchRows(x, b, t, m.cfg.hidden, bi))
  {
    forall ti: nat | ti < t ensures RowContinues(m, x, b, t, hist[bi], out, bi, ti) {
      HeadsAttend(m, x, b, t, start, cos, sin, tr, keys, values, hist, bhtd, attn, bi, ti);
      RowAttends(m, x, b, t, attn, tr.gate, hist[bi], out, bi, ti);
    }
    RowsContinue(m, x, b, t, hist[bi], out, bi);
  }

  lemma RowsContinue<F(!new), D>(m: Layer<F, D>, x: seq<F>, b: nat, t: nat, past: seq<seq<F>>, out: seq<F>, bi: nat)
    requires m.Valid() && |x| == b * t * m.cfg.hidden && |out| == |x| && bi < b && InputRows(past, m.cfg.hidden)
    requires forall ti: nat {:trigger RowContinues(m, x, b, t, past, out, bi, ti)} :: ti < t ==>
      RowContinues(m, x, b, t, past, out, bi, ti)
    ensures BatchRows(out, b, t, m.cfg.hidden, bi)
         == AttentionSpec.Continued(m, past, BatchRows(x, b, t, m.cfg.hidden, bi))
  {
    var l, r := BatchRows(out, b, t, m.cfg.hidden, bi),
                AttentionSpec.Continued(m, past, BatchRows(x, b, t, m.cfg.hidden, bi));
    forall ti: nat | ti < |l| ensures l[ti] == r[ti] {
      RowAgrees(m, x, b, t, past, out, bi, ti);
    }
    SameRows(l, r);
  }

  lemma RowAgrees<F(!new), D>(m: Layer<F, D>, x: seq<F>, b: nat, t: nat, past: seq<seq<F>>, out: seq<F>, bi: nat, ti: nat)
    requires m.Valid() && |x| == b * t * m.cfg.hidden && |out| == |x| && bi < b && ti < t && InputRows(past, m.cfg.hidden)
    requires RowContinues(m, x, b, t, past, out, bi, ti)
    ensures BatchRows(out, b, t, m.cfg.hidden, bi)[ti]
         == AttentionSpec.Continued(m, past, BatchRows(x, b, t, m.cfg.hidden, bi))[ti]
  {
  }

  /** Steps 5 to 8 over keys and values that cover every position up to the chunk's end. */
  method Finish<F(!new), D>(m: Layer<F, D>, x: seq<F>, b: nat, t: nat, start: nat, ghost cos: seq<F>, ghost sin: seq<F>,
                      tr: Trace<F>, keys: seq<F>, values: seq<F>, ghost hist: seq<seq<seq<F>>>, threads: nat)
    returns (out: seq<F>)
    requires m.Valid() && |x| == b * t * m.cfg.hidden && Ready(m, x, b, t, start, cos, sin, tr)
    requires Histories(hist, b, start, m.cfg.hidden)
    requires Remembers(m, keys, values, start + t, b, Extended(hist, x, b, t, m.cfg.hidden, start))
    ensures Attends(m, x, b, t, hist, start, out)
  {
    var h, d := m.cfg.heads, m.cfg.d;
    var bhtd := Attend(m.ops, WindowOf(m, tr, keys, values, b, t, start));
    var attn := SwapAxes(bhtd, b, h, t, d, m.ops.zero);
    var gated := ApplyGate(m.ops, attn, tr.gate);
    Associate(b * t, h, d);
    out := Linear(m.ops, m.w.o, None, gated, b * t, h * d, m.cfg.hidden, threads);
    forall bi: nat | bi < b
      ensures BatchRows(out, b, t, m.cfg.hidden, bi)
           == AttentionSpec.Continued(m, hist[bi], BatchRows(x, b, t, m.cfg.hidden, bi))
    {
      BatchAttends(m, x, b, t, start, cos, sin, tr, keys, values, hist, bhtd, attn, out, bi);
    }
  }

  /** `forward_with_state`: the chunk is attended over the cache it extends. The tables must
      be built for the absolute positions of the chunk. */
  method ForwardWithState<F(!new), D>(m: Layer<F, D>, x: seq<F>, b: nat, t: nat, cos: seq<F>, sin: seq<F>,
                                state: AttnState<F>, threads: nat, ghost hist: seq<seq<seq<F>>>) returns (out: seq<F>)
    requires m.Valid() && |x| == b * t * m.cfg.hidden && state.Holds(m, b, hist)
    requires Tables(m, cos, sin, t, state.len)
    modifies state
    ensures state.len == old(state.len) + t
    ensures state.Holds(m, b, Extended(hist, x, b, t, m.cfg.hidden, old(state.len)))
    ensures Attends(m, x, b, t, hist, old(state.len), out)
  {
    var start := state.len;
    var tr := Project(m, x, b, t, start, cos, sin, threads);
    ghost var k0, v0 := state.k, state.v;
    Associate(b * t, m.cfg.kvHeads, m.cfg.d);
    state.AppendKv(tr.kRot, tr.vFull, b, t, m.cfg.kvHeads, m.cfg.d, m.ops.zero);
    AppendRemembers(m, x, b, t, start, cos, sin, tr, hist, k0, v0, state.k, state.v);
    out := Finish(m, x, b, t, start, cos, sin, tr, state.k, state.v, hist, threads);
  }

  /** `forward`: the whole sequence at once, without a cache. */
  method Forward<F(!new), D>(m: Layer<F, D>, x: seq<F>, b: nat, t: nat, cos: seq<F>, sin: seq<F>, threads: nat)
    returns (out: seq<F>)
    requires m.Valid() && |x| == b * t * m.cfg.hidden && Tables(m, cos, sin, t, 0)
    ensures |out| == b * t * m.cfg.hidden
    ensures forall bi: nat {:trigger BatchRows(out, b, t, m.cfg.hidden, bi)} :: bi < b ==>
      BatchRows(out, b, t, m.cfg.hidden, bi) == AttentionSpec.Attention(m, BatchRows(x, b, t, m.cfg.hidden, bi))
  {
    ghost var none := NoHistory<F>(b, m.cfg.hidden);
    var tr := Project(m, x, b, t, 0, cos, sin, threads);
    Associate(b * t, m.cfg.kvHeads, m.cfg.d);
    var keys := SwapAxes(tr.kRot, b, t, m.cfg.kvHeads, m.cfg.d, m.ops.zero);
    var values := SwapAxes(tr.vFull, b, t, m.cfg.kvHeads, m.cfg.d, m.ops.zero);
    TransposeRemembers(m, x, b, t, cos, sin, tr, keys, values);
    out := Finish(m, x, b, t, 0, cos, sin, tr, keys, values, none, threads);
    forall bi: nat | bi < b
      ensures BatchRows(out, b, t, m.cfg.hidden, bi) == AttentionSpec.Attention(m, BatchRows(x, b, t, m.cfg.hidden, bi))
    {
      FromNothing(m, BatchRows(x, b, t, m.cfg.hidden, bi));
    }
  }

  lemma FromNothing<F(!new), D>(m: Layer<F, D>, xs: seq<seq<F>>)
    requires m.Valid() && InputRows(xs, m.cfg.hidden)
    ensures AttentionSpec.Continued(m, [], xs) == AttentionSpec.Attention(m, xs)
  {
    assert [] + xs == xs;
  }

  // ------------------------------------------------------------------ decoding in chunks

  /** Batch `bi` after the chunks `ins`: its history is their rows, its outputs are the
      uncached attention over that history. */
  ghost predicate DecodedBatch<F(!new), D>(m: Layer<F, D>, b: nat, ins: seq<Chunk<F>>, outs: seq<Chunk<F>>,
                                     hist: seq<seq<F>>, bi: nat)
    requires m.Valid() && bi < b && ChunksFit(ins, b, m.cfg.hidden) && ChunksFit(outs, b, m.cfg.hidden)
  {
    && InputRows(hist, m.cfg.hidden)
    && hist == Whole(RowsOf(ins, b, m.cfg.hidden, bi))
    && Whole(RowsOf(outs, b, m.cfg.hidden, bi)) == AttentionSpec.Attention(m, hist)
  }

  lemma ChunkAttended<F(!new), D>(m: Layer<F, D>, b: nat, ins: seq<Chunk<F>>, outs: seq<Chunk<F>>, hist: seq<seq<F>>,
                            chunk: Chunk<F>, out: Chunk<F>, bi: nat)
    requires m.Valid() && bi < b && ChunksFit(ins, b, m.cfg.hidden) && ChunksFit(outs, b, m.cfg.hidden)
    requires |chunk.x| == b * chunk.t * m.cfg.hidden && |out.x| == |chunk.x| && out.t == chunk.t
    requires DecodedBatch(m, b, ins, outs, hist, bi)
    requires BatchRows(out.x, b, out.t, m.cfg.hidden, bi)
          == AttentionSpec.Continued(m, hist, BatchRows(chunk.x, b, chunk.t, m.cfg.hidden, bi))
    ensures ChunksFit(ins + [chunk], b, m.cfg.hidden) && ChunksFit(outs + [out], b, m.cfg.hidden)
    ensures DecodedBatch(m, b, ins + [chunk], outs + [out], hist + BatchRows(chunk.x, b, chunk.t, m.cfg.hidden, bi), bi)
  {
    var n := m.cfg.hidden;
    RowsOfNext(ins, chunk, b, n, bi);
    RowsOfNext(outs, out, b, n, bi);
    WholeNext(RowsOf(ins, b, n, bi), BatchRows(chunk.x, b, chunk.t, n, bi));
    WholeNext(RowsOf(outs, b, n, bi), BatchRows(out.x, b, out.t, n, bi));
    AttentionSpec.ContinuesWhole(m, hist, BatchRows(chunk.x, b, chunk.t, n, bi));
  }

  /** One cached step of a decode, its tables built at the cached length. */
  method DecodeChunk<F(!new), D>(m: Layer<F, D>, b: nat, chunk: Chunk<F>, state: AttnState<F>, threads: nat,
                           ghost ins: seq<Chunk<F>>, ghost outs: seq<Chunk<F>>, ghost hist: seq<seq<seq<F>>>)
    returns (out: Chunk<F>)
    requires m.Valid() && ChunksFit(ins, b, m.cfg.hidden) && ChunksFit(outs, b, m.cfg.hidden)
    requires |chunk.x| == b * chunk.t * m.cfg.hidden && state.Holds(m, b, hist)
    requires forall bi: nat {:trigger hist[bi]} :: bi < b ==> DecodedBatch(m, b, ins, outs, hist[bi], bi)
    modifies state
    ensures out.t == chunk.t && |out.x| == |chunk.x|
    ensures ChunksFit(ins + [chunk], b, m.cfg.hidden) && ChunksFit(outs + [out], b, m.cfg.hidden)
    ensures var after := Extended(hist, chunk.x, b, chunk.t, m.cfg.hidden, old(state.len));
            && state.Holds(m, b, after)
            && forall bi: nat {:trigger after[bi]} :: bi < b ==>
                 DecodedBatch(m, b, ins + [chunk], outs + [out], after[bi], bi)
  {
    var cos, sin := BuildRope(m, chunk.t, state.len);
    var y := ForwardWithState(m, chunk.x, b, chunk.t, cos, sin, state, threads, hist);
    out := Chunk(chunk.t, y);
    ghost var after := Extended(hist, chunk.x, b, chunk.t, m.cfg.hidden, old(state.len));
    forall bi: nat | bi < b
      ensures DecodedBatch(m, b, ins + [chunk], outs + [out], after[bi], bi)
    {
      assert BatchRows(y, b, chunk.t, m.cfg.hidden, bi)
          == AttentionSpec.Continued(m, hist[bi], BatchRows(chunk.x, b, chunk.t, m.cfg.hidden, bi));
      ChunkAttended(m, b, ins, outs, hist[bi], chunk, out, bi);
    }
  }

  /** Cached attention refines uncached attention: whatever the chunks, every batch's outputs
      are those of one uncached call on the concatenated sequence, and the cache holds its
      keys and values. */
  method Decode<F(!new), D>(m: Layer<F, D>, b: nat, chunks: seq<Chunk<F>>, threads: nat)
    returns (outs: seq<Chunk<F>>, state: AttnState<F>, ghost hist: seq<seq<seq<F>>>)
    requires m.Valid() && ChunksFit(chunks, b, m.cfg.hidden)
    ensures ChunksFit(outs, b, m.cfg.hidden) && state.Holds(m, b, hist)
    ensures forall bi: nat {:trigger hist[bi]} :: bi < b ==>
      && InputRows(hist[bi], m.cfg.hidden)
      && hist[bi] == Whole(RowsOf(chunks, b, m.cfg.hidden, bi))
      && Whole(RowsOf(outs, b, m.cfg.hidden, bi)) == AttentionSpec.Attention(m, hist[bi])
  {
    state := new AttnState.New();
    outs := [];
    hist := NoHistory(b, m.cfg.hidden);
    EmptyRemembers(m, b);
    for n := 0 to |chunks|
      invariant ChunksFit(outs, b, m.cfg.hidden) && state.Holds(m, b, hist) && fresh(state)
      invariant forall bi: nat {:trigger hist[bi]} :: bi < b ==> DecodedBatch(m, b, chunks[..n], outs, hist[bi], bi)
    {
      assert chunks[..n + 1] == chunks[..n] + [chunks[n]];
      ghost var len := state.len;
      var out := DecodeChunk(m, b, chunks[n], state, threads, chunks[..n], outs, hist);
      hist := Extended(hist, chunks[n].x, b, chunks[n].t, m.cfg.hidden, len);
      outs := outs + [out];
    }
    assert chunks[..|chunks|] == chunks;
  }
}
