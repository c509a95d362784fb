/** `linear` (qwen35-forward/gdn/src/lib.rs): the serial loop and the split over threads
    compute the same rows. */
module LinearLayer {
  import opened Options
  import opened FlatTensor
  import opened FloatOps
  import opened Rows

  /** The f64 accumulation over the first `n` inputs, in order. */
  function Dot64<F, D>(ops: Ops<F, D>, w: seq<F>, x: seq<F>, n: nat): D
    requires n <= |w| && n <= |x|
  {
    if n == 0 then ops.zero64
    else ops.add64(Dot64(ops, w, x, n - 1), ops.mul64(ops.widen(w[n - 1]), ops.widen(x[n - 1])))
  }

  predicate Shaped<F>(w: seq<F>, bias: Option<seq<F>>, inDim: nat, outDim: nat) {
    |w| == outDim * inDim && (bias.Some? ==> |bias.value| == outDim)
  }

  /** Output `o` for one input row. */
  function LinearAt<F, D>(ops: Ops<F, D>, w: seq<F>, bias: Option<seq<F>>, x: seq<F>,
                          inDim: nat, outDim: nat, o: nat): F
    requires Shaped(w, bias, inDim, outDim) && |x| == inDim && o < outDim
  {
    RowFits(o, outDim, inDim);
    var acc := Dot64(ops, Row(w, o, inDim), x, inDim);
    ops.narrow(if bias.Some? then ops.add64(acc, ops.widen(bias.value[o])) else acc)
  }

  function LinearRow<F, D>(ops: Ops<F, D>, w: seq<F>, bias: Option<seq<F>>, x: seq<F>,
                           inDim: nat, outDim: nat): (r: seq<F>)
    requires Shaped(w, bias, inDim, outDim) && |x| == inDim
    ensures |r| == outDim
  {
    seq(outDim, o requires 0 <= o < outDim => LinearAt(ops, w, bias, x, inDim, outDim, o))
  }

  /** The inner loop: one output element. */
  method Element<F, D>(ops: Ops<F, D>, w: seq<F>, bias: Option<seq<F>>, x: seq<F>,
                       inDim: nat, outDim: nat, o: nat) returns (v: F)
    requires Shaped(w, bias, inDim, outDim) && |x| == inDim && o < outDim
    ensures v == LinearAt(ops, w, bias, x, inDim, outDim, o)
  {
    RowFits(o, outDim, inDim);
    var wo := w[o * inDim..o * inDim + inDim];
    var acc := ops.zero64;
    for i := 0 to inDim
      invariant acc == Dot64(ops, wo, x, i)
    {
      acc := ops.add64(acc, ops.mul64(ops.widen(wo[i]), ops.widen(x[i])));
    }
    if bias.Some? {
      acc := ops.add64(acc, ops.widen(bias.value[o]));
    }
    v := ops.narrow(acc);
  }

  /** The output elements before flat index `upto` are the linear map of their rows. */
  ghost predicate FilledTo<F, D>(ops: Ops<F, D>, w: seq<F>, bias: Option<seq<F>>, x: seq<F>,
                                 rows: nat, inDim: nat, outDim: nat, y: seq<F>, upto: nat)
    requires Shaped(w, bias, inDim, outDim) && |x| == rows * inDim && |y| == rows * outDim
  {
    forall r: nat, o: nat {:trigger Ix(r, outDim, o)} ::
      r < rows && o < outDim && Ix(r, outDim, o) < upto ==>
        ElementIs(ops, w, bias, x, rows, inDim, outDim, y, r, o)
  }

  ghost predicate ElementIs<F, D>(ops: Ops<F, D>, w: seq<F>, bias: Option<seq<F>>, x: seq<F>,
                                  rows: nat, inDim: nat, outDim: nat, y: seq<F>, r: nat, o: nat)
    requires Shaped(w, bias, inDim, outDim) && |x| == rows * inDim && |y| == rows * outDim
    requires r < rows && o < outDim
  {
    RowFits(r, rows, inDim);
    IxFits(r, rows, outDim, o);
    y[Ix(r, outDim, o)] == LinearAt(ops, w, bias, Row(x, r, inDim), inDim, outDim, o)
  }

  /** What both paths compute: row `r` of the output is the map of row `r` of the input. */
  ghost predicate RowsMapped<F, D>(ops: Ops<F, D>, w: seq<F>, bias: Option<seq<F>>, x: seq<F>,
                                   rows: nat, inDim: nat, outDim: nat, y: seq<F>)
    requires Shaped(w, bias, inDim, outDim) && |x| == rows * inDim
  {
    && |y| == rows * outDim
    && forall r: nat {:trigger Row(y, r, outDim)} :: r < rows ==>
         && r * inDim + inDim <= |x| && r * outDim + outDim <= |y|
         && Row(y, r, outDim) == LinearRow(ops, w, bias, Row(x, r, inDim), inDim, outDim)
  }

  lemma FilledMeansMapped<F, D>(ops: Ops<F, D>, w: seq<F>, bias: Option<seq<F>>, x: seq<F>,
                                rows: nat, inDim: nat, outDim: nat, y: seq<F>)
    requires Shaped(w, bias, inDim, outDim) && |x| == rows * inDim && |y| == rows * outDim
    requires FilledTo(ops, w, bias, x, rows, inDim, outDim, y, rows * outDim)
    ensures RowsMapped(ops, w, bias, x, rows, inDim, outDim, y)
  {
    forall r: nat | r < rows
      ensures r * inDim + inDim <= |x| && r * outDim + outDim <= |y|
      ensures Row(y, r, outDim) == LinearRow(ops, w, bias, Row(x, r, inDim), inDim, outDim)
    {
      RowFits(r, rows, inDim);
      RowFits(r, rows, outDim);
      forall o: nat | o < outDim
        ensures Row(y, r, outDim)[o] == LinearAt(ops, w, bias, Row(x, r, inDim), inDim, outDim, o)
      {
        IxFits(r, rows, outDim, o);
        assert ElementIs(ops, w, bias, x, rows, inDim, outDim, y, r, o);
      }
    }
  }

  /** Writing the element after those already filled. */
  lemma FillNext<F, D>(ops: Ops<F, D>, w: seq<F>, bias: Option<seq<F>>, x: seq<F>,
                       rows: nat, inDim: nat, outDim: nat, y: seq<F>, r: nat, o: nat)
    requires Shaped(w, bias, inDim, outDim) && |x| == rows * inDim && |y| == rows * outDim
    requires r < rows && o < outDim
    requires FilledTo(ops, w, bias, x, rows, inDim, outDim, y, Ix(r, outDim, o))
    ensures r * inDim + inDim <= |x| && Ix(r, outDim, o) < |y|
    ensures var v := LinearAt(ops, w, bias, Row(x, r, inDim), inDim, outDim, o);
            FilledTo(ops, w, bias, x, rows, inDim, outDim, y[Ix(r, outDim, o) := v], Ix(r, outDim, o) + 1)
  {
    RowFits(r, rows, inDim);
    IxFits(r, rows, outDim, o);
    var v := LinearAt(ops, w, bias, Row(x, r, inDim), inDim, outDim, o);
    var z := y[Ix(r, outDim, o) := v];
    forall s: nat, p: nat | s < rows && p < outDim && Ix(s, outDim, p) < Ix(r, outDim, o) + 1
      ensures ElementIs(ops, w, bias, x, rows, inDim, outDim, z, s, p)
    {
      if Ix(s, outDim, p) == Ix(r, outDim, o) {
        IxInjective(s, p, r, o, outDim);
      } else {
        assert ElementIs(ops, w, bias, x, rows, inDim, outDim, y, s, p);
      }
    }
  }

  /** One row of the serial path. */
  method SerialRow<F, D>(ops: Ops<F, D>, w: seq<F>, bias: Option<seq<F>>, x: seq<F>,
                         rows: nat, inDim: nat, outDim: nat, y0: seq<F>, r: nat) returns (y: seq<F>)
    requires Shaped(w, bias, inDim, outDim) && |x| == rows * inDim && |y0| == rows * outDim
    requires r < rows && FilledTo(ops, w, bias, x, rows, inDim, outDim, y0, Ix(r, outDim, 0))
    ensures |y| == |y0| && FilledTo(ops, w, bias, x, rows, inDim, outDim, y, Ix(r, outDim, outDim))
  {
    y := y0;
    RowFits(r, rows, inDim);
    var xr := Row(x, r, inDim);
    for o := 0 to outDim
      invariant |y| == |y0|
      invariant FilledTo(ops, w, bias, x, rows, inDim, outDim, y, Ix(r, outDim, o))
    {
      FillNext(ops, w, bias, x, rows, inDim, outDim, y, r, o);
      var v := Element(ops, w, bias, xr, inDim, outDim, o);
      y := y[r * outDim + o := v];
    }
  }

  lemma NextRow(r: nat, n: nat)
    ensures Ix(r, n, n) == Ix(r + 1, n, 0)
  {
  }

  /** The serial path: row by row, output by output. */
  method LinearSerial<F, D>(ops: Ops<F, D>, w: seq<F>, bias: Option<seq<F>>, x: seq<F>,
                            rows: nat, inDim: nat, outDim: nat) returns (y: seq<F>)
    requires Shaped(w, bias, inDim, outDim) && |x| == rows * inDim
    ensures RowsMapped(ops, w, bias, x, rows, inDim, outDim, y)
  {
    y := seq(rows * outDim, _ => ops.zero);
    for r := 0 to rows
      invariant |y| == rows * outDim
      invariant FilledTo(ops, w, bias, x, rows, inDim, outDim, y, Ix(r, outDim, 0))
    {
      y := SerialRow(ops, w, bias, x, rows, inDim, outDim, y, r);
      NextRow(r, outDim);
    }
    FilledMeansMapped(ops, w, bias, x, rows, inDim, outDim, y);
  }

  // -------------------------------------------------------------- the thread split

  function CeilDiv(x: nat, y: nat): (q: nat)
    requires y > 0
    ensures q * y >= x
  {
    assert (x + y - 1) / y * y + (x + y - 1) % y == x + y - 1;
    (x + y - 1) / y
  }

  /** The flat range thread `ci` writes. */
  predicate InChunk(ci: nat, chunk: nat, items: nat, k: nat) {
    ci * chunk <= k < ci * chunk + chunk && k < items
  }

  /** Every flat index is written by exactly one thread. */
  lemma ChunksPartition(chunk: nat, items: nat, k: nat, ci: nat)
    requires chunk > 0 && k < items
    ensures InChunk(ci, chunk, items, k) <==> ci == k / chunk
  {
    var q := k / chunk;
    assert q * chunk + k % chunk == k;
    var d := ci - q;
    assert ci * chunk == q * chunk + d * chunk;
    assert d >= 1 ==> d * chunk >= chunk;
    assert d <= -1 ==> d * chunk + chunk <= 0;
  }

  /** One thread's walk over its range: `r` and `o` are advanced, never divided again, and
      always name the row and output of the element being written. */
  method ThreadChunk<F, D>(ops: Ops<F, D>, w: seq<F>, bias: Option<seq<F>>, x: seq<F>,
                           rows: nat, inDim: nat, outDim: nat, y0: seq<F>, base: nat, length: nat)
    returns (y: seq<F>)
    requires Shaped(w, bias, inDim, outDim) && |x| == rows * inDim && |y0| == rows * outDim
    requires outDim > 0 && base + length <= rows * outDim && base < rows * outDim
    requires FilledTo(ops, w, bias, x, rows, inDim, outDim, y0, base)
    ensures |y| == |y0| && FilledTo(ops, w, bias, x, rows, inDim, outDim, y, base + length)
  {
    y := y0;
    var r: nat, o: nat := base / outDim, base % outDim;
    WalkStart(base, rows, outDim);
    RowFits(r, rows, inDim);
    var xr := Row(x, r, inDim);
    for k := 0 to length
      invariant |y| == |y0| && o < outDim && Ix(r, outDim, o) == base + k
      invariant r < rows ==> r * inDim + inDim <= |x| && xr == Row(x, r, inDim)
      invariant FilledTo(ops, w, bias, x, rows, inDim, outDim, y, base + k)
    {
      WalkInside(r, o, rows, outDim);
      FillNext(ops, w, bias, x, rows, inDim, outDim, y, r, o);
      var v := Element(ops, w, bias, xr, inDim, outDim, o);
      y := y[base + k := v];
      o := o + 1;
      if o == outDim {
        NextRow(r, outDim);
        o := 0;
        r := r + 1;
        if r < rows {
          RowFits(r, rows, inDim);
          xr := Row(x, r, inDim);
        }
      }
    }
  }

  /** The parallel path for any number of threads. */
  method LinearParallel<F, D>(ops: Ops<F, D>, w: seq<F>, bias: Option<seq<F>>, x: seq<F>,
                              rows: nat, inDim: nat, outDim: nat, threads: nat) returns (y: seq<F>)
    requires Shaped(w, bias, inDim, outDim) && |x| == rows * inDim
    requires rows > 0 && outDim > 0 && threads > 0
    ensures RowsMapped(ops, w, bias, x, rows, inDim, outDim, y)
  {
    var items := rows * outDim;
    y := seq(items, _ => ops.zero);
    var chunk := CeilDiv(items, threads);
    if chunk < 1 {
      chunk := 1;
    }
    var base := 0;
    while base < items
      invariant |y| == items && base <= items
      invariant FilledTo(ops, w, bias, x, rows, inDim, outDim, y, base)
    {
      var length := if items - base < chunk then items - base else chunk;
      y := ThreadChunk(ops, w, bias, x, rows, inDim, outDim, y, base, length);
      base := base + length;
    }
    FilledMeansMapped(ops, w, bias, x, rows, inDim, outDim, y);
  }

  /** `linear`: serial for at most one thread, split otherwise. `threads` is what the work
      and the machine allow. */
  method Linear<F, D>(ops: Ops<F, D>, w: seq<F>, bias: Option<seq<F>>, x: seq<F>,
                      rows: nat, inDim: nat, outDim: nat, threads: nat) returns (y: seq<F>)
    requires Shaped(w, bias, inDim, outDim) && |x| == rows * inDim
    ensures RowsMapped(ops, w, bias, x, rows, inDim, outDim, y)
  {
    if rows == 0 || outDim == 0 || threads <= 1 {
      y := LinearSerial(ops, w, bias, x, rows, inDim, outDim);
    } else {
      y := LinearParallel(ops, w, bias, x, rows, inDim, outDim, threads);
    }
  }

  /** The output is determined: any two results of the two paths are the same vector. */
  lemma MappedUnique<F, D>(ops: Ops<F, D>, w: seq<F>, bias: Option<seq<F>>, x: seq<F>,
                           rows: nat, inDim: nat, outDim: nat, y: seq<F>, z: seq<F>)
    requires Shaped(w, bias, inDim, outDim) && |x| == rows * inDim
    requires RowsMapped(ops, w, bias, x, rows, inDim, outDim, y)
    requires RowsMapped(ops, w, bias, x, rows, inDim, outDim, z)
    ensures y == z
  {
    forall r: nat | r < rows
      ensures r * outDim + outDim <= |y| && Row(y, r, outDim) == Row(z, r, outDim)
    {
      RowFits(r, rows, outDim);
      RowFits(r, rows, inDim);
      assert Row(y, r, outDim) == LinearRow(ops, w, bias, Row(x, r, inDim), inDim, outDim);
      assert Row(z, r, outDim) == LinearRow(ops, w, bias, Row(x, r, inDim), inDim, outDim);
    }
    RowsDetermine(y, z, rows, outDim);
  }

  /** A projection's row. */
  lemma MappedRow<F, D>(ops: Ops<F, D>, w: seq<F>, x: seq<F>, b: nat, t: nat, inDim: nat, outDim: nat, y: seq<F>,
                        bi: nat, i: nat)
    requires Shaped(w, None, inDim, outDim) && |x| == b * t * inDim && bi < b && i < t
    requires RowsMapped(ops, w, None, x, b * t, inDim, outDim, y)
    ensures Ix(bi, t, i) * outDim + outDim <= |y|
    ensures Row(y, Ix(bi, t, i), outDim) == LinearRow(ops, w, None, RowAt(x, b, t, inDim, bi, i), inDim, outDim)
  {
    IxFits(bi, b, t, i);
    var r := Ix(bi, t, i);
    RowFits(r, b * t, outDim);
    RowFits(r, b * t, inDim);
    assert Row(y, r, outDim) == LinearRow(ops, w, None, Row(x, r, inDim), inDim, outDim);
  }
}
