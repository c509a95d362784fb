/** What the sums of the forward pass mean under exact arithmetic (qwen35-forward/gdn/src/lib.rs,
    qwen35-forward/delta/src/lib.rs): linear layers, convolution taps and norms. */
module FoldLaws {
  import opened Options
  import opened ExactArithmetic
  import opened FlatTensor
  import opened LinearLayer
  import opened Convolution
  import opened Norms
  import opened DeltaPrepare
  import opened GdnMixer

  // ------------------------------------------------------------------ linear layers

  lemma {:induction false} Dot64Is(ops: ExactOps, w: seq<real>, x: seq<real>, n: nat)
    requires n <= |w| && n <= |x|
    ensures Dot64(ops, w, x, n) == Inner(ops, w[..n], x[..n])
  {
    if n > 0 {
      Dot64Is(ops, w, x, n - 1);
      InnerNext(ops, w, x, n - 1);
      MulAdd64(ops, Dot64(ops, w, x, n - 1), w[n - 1], x[n - 1]);
    }
  }

  /** The weights of output `o`. */
  function WeightRow(w: seq<real>, bias: Option<seq<real>>, inDim: nat, outDim: nat, o: nat): (r: seq<real>)
    requires Shaped(w, bias, inDim, outDim) && o < outDim
    ensures |r| == inDim && o * inDim + inDim <= |w| && r == Row(w, o, inDim)
  {
    RowFits(o, outDim, inDim);
    Row(w, o, inDim)
  }

  /** An output is the inner product of its weights and the input, plus the bias. */
  lemma LinearIs(ops: ExactOps, w: seq<real>, bias: Option<seq<real>>, x: seq<real>, inDim: nat, outDim: nat, o: nat)
    requires Shaped(w, bias, inDim, outDim) && |x| == inDim && o < outDim
    ensures LinearAt(ops, w, bias, x, inDim, outDim, o)
         == Inner(ops, WeightRow(w, bias, inDim, outDim, o), x) + (if bias.Some? then bias.value[o] else 0.0)
  {
    var row := WeightRow(w, bias, inDim, outDim, o);
    Dot64Is(ops, row, x, inDim);
    assert row[..inDim] == row && x[..inDim] == x;
  }

  /** Without a bias the layer is linear in its input. */
  lemma LinearIsLinear(ops: ExactOps, w: seq<real>, a: real, x: seq<real>, b: real, y: seq<real>, inDim: nat, outDim: nat, o: nat)
    requires Shaped(w, None, inDim, outDim) && |x| == |y| == inDim && o < outDim
    ensures LinearAt(ops, w, None, Combined(ops, a, x, b, y), inDim, outDim, o)
         == ops.mul(a, LinearAt(ops, w, None, x, inDim, outDim, o)) + ops.mul(b, LinearAt(ops, w, None, y, inDim, outDim, o))
  {
    LinearIs(ops, w, None, x, inDim, outDim, o);
    LinearIs(ops, w, None, y, inDim, outDim, o);
    LinearIs(ops, w, None, Combined(ops, a, x, b, y), inDim, outDim, o);
    InnerLinearRight(ops, WeightRow(w, None, inDim, outDim, o), a, x, b, y, Combined(ops, a, x, b, y));
  }

  /** A unit input picks its column of the weights. */
  lemma UnitPicksColumn(ops: ExactOps, w: seq<real>, inDim: nat, outDim: nat, o: nat, i: nat)
    requires Shaped(w, None, inDim, outDim) && o < outDim && i < inDim
    ensures o * inDim + inDim <= |w| && LinearAt(ops, w, None, Unit(inDim, i), inDim, outDim, o) == w[o * inDim + i]
  {
    var row := WeightRow(w, None, inDim, outDim, o);
    LinearIs(ops, w, None, Unit(inDim, i), inDim, outDim, o);
    RowPick(ops, w, row, o * inDim, inDim, i);
  }

  lemma RowPick(ops: ExactOps, w: seq<real>, row: seq<real>, base: nat, n: nat, i: nat)
    requires base + n <= |w| && row == w[base..base + n] && i < n
    ensures Inner(ops, row, Unit(n, i)) == w[base + i]
  {
    InnerUnit(ops, row, i);
  }

  // ------------------------------------------------------------------ the convolution

  lemma {:induction false} TapsIs(ops: ExactOps, wc: seq<real>, window: seq<real>, n: nat)
    requires n <= |wc| && n <= |window|
    ensures Taps(ops, wc, window, n) == Inner(ops, wc[..n], window[..n])
  {
    if n > 0 {
      TapsIs(ops, wc, window, n - 1);
      InnerNext(ops, wc, window, n - 1);
    }
  }

  /** An output is the kernel's inner product with the last `|wc|` inputs, the newest under the last
      tap, plus the bias, activated. */
  lemma ConvIs(ops: ExactOps, wc: seq<real>, bias: Option<real>, full: seq<real>, t: nat, ti: nat)
    requires |full| == Keep(|wc|) + t && ti < t && wc != []
    ensures ConvRow(ops, wc, bias, full, t)[ti]
         == ops.silu(Inner(ops, wc, full[ti..ti + |wc|]) + (if bias.Some? then bias.value else 0.0))
  {
    TapsIs(ops, wc, full[ti..], |wc|);
    assert full[ti..][..|wc|] == full[ti..ti + |wc|] && wc[..|wc|] == wc;
  }

  /** An impulse at position `at` of context and chunk comes out as the kernel: the tap that lies
      over it at time `ti`, and nothing before and after. */
  lemma ImpulseResponse(ops: ExactOps, wc: seq<real>, at: nat, t: nat, ti: nat)
    requires at < Keep(|wc|) + t && ti < t && wc != []
    ensures ConvRow(ops, wc, None, Unit(Keep(|wc|) + t, at), t)[ti]
         == ops.silu(if ti <= at < ti + |wc| then wc[at - ti] else 0.0)
  {
    var full := Unit(Keep(|wc|) + t, at);
    ConvIs(ops, wc, None, full, t, ti);
    ImpulseUnder(ops, wc, full[ti..ti + |wc|], at - ti);
  }

  lemma ImpulseUnder(ops: ExactOps, wc: seq<real>, window: seq<real>, at: int)
    requires |window| == |wc| && forall j :: 0 <= j < |wc| ==> window[j] == if j == at then 1.0 else 0.0
    ensures Inner(ops, wc, window) == if 0 <= at < |wc| then wc[at] else 0.0
  {
    if 0 <= at < |wc| {
      assert window == Unit(|wc|, at);
      InnerUnit(ops, wc, at);
    } else {
      var ps := Products(ops, wc, window);
      forall j | 0 <= j < |wc| ensures ps[j] == 0.0 {
        MulUnits(ops, wc[j]);
      }
      SumZeros(ps);
    }
  }

  // ------------------------------------------------------------------ norms

  lemma {:induction false} SquareSumIs(ops: ExactOps, row: seq<real>, n: nat)
    requires n <= |row|
    ensures SquareSum(ops, row, n) == Inner(ops, row[..n], row[..n])
  {
    if n > 0 {
      SquareSumIs(ops, row, n - 1);
      InnerNext(ops, row, row, n - 1);
    }
  }

  lemma {:induction false} SquareSum64Is(ops: ExactOps, row: seq<real>, n: nat)
    requires n <= |row|
    ensures SquareSum64(ops, row, n) == Inner(ops, row[..n], row[..n])
  {
    if n > 0 {
      SquareSum64Is(ops, row, n - 1);
      InnerNext(ops, row, row, n - 1);
      MulAdd64(ops, SquareSum64(ops, row, n - 1), row[n - 1], row[n - 1]);
    }
  }

  /** Scaling a vector by `k` scales its square by `k * k`. */
  lemma ScaledSquare(ops: ExactOps, k: real, x: seq<real>, y: seq<real>)
    requires |y| == |x| && forall i :: 0 <= i < |x| ==> y[i] == ops.mul(x[i], k)
    ensures Inner(ops, y, y) == ops.mul(ops.mul(k, k), Inner(ops, x, x))
  {
    var px, py := Products(ops, x, x), Products(ops, y, y);
    forall i | 0 <= i < |x| ensures py[i] == ops.mul(ops.mul(k, k), px[i]) {
      SquareOfProduct(ops, x[i], k);
    }
    SumScaled(ops, ops.mul(k, k), px, py);
  }

  lemma SquareOfProduct(ops: ExactOps, x: real, k: real)
    ensures ops.mul(ops.mul(x, k), ops.mul(x, k)) == ops.mul(ops.mul(k, k), ops.mul(x, x))
  {
    MulAssociative(ops, x, k, ops.mul(x, k));
    MulSymmetric(ops, x, k);
    MulAssociative(ops, k, k, x);
    MulAssociative(ops, x, ops.mul(k, k), x);
    MulSymmetric(ops, x, ops.mul(k, k));
    MulAssociative(ops, ops.mul(k, k), x, x);
  }

  /** One over a root, squared. */
  lemma InverseRootSquared(ops: ExactOps, x: real, k: real)
    requires ExactSqrt(ops) && x > 0.0 && k == ops.div(ops.one, ops.sqrt(x))
    ensures ops.mul(ops.mul(k, k), x) == 1.0
  {
    var s := ops.sqrt(x);
    if s == 0.0 {
      MulUnits(ops, s);
      assert false;
    }
    DivIs(ops, 1.0, s);
    MulSymmetric(ops, k, s);
    SquareOfProduct(ops, s, k);
    MulUnits(ops, 1.0);
  }

  /** A prepared key has length one, but for the epsilon under the root. */
  lemma PreparedKeyIsUnit(ops: ExactOps, x: seq<real>)
    requires ExactSqrt(ops) && ops.epsilon > 0.0
    ensures var y := L2Normed(ops, x);
            ops.mul(Inner(ops, y, y), Inner(ops, x, x) + ops.epsilon) == Inner(ops, x, x)
  {
    var d := Inner(ops, x, x) + ops.epsilon;
    InnerSelf(ops, x);
    NormedIs(ops, x);
    OverRoot(ops, x, d, L2Normed(ops, x), ops.div(1.0, ops.sqrt(d)));
  }

  lemma NormedIs(ops: ExactOps, x: seq<real>)
    ensures var k := ops.div(1.0, ops.sqrt(Inner(ops, x, x) + ops.epsilon));
            forall i :: 0 <= i < |x| ==> L2Normed(ops, x)[i] == ops.mul(x[i], k)
  {
    SquareSumIs(ops, x, |x|);
    assert x[..|x|] == x;
  }

  /** A vector over the root of `d`. */
  lemma OverRoot(ops: ExactOps, x: seq<real>, d: real, y: seq<real>, k: real)
    requires ExactSqrt(ops) && k == ops.div(ops.one, ops.sqrt(d)) && |y| == |x|
    requires forall i :: 0 <= i < |x| ==> y[i] == ops.mul(x[i], k)
    requires d > 0.0
    ensures ops.mul(Inner(ops, y, y), d) == Inner(ops, x, x)
  {
    var n := Inner(ops, x, x);
    InnerSelf(ops, x);
    InverseRootSquared(ops, d, k);
    ScaledSquare(ops, k, x, y);
    var kk := ops.mul(k, k);
    MulSymmetric(ops, kk, n);
    MulAssociative(ops, n, kk, d);
    MulUnits(ops, n);
  }

  /** A row over its root mean square has mean square one, but for the epsilon. */
  lemma RmsIsOne(ops: ExactOps, x: seq<real>, eps: real, y: seq<real>)
    requires ExactSqrt(ops) && eps > 0.0 && x != [] && |y| == |x|
    requires forall i :: 0 <= i < |x| ==> y[i] == ops.mul(x[i], InverseRms(ops, x, eps))
    ensures ops.mul(Inner(ops, y, y), ops.div(Inner(ops, x, x), |x| as real) + eps) == Inner(ops, x, x)
  {
    InnerSelf(ops, x);
    InverseRmsIs(ops, x, eps);
    var mean := ops.div(Inner(ops, x, x), |x| as real);
    NonnegativeQuotient(ops, Inner(ops, x, x), |x| as real);
    OverRoot(ops, x, mean + eps, y, InverseRms(ops, x, eps));
  }

  lemma InverseRmsIs(ops: ExactOps, x: seq<real>, eps: real)
    ensures InverseRms(ops, x, eps) == ops.div(1.0, ops.sqrt(ops.div(Inner(ops, x, x), |x| as real) + eps))
  {
    SquareSum64Is(ops, x, |x|);
    assert x[..|x|] == x;
  }

  lemma NonnegativeQuotient(ops: ExactOps, x: real, y: real)
    requires x >= 0.0 && y > 0.0
    ensures ops.div(x, y) >= 0.0
  {
    DivIs(ops, x, y);
    MulIs(ops, ops.div(x, y), y);
  }

  /** The log decay is never positive, so that no state grows by decaying. */
  lemma DecayShrinks(ops: ExactOps, aLog: real, dtBias: real, a: real)
    requires ExactExp(ops) && forall y :: ops.softplus(y) >= 0.0
    ensures var g := LogDecay(ops, aLog, dtBias, a); g <= 0.0 && 0.0 < ops.exp(g) <= 1.0
  {
    ExpPositive(ops, aLog);
    Shrinks(ops, ops.neg(ops.exp(aLog)), ops.softplus(ops.add(a, dtBias)));
  }

  lemma Shrinks(ops: ExactOps, x: real, s: real)
    requires ExactExp(ops) && x <= 0.0 <= s
    ensures ops.mul(x, s) <= 0.0 && 0.0 < ops.exp(ops.mul(x, s)) <= 1.0
  {
    var g := ops.mul(x, s);
    MulSigns(ops, x, s);
    ExpPositive(ops, g);
    ExpOfZero(ops);
    ExpRises(ops, g, 0.0);
    ExpRises(ops, 0.0, g);
  }
}
