/** The loops of the gated-delta-net mixer's `forward_impl` over flat buffers
    (qwen35-forward/gdn/src/lib.rs). */
module GdnStages {
  import opened FlatTensor
  import opened FloatOps
  import opened Rows
  import opened Norms
  import opened Axes
  import opened GdnMixer

  // ------------------------------------------------------------------ splitting q, k, v

  method SplitQkv<F>(x: seq<F>, rows: nat, kd: nat, vd: nat, zero: F) returns (q: seq<F>, k: seq<F>, v: seq<F>)
    requires |x| == rows * (kd * 2 + vd)
    ensures |q| == rows * kd && CutTo(x, kd * 2 + vd, 0, kd, q, rows)
    ensures |k| == rows * kd && CutTo(x, kd * 2 + vd, kd, kd, k, rows)
    ensures |v| == rows * vd && CutTo(x, kd * 2 + vd, kd * 2, vd, v, rows)
  {
    var width := kd * 2 + vd;
    q, k, v := seq(rows * kd, _ => zero), seq(rows * kd, _ => zero), seq(rows * vd, _ => zero);
    for r := 0 to rows
      invariant |q| == rows * kd && CutTo(x, width, 0, kd, q, r)
      invariant |k| == rows * kd && CutTo(x, width, kd, kd, k, r)
      invariant |v| == rows * vd && CutTo(x, width, kd * 2, vd, v, r)
    {
      CutNext(x, width, 0, kd, q, rows, r);
      CutNext(x, width, kd, kd, k, rows, r);
      CutNext(x, width, kd * 2, vd, v, rows, r);
      var src := Row(x, r, width);
      q := SetRow(q, r, kd, src[0..kd]);
      k := SetRow(k, r, kd, src[kd..kd + kd]);
      v := SetRow(v, r, vd, src[kd * 2..kd * 2 + vd]);
    }
  }

  // ------------------------------------------------------------------ beta and g

  ghost predicate GateDone<F, D>(ops: Ops<F, D>, aLog: seq<F>, dtBias: seq<F>, a: seq<F>, b: seq<F>,
                                 beta: seq<F>, g: seq<F>, heads: nat, r: nat, h: nat) {
    var i := Ix(r, heads, h);
    && i < |a| && i < |b| && i < |beta| && i < |g| && h < |aLog| && h < |dtBias|
    && beta[i] == ops.sigmoid(b[i])
    && g[i] == ops.mul(ops.neg(ops.exp(aLog[h])), ops.softplus(ops.add(a[i], dtBias[h])))
  }

  ghost predicate GatesTo<F, D>(ops: Ops<F, D>, aLog: seq<F>, dtBias: seq<F>, a: seq<F>, b: seq<F>,
                                beta: seq<F>, g: seq<F>, rows: nat, heads: nat, upto: nat) {
    forall r: nat, h: nat {:trigger GateDone(ops, aLog, dtBias, a, b, beta, g, heads, r, h)} ::
      r < rows && h < heads && Ix(r, heads, h) < upto ==> GateDone(ops, aLog, dtBias, a, b, beta, g, heads, r, h)
  }

  lemma GateNext<F, D>(ops: Ops<F, D>, aLog: seq<F>, dtBias: seq<F>, a: seq<F>, b: seq<F>,
                       beta: seq<F>, g: seq<F>, rows: nat, heads: nat, r: nat, h: nat, u: F, v: F)
    requires |a| == |b| == |beta| == |g| == rows * heads && |aLog| == |dtBias| == heads
    requires r < rows && h < heads && GatesTo(ops, aLog, dtBias, a, b, beta, g, rows, heads, Ix(r, heads, h))
    ensures Ix(r, heads, h) < rows * heads
    ensures var i := Ix(r, heads, h);
            && u == ops.sigmoid(b[i])
            && v == ops.mul(ops.neg(ops.exp(aLog[h])), ops.softplus(ops.add(a[i], dtBias[h])))
            ==> GatesTo(ops, aLog, dtBias, a, b, beta[i := u], g[i := v], rows, heads, i + 1)
  {
    IxFits(r, rows, heads, h);
    var i := Ix(r, heads, h);
    if u == ops.sigmoid(b[i])
      && v == ops.mul(ops.neg(ops.exp(aLog[h])), ops.softplus(ops.add(a[i], dtBias[h]))) {
      forall s: nat, j: nat | s < rows && j < heads && Ix(s, heads, j) < i + 1
        ensures GateDone(ops, aLog, dtBias, a, b, beta[i := u], g[i := v], heads, s, j)
      {
        if Ix(s, heads, j) == i {
          IxInjective(s, j, r, h, heads);
        } else {
          assert GateDone(ops, aLog, dtBias, a, b, beta, g, heads, s, j);
        }
      }
    }
  }

  method GateRow<F, D>(ops: Ops<F, D>, aLog: seq<F>, dtBias: seq<F>, a: seq<F>, b: seq<F>,
                       beta0: seq<F>, g0: seq<F>, rows: nat, heads: nat, r: nat) returns (beta: seq<F>, g: seq<F>)
    requires |a| == |b| == |beta0| == |g0| == rows * heads && |aLog| == |dtBias| == heads && r < rows
    requires GatesTo(ops, aLog, dtBias, a, b, beta0, g0, rows, heads, Ix(r, heads, 0))
    ensures |beta| == |g| == rows * heads
    ensures GatesTo(ops, aLog, dtBias, a, b, beta, g, rows, heads, Ix(r, heads, heads))
  {
    beta, g := beta0, g0;
    for h := 0 to heads
      invariant |beta| == |g| == rows * heads
      invariant GatesTo(ops, aLog, dtBias, a, b, beta, g, rows, heads, Ix(r, heads, h))
    {
      IxFits(r, rows, heads, h);
      var i := Ix(r, heads, h);
      var u := ops.sigmoid(b[i]);
      var v := ops.mul(ops.neg(ops.exp(aLog[h])), ops.softplus(ops.add(a[i], dtBias[h])));
      GateNext(ops, aLog, dtBias, a, b, beta, g, rows, heads, r, h, u, v);
      beta, g := beta[i := u], g[i := v];
    }
  }

  /** Step 4 of the mixer: `beta` and the log decay of every row and head. */
  method Gates<F, D>(ops: Ops<F, D>, aLog: seq<F>, dtBias: seq<F>, a: seq<F>, b: seq<F>, rows: nat, heads: nat)
    returns (beta: seq<F>, g: seq<F>)
    requires |a| == |b| == rows * heads && |aLog| == |dtBias| == heads
    ensures |beta| == |g| == rows * heads
    ensures forall r: nat, h: nat {:trigger GateDone(ops, aLog, dtBias, a, b, beta, g, heads, r, h)} ::
      r < rows && h < heads ==> GateDone(ops, aLog, dtBias, a, b, beta, g, heads, r, h)
  {
    beta, g := seq(rows * heads, _ => ops.zero), seq(rows * heads, _ => ops.zero);
    for r := 0 to rows
      invariant |beta| == |g| == rows * heads
      invariant GatesTo(ops, aLog, dtBias, a, b, beta, g, rows, heads, Ix(r, heads, 0))
    {
      beta, g := GateRow(ops, aLog, dtBias, a, b, beta, g, rows, heads, r);
      LastInRow(r, heads);
    }
    forall r: nat, h: nat | r < rows && h < heads ensures GateDone(ops, aLog, dtBias, a, b, beta, g, heads, r, h) {
      IxFits(r, rows, heads, h);
    }
  }

  // ------------------------------------------------------------------ head expansion

  /** Copy `rep` of vector `p`. */
  ghost predicate Copied<F>(x: seq<F>, y: seq<F>, ratio: nat, d: nat, p: nat, rep: nat) {
    && p * d + d <= |x| && Ix(p, ratio, rep) * d + d <= |y|
    && Row(y, Ix(p, ratio, rep), d) == Row(x, p, d)
  }

  ghost predicate CopiedTo<F>(x: seq<F>, y: seq<F>, vectors: nat, ratio: nat, d: nat, upto: nat) {
    forall p: nat, rep: nat {:trigger Copied(x, y, ratio, d, p, rep)} ::
      p < vectors && rep < ratio && Ix(p, ratio, rep) < upto ==> Copied(x, y, ratio, d, p, rep)
  }

  ghost predicate Repeated<F>(x: seq<F>, y: seq<F>, vectors: nat, ratio: nat, d: nat) {
    && |y| == vectors * ratio * d
    && forall p: nat, rep: nat {:trigger Copied(x, y, ratio, d, p, rep)} ::
      p < vectors && rep < ratio ==> Copied(x, y, ratio, d, p, rep)
  }

  lemma CopyNext<F>(x: seq<F>, y: seq<F>, vectors: nat, ratio: nat, d: nat, p: nat, rep: nat)
    requires |x| == vectors * d && |y| == vectors * ratio * d && p < vectors && rep < ratio
    requires CopiedTo(x, y, vectors, ratio, d, Ix(p, ratio, rep))
    ensures p * d + d <= |x| && Ix(p, ratio, rep) * d + d <= |y|
    ensures CopiedTo(x, SetRow(y, Ix(p, ratio, rep), d, Row(x, p, d)), vectors, ratio, d, Ix(p, ratio, rep) + 1)
  {
    CopyFits(vectors, ratio, d, p, rep);
    var n := Ix(p, ratio, rep);
    var row := Row(x, p, d);
    forall q: nat, s: nat | q < vectors && s < ratio && Ix(q, ratio, s) < n + 1
      ensures Copied(x, SetRow(y, n, d, row), ratio, d, q, s)
    {
      CopyFits(vectors, ratio, d, q, s);
      RowOfSetRow(y, n, Ix(q, ratio, s), d, row);
      if Ix(q, ratio, s) == n {
        IxInjective(q, s, p, rep, ratio);
      } else {
        assert Copied(x, y, ratio, d, q, s);
      }
    }
  }

  lemma CopyFits(vectors: nat, ratio: nat, d: nat, p: nat, rep: nat)
    requires p < vectors && rep < ratio
    ensures p * d + d <= vectors * d && Ix(p, ratio, rep) < vectors * ratio
    ensures Ix(p, ratio, rep) * d + d <= vectors * ratio * d
  {
    RowFits(p, vectors, d);
    IxFits(p, vectors, ratio, rep);
    RowFits(Ix(p, ratio, rep), vectors * ratio, d);
  }

  method RepeatVector<F>(x: seq<F>, y0: seq<F>, vectors: nat, ratio: nat, d: nat, p: nat) returns (y: seq<F>)
    requires |x| == vectors * d && |y0| == vectors * ratio * d && p < vectors
    requires CopiedTo(x, y0, vectors, ratio, d, Ix(p, ratio, 0))
    ensures |y| == |y0| && CopiedTo(x, y, vectors, ratio, d, Ix(p, ratio, ratio))
  {
    y := y0;
    for rep := 0 to ratio
      invariant |y| == |y0| && CopiedTo(x, y, vectors, ratio, d, Ix(p, ratio, rep))
    {
      CopyNext(x, y, vectors, ratio, d, p, rep);
      y := SetRow(y, Ix(p, ratio, rep), d, Row(x, p, d));
    }
  }

  method RepeatPosition<F>(x: seq<F>, y0: seq<F>, b: nat, t: nat, h: nat, d: nat, ratio: nat, bi: nat, ti: nat)
    returns (y: seq<F>)
    requires |x| == b * t * h * d && |y0| == b * t * h * ratio * d && bi < b && ti < t
    requires CopiedTo(x, y0, b * t * h, ratio, d, Ix(Ix3(bi, t, ti, h, 0), ratio, 0))
    ensures |y| == |y0| && CopiedTo(x, y, b * t * h, ratio, d, Ix(Ix3(bi, t, ti, h, h), ratio, 0))
  {
    y := y0;
    for hi := 0 to h
      invariant |y| == |y0| && CopiedTo(x, y, b * t * h, ratio, d, Ix(Ix3(bi, t, ti, h, hi), ratio, 0))
    {
      Ix3Fits(b, bi, t, ti, h, hi, d);
      y := RepeatVector(x, y, b * t * h, ratio, d, Ix3(bi, t, ti, h, hi));
      LastInRow(Ix3(bi, t, ti, h, hi), ratio);
    }
  }

  method RepeatBatch<F>(x: seq<F>, y0: seq<F>, b: nat, t: nat, h: nat, d: nat, ratio: nat, bi: nat)
    returns (y: seq<F>)
    requires |x| == b * t * h * d && |y0| == b * t * h * ratio * d && bi < b
    requires CopiedTo(x, y0, b * t * h, ratio, d, Ix(Ix3(bi, t, 0, h, 0), ratio, 0))
    ensures |y| == |y0| && CopiedTo(x, y, b * t * h, ratio, d, Ix(Ix3(bi, t, t, h, 0), ratio, 0))
  {
    y := y0;
    for ti := 0 to t
      invariant |y| == |y0| && CopiedTo(x, y, b * t * h, ratio, d, Ix(Ix3(bi, t, ti, h, 0), ratio, 0))
    {
      y := RepeatPosition(x, y, b, t, h, d, ratio, bi, ti);
      LastInRow(Ix(bi, t, ti), h);
    }
  }

  lemma CopiedOnce<F>(x: seq<F>, vectors: nat, d: nat)
    requires |x| == vectors * d
    ensures Repeated(x, x, vectors, 1, d)
  {
    forall p: nat, rep: nat | p < vectors && rep < 1 ensures Copied(x, x, 1, d, p, rep) {
      RowFits(p, vectors, d);
    }
  }

  lemma AllCopied<F>(x: seq<F>, y: seq<F>, b: nat, t: nat, h: nat, ratio: nat, d: nat)
    requires |y| == b * t * h * ratio * d
    requires CopiedTo(x, y, b * t * h, ratio, d, Ix(Ix3(b, t, 0, h, 0), ratio, 0))
    ensures Repeated(x, y, b * t * h, ratio, d)
  {
    forall p: nat, rep: nat | p < b * t * h && rep < ratio ensures Copied(x, y, ratio, d, p, rep) {
      CopyFits(b * t * h, ratio, d, p, rep);
    }
  }

  /** `repeat_interleave_heads`: every head vector is written `ratio` times in a row. */
  method RepeatInterleaveHeads<F>(x: seq<F>, b: nat, t: nat, h: nat, d: nat, ratio: nat, zero: F) returns (y: seq<F>)
    requires |x| == b * t * h * d
    ensures Repeated(x, y, b * t * h, ratio, d)
  {
    if ratio == 1 {
      CopiedOnce(x, b * t * h, d);
      return x;
    }
    y := seq(b * t * h * ratio * d, _ => zero);
    for bi := 0 to b
      invariant |y| == b * t * h * ratio * d
      invariant CopiedTo(x, y, b * t * h, ratio, d, Ix(Ix3(bi, t, 0, h, 0), ratio, 0))
    {
      y := RepeatBatch(x, y, b, t, h, d, ratio, bi);
      LastInPlane(bi, t, h);
    }
    AllCopied(x, y, b, t, h, ratio, d);
  }

  // ------------------------------------------------------------------ gated norm

  ghost predicate RowGated<F, D>(ops: Ops<F, D>, w: seq<F>, x: seq<F>, z: seq<F>, y: seq<F>, dim: nat, eps: F, r: nat) {
    && |w| == dim && r * dim + dim <= |x| && r * dim + dim <= |z| && r * dim + dim <= |y|
    && Row(y, r, dim) == GatedNorm(ops, w, Row(x, r, dim), Row(z, r, dim), eps)
  }

  ghost predicate GatedTo<F, D>(ops: Ops<F, D>, w: seq<F>, x: seq<F>, z: seq<F>, y: seq<F>, dim: nat, eps: F, rows: nat) {
    forall r: nat {:trigger RowGated(ops, w, x, z, y, dim, eps, r)} :: r < rows ==> RowGated(ops, w, x, z, y, dim, eps, r)
  }

  method GatedRow<F, D>(ops: Ops<F, D>, w: seq<F>, x: seq<F>, z: seq<F>, eps: F) returns (y: seq<F>)
    requires |w| == |x| == |z|
    ensures y == GatedNorm(ops, w, x, z, eps)
  {
    var ss := ops.zero64;
    for i := 0 to |x|
      invariant ss == SquareSum64(ops, x, i)
    {
      ss := ops.add64(ss, ops.mul64(ops.widen(x[i]), ops.widen(x[i])));
    }
    var inv := ops.div(ops.one, ops.sqrt(ops.add(ops.narrow(ops.div64(ss, ops.ofNat64(|x|))), eps)));
    y := seq(|x|, _ => ops.zero);
    for i := 0 to |x|
      invariant |y| == |x|
      invariant forall j :: 0 <= j < i ==> y[j] == GatedNorm(ops, w, x, z, eps)[j]
    {
      var xhat := ops.mul(x[i], inv);
      var silu := ops.div(z[i], ops.add(ops.one, ops.exp(ops.neg(z[i]))));
      y := y[i := ops.mul(ops.mul(w[i], xhat), silu)];
    }
  }

  /** `rmsnorm_gated`. */
  method RmsnormGated<F, D>(ops: Ops<F, D>, w: seq<F>, x: seq<F>, z: seq<F>, rows: nat, dim: nat, eps: F)
    returns (y: seq<F>)
    requires |w| == dim && |x| == rows * dim && |z| == rows * dim
    ensures |y| == rows * dim && GatedTo(ops, w, x, z, y, dim, eps, rows)
  {
    y := seq(rows * dim, _ => ops.zero);
    for r := 0 to rows
      invariant |y| == rows * dim && GatedTo(ops, w, x, z, y, dim, eps, r)
    {
      RowFits(r, rows, dim);
      var row := GatedRow(ops, w, Row(x, r, dim), Row(z, r, dim), eps);
      ghost var was := y;
      y := SetRow(y, r, dim, row);
      forall q: nat | q < r + 1 ensures RowGated(ops, w, x, z, y, dim, eps, q) {
        if q < r {
          assert RowGated(ops, w, x, z, was, dim, eps, q);
        }
        RowOfSetRow(was, r, q, dim, row);
      }
    }
  }
}
