/** The row-wise loops of attention (qwen35-forward/gdn/src/attention.rs): rotary tables and
    their application, the norm, the query/gate split and the output gate. */
module AttentionRows {
  import opened FlatTensor
  import opened FloatOps
  import opened Axes
  import opened Rows
  import opened Norms
  import opened AttentionSpec

  // ------------------------------------------------------------------ build_rope

  /** The tables hold positions `start .. start + t`. */
  ghost predicate Tables<F, D>(m: Layer<F, D>, cos: seq<F>, sin: seq<F>, t: nat, start: nat) {
    && |cos| >= t * m.cfg.rotary && |sin| >= t * m.cfg.rotary
    && forall i: nat {:trigger TableRow(m, cos, sin, start, i)} :: i < t ==> TableRow(m, cos, sin, start, i)
  }

  ghost predicate TableRow<F, D>(m: Layer<F, D>, cos: seq<F>, sin: seq<F>, start: nat, i: nat) {
    && RowIs(cos, i, m.cfg.rotary, CosRow(m, start + i))
    && RowIs(sin, i, m.cfg.rotary, SinRow(m, start + i))
  }

  lemma TableEntries<F, D>(m: Layer<F, D>, p: nat, i: nat)
    requires i < m.cfg.Half()
    ensures i + m.cfg.Half() < m.cfg.rotary
    ensures CosRow(m, p)[i] == CosRow(m, p)[i + m.cfg.Half()] == m.ops.cos(Angle(m, p, i))
    ensures SinRow(m, p)[i] == SinRow(m, p)[i + m.cfg.Half()] == m.ops.sin(Angle(m, p, i))
  {
  }

  /** The slots written once the first `i` angles are done; an odd last slot keeps its zero. */
  predicate Written(i: nat, half: nat, j: nat) {
    j < i || half <= j < half + i
  }

  ghost predicate Filled<F>(row: seq<F>, full: seq<F>, zero: F, half: nat, i: nat) {
    && |row| == |full|
    && forall j: nat :: j < |row| ==> row[j] == if Written(i, half, j) then full[j] else zero
  }

  lemma FillNext<F>(row: seq<F>, full: seq<F>, zero: F, half: nat, i: nat, v: F)
    requires Filled(row, full, zero, half, i) && i < half && i + half < |full| && full[i] == full[i + half] == v
    ensures Filled(row[i := v][i + half := v], full, zero, half, i + 1)
  {
  }

  lemma TableFull<F, D>(m: Layer<F, D>, p: nat, cos: seq<F>, sin: seq<F>)
    requires Filled(cos, CosRow(m, p), m.ops.zero, m.cfg.Half(), m.cfg.Half())
    requires Filled(sin, SinRow(m, p), m.ops.zero, m.cfg.Half(), m.cfg.Half())
    ensures cos == CosRow(m, p) && sin == SinRow(m, p)
  {
    assert forall j: nat :: j < m.cfg.rotary ==> cos[j] == CosRow(m, p)[j];
    assert forall j: nat :: j < m.cfg.rotary ==> sin[j] == SinRow(m, p)[j];
  }

  method RopeRow<F, D>(m: Layer<F, D>, p: nat, invFreq: seq<F>) returns (cos: seq<F>, sin: seq<F>)
    requires |invFreq| == m.cfg.Half()
    requires forall i :: 0 <= i < |invFreq| ==> m.ops.mul(m.ops.ofNat(p), invFreq[i]) == Angle(m, p, i)
    ensures cos == CosRow(m, p) && sin == SinRow(m, p)
  {
    var half, rd := m.cfg.Half(), m.cfg.rotary;
    cos, sin := seq(rd, _ => m.ops.zero), seq(rd, _ => m.ops.zero);
    for i := 0 to half
      invariant Filled(cos, CosRow(m, p), m.ops.zero, half, i)
      invariant Filled(sin, SinRow(m, p), m.ops.zero, half, i)
    {
      TableEntries(m, p, i);
      var f := m.ops.mul(m.ops.ofNat(p), invFreq[i]);
      FillNext(cos, CosRow(m, p), m.ops.zero, half, i, m.ops.cos(f));
      FillNext(sin, SinRow(m, p), m.ops.zero, half, i, m.ops.sin(f));
      cos := cos[i := m.ops.cos(f)][i + half := m.ops.cos(f)];
      sin := sin[i := m.ops.sin(f)][i + half := m.ops.sin(f)];
    }
    TableFull(m, p, cos, sin);
  }

  /** `build_rope`. */
  method BuildRope<F, D>(m: Layer<F, D>, t: nat, start: nat) returns (cos: seq<F>, sin: seq<F>)
    ensures Tables(m, cos, sin, t, start)
  {
    var ops, rd := m.ops, m.cfg.rotary;
    var invFreq := seq(m.cfg.Half(), i requires 0 <= i < m.cfg.Half() =>
      ops.div(ops.one, ops.powf(m.cfg.theta, ops.div(ops.ofNat(2 * i), ops.ofNat(rd)))));
    cos, sin := seq(t * rd, _ => ops.zero), seq(t * rd, _ => ops.zero);
    for pos := 0 to t
      invariant |cos| == |sin| == t * rd
      invariant forall i: nat {:trigger TableRow(m, cos, sin, start, i)} :: i < pos ==> TableRow(m, cos, sin, start, i)
    {
      var c, s := RopeRow(m, start + pos, invFreq);
      RowFits(pos, t, rd);
      ghost var cos0, sin0 := cos, sin;
      cos, sin := SetRow(cos, pos, rd, c), SetRow(sin, pos, rd, s);
      forall i: nat | i < pos + 1 ensures TableRow(m, cos, sin, start, i) {
        if i < pos {
          assert TableRow(m, cos0, sin0, start, i);
        }
        RowOfSetRow(cos0, pos, i, rd, c);
        RowOfSetRow(sin0, pos, i, rd, s);
      }
    }
  }

  // ------------------------------------------------------------------ apply_rope

  method RotateHalfOf<F, D>(ops: Ops<F, D>, x: seq<F>) returns (out: seq<F>)
    ensures out == RotateHalf(ops, x)
  {
    var half := |x| / 2;
    out := seq(|x|, _ => ops.zero);
    for i := 0 to half
      invariant |out| == |x|
      invariant forall j :: 0 <= j < |x| ==>
        out[j] == if j < i || half <= j < half + i then RotateHalf(ops, x)[j] else ops.zero
    {
      out := out[i := ops.neg(x[i + half])][i + half := x[i]];
    }
  }

  method RotateRow<F, D>(ops: Ops<F, D>, x: seq<F>, cos: seq<F>, sin: seq<F>) returns (out: seq<F>)
    requires |cos| == |sin| <= |x|
    ensures out == Rotated(ops, x, cos, sin)
  {
    var rot := x[..|cos|];
    var rh := RotateHalfOf(ops, rot);
    out := x;
    for i := 0 to |cos|
      invariant |out| == |x|
      invariant forall j :: 0 <= j < |x| ==> out[j] == if j < i then Rotated(ops, x, cos, sin)[j] else x[j]
    {
      out := out[i := ops.add(ops.mul(rot[i], cos[i]), ops.mul(rh[i], sin[i]))];
    }
  }

  /** Row `r` is rotated by table row `pos`. */
  ghost predicate RowRotated<F, D>(ops: Ops<F, D>, x: seq<F>, out: seq<F>, d: nat, cos: seq<F>, sin: seq<F>,
                                   rd: nat, r: nat, pos: nat) {
    && rd <= d && r * d + d <= |x| && r * d + d <= |out| && pos * rd + rd <= |cos| && pos * rd + rd <= |sin|
    && Row(out, r, d) == Rotated(ops, Row(x, r, d), Row(cos, pos, rd), Row(sin, pos, rd))
  }

  /** The row of `(batch, time, head)` belongs to position `(row / heads) % t`, which is its time. */
  lemma RowPosition(bi: nat, t: nat, ti: nat, heads: nat, hh: nat)
    requires ti < t && hh < heads
    ensures Ix3(bi, t, ti, heads, hh) / heads % t == ti
  {
    QuotientOf(Ix(bi, t, ti), heads, hh);
    QuotientOf(bi, t, ti);
  }

  lemma QuotientOf(i: nat, n: nat, j: nat)
    requires j < n
    ensures Ix(i, n, j) / n == i && Ix(i, n, j) % n == j
  {
    var k := Ix(i, n, j);
    assert Ix(k / n, n, k % n) == k;
    IxInjective(k / n, k % n, i, j, n);
  }

  lemma PositionInTable(b: nat, t: nat, heads: nat, r: nat, rd: nat)
    requires r < b * t * heads
    ensures heads > 0 && t > 0 && r / heads % t * rd + rd <= t * rd
  {
    assert heads == 0 ==> b * t * heads == 0;
    assert t == 0 ==> b * t == 0 && b * t * heads == 0;
    RowFits(r / heads % t, t, rd);
  }

  /** `apply_rope`. */
  method ApplyRope<F, D>(ops: Ops<F, D>, x: seq<F>, b: nat, t: nat, heads: nat, d: nat,
                         cos: seq<F>, sin: seq<F>, rd: nat) returns (out: seq<F>)
    requires |x| == b * t * heads * d && |cos| >= t * rd && |sin| >= t * rd && rd <= d
    ensures |out| == |x|
    ensures forall bi: nat, ti: nat, hh: nat
              {:trigger RowRotated(ops, x, out, d, cos, sin, rd, Ix3(bi, t, ti, heads, hh), ti)} ::
      bi < b && ti < t && hh < heads ==> RowRotated(ops, x, out, d, cos, sin, rd, Ix3(bi, t, ti, heads, hh), ti)
  {
    out := x;
    var rows := b * t * heads;
    for r := 0 to rows
      invariant |out| == |x|
      invariant forall q: nat {:trigger RotatedTo(ops, x, out, t, heads, d, cos, sin, rd, q)} :: q < r ==>
        RotatedTo(ops, x, out, t, heads, d, cos, sin, rd, q)
    {
      PositionInTable(b, t, heads, r, rd);
      RowFits(r, rows, d);
      var pos := r / heads % t;
      var row := RotateRow(ops, Row(x, r, d), Row(cos, pos, rd), Row(sin, pos, rd));
      ghost var was := out;
      out := SetRow(out, r, d, row);
      forall q: nat | q < r + 1 ensures RotatedTo(ops, x, out, t, heads, d, cos, sin, rd, q) {
        if q < r {
          assert RotatedTo(ops, x, was, t, heads, d, cos, sin, rd, q);
        }
        RotationKept(ops, x, was, t, heads, d, cos, sin, rd, r, row, q);
      }
    }
    forall bi: nat, ti: nat, hh: nat | bi < b && ti < t && hh < heads
      ensures RowRotated(ops, x, out, d, cos, sin, rd, Ix3(bi, t, ti, heads, hh), ti)
    {
      Ix3Fits(b, bi, t, ti, heads, hh, d);
      RowPosition(bi, t, ti, heads, hh);
      assert RotatedTo(ops, x, out, t, heads, d, cos, sin, rd, Ix3(bi, t, ti, heads, hh));
    }
  }

  ghost predicate RotatedTo<F, D>(ops: Ops<F, D>, x: seq<F>, out: seq<F>, t: nat, heads: nat, d: nat,
                                  cos: seq<F>, sin: seq<F>, rd: nat, q: nat) {
    heads > 0 && t > 0 && RowRotated(ops, x, out, d, cos, sin, rd, q, q / heads % t)
  }

  lemma RotationKept<F, D>(ops: Ops<F, D>, x: seq<F>, out: seq<F>, t: nat, heads: nat, d: nat,
                           cos: seq<F>, sin: seq<F>, rd: nat, r: nat, row: seq<F>, q: nat)
    requires r * d + d <= |out| && |row| == d && |x| == |out|
    requires q == r ==>
      && heads > 0 && t > 0 && rd <= d && r / heads % t * rd + rd <= |cos| && r / heads % t * rd + rd <= |sin|
      && row == Rotated(ops, Row(x, r, d), Row(cos, r / heads % t, rd), Row(sin, r / heads % t, rd))
    requires q != r ==> RotatedTo(ops, x, out, t, heads, d, cos, sin, rd, q)
    ensures RotatedTo(ops, x, SetRow(out, r, d, row), t, heads, d, cos, sin, rd, q)
  {
    if q != r {
      assert q * d + d <= |out|;
    }
    RowOfSetRow(out, r, q, d, row);
  }

  // ------------------------------------------------------------------ rmsnorm_1plus

  ghost predicate RowNormedPlus<F, D>(ops: Ops<F, D>, w: seq<F>, x: seq<F>, y: seq<F>, dim: nat, eps: F, r: nat) {
    && |w| == dim && r * dim + dim <= |x| && r * dim + dim <= |y|
    && Row(y, r, dim) == NormOnePlus(ops, w, Row(x, r, dim), eps)
  }

  method NormRow<F, D>(ops: Ops<F, D>, w: seq<F>, x: seq<F>, eps: F) returns (y: seq<F>)
    requires |w| == |x|
    ensures y == NormOnePlus(ops, w, x, eps)
  {
    var ss := ops.zero64;
    for i := 0 to |x|
      invariant ss == SquareSum64(ops, x, i)
    {
      ss := ops.add64(ss, ops.mul64(ops.widen(x[i]), ops.widen(x[i])));
    }
    var inv := ops.div(ops.one, ops.sqrt(ops.add(ops.narrow(ops.div64(ss, ops.ofNat64(|x|))), eps)));
    y := seq(|x|, _ => ops.zero);
    for i := 0 to |x|
      invariant |y| == |x|
      invariant forall j :: 0 <= j < i ==> y[j] == NormOnePlus(ops, w, x, eps)[j]
    {
      y := y[i := ops.mul(ops.mul(x[i], inv), ops.add(ops.one, w[i]))];
    }
  }

  /** `rmsnorm_1plus`. */
  method RmsnormOnePlus<F, D>(ops: Ops<F, D>, w: seq<F>, x: seq<F>, rows: nat, dim: nat, eps: F) returns (y: seq<F>)
    requires |w| == dim && |x| == rows * dim
    ensures |y| == rows * dim
    ensures forall r: nat {:trigger RowNormedPlus(ops, w, x, y, dim, eps, r)} :: r < rows ==>
      RowNormedPlus(ops, w, x, y, dim, eps, r)
  {
    y := seq(rows * dim, _ => ops.zero);
    for r := 0 to rows
      invariant |y| == rows * dim
      invariant forall q: nat {:trigger RowNormedPlus(ops, w, x, y, dim, eps, q)} :: q < r ==>
        RowNormedPlus(ops, w, x, y, dim, eps, q)
    {
      RowFits(r, rows, dim);
      var row := NormRow(ops, w, Row(x, r, dim), eps);
      ghost var was := y;
      y := SetRow(y, r, dim, row);
      forall q: nat | q < r + 1 ensures RowNormedPlus(ops, w, x, y, dim, eps, q) {
        if q < r {
          assert RowNormedPlus(ops, w, x, was, dim, eps, q);
        }
        RowOfSetRow(was, r, q, dim, row);
      }
    }
  }

  // ------------------------------------------------------------------ query and gate

  method SplitRow<F>(x: seq<F>, rows: nat, h: nat, d: nat, r: nat, q0: seq<F>, gate0: seq<F>)
    returns (q: seq<F>, gate: seq<F>)
    requires |x| == rows * h * (2 * d) && |q0| == |gate0| == rows * h * d && r < rows
    requires CutTo(x, 2 * d, 0, d, q0, Ix(r, h, 0)) && CutTo(x, 2 * d, d, d, gate0, Ix(r, h, 0))
    ensures |q| == |gate| == rows * h * d
    ensures CutTo(x, 2 * d, 0, d, q, Ix(r, h, h)) && CutTo(x, 2 * d, d, d, gate, Ix(r, h, h))
  {
    q, gate := q0, gate0;
    for hh := 0 to h
      invariant |q| == |gate| == rows * h * d
      invariant CutTo(x, 2 * d, 0, d, q, Ix(r, h, hh)) && CutTo(x, 2 * d, d, d, gate, Ix(r, h, hh))
    {
      IxFits(r, rows, h, hh);
      var n := Ix(r, h, hh);
      CutNext(x, 2 * d, 0, d, q, rows * h, n);
      CutNext(x, 2 * d, d, d, gate, rows * h, n);
      var src := Row(x, n, 2 * d);
      q, gate := SetRow(q, n, d, src[0..0 + d]), SetRow(gate, n, d, src[d..d + d]);
    }
  }

  /** Per head, the first half of its columns is the query and the second the gate. */
  method SplitGate<F>(x: seq<F>, rows: nat, h: nat, d: nat, zero: F) returns (q: seq<F>, gate: seq<F>)
    requires |x| == rows * h * (2 * d)
    ensures |q| == |gate| == rows * h * d
    ensures CutTo(x, 2 * d, 0, d, q, rows * h) && CutTo(x, 2 * d, d, d, gate, rows * h)
  {
    q, gate := seq(rows * h * d, _ => zero), seq(rows * h * d, _ => zero);
    for r := 0 to rows
      invariant |q| == |gate| == rows * h * d
      invariant CutTo(x, 2 * d, 0, d, q, Ix(r, h, 0)) && CutTo(x, 2 * d, d, d, gate, Ix(r, h, 0))
    {
      q, gate := SplitRow(x, rows, h, d, r, q, gate);
      LastInRow(r, h);
    }
  }

  /** The output gate over the whole buffer. */
  method ApplyGate<F, D>(ops: Ops<F, D>, x: seq<F>, gate: seq<F>) returns (y: seq<F>)
    requires |x| == |gate|
    ensures y == Gated(ops, x, gate)
  {
    y := seq(|x|, _ => ops.zero);
    for i := 0 to |x|
      invariant |y| == |x|
      invariant forall j :: 0 <= j < i ==> y[j] == Gated(ops, x, gate)[j]
    {
      y := y[i := ops.mul(x[i], ops.div(ops.one, ops.add(ops.one, ops.exp(ops.neg(gate[i])))))];
    }
  }
}
