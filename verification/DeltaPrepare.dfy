/** `prepare_qk` and `forward_prepared_into` (qwen35-forward/delta/src/lib.rs). */
module DeltaPrepare {
  import opened FlatTensor
  import opened FloatOps
  import opened Axes
  import opened DeltaRule
  import opened DeltaForward

  function SquareSum<F, D>(ops: Ops<F, D>, row: seq<F>, n: nat): F
    requires n <= |row|
  {
    if n == 0 then ops.zero else ops.add(SquareSum(ops, row, n - 1), ops.mul(row[n - 1], row[n - 1]))
  }

  /** A row over its Euclidean norm; `ops.epsilon` is the 1e-6 under the root. */
  function L2Normed<F, D>(ops: Ops<F, D>, row: seq<F>): (r: seq<F>)
    ensures |r| == |row|
  {
    Scaled(ops, row, ops.div(ops.one, ops.sqrt(ops.add(SquareSum(ops, row, |row|), ops.epsilon))))
  }

  function QueryScale<F, D>(ops: Ops<F, D>, d: nat): F {
    ops.div(ops.one, ops.sqrt(ops.ofNat(d)))
  }

  /** What the recurrence sees of a head's raw operands. */
  function PrepareInput<F, D>(ops: Ops<F, D>, x: HeadInput<F>): (r: HeadInput<F>)
    ensures |r.q| == |x.q| && |r.k| == |x.k|
  {
    x.(q := Scaled(ops, L2Normed(ops, x.q), QueryScale(ops, |x.q|)), k := L2Normed(ops, x.k))
  }

  ghost predicate RowNormed<F, D>(ops: Ops<F, D>, s: seq<F>, t: seq<F>, r: nat, d: nat) {
    r * d + d <= |s| && r * d + d <= |t| && Row(t, r, d) == L2Normed(ops, Row(s, r, d))
  }

  ghost predicate AllNormed<F, D>(ops: Ops<F, D>, s: seq<F>, t: seq<F>, rows: nat, d: nat) {
    |t| == |s| && forall r: nat {:trigger RowNormed(ops, s, t, r, d)} :: r < rows ==> RowNormed(ops, s, t, r, d)
  }

  /** One row of the normalisation loop. */
  method NormRow<F, D>(ops: Ops<F, D>, buf: array<F>, r: nat, d: nat)
    requires r * d + d <= buf.Length
    modifies buf
    ensures buf[..] == SetRow(old(buf[..]), r, d, L2Normed(ops, Row(old(buf[..]), r, d)))
  {
    var ss := SumSquares(ops, buf, r, d);
    DecayRow(ops, buf, r, d, ops.div(ops.one, ops.sqrt(ops.add(ss, ops.epsilon))));
  }

  method SumSquares<F, D>(ops: Ops<F, D>, buf: array<F>, r: nat, d: nat) returns (ss: F)
    requires r * d + d <= buf.Length
    ensures ss == SquareSum(ops, Row(buf[..], r, d), d)
  {
    var base := r * d;
    ghost var row := Row(buf[..], r, d);
    ss := ops.zero;
    for i := 0 to d
      invariant ss == SquareSum(ops, row, i)
    {
      var x := buf[base + i];
      ss := ops.add(ss, ops.mul(x, x));
    }
  }

  /** The rows before `r` are normed, the others as they were. */
  ghost predicate NormedTo<F, D>(ops: Ops<F, D>, s: seq<F>, t: seq<F>, r: nat, d: nat) {
    && AllNormed(ops, s, t, r, d)
    && forall j :: r * d <= j < |s| ==> t[j] == s[j]
  }

  lemma NormNext<F, D>(ops: Ops<F, D>, s: seq<F>, t: seq<F>, r: nat, d: nat)
    requires NormedTo(ops, s, t, r, d) && r * d + d <= |s|
    ensures NormedTo(ops, s, SetRow(t, r, d, L2Normed(ops, Row(t, r, d))), r + 1, d)
  {
    var row := L2Normed(ops, Row(t, r, d));
    var u := SetRow(t, r, d, row);
    assert Row(t, r, d) == Row(s, r, d);
    Distribute(r, 1, d);
    forall q: nat | q < r + 1 ensures RowNormed(ops, s, u, q, d) {
      if q < r {
        assert RowNormed(ops, s, t, q, d);
      }
      RowOfSetRow(t, r, q, d, row);
    }
  }

  /** `l2norm_last_dim`. */
  method L2NormLastDim<F, D>(ops: Ops<F, D>, buf: array<F>, rows: nat, d: nat)
    requires buf.Length == rows * d
    modifies buf
    ensures AllNormed(ops, old(buf[..]), buf[..], rows, d)
  {
    for r := 0 to rows
      invariant NormedTo(ops, old(buf[..]), buf[..], r, d)
    {
      RowFits(r, rows, d);
      NormNext(ops, old(buf[..]), buf[..], r, d);
      NormRow(ops, buf, r, d);
    }
  }

  method ScaleAll<F, D>(ops: Ops<F, D>, buf: array<F>, scale: F)
    modifies buf
    ensures buf[..] == Scaled(ops, old(buf[..]), scale)
  {
    for i := 0 to buf.Length
      invariant forall j :: 0 <= j < buf.Length ==>
        buf[j] == if j < i then ops.mul(old(buf[j]), scale) else old(buf[j])
    {
      buf[i] := ops.mul(buf[i], scale);
    }
  }

  ghost predicate RowQueried<F, D>(ops: Ops<F, D>, s: seq<F>, t: seq<F>, r: nat, d: nat) {
    && r * d + d <= |s| && r * d + d <= |t|
    && Row(t, r, d) == Scaled(ops, L2Normed(ops, Row(s, r, d)), QueryScale(ops, d))
  }

  ghost predicate AllQueried<F, D>(ops: Ops<F, D>, s: seq<F>, t: seq<F>, rows: nat, d: nat) {
    |t| == |s| && forall r: nat {:trigger RowQueried(ops, s, t, r, d)} :: r < rows ==> RowQueried(ops, s, t, r, d)
  }

  /** `prepare_qk`: every head vector normed in place, the queries then scaled. */
  method PrepareQk<F, D>(ops: Ops<F, D>, q: array<F>, k: array<F>, rows: nat, d: nat)
    requires q != k && q.Length == rows * d && k.Length == rows * d
    modifies q, k
    ensures AllQueried(ops, old(q[..]), q[..], rows, d) && AllNormed(ops, old(k[..]), k[..], rows, d)
  {
    L2NormLastDim(ops, q, rows, d);
    L2NormLastDim(ops, k, rows, d);
    ghost var s := q[..];
    ScaleAll(ops, q, QueryScale(ops, d));
    ScaledRows(ops, old(q[..]), s, rows, d);
  }

  lemma ScaledRows<F, D>(ops: Ops<F, D>, s: seq<F>, t: seq<F>, rows: nat, d: nat)
    requires AllNormed(ops, s, t, rows, d)
    ensures AllQueried(ops, s, Scaled(ops, t, QueryScale(ops, d)), rows, d)
  {
    forall r: nat | r < rows ensures RowQueried(ops, s, Scaled(ops, t, QueryScale(ops, d)), r, d) {
      assert RowNormed(ops, s, t, r, d);
      ScaledRow(ops, t, QueryScale(ops, d), r, d);
    }
  }

  lemma ScaledRow<F, D>(ops: Ops<F, D>, t: seq<F>, g: F, r: nat, d: nat)
    requires r * d + d <= |t|
    ensures Row(Scaled(ops, t, g), r, d) == Scaled(ops, Row(t, r, d), g)
  {
  }

  /** `p` is what the recurrence runs on when called with the raw operands `x`. */
  ghost predicate Prepared<F, D>(ops: Ops<F, D>, s: Shape, x: Operands<F>, p: Operands<F>) {
    && p.v == x.v && p.g == x.g && p.beta == x.beta
    && AllQueried(ops, x.q, p.q, s.b * s.t * s.h, s.k) && AllNormed(ops, x.k, p.k, s.b * s.t * s.h, s.k)
  }

  lemma PreparedInput<F, D>(ops: Ops<F, D>, s: Shape, x: Operands<F>, p: Operands<F>, bi: nat, ti: nat, hi: nat)
    requires Fits(s, x) && Fits(s, p) && Prepared(ops, s, x, p) && bi < s.b && ti < s.t && hi < s.h
    ensures InputAt(s, p, bi, ti, hi) == PrepareInput(ops, InputAt(s, x, bi, ti, hi))
  {
    Ix3Fits(s.b, bi, s.t, ti, s.h, hi, s.k);
    var n := Ix3(bi, s.t, ti, s.h, hi);
    assert RowQueried(ops, x.q, p.q, n, s.k) && RowNormed(ops, x.k, p.k, n, s.k);
  }

  /** `forward_prepared_into`: prepares copies of the queries and keys, then continues the
      recurrence from `state`. */
  method ForwardPreparedInto<F, D>(ops: Ops<F, D>, s: Shape, x: Operands<F>, state: array<F>)
    returns (out: seq<F>, ghost p: Operands<F>)
    requires Fits(s, x) && HoldsHeads(state[..], s.b * s.h, s.k, s.v)
    modifies state
    ensures Fits(s, p) && Prepared(ops, s, x, p) && Recurred(ops, s, p, old(state[..]), state[..], out)
  {
    var q := new F[|x.q|](i requires 0 <= i < |x.q| => x.q[i]);
    var k := new F[|x.k|](i requires 0 <= i < |x.k| => x.k[i]);
    assert q[..] == x.q && k[..] == x.k;
    PrepareQk(ops, q, k, s.b * s.t * s.h, s.k);
    var prepared := x.(q := q[..], k := k[..]);
    p := prepared;
    out := Forward(ops, s, prepared, state);
  }
}
