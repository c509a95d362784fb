/** What a step of the gated delta rule does, under exact arithmetic
    (qwen35-forward/delta/src/lib.rs): the state is a memory from keys to values. */
module DeltaLaws {
  import opened ExactArithmetic
  import opened DeltaRule

  function Column(m: Matrix<real>, v: nat, j: nat): (r: seq<real>)
    requires IsMatrix(m, |m|, v) && j < v
    ensures |r| == |m|
  {
    seq(|m|, i requires 0 <= i < |m| => m[i][j])
  }

  /** What the memory holds along direction `u`, in value component `j`. */
  function Held(ops: Reals, m: Matrix<real>, v: nat, u: seq<real>, j: nat): real
    requires IsMatrix(m, |m|, v) && |u| == |m| && j < v
  {
    Inner(ops, Column(m, v, j), u)
  }

  lemma ReadOutNext(ops: ExactOps, m: Matrix<real>, w: seq<real>, n: nat, v: nat, j: nat)
    requires 0 < n <= |m| == |w| && IsMatrix(m, |m|, v) && j < v
    ensures ReadOut(ops, m, w, n, v)[j] == ReadOut(ops, m, w, n - 1, v)[j] + ops.mul(m[n - 1][j], w[n - 1])
  {
  }

  lemma {:induction false} ReadOutTo(ops: ExactOps, m: Matrix<real>, w: seq<real>, n: nat, v: nat, j: nat)
    requires n <= |m| == |w| && IsMatrix(m, |m|, v) && j < v
    ensures ReadOut(ops, m, w, n, v)[j] == Inner(ops, Column(m, v, j)[..n], w[..n])
  {
    if n > 0 {
      ReadOutTo(ops, m, w, n - 1, v, j);
      ReadOutNext(ops, m, w, n, v, j);
      InnerNext(ops, Column(m, v, j), w, n - 1);
    }
  }

  /** Reading out with `w` is what is held along `w`. */
  lemma ReadsHeld(ops: ExactOps, m: Matrix<real>, w: seq<real>, k: nat, v: nat, j: nat)
    requires IsMatrix(m, k, v) && |w| == k && j < v
    ensures ReadOut(ops, m, w, k, v)[j] == Held(ops, m, v, w, j)
  {
    ReadOutTo(ops, m, w, k, v, j);
    assert Column(m, v, j)[..k] == Column(m, v, j) && w[..k] == w;
  }

  /** Decay scales what is held along every direction. */
  lemma DecayScales(ops: ExactOps, m: Matrix<real>, g: real, k: nat, v: nat, u: seq<real>, j: nat)
    requires IsMatrix(m, k, v) && |u| == k && j < v
    ensures Held(ops, DecayedState(ops, m, g, k, v), v, u, j) == ops.mul(ops.exp(g), Held(ops, m, v, u, j))
  {
    var d := DecayedState(ops, m, g, k, v);
    var before, after, e := Column(m, v, j), Column(d, v, j), ops.exp(g);
    forall i | 0 <= i < k ensures after[i] == ops.mul(e, before[i]) + ops.mul(0.0, before[i]) {
      MulSymmetric(ops, m[i][j], e);
      MulUnits(ops, before[i]);
    }
    InnerLinear(ops, e, before, 0.0, before, after, u);
    MulUnits(ops, Inner(ops, before, u));
  }

  /** The correction adds `delta` along the key. */
  lemma CorrectionAdds(ops: ExactOps, m: Matrix<real>, ks: seq<real>, delta: seq<real>, k: nat, v: nat, u: seq<real>, j: nat)
    requires IsMatrix(m, k, v) && |ks| == |u| == k && |delta| == v && j < v
    ensures Held(ops, CorrectedState(ops, m, ks, delta, k, v), v, u, j)
         == Held(ops, m, v, u, j) + ops.mul(delta[j], Inner(ops, ks, u))
  {
    var next := CorrectedState(ops, m, ks, delta, k, v);
    var before, after := Column(m, v, j), Column(next, v, j);
    forall i | 0 <= i < k ensures after[i] == ops.mul(1.0, before[i]) + ops.mul(delta[j], ks[i]) {
      MulSymmetric(ops, ks[i], delta[j]);
      MulUnits(ops, before[i]);
    }
    InnerLinear(ops, 1.0, before, delta[j], ks, after, u);
    MulUnits(ops, Inner(ops, before, u));
  }

  /** The value's component `j` less what the decayed memory holds along the key. */
  function Shortfall(ops: Reals, m: Matrix<real>, x: HeadInput<real>, k: nat, v: nat, j: nat): real
    requires IsMatrix(m, k, v) && InputShaped(x, k, v) && j < v
  {
    x.v[j] - ops.mul(ops.exp(x.g), Held(ops, m, v, x.k, j))
  }

  /** The prediction error: the shortfall times the learning rate. */
  function Surprise(ops: Reals, m: Matrix<real>, x: HeadInput<real>, k: nat, v: nat, j: nat): real
    requires IsMatrix(m, k, v) && InputShaped(x, k, v) && j < v
  {
    ops.mul(Shortfall(ops, m, x, k, v, j), x.beta)
  }

  /** A step, along any direction: the decayed memory, and the surprise as far as the direction
      lies along the key. */
  lemma StepAlong(ops: ExactOps, m: Matrix<real>, x: HeadInput<real>, k: nat, v: nat, u: seq<real>, j: nat)
    requires IsMatrix(m, k, v) && InputShaped(x, k, v) && |u| == k && j < v
    ensures Held(ops, HeadStep(ops, m, x, k, v).0, v, u, j)
         == ops.mul(ops.exp(x.g), Held(ops, m, v, u, j)) + ops.mul(Surprise(ops, m, x, k, v, j), Inner(ops, x.k, u))
  {
    var decayed := DecayedState(ops, m, x.g, k, v);
    ErrorIsSurprise(ops, m, x, k, v, decayed, j);
    DecayScales(ops, m, x.g, k, v, u, j);
    CorrectionAdds(ops, decayed, x.k, Error(ops, x.v, ReadOut(ops, decayed, x.k, k, v), x.beta), k, v, u, j);
  }

  lemma ErrorIsSurprise(ops: ExactOps, m: Matrix<real>, x: HeadInput<real>, k: nat, v: nat, decayed: Matrix<real>, j: nat)
    requires IsMatrix(m, k, v) && InputShaped(x, k, v) && j < v
    requires decayed == DecayedState(ops, m, x.g, k, v)
    ensures Error(ops, x.v, ReadOut(ops, decayed, x.k, k, v), x.beta)[j] == Surprise(ops, m, x, k, v, j)
  {
    ReadsHeld(ops, decayed, x.k, k, v, j);
    DecayScales(ops, m, x.g, k, v, x.k, j);
  }

  /** The output is what the new memory holds along the query ... */
  lemma OutputIsHeld(ops: ExactOps, m: Matrix<real>, x: HeadInput<real>, k: nat, v: nat, j: nat)
    requires IsMatrix(m, k, v) && InputShaped(x, k, v) && j < v
    ensures HeadStep(ops, m, x, k, v).1[j] == Held(ops, HeadStep(ops, m, x, k, v).0, v, x.q, j)
  {
    ReadsHeld(ops, HeadStep(ops, m, x, k, v).0, x.q, k, v, j);
  }

  /** ... linear in the query, which does not change the memory ... */
  lemma OutputIsLinear(ops: ExactOps, m: Matrix<real>, x: HeadInput<real>, k: nat, v: nat, j: nat,
                       a: real, p: seq<real>, b: real, q: seq<real>)
    requires IsMatrix(m, k, v) && InputShaped(x, k, v) && j < v && |p| == |q| == k
    ensures HeadStep(ops, m, x.(q := Combined(ops, a, p, b, q)), k, v).1[j]
         == ops.mul(a, HeadStep(ops, m, x.(q := p), k, v).1[j]) + ops.mul(b, HeadStep(ops, m, x.(q := q), k, v).1[j])
    ensures HeadStep(ops, m, x.(q := p), k, v).0 == HeadStep(ops, m, x.(q := q), k, v).0
  {
    var c := Combined(ops, a, p, b, q);
    OutputAlong(ops, m, x, p, k, v, j);
    OutputAlong(ops, m, x, q, k, v, j);
    OutputAlong(ops, m, x, c, k, v, j);
    InnerLinearRight(ops, Column(HeadStep(ops, m, x, k, v).0, v, j), a, p, b, q, c);
  }

  lemma OutputAlong(ops: ExactOps, m: Matrix<real>, x: HeadInput<real>, q: seq<real>, k: nat, v: nat, j: nat)
    requires IsMatrix(m, k, v) && InputShaped(x, k, v) && j < v && |q| == k
    ensures HeadStep(ops, m, x.(q := q), k, v).0 == HeadStep(ops, m, x, k, v).0
    ensures HeadStep(ops, m, x.(q := q), k, v).1[j] == Held(ops, HeadStep(ops, m, x, k, v).0, v, q, j)
  {
    OutputIsHeld(ops, m, x.(q := q), k, v, j);
  }

  /** ... and row `i` of the new memory for the unit query `i`. */
  lemma UnitQueryPicksRow(ops: ExactOps, m: Matrix<real>, x: HeadInput<real>, k: nat, v: nat, i: nat, j: nat)
    requires IsMatrix(m, k, v) && InputShaped(x, k, v) && i < k && j < v
    ensures HeadStep(ops, m, x.(q := Unit(k, i)), k, v).1[j] == HeadStep(ops, m, x, k, v).0[i][j]
  {
    OutputAlong(ops, m, x, Unit(k, i), k, v, j);
    InnerUnit(ops, Column(HeadStep(ops, m, x, k, v).0, v, j), i);
  }

  /** With the full learning rate and a key of length one, the value just written is what the
      memory holds along the key. */
  lemma WrittenIsHeld(ops: ExactOps, m: Matrix<real>, x: HeadInput<real>, k: nat, v: nat, j: nat)
    requires IsMatrix(m, k, v) && InputShaped(x, k, v) && j < v
    requires x.beta == 1.0 && Inner(ops, x.k, x.k) == 1.0
    ensures Held(ops, HeadStep(ops, m, x, k, v).0, v, x.k, j) == x.v[j]
  {
    StepAlong(ops, m, x, k, v, x.k, j);
    FullSurprise(ops, m, x, k, v, j);
    MulUnits(ops, Surprise(ops, m, x, k, v, j));
  }

  lemma FullSurprise(ops: ExactOps, m: Matrix<real>, x: HeadInput<real>, k: nat, v: nat, j: nat)
    requires IsMatrix(m, k, v) && InputShaped(x, k, v) && j < v && x.beta == 1.0
    ensures Surprise(ops, m, x, k, v, j) == Shortfall(ops, m, x, k, v, j)
  {
    MulUnits(ops, Shortfall(ops, m, x, k, v, j));
  }

  /** Along a direction orthogonal to the key the memory only decays. */
  lemma OrthogonalDecays(ops: ExactOps, m: Matrix<real>, x: HeadInput<real>, k: nat, v: nat, u: seq<real>, j: nat)
    requires IsMatrix(m, k, v) && InputShaped(x, k, v) && |u| == k && j < v
    requires Inner(ops, x.k, u) == 0.0
    ensures Held(ops, HeadStep(ops, m, x, k, v).0, v, u, j) == ops.mul(ops.exp(x.g), Held(ops, m, v, u, j))
  {
    StepAlong(ops, m, x, k, v, u, j);
    MulUnits(ops, Surprise(ops, m, x, k, v, j));
  }

  // ------------------------------------------------------------------ over a whole run

  /** Keys of length one, each orthogonal to the others, written in full and without decay. */
  ghost predicate Orthonormal(ops: Reals, xs: seq<HeadInput<real>>, k: nat, v: nat) {
    && AllShaped(xs, k, v)
    && (forall i :: 0 <= i < |xs| ==> xs[i].beta == 1.0 && xs[i].g == 0.0 && Inner(ops, xs[i].k, xs[i].k) == 1.0)
    && (forall i, n {:trigger Inner(ops, xs[n].k, xs[i].k)} ::
          0 <= i < n < |xs| ==> Inner(ops, xs[n].k, xs[i].k) == 0.0)
  }

  /** Then after a run of any length, from any memory, every value written is held along its key:
      nothing of it is disturbed by what came later. */
  lemma {:induction false} EverythingHeld(ops: ExactOps, m: Matrix<real>, xs: seq<HeadInput<real>>, k: nat, v: nat, i: nat, j: nat)
    requires ExactExp(ops) && IsMatrix(m, k, v) && Orthonormal(ops, xs, k, v) && i < |xs| && j < v
    ensures Held(ops, StateAfter(ops, m, xs, k, v), v, xs[i].k, j) == xs[i].v[j]
    decreases |xs|
  {
    var n := |xs| - 1;
    var before := StateAfter(ops, m, xs[..n], k, v);
    if i == n {
      WrittenIsHeld(ops, before, xs[n], k, v, j);
    } else {
      EverythingHeld(ops, m, xs[..n], k, v, i, j);
      OrthogonalDecays(ops, before, xs[n], k, v, xs[i].k, j);
      ExpOfZero(ops);
      MulUnits(ops, xs[i].v[j]);
    }
  }

  /** And a query for any key written so far is answered with its value. */
  lemma QueryRecalls(ops: ExactOps, m: Matrix<real>, xs: seq<HeadInput<real>>, k: nat, v: nat, i: nat, n: nat, j: nat)
    requires ExactExp(ops) && IsMatrix(m, k, v) && Orthonormal(ops, xs, k, v)
    requires i <= n < |xs| && xs[n].q == xs[i].k && j < v
    ensures OutAt(ops, m, xs, k, v, n)[j] == xs[i].v[j]
  {
    var run := xs[..n + 1];
    assert run[..n] == xs[..n] && run[n] == xs[n] && run[i] == xs[i];
    assert Orthonormal(ops, run, k, v);
    EverythingHeld(ops, m, run, k, v, i, j);
    OutputIsHeld(ops, StateAfter(ops, m, xs[..n], k, v), xs[n], k, v, j);
  }
}
