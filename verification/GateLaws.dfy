/** The norms and gates of the two mixers under exact arithmetic
    (qwen35-forward/gdn/src/lib.rs, qwen35-forward/gdn/src/attention.rs). */
module GateLaws {
  import opened ExactArithmetic
  import opened Norms
  import opened FoldLaws
  import AttentionSpec
  import GdnMixer

  /** With weights of zero the norm of queries and keys leaves the mean square one, but for the epsilon. */
  lemma UnweightedNorm(ops: ExactOps, w: seq<real>, x: seq<real>, eps: real)
    requires ExactSqrt(ops) && eps > 0.0 && x != [] && |w| == |x| && forall i :: 0 <= i < |w| ==> w[i] == 0.0
    ensures var y := AttentionSpec.NormOnePlus(ops, w, x, eps);
            ops.mul(Inner(ops, y, y), ops.div(Inner(ops, x, x), |x| as real) + eps) == Inner(ops, x, x)
  {
    var y := AttentionSpec.NormOnePlus(ops, w, x, eps);
    forall i | 0 <= i < |x| ensures y[i] == ops.mul(x[i], InverseRms(ops, x, eps)) {
      UnitWeight(ops, ops.mul(x[i], InverseRms(ops, x, eps)), w[i]);
    }
    RmsIsOne(ops, x, eps, y);
  }

  lemma UnitWeight(ops: ExactOps, x: real, w: real)
    requires w == 0.0
    ensures ops.mul(x, ops.add(ops.one, w)) == x
  {
    MulUnits(ops, x);
  }

  /** A component of the norm is linear in its weight plus one. */
  lemma WeightScales(ops: ExactOps, w: seq<real>, x: seq<real>, eps: real, i: nat)
    requires |w| == |x| && i < |x|
    ensures var n := ops.mul(x[i], InverseRms(ops, x, eps));
            AttentionSpec.NormOnePlus(ops, w, x, eps)[i] == n + ops.mul(n, w[i])
  {
    OnePlus(ops, ops.mul(x[i], InverseRms(ops, x, eps)), w[i], ops.add(ops.one, w[i]));
  }

  lemma OnePlus(ops: ExactOps, n: real, w: real, s: real)
    requires s == ops.add(ops.one, w)
    ensures ops.mul(n, s) == n + ops.mul(n, w)
  {
    MulSum(ops, n, 1.0, w);
    MulUnits(ops, n);
  }

  /** The output gate keeps a share between nothing and all of a component, the larger the gate the more. */
  lemma GateShares(ops: ExactOps, x: seq<real>, gate: seq<real>, i: nat)
    requires ExactExp(ops) && |x| == |gate| && i < |x|
    ensures ops.mul(AttentionSpec.Gated(ops, x, gate)[i], 1.0 + ops.exp(-gate[i])) == x[i]
  {
    var d := 1.0 + ops.exp(-gate[i]);
    ExpPositive(ops, -gate[i]);
    Undivided(ops, x[i], d);
  }

  lemma Undivided(ops: ExactOps, x: real, d: real)
    requires d > 0.0
    ensures ops.mul(ops.mul(x, ops.div(1.0, d)), d) == x
  {
    DivIs(ops, 1.0, d);
    MulAssociative(ops, x, ops.div(1.0, d), d);
    MulUnits(ops, x);
  }

  /** The gated norm is weight times normed component times gate, of which the logistic share is kept. */
  lemma GatedNormShares(ops: ExactOps, w: seq<real>, x: seq<real>, z: seq<real>, eps: real, i: nat)
    requires ExactExp(ops) && |w| == |x| == |z| && i < |x|
    ensures ops.mul(GdnMixer.GatedNorm(ops, w, x, z, eps)[i], 1.0 + ops.exp(-z[i]))
         == ops.mul(ops.mul(w[i], ops.mul(x[i], InverseRms(ops, x, eps))), z[i])
  {
    var d, n := 1.0 + ops.exp(-z[i]), ops.mul(w[i], ops.mul(x[i], InverseRms(ops, x, eps)));
    ExpPositive(ops, -z[i]);
    DivIs(ops, z[i], d);
    MulAssociative(ops, n, ops.div(z[i], d), d);
  }
}
