/** What attention computes under exact arithmetic (qwen35-forward/gdn/src/attention.rs): scores
    that are inner products, weights that rise with them and add up to one, a weighted mean of
    the values in any order, and rotations that make scores depend on distances only. */
module AttentionLaws {
  import opened ExactArithmetic
  import opened Rows
  import opened AttentionSpec

  // ------------------------------------------------------------------ scores

  lemma {:induction false} DotTo(ops: ExactOps, x: seq<real>, y: seq<real>, n: nat)
    requires n <= |x| && n <= |y|
    ensures Dot(ops, x, y, n) == Inner(ops, x[..n], y[..n])
  {
    if n > 0 {
      DotTo(ops, x, y, n - 1);
      InnerNext(ops, x, y, n - 1);
    }
  }

  lemma DotIs(ops: ExactOps, x: seq<real>, y: seq<real>)
    requires |x| == |y|
    ensures Dot(ops, x, y, |x|) == Inner(ops, x, y)
  {
    DotTo(ops, x, y, |x|);
    assert x[..|x|] == x && y[..|x|] == y;
  }

  /** Query and key enter alike ... */
  lemma DotSymmetric(ops: ExactOps, x: seq<real>, y: seq<real>)
    requires |x| == |y|
    ensures Dot(ops, x, y, |x|) == Dot(ops, y, x, |x|)
  {
    DotIs(ops, x, y);
    DotIs(ops, y, x);
    InnerSymmetric(ops, x, y);
  }

  /** ... the score is linear in the key ... */
  lemma DotLinear(ops: ExactOps, q: seq<real>, a: real, x: seq<real>, b: real, y: seq<real>)
    requires |q| == |x| == |y|
    ensures Dot(ops, q, Combined(ops, a, x, b, y), |q|)
         == ops.mul(a, Dot(ops, q, x, |q|)) + ops.mul(b, Dot(ops, q, y, |q|))
  {
    DotIs(ops, q, x);
    DotIs(ops, q, y);
    DotIs(ops, q, Combined(ops, a, x, b, y));
    InnerLinearRight(ops, q, a, x, b, y, Combined(ops, a, x, b, y));
  }

  /** ... and a unit key picks the query's component. */
  lemma DotUnit(ops: ExactOps, q: seq<real>, i: nat)
    requires i < |q|
    ensures Dot(ops, q, Unit(|q|, i), |q|) == q[i]
  {
    DotIs(ops, q, Unit(|q|, i));
    InnerUnit(ops, q, i);
  }

  // ------------------------------------------------------------------ weights

  function Powers(ops: Reals, s: seq<real>): (r: seq<real>)
    ensures |r| == |s| && forall i :: 0 <= i < |s| ==> r[i] == ops.exp(s[i])
  {
    seq(|s|, i requires 0 <= i < |s| => ops.exp(s[i]))
  }

  /** The exponentials the code adds up, every one smaller by the same factor `c`. */
  lemma {:induction false} ExpSumTo(ops: ExactOps, s: seq<real>, n: nat, c: real)
    requires ExactExp(ops) && n <= |s| && c == ops.exp(-Largest(ops, s, |s|))
    ensures ExpSum(ops, s, n) == ops.mul(c, Sum(Powers(ops, s)[..n]))
  {
    if n == 0 {
      MulUnits(ops, c);
    } else {
      ExpSumTo(ops, s, n - 1, c);
      ExpSumNext(ops, s, n, c);
      PowersNext(ops, Powers(ops, s), n, c);
    }
  }

  lemma ExpSumNext(ops: ExactOps, s: seq<real>, n: nat, c: real)
    requires ExactExp(ops) && 0 < n <= |s| && c == ops.exp(-Largest(ops, s, |s|))
    ensures ExpSum(ops, s, n) == ExpSum(ops, s, n - 1) + ops.mul(c, Powers(ops, s)[n - 1])
  {
    ShiftedPower(ops, s, n - 1, c);
  }

  lemma PowersNext(ops: ExactOps, ps: seq<real>, n: nat, c: real)
    requires 0 < n <= |ps|
    ensures ops.mul(c, Sum(ps[..n])) == ops.mul(c, Sum(ps[..n - 1])) + ops.mul(c, ps[n - 1])
  {
    assert ps[..n] == ps[..n - 1] + [ps[n - 1]];
    SumSnoc(ps[..n - 1], ps[n - 1]);
    MulSum(ops, c, Sum(ps[..n - 1]), ps[n - 1]);
  }

  lemma ShiftedPower(ops: ExactOps, s: seq<real>, i: nat, c: real)
    requires ExactExp(ops) && i < |s| && c == ops.exp(-Largest(ops, s, |s|))
    ensures Exponential(ops, s, i) == ops.mul(c, ops.exp(s[i]))
  {
    ExponentialIs(ops, s, i, Largest(ops, s, |s|));
    ShiftedExp(ops, s[i], Largest(ops, s, |s|), c);
  }

  lemma ExponentialIs(ops: ExactOps, s: seq<real>, i: nat, m: real)
    requires i < |s| && m == Largest(ops, s, |s|)
    ensures Exponential(ops, s, i) == ops.exp(s[i] - m)
  {
  }

  lemma ShiftedExp(ops: ExactOps, x: real, m: real, c: real)
    requires ExactExp(ops) && c == ops.exp(-m)
    ensures ops.exp(x - m) == ops.mul(c, ops.exp(x))
  {
    ExpOfSum(ops, x, -m, x - m);
    MulSymmetric(ops, ops.exp(x), c);
  }

  lemma PowersPositive(ops: Reals, s: seq<real>)
    requires ExactExp(ops) && s != []
    ensures Sum(Powers(ops, s)) > 0.0
  {
    var ps := Powers(ops, s);
    assert |ps| > 0;
    forall i | 0 <= i < |ps| ensures ps[i] > 0.0 {
      ExpPositive(ops, s[i]);
    }
    SumPositive(ps);
  }

  /** A weight times the sum of all powers is its own power, whatever maximum was subtracted. */
  lemma WeightIs(ops: ExactOps, s: seq<real>, i: nat)
    requires ExactExp(ops) && i < |s|
    ensures ops.mul(Softmax(ops, s)[i], Sum(Powers(ops, s))) == ops.exp(s[i])
  {
    var c := ops.exp(-Largest(ops, s, |s|));
    var total := Sum(Powers(ops, s));
    ExpSumTo(ops, s, |s|, c);
    assert Powers(ops, s)[..|s|] == Powers(ops, s);
    ShiftedPower(ops, s, i, c);
    PowersPositive(ops, s);
    Normalized(ops, c, ops.exp(s[i]), total, Softmax(ops, s)[i]);
  }

  lemma Normalized(ops: ExactOps, c: real, p: real, total: real, w: real)
    requires c > 0.0 && total > 0.0
    requires w == ops.mul(ops.mul(c, p), ops.div(1.0, ops.mul(c, total)))
    ensures ops.mul(w, total) == p
  {
    var inv := ops.div(1.0, ops.mul(c, total));
    MulPositive(ops, c, total);
    DivIs(ops, 1.0, ops.mul(c, total));
    MulSymmetric(ops, c, p);
    MulAssociative(ops, p, c, inv);
    MulAssociative(ops, p, ops.mul(c, inv), total);
    MulSymmetric(ops, c, inv);
    MulAssociative(ops, inv, c, total);
    MulUnits(ops, p);
  }

  /** The weights are positive, add up to one, and the higher score weighs more. */
  lemma WeightsAreShares(ops: ExactOps, s: seq<real>)
    requires ExactExp(ops) && s != []
    ensures Sum(Softmax(ops, s)) == 1.0
    ensures forall i :: 0 <= i < |s| ==> Softmax(ops, s)[i] > 0.0
    ensures forall i, j :: 0 <= i < |s| && 0 <= j < |s| && s[i] < s[j] ==> Softmax(ops, s)[i] < Softmax(ops, s)[j]
  {
    var w, ps := Softmax(ops, s), Powers(ops, s);
    PowersPositive(ops, s);
    forall i | 0 <= i < |s| ensures w[i] > 0.0 && ps[i] == ops.mul(Sum(ps), w[i]) {
      WeightPositive(ops, s, i, Sum(ps));
    }
    AddUpToOne(ops, Sum(ps), w, ps);
    forall i, j | 0 <= i < |s| && 0 <= j < |s| && s[i] < s[j] ensures w[i] < w[j] {
      HigherWeighsMore(ops, s, i, j, Sum(ps));
    }
  }

  lemma WeightPositive(ops: ExactOps, s: seq<real>, i: nat, total: real)
    requires ExactExp(ops) && i < |s| && total == Sum(Powers(ops, s)) > 0.0
    ensures Softmax(ops, s)[i] > 0.0 && ops.exp(s[i]) == ops.mul(total, Softmax(ops, s)[i])
  {
    var w, p := Softmax(ops, s)[i], ops.exp(s[i]);
    WeightIs(ops, s, i);
    ExpPositive(ops, s[i]);
    PositiveFactor(ops, total, w, p);
  }

  lemma PositiveFactor(ops: ExactOps, total: real, w: real, p: real)
    requires total > 0.0 && p > 0.0 && ops.mul(w, total) == p
    ensures w > 0.0 && p == ops.mul(total, w)
  {
    MulSymmetric(ops, w, total);
    MulPositive(ops, total, w);
  }

  lemma AddUpToOne(ops: ExactOps, total: real, w: seq<real>, ps: seq<real>)
    requires total == Sum(ps) != 0.0 && |w| == |ps|
    requires forall i :: 0 <= i < |ps| ==> ps[i] == ops.mul(total, w[i])
    ensures Sum(w) == 1.0
  {
    SumScaled(ops, total, w, ps);
    MulUnits(ops, total);
    Cancel(ops, total, Sum(w), 1.0);
  }

  lemma HigherWeighsMore(ops: ExactOps, s: seq<real>, i: nat, j: nat, total: real)
    requires ExactExp(ops) && i < |s| && j < |s| && s[i] < s[j] && total == Sum(Powers(ops, s)) > 0.0
    ensures Softmax(ops, s)[i] < Softmax(ops, s)[j]
  {
    var a, b := Softmax(ops, s)[i], Softmax(ops, s)[j];
    WeightIs(ops, s, i);
    WeightIs(ops, s, j);
    ExpRises(ops, s[i], s[j]);
    MulSymmetric(ops, a, total);
    MulSymmetric(ops, b, total);
    MulSum(ops, total, b, a);
    MulPositive(ops, total, b - a);
  }

  // ------------------------------------------------------------------ the weighted mean

  lemma {:induction false} WeightedTo(ops: ExactOps, w: seq<real>, values: seq<seq<real>>, i: nat, n: nat, col: seq<real>)
    requires n <= |w| == |values| == |col|
    requires forall j :: 0 <= j < |values| ==> i < |values[j]| && col[j] == values[j][i]
    ensures WeightedSum(ops, w, values, i, n) == Inner(ops, w[..n], col[..n])
  {
    if n > 0 {
      WeightedTo(ops, w, values, i, n - 1, col);
      InnerNext(ops, w, col, n - 1);
    }
  }

  /** Component `i` of every value. */
  function Component(values: seq<seq<real>>, d: nat, i: nat): (r: seq<real>)
    requires InputRows(values, d) && i < d
    ensures |r| == |values|
  {
    seq(|values|, j requires 0 <= j < |values| => values[j][i])
  }

  function WeightsOf(ops: Reals, q: seq<real>, keys: seq<seq<real>>, scaling: real): (r: seq<real>)
    requires InputRows(keys, |q|)
    ensures |r| == |keys|
  {
    Softmax(ops, Scores(ops, q, keys, scaling))
  }

  lemma AttendedIs(ops: ExactOps, q: seq<real>, keys: seq<seq<real>>, values: seq<seq<real>>, scaling: real, i: nat)
    requires InputRows(keys, |q|) && InputRows(values, |q|) && |keys| == |values| && i < |q|
    ensures Attended(ops, q, keys, values, scaling)[i]
         == Inner(ops, WeightsOf(ops, q, keys, scaling), Component(values, |q|, i))
  {
    var w, col := WeightsOf(ops, q, keys, scaling), Component(values, |q|, i);
    WeightedTo(ops, w, values, i, |values|, col);
    assert w[..|values|] == w && col[..|values|] == col;
  }

  /** Values that agree everywhere are attended to as that value. */
  lemma ConstantValues(ops: ExactOps, q: seq<real>, keys: seq<seq<real>>, values: seq<seq<real>>, scaling: real, i: nat, c: real)
    requires ExactExp(ops) && keys != []
    requires InputRows(keys, |q|) && InputRows(values, |q|) && |keys| == |values| && i < |q|
    requires forall j :: 0 <= j < |values| ==> values[j][i] == c
    ensures Attended(ops, q, keys, values, scaling)[i] == c
  {
    var w, col := WeightsOf(ops, q, keys, scaling), Component(values, |q|, i);
    AttendedIs(ops, q, keys, values, scaling, i);
    WeightsAreShares(ops, Scores(ops, q, keys, scaling));
    forall j | 0 <= j < |w| ensures Products(ops, w, col)[j] == ops.mul(c, w[j]) {
      MulSymmetric(ops, w[j], c);
    }
    SumScaled(ops, c, w, Products(ops, w, col));
    MulUnits(ops, c);
  }

  // ------------------------------------------------------------------ in any order

  function Power(ops: Reals, q: seq<real>, scaling: real, key: seq<real>): real {
    if |key| == |q| then ops.exp(ops.mul(Dot(ops, q, key, |q|), scaling)) else 0.0
  }

  function Pairs(keys: seq<seq<real>>, values: seq<seq<real>>): (r: seq<(seq<real>, seq<real>)>)
    requires |keys| == |values|
    ensures |r| == |keys|
  {
    seq(|keys|, j requires 0 <= j < |keys| => (keys[j], values[j]))
  }

  /** The sum of all powers, and of all values weighted with them. */
  function Denominator(ops: Reals, q: seq<real>, scaling: real): ((seq<real>, seq<real>)) -> real {
    (kv: (seq<real>, seq<real>)) => Power(ops, q, scaling, kv.0)
  }

  function Numerator(ops: Reals, q: seq<real>, scaling: real, i: nat): ((seq<real>, seq<real>)) -> real {
    (kv: (seq<real>, seq<real>)) => if i < |kv.1| then ops.mul(Power(ops, q, scaling, kv.0), kv.1[i]) else 0.0
  }

  /** Attention is the mean of the values weighted with the exponentials of their keys' scores. */
  lemma AttendedMean(ops: ExactOps, q: seq<real>, keys: seq<seq<real>>, values: seq<seq<real>>, scaling: real, i: nat)
    requires ExactExp(ops) && keys != []
    requires InputRows(keys, |q|) && InputRows(values, |q|) && |keys| == |values| && i < |q|
    ensures Sum(Mapped(Denominator(ops, q, scaling), Pairs(keys, values))) > 0.0
    ensures ops.mul(Sum(Mapped(Denominator(ops, q, scaling), Pairs(keys, values))), Attended(ops, q, keys, values, scaling)[i])
         == Sum(Mapped(Numerator(ops, q, scaling, i), Pairs(keys, values)))
  {
    var w, col := WeightsOf(ops, q, keys, scaling), Component(values, |q|, i);
    var den := Mapped(Denominator(ops, q, scaling), Pairs(keys, values));
    var num := Mapped(Numerator(ops, q, scaling, i), Pairs(keys, values));
    AttendedIs(ops, q, keys, values, scaling, i);
    DenominatorIs(ops, q, keys, values, scaling);
    PowersPositive(ops, Scores(ops, q, keys, scaling));
    forall j | 0 <= j < |keys| ensures num[j] == ops.mul(Sum(den), Products(ops, w, col)[j]) {
      NumeratorTerm(ops, q, keys, values, scaling, i, j, Sum(den));
    }
    SumScaled(ops, Sum(den), Products(ops, w, col), num);
  }

  lemma DenominatorIs(ops: Reals, q: seq<real>, keys: seq<seq<real>>, values: seq<seq<real>>, scaling: real)
    requires InputRows(keys, |q|) && |keys| == |values|
    ensures Mapped(Denominator(ops, q, scaling), Pairs(keys, values)) == Powers(ops, Scores(ops, q, keys, scaling))
  {
  }

  lemma NumeratorTerm(ops: ExactOps, q: seq<real>, keys: seq<seq<real>>, values: seq<seq<real>>, scaling: real, i: nat, j: nat,
                      total: real)
    requires ExactExp(ops) && j < |keys| && i < |q|
    requires InputRows(keys, |q|) && InputRows(values, |q|) && |keys| == |values|
    requires total == Sum(Powers(ops, Scores(ops, q, keys, scaling)))
    ensures Mapped(Numerator(ops, q, scaling, i), Pairs(keys, values))[j]
         == ops.mul(total, ops.mul(WeightsOf(ops, q, keys, scaling)[j], values[j][i]))
  {
    var s, w := Scores(ops, q, keys, scaling), WeightsOf(ops, q, keys, scaling)[j];
    WeightIs(ops, s, j);
    WeightedValue(ops, w, total, ops.exp(s[j]), values[j][i]);
    NumeratorIs(ops, q, keys, values, scaling, i, j);
  }

  lemma NumeratorIs(ops: Reals, q: seq<real>, keys: seq<seq<real>>, values: seq<seq<real>>, scaling: real, i: nat, j: nat)
    requires InputRows(keys, |q|) && InputRows(values, |q|) && |keys| == |values| && j < |keys| && i < |q|
    ensures Mapped(Numerator(ops, q, scaling, i), Pairs(keys, values))[j]
         == ops.mul(ops.exp(Scores(ops, q, keys, scaling)[j]), values[j][i])
  {
    var kv := Pairs(keys, values)[j];
    assert Numerator(ops, q, scaling, i)(kv) == ops.mul(Power(ops, q, scaling, kv.0), kv.1[i]);
  }

  lemma WeightedValue(ops: ExactOps, w: real, total: real, p: real, x: real)
    requires ops.mul(w, total) == p
    ensures ops.mul(p, x) == ops.mul(total, ops.mul(w, x))
  {
    MulSymmetric(ops, w, total);
    MulAssociative(ops, total, w, x);
  }

  /** Keys and values listed together in any other order attend to the same. */
  lemma AnyOrder(ops: ExactOps, q: seq<real>, keys: seq<seq<real>>, values: seq<seq<real>>,
                 keys': seq<seq<real>>, values': seq<seq<real>>, scaling: real)
    requires ExactExp(ops) && keys != [] && keys' != []
    requires InputRows(keys, |q|) && InputRows(values, |q|) && |keys| == |values|
    requires InputRows(keys', |q|) && InputRows(values', |q|) && |keys'| == |values'|
    requires multiset(Pairs(keys, values)) == multiset(Pairs(keys', values'))
    ensures Attended(ops, q, keys, values, scaling) == Attended(ops, q, keys', values', scaling)
  {
    var a, b := Attended(ops, q, keys, values, scaling), Attended(ops, q, keys', values', scaling);
    forall i | 0 <= i < |q| ensures a[i] == b[i] {
      AttendedMean(ops, q, keys, values, scaling, i);
      AttendedMean(ops, q, keys', values', scaling, i);
      SumAnyOrder(Denominator(ops, q, scaling), Pairs(keys, values), Pairs(keys', values'));
      SumAnyOrder(Numerator(ops, q, scaling, i), Pairs(keys, values), Pairs(keys', values'));
      Cancel(ops, Sum(Mapped(Denominator(ops, q, scaling), Pairs(keys, values))), a[i], b[i]);
    }
  }
}
