/** Exact arithmetic: operations that are the real ones, and the sums and inner products that
    the laws of the two mixers are stated with. Rounding is left out here and only here. */
module ExactArithmetic {
  import opened FloatOps

  type Reals = Ops<real, real>

  /** Always true; naming the operands, it keeps the laws of products from being used unasked. */
  predicate On(x: real, y: real) { true }

  /** Both precisions compute exactly. */
  ghost predicate Exact(ops: Reals) {
    && ops.zero == 0.0 && ops.one == 1.0 && ops.zero64 == 0.0
    && (forall x, y :: ops.add(x, y) == x + y) && (forall x, y :: ops.sub(x, y) == x - y)
    && (forall x :: ops.neg(x) == -x)
    && (forall x, y {:trigger On(x, y)} :: ops.mul(x, y) == x * y)
    && (forall x, y {:trigger On(x, y)} :: y != 0.0 ==> ops.div(x, y) == x / y)
    && (forall n: nat :: ops.ofNat(n) == n as real) && (forall n: nat :: ops.ofNat64(n) == n as real)
    && (forall x, y :: ops.add64(x, y) == x + y) && (forall x, y :: ops.mul64(x, y) == ops.mul(x, y))
    && (forall x, y :: ops.div64(x, y) == ops.div(x, y))
    && (forall x :: ops.widen(x) == x) && (forall x :: ops.narrow(x) == x)
  }

  /** Operations that are exact; the constants and functions left open may be anything. */
  type ExactOps = ops: Reals | Exact(ops) ghost witness Plain()

  // The witness: each operation as a function of its own.

  ghost predicate Adds(f: (real, real) -> real) { forall x, y :: f(x, y) == x + y }
  ghost predicate Subtracts(f: (real, real) -> real) { forall x, y :: f(x, y) == x - y }
  ghost predicate Multiplies(f: (real, real) -> real) { forall x, y :: f(x, y) == x * y }
  ghost predicate Divides(f: (real, real) -> real) { forall x, y :: y != 0.0 ==> f(x, y) == x / y }
  ghost predicate Negates(f: real -> real) { forall x :: f(x) == -x }
  ghost predicate Keeps(f: real -> real) { forall x :: f(x) == x }
  ghost predicate Counts(f: nat -> real) { forall n: nat :: f(n) == n as real }

  function Adding(): (f: (real, real) -> real)
    ensures Adds(f)
  {
    (x: real, y: real) => x + y
  }

  function Subtracting(): (f: (real, real) -> real)
    ensures Subtracts(f)
  {
    (x: real, y: real) => x - y
  }

  function Multiplying(): (f: (real, real) -> real)
    ensures Multiplies(f)
  {
    (x: real, y: real) => x * y
  }

  function Dividing(): (f: (real, real) -> real)
    ensures Divides(f)
  {
    (x: real, y: real) => if y == 0.0 then 0.0 else x / y
  }

  function Negating(): (f: real -> real)
    ensures Negates(f)
  {
    (x: real) => -x
  }

  function Keeping(): (f: real -> real)
    ensures Keeps(f)
  {
    (x: real) => x
  }

  function Counting(): (f: nat -> real)
    ensures Counts(f)
  {
    (n: nat) => n as real
  }

  /** Exact operations with constant and identical functions where none is asked for. */
  ghost function Filled(add: (real, real) -> real, sub: (real, real) -> real, mul: (real, real) -> real,
                        div: (real, real) -> real, neg: real -> real, id: real -> real, count: nat -> real): Reals {
    Ops(0.0, 1.0, 0.0, 0.0, 0.0, add, sub, mul, div, neg, id, id, id, id, id, id, id, add,
        (x: real, y: real) => x > y, count, 0.0, add, mul, div, id, id, count)
  }

  lemma FilledIsExact(add: (real, real) -> real, sub: (real, real) -> real, mul: (real, real) -> real,
                      div: (real, real) -> real, neg: real -> real, id: real -> real, count: nat -> real)
    requires Adds(add) && Subtracts(sub) && Multiplies(mul) && Divides(div) && Negates(neg) && Keeps(id) && Counts(count)
    ensures Exact(Filled(add, sub, mul, div, neg, id, count))
  {
  }

  lemma PlainIsExact()
    ensures Exact(Filled(Adding(), Subtracting(), Multiplying(), Dividing(), Negating(), Keeping(), Counting()))
  {
    var add, sub, mul, div, neg, id, count :=
      Adding(), Subtracting(), Multiplying(), Dividing(), Negating(), Keeping(), Counting();
    FilledIsExact(add, sub, mul, div, neg, id, count);
  }

  ghost function Plain(): (ops: Reals)
    ensures Exact(ops)
  {
    PlainIsExact();
    Filled(Adding(), Subtracting(), Multiplying(), Dividing(), Negating(), Keeping(), Counting())
  }

  /** The exponential: positive, rising, sums to products. */
  ghost predicate ExactExp(ops: Reals) {
    && (forall x :: ops.exp(x) > 0.0)
    && (forall x, y {:trigger On(x, y)} :: ops.exp(x + y) == ops.mul(ops.exp(x), ops.exp(y)))
    && (forall x, y {:trigger On(x, y)} :: x < y ==> ops.exp(x) < ops.exp(y))
  }

  /** Cosine and sine of a difference. */
  ghost predicate ExactTrig(ops: Reals) {
    forall a, b {:trigger On(a, b)} ::
      && ops.cos(a - b) == ops.mul(ops.cos(a), ops.cos(b)) + ops.mul(ops.sin(a), ops.sin(b))
      && ops.sin(a - b) == ops.mul(ops.sin(a), ops.cos(b)) - ops.mul(ops.cos(a), ops.sin(b))
  }

  ghost predicate ExactSqrt(ops: Reals) {
    forall x {:trigger ops.sqrt(x)} :: x >= 0.0 ==> ops.sqrt(x) >= 0.0 && ops.mul(ops.sqrt(x), ops.sqrt(x)) == x
  }

  // ------------------------------------------------------------------ products

  lemma MulIs(ops: ExactOps, x: real, y: real)
    ensures ops.mul(x, y) == x * y
  {
    assert On(x, y);
  }

  /** One more product, in the wider precision. */
  lemma MulAdd64(ops: ExactOps, acc: real, x: real, y: real)
    ensures ops.add64(acc, ops.mul64(ops.widen(x), ops.widen(y))) == acc + ops.mul(x, y)
  {
  }

  lemma MulSymmetric(ops: ExactOps, x: real, y: real)
    ensures ops.mul(x, y) == ops.mul(y, x)
  {
    MulIs(ops, x, y);
    MulIs(ops, y, x);
  }

  lemma MulSum(ops: ExactOps, k: real, x: real, y: real)
    ensures ops.mul(k, x + y) == ops.mul(k, x) + ops.mul(k, y)
    ensures ops.mul(k, x - y) == ops.mul(k, x) - ops.mul(k, y)
  {
    MulIs(ops, k, x + y);
    MulIs(ops, k, x - y);
    MulIs(ops, k, x);
    MulIs(ops, k, y);
    Distribute(k, x, y);
  }

  lemma Distribute(k: real, x: real, y: real)
    ensures k * (x + y) == k * x + k * y && k * (x - y) == k * x - k * y
  {
  }

  /** Sums on the left. */
  lemma SumMul(ops: ExactOps, x: real, y: real, k: real)
    ensures ops.mul(x + y, k) == ops.mul(x, k) + ops.mul(y, k)
    ensures ops.mul(x - y, k) == ops.mul(x, k) - ops.mul(y, k)
  {
    MulSum(ops, k, x, y);
    MulSymmetric(ops, x, k);
    MulSymmetric(ops, y, k);
    MulSymmetric(ops, x + y, k);
    MulSymmetric(ops, x - y, k);
  }

  lemma MulAssociative(ops: ExactOps, x: real, y: real, z: real)
    ensures ops.mul(ops.mul(x, y), z) == ops.mul(x, ops.mul(y, z))
  {
    MulIs(ops, x, y);
    MulIs(ops, y, z);
    MulIs(ops, x * y, z);
    MulIs(ops, x, y * z);
    Associate(x, y, z);
  }

  lemma Associate(x: real, y: real, z: real)
    ensures (x * y) * z == x * (y * z)
  {
  }

  /** Zero, one and minus one. */
  lemma MulUnits(ops: ExactOps, x: real)
    ensures ops.mul(x, 0.0) == 0.0 == ops.mul(0.0, x) && ops.mul(x, 1.0) == x == ops.mul(1.0, x)
    ensures ops.mul(x, -1.0) == -x == ops.mul(-1.0, x)
  {
    MulIs(ops, x, 0.0);
    MulIs(ops, 0.0, x);
    MulIs(ops, x, 1.0);
    MulIs(ops, 1.0, x);
    MulIs(ops, x, -1.0);
    MulIs(ops, -1.0, x);
  }

  lemma MulPositive(ops: ExactOps, x: real, y: real)
    requires x > 0.0
    ensures y > 0.0 <==> ops.mul(x, y) > 0.0
    ensures y == 0.0 <==> ops.mul(x, y) == 0.0
  {
    MulIs(ops, x, y);
  }

  lemma MulSigns(ops: ExactOps, x: real, y: real)
    requires y >= 0.0
    ensures x <= 0.0 ==> ops.mul(x, y) <= 0.0
    ensures x >= 0.0 ==> ops.mul(x, y) >= 0.0
  {
    MulIs(ops, x, y);
  }

  lemma SquareNonnegative(ops: ExactOps, x: real)
    ensures ops.mul(x, x) >= 0.0
  {
    MulIs(ops, x, x);
  }

  lemma DivIs(ops: ExactOps, x: real, y: real)
    requires y != 0.0
    ensures ops.mul(ops.div(x, y), y) == x
  {
    assert On(x, y);
    MulIs(ops, x / y, y);
  }

  /** A factor other than zero can be dropped. */
  lemma Cancel(ops: ExactOps, k: real, x: real, y: real)
    requires k != 0.0 && ops.mul(k, x) == ops.mul(k, y)
    ensures x == y
  {
    MulIs(ops, k, x);
    MulIs(ops, k, y);
    assert k * x / k == x && k * y / k == y;
  }

  lemma ExpOfSum(ops: Reals, x: real, y: real, z: real)
    requires ExactExp(ops) && z == x + y
    ensures ops.exp(z) == ops.mul(ops.exp(x), ops.exp(y))
  {
    assert On(x, y);
  }

  lemma ExpPositive(ops: Reals, x: real)
    requires ExactExp(ops)
    ensures ops.exp(x) > 0.0
  {
  }

  lemma ExpOfZero(ops: ExactOps)
    requires ExactExp(ops)
    ensures ops.exp(0.0) == 1.0
  {
    var e := ops.exp(0.0);
    ExpPositive(ops, 0.0);
    ExpOfSum(ops, 0.0, 0.0, 0.0);
    MulUnits(ops, e);
    Cancel(ops, e, e, 1.0);
  }

  lemma ExpRises(ops: Reals, x: real, y: real)
    requires ExactExp(ops)
    ensures x < y <==> ops.exp(x) < ops.exp(y)
  {
    assert On(x, y) && On(y, x);
  }

  lemma TrigOfDifference(ops: Reals, a: real, b: real, d: real)
    requires ExactTrig(ops) && d == a - b
    ensures ops.cos(d) == ops.mul(ops.cos(a), ops.cos(b)) + ops.mul(ops.sin(a), ops.sin(b))
    ensures ops.sin(d) == ops.mul(ops.sin(a), ops.cos(b)) - ops.mul(ops.cos(a), ops.sin(b))
  {
    assert On(a, b);
  }

  // ------------------------------------------------------------------ sums

  function Sum(s: seq<real>): real {
    if s == [] then 0.0 else Sum(s[..|s| - 1]) + s[|s| - 1]
  }

  lemma SumSnoc(s: seq<real>, x: real)
    ensures Sum(s + [x]) == Sum(s) + x
  {
    assert (s + [x])[..|s|] == s;
  }

  lemma {:induction false} SumAppend(a: seq<real>, b: seq<real>)
    ensures Sum(a + b) == Sum(a) + Sum(b)
  {
    if b == [] {
      assert a + b == a;
    } else {
      var n := |b| - 1;
      assert (a + b)[..|a| + n] == a + b[..n];
      SumAppend(a, b[..n]);
    }
  }

  lemma {:induction false} SumZeros(s: seq<real>)
    requires forall i :: 0 <= i < |s| ==> s[i] == 0.0
    ensures Sum(s) == 0.0
  {
    if s != [] {
      SumZeros(s[..|s| - 1]);
    }
  }

  /** `c` is `a` and `b` added up, position by position. */
  lemma {:induction false} SumPointwise(a: seq<real>, b: seq<real>, c: seq<real>)
    requires |a| == |b| == |c| && forall i :: 0 <= i < |a| ==> c[i] == a[i] + b[i]
    ensures Sum(c) == Sum(a) + Sum(b)
  {
    if a != [] {
      var n := |a| - 1;
      SumPointwise(a[..n], b[..n], c[..n]);
    }
  }

  lemma {:induction false} SumScaled(ops: ExactOps, k: real, a: seq<real>, c: seq<real>)
    requires |a| == |c| && forall i :: 0 <= i < |a| ==> c[i] == ops.mul(k, a[i])
    ensures Sum(c) == ops.mul(k, Sum(a))
  {
    if a == [] {
      MulUnits(ops, k);
    } else {
      var n := |a| - 1;
      SumScaled(ops, k, a[..n], c[..n]);
      MulSum(ops, k, Sum(a[..n]), a[n]);
    }
  }

  lemma {:induction false} SumNonnegative(s: seq<real>)
    requires forall i :: 0 <= i < |s| ==> s[i] >= 0.0
    ensures Sum(s) >= 0.0
  {
    if s != [] {
      SumNonnegative(s[..|s| - 1]);
    }
  }

  lemma {:induction false} SumPositive(s: seq<real>)
    requires s != [] && forall i :: 0 <= i < |s| ==> s[i] > 0.0
    ensures Sum(s) > 0.0
  {
    if |s| > 1 {
      SumPositive(s[..|s| - 1]);
    }
  }

  /** Sums do not depend on the order. */
  lemma {:induction false} SumAnyOrder<T>(f: T -> real, a: seq<T>, b: seq<T>)
    requires multiset(a) == multiset(b)
    ensures Sum(Mapped(f, a)) == Sum(Mapped(f, b))
    decreases |a|
  {
    if a == [] {
      assert |multiset(b)| == |multiset(a)|;
      assert b == [];
    } else {
      var n := |a| - 1;
      var x := a[n];
      assert x in multiset(a);
      var i :| 0 <= i < |b| && b[i] == x;
      var rest := b[..i] + b[i + 1..];
      RestAlike(a, b, n, i);
      SumAnyOrder(f, a[..n], rest);
      TakenOut(f, a, n);
      assert a[..n] + a[n + 1..] == a[..n];
      TakenOut(f, b, i);
    }
  }

  lemma RestAlike<T>(a: seq<T>, b: seq<T>, n: nat, i: nat)
    requires multiset(a) == multiset(b) && n == |a| - 1 && i < |b| && a[n] == b[i]
    ensures multiset(a[..n]) == multiset(b[..i] + b[i + 1..])
  {
    var l, x, r := b[..i], b[i], b[i + 1..];
    assert a == a[..n] + [x];
    assert b == (l + [x]) + r;
    assert multiset(a) == multiset(a[..n]) + multiset([x]);
    assert multiset(b) == multiset(l) + multiset([x]) + multiset(r);
    assert multiset(l + r) == multiset(l) + multiset(r);
    assert multiset(a[..n]) == multiset(a) - multiset([x]);
    assert multiset(l + r) == multiset(b) - multiset([x]);
  }

  lemma TakenOut<T>(f: T -> real, b: seq<T>, i: nat)
    requires i < |b|
    ensures Sum(Mapped(f, b)) == Sum(Mapped(f, b[..i] + b[i + 1..])) + f(b[i])
  {
    var l, r := Mapped(f, b[..i]), Mapped(f, b[i + 1..]);
    assert Mapped(f, b) == (l + [f(b[i])]) + r;
    assert Mapped(f, b[..i] + b[i + 1..]) == l + r;
    SumAppend(l + [f(b[i])], r);
    SumAppend(l, r);
    SumSnoc(l, f(b[i]));
  }

  function Mapped<T>(f: T -> real, s: seq<T>): (r: seq<real>)
    ensures |r| == |s|
  {
    seq(|s|, i requires 0 <= i < |s| => f(s[i]))
  }

  // ------------------------------------------------------------------ inner products

  function Products(ops: Reals, x: seq<real>, y: seq<real>): (r: seq<real>)
    requires |x| == |y|
    ensures |r| == |x|
  {
    seq(|x|, i requires 0 <= i < |x| => ops.mul(x[i], y[i]))
  }

  function Inner(ops: Reals, x: seq<real>, y: seq<real>): real
    requires |x| == |y|
  {
    Sum(Products(ops, x, y))
  }

  function Times(ops: Reals, k: real, s: seq<real>): (r: seq<real>)
    ensures |r| == |s| && forall i :: 0 <= i < |s| ==> r[i] == ops.mul(k, s[i])
  {
    seq(|s|, i requires 0 <= i < |s| => ops.mul(k, s[i]))
  }

  /** `a * x + b * y`. */
  function Combined(ops: Reals, a: real, x: seq<real>, b: real, y: seq<real>): (r: seq<real>)
    requires |x| == |y|
    ensures |r| == |x| && IsCombined(ops, a, x, b, y, r)
  {
    seq(|x|, i requires 0 <= i < |x| => ops.mul(a, x[i]) + ops.mul(b, y[i]))
  }

  predicate IsCombined(ops: Reals, a: real, x: seq<real>, b: real, y: seq<real>, c: seq<real>) {
    |x| == |y| == |c| && forall i :: 0 <= i < |x| ==> c[i] == ops.mul(a, x[i]) + ops.mul(b, y[i])
  }

  function Unit(n: nat, i: nat): (r: seq<real>)
    ensures |r| == n
  {
    seq(n, j requires 0 <= j < n => if j == i then 1.0 else 0.0)
  }

  lemma InnerSymmetric(ops: ExactOps, x: seq<real>, y: seq<real>)
    requires |x| == |y|
    ensures Inner(ops, x, y) == Inner(ops, y, x)
  {
    forall i | 0 <= i < |x| ensures Products(ops, x, y)[i] == Products(ops, y, x)[i] {
      MulSymmetric(ops, x[i], y[i]);
    }
    assert Products(ops, x, y) == Products(ops, y, x);
  }

  lemma SumCombined(ops: ExactOps, a: real, x: seq<real>, b: real, y: seq<real>, c: seq<real>)
    requires IsCombined(ops, a, x, b, y, c)
    ensures Sum(c) == ops.mul(a, Sum(x)) + ops.mul(b, Sum(y))
  {
    SumScaled(ops, a, x, Times(ops, a, x));
    SumScaled(ops, b, y, Times(ops, b, y));
    SumPointwise(Times(ops, a, x), Times(ops, b, y), c);
  }

  /** Linear on the left. */
  lemma InnerLinear(ops: ExactOps, a: real, x: seq<real>, b: real, y: seq<real>, c: seq<real>, z: seq<real>)
    requires IsCombined(ops, a, x, b, y, c) && |z| == |x|
    ensures Inner(ops, c, z) == ops.mul(a, Inner(ops, x, z)) + ops.mul(b, Inner(ops, y, z))
  {
    var px, py, pc := Products(ops, x, z), Products(ops, y, z), Products(ops, c, z);
    forall i | 0 <= i < |x| ensures pc[i] == ops.mul(a, px[i]) + ops.mul(b, py[i]) {
      CombinedTerm(ops, a, x[i], b, y[i], z[i]);
    }
    SumCombined(ops, a, px, b, py, pc);
  }

  lemma CombinedTerm(ops: ExactOps, a: real, x: real, b: real, y: real, z: real)
    ensures ops.mul(ops.mul(a, x) + ops.mul(b, y), z) == ops.mul(a, ops.mul(x, z)) + ops.mul(b, ops.mul(y, z))
  {
    SumMul(ops, ops.mul(a, x), ops.mul(b, y), z);
    MulAssociative(ops, a, x, z);
    MulAssociative(ops, b, y, z);
  }

  /** Linear on the right. */
  lemma InnerLinearRight(ops: ExactOps, z: seq<real>, a: real, x: seq<real>, b: real, y: seq<real>, c: seq<real>)
    requires IsCombined(ops, a, x, b, y, c) && |z| == |x|
    ensures Inner(ops, z, c) == ops.mul(a, Inner(ops, z, x)) + ops.mul(b, Inner(ops, z, y))
  {
    InnerSymmetric(ops, z, x);
    InnerSymmetric(ops, z, y);
    InnerSymmetric(ops, z, c);
    InnerLinear(ops, a, x, b, y, c, z);
  }

  lemma InnerUnit(ops: ExactOps, x: seq<real>, i: nat)
    requires i < |x|
    ensures Inner(ops, x, Unit(|x|, i)) == x[i]
  {
    var ps := Products(ops, x, Unit(|x|, i));
    forall j | 0 <= j < |x| ensures ps[j] == if j == i then x[i] else 0.0 {
      MulUnits(ops, x[j]);
    }
    assert ps == (ps[..i] + [x[i]]) + ps[i + 1..];
    SumAppend(ps[..i] + [x[i]], ps[i + 1..]);
    SumSnoc(ps[..i], x[i]);
    SumZeros(ps[..i]);
    SumZeros(ps[i + 1..]);
  }

  lemma InnerSelf(ops: ExactOps, x: seq<real>)
    ensures Inner(ops, x, x) >= 0.0
  {
    var ps := Products(ops, x, x);
    forall i | 0 <= i < |ps| ensures ps[i] >= 0.0 {
      SquareNonnegative(ops, x[i]);
    }
    SumNonnegative(ps);
  }

  lemma InnerSnoc(ops: Reals, x: seq<real>, y: seq<real>, a: real, b: real)
    requires |x| == |y|
    ensures Inner(ops, x + [a], y + [b]) == Inner(ops, x, y) + ops.mul(a, b)
  {
    assert Products(ops, x + [a], y + [b]) == Products(ops, x, y) + [ops.mul(a, b)];
    SumSnoc(Products(ops, x, y), ops.mul(a, b));
  }

  /** One more term. */
  lemma InnerNext(ops: Reals, x: seq<real>, y: seq<real>, n: nat)
    requires n < |x| && n < |y|
    ensures Inner(ops, x[..n + 1], y[..n + 1]) == Inner(ops, x[..n], y[..n]) + ops.mul(x[n], y[n])
  {
    assert x[..n + 1] == x[..n] + [x[n]] && y[..n + 1] == y[..n] + [y[n]];
    InnerSnoc(ops, x[..n], y[..n], x[n], y[n]);
  }
}
