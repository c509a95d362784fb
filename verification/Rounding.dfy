/** The integer rounding helpers of csrc/siphon/common.hpp and the facts about them
    that the layout and the rank split rely on. */
module Rounding {

  function DivCeil(x: nat, y: nat): nat
    requires y > 0
  {
    (x + y - 1) / y
  }

  /** The least multiple of `y` that is at least `x`. The source computes it as
      `DIV_CEIL(x, y) * y`; RoundUpIsDivCeil shows this is the same number. */
  function RoundUp(x: nat, y: nat): (r: nat)
    requires y > 0
    ensures r % y == 0 && x <= r < x + y
  {
    if x % y == 0 then x
    else
      RoundDownAligned(x, y);
      assert (x - x % y + y) % y == 0 by { AlignedSum(x - x % y, y, y); }
      x - x % y + y
  }

  /** The greatest multiple of `y` that is at most `x`, `x / y * y` in the source. */
  function RoundDown(x: nat, y: nat): (r: nat)
    requires y > 0
    ensures r % y == 0 && r <= x < r + y && r + x % y == x
  {
    RoundDownAligned(x, y);
    x - x % y
  }

  lemma RoundDownAligned(x: nat, y: nat)
    requires y > 0
    ensures x % y <= x && (x - x % y) % y == 0
  {
    DivisionBounds(x, y);
    assert x - x % y == x / y * y;
    MultipleIsAligned(x / y, y);
  }

  lemma RoundUpIsDivCeil(x: nat, y: nat)
    requires y > 0
    ensures RoundUp(x, y) == DivCeil(x, y) * y
  {
    MultipleIsAligned(DivCeil(x, y), y);
    DivisionBounds(x + y - 1, y);
    AlignedUnique(RoundUp(x, y), DivCeil(x, y) * y, y);
  }

  lemma RoundDownIsQuotient(x: nat, y: nat)
    requires y > 0
    ensures RoundDown(x, y) == x / y * y
  {
    DivisionBounds(x, y);
  }

  lemma DivisionBounds(x: nat, y: nat)
    requires y > 0
    ensures x / y * y <= x < x / y * y + y
    ensures x / y * y + x % y == x
  {
  }

  lemma MultipleIsAligned(q: nat, y: nat)
    requires y > 0
    ensures (q * y) % y == 0
  {
    var d := q - q * y / y;
    DivisionBounds(q * y, y);
    assert (q * y) % y == d * y;
    assert d >= 1 ==> d * y >= y;
    assert d <= -1 ==> d * y + y <= 0;
  }

  /** A multiple is its quotient times the divisor. */
  lemma AlignedQuotient(x: nat, y: nat)
    requires y > 0 && x % y == 0
    ensures x / y * y == x
  {
    DivisionBounds(x, y);
  }

  lemma AlignedSum(a: nat, b: nat, y: nat)
    requires y > 0 && a % y == 0 && b % y == 0
    ensures (a + b) % y == 0
  {
    AlignedQuotient(a, y);
    AlignedQuotient(b, y);
    assert a + b == (a / y + b / y) * y;
    MultipleIsAligned(a / y + b / y, y);
  }

  lemma AlignedDifference(a: nat, b: nat, y: nat)
    requires y > 0 && a % y == 0 && b % y == 0 && b <= a
    ensures (a - b) % y == 0
  {
    AlignedQuotient(a, y);
    AlignedQuotient(b, y);
    var q := a / y - b / y;
    assert a - b == q * y;
    assert q <= -1 ==> q * y + y <= 0;
    MultipleIsAligned(q, y);
  }

  /** Two multiples of `y` less than `y` apart are equal. */
  lemma AlignedUnique(a: nat, b: nat, y: nat)
    requires y > 0 && a % y == 0 && b % y == 0
    requires a < b + y && b < a + y
    ensures a == b
  {
    if a >= b {
      AlignedDifference(a, b, y);
    } else {
      AlignedDifference(b, a, y);
      assert false;
    }
  }

  lemma RoundUpOfAligned(x: nat, y: nat)
    requires y > 0 && x % y == 0
    ensures RoundUp(x, y) == x
  {
    AlignedUnique(RoundUp(x, y), x, y);
  }

  lemma QuotientIs(x: nat, y: nat, q: nat)
    requires y > 0
    ensures q * y <= x < q * y + y <==> x / y == q
  {
    DivisionBounds(x, y);
    var d := q - x / y;
    assert q * y == x / y * y + d * y;
    assert d >= 1 ==> d * y >= y;
    assert d <= -1 ==> d * y + y <= 0;
  }

  /** Distinct multiples of `y` are at least `y` apart. */
  lemma AlignedApart(a: nat, b: nat, y: nat)
    requires y > 0 && a % y == 0 && b % y == 0 && a < b
    ensures a + y <= b
  {
    AlignedDifference(b, a, y);
    DivisionBounds(b - a, y);
    AlignedQuotient(b - a, y);
    var q := (b - a) / y;
    assert q <= 0 ==> q * y <= 0;
    assert q >= 1 ==> q * y >= y;
  }

  lemma RoundUpMonotone(a: nat, b: nat, y: nat)
    requires y > 0 && a <= b
    ensures RoundUp(a, y) <= RoundUp(b, y)
  {
    if RoundUp(b, y) < RoundUp(a, y) {
      AlignedApart(RoundUp(b, y), RoundUp(a, y), y);
    }
  }

  /** An aligned summand passes through the rounding. */
  lemma RoundUpShift(base: nat, x: nat, y: nat)
    requires y > 0 && base % y == 0
    ensures RoundUp(base + x, y) == base + RoundUp(x, y)
  {
    AlignedSum(base, RoundUp(x, y), y);
    AlignedUnique(RoundUp(base + x, y), base + RoundUp(x, y), y);
  }

  /** Alignment to a product gives alignment to its factor. */
  lemma AlignedToFactor(x: nat, y: nat, k: nat)
    requires y > 0 && k > 0 && x % (y * k) == 0
    ensures x % y == 0
  {
    AlignedQuotient(x, y * k);
    assert x == x / (y * k) * (y * k) == (x / (y * k) * k) * y;
    MultipleIsAligned(x / (y * k) * k, y);
  }

  /** Multiplying both sides by the same factor keeps alignment. */
  lemma AlignedProduct(x: nat, y: nat, k: nat)
    requires y > 0 && k > 0 && x % y == 0
    ensures (x * k) % (y * k) == 0
  {
    AlignedQuotient(x, y);
    assert x * k == x / y * (y * k);
    MultipleIsAligned(x / y, y * k);
  }
}
