/** The rotary embedding under exact arithmetic (qwen35-forward/gdn/src/attention.rs): the score of
    a rotated query and a rotated key depends on how far apart they are, not on where. */
module RotationLaws {
  import opened ExactArithmetic
  import opened AttentionSpec
  import opened AttentionLaws

  // ------------------------------------------------------------------ products of sums

  lemma MulFour(ops: ExactOps, x: real, c: real, y: real, d: real)
    ensures ops.mul(ops.mul(x, c), ops.mul(y, d)) == ops.mul(ops.mul(x, y), ops.mul(c, d))
  {
    MulAssociative(ops, x, c, ops.mul(y, d));
    MulAssociative(ops, c, y, d);
    MulSymmetric(ops, c, y);
    MulAssociative(ops, y, c, d);
    MulAssociative(ops, x, y, ops.mul(c, d));
  }

  lemma MulPlus(ops: ExactOps, a: real, b: real, c: real, d: real, x: real, y: real)
    requires x == a + b && y == c + d
    ensures ops.mul(x, y) == ops.mul(a, c) + ops.mul(a, d) + ops.mul(b, c) + ops.mul(b, d)
  {
    SumMul(ops, a, b, y);
    MulSum(ops, a, c, d);
    MulSum(ops, b, c, d);
  }

  lemma MulMinus(ops: ExactOps, a: real, b: real, c: real, d: real, x: real, y: real)
    requires x == a - b && y == c - d
    ensures ops.mul(x, y) == ops.mul(a, c) - ops.mul(a, d) - ops.mul(b, c) + ops.mul(b, d)
  {
    SumMul(ops, a, b, y);
    MulSum(ops, a, c, d);
    MulSum(ops, b, c, d);
  }

  lemma MulNegated(ops: ExactOps, x: real, y: real)
    ensures ops.mul(-x, y) == -ops.mul(x, y)
  {
    SumMul(ops, 0.0, x, y);
    MulUnits(ops, y);
  }

  // ------------------------------------------------------------------ one rotated pair

  /** A pair turned by an angle with this cosine and sine. */
  function First(ops: ExactOps, x: real, y: real, c: real, s: real): real {
    ops.mul(x, c) - ops.mul(y, s)
  }

  function Second(ops: ExactOps, x: real, y: real, c: real, s: real): real {
    ops.mul(y, c) + ops.mul(x, s)
  }

  lemma FirstTerms(ops: ExactOps, q1: real, q2: real, k1: real, k2: real, c: real, s: real, c': real, s': real, x: real, y: real)
    requires x == First(ops, q1, q2, c, s) && y == First(ops, k1, k2, c', s')
    ensures ops.mul(x, y)
         == ops.mul(ops.mul(q1, k1), ops.mul(c, c')) - ops.mul(ops.mul(q1, k2), ops.mul(c, s'))
            - ops.mul(ops.mul(q2, k1), ops.mul(s, c')) + ops.mul(ops.mul(q2, k2), ops.mul(s, s'))
  {
    MulMinus(ops, ops.mul(q1, c), ops.mul(q2, s), ops.mul(k1, c'), ops.mul(k2, s'), x, y);
    MulFour(ops, q1, c, k1, c');
    MulFour(ops, q1, c, k2, s');
    MulFour(ops, q2, s, k1, c');
    MulFour(ops, q2, s, k2, s');
  }

  lemma SecondTerms(ops: ExactOps, q1: real, q2: real, k1: real, k2: real, c: real, s: real, c': real, s': real, x: real, y: real)
    requires x == Second(ops, q1, q2, c, s) && y == Second(ops, k1, k2, c', s')
    ensures ops.mul(x, y)
         == ops.mul(ops.mul(q2, k2), ops.mul(c, c')) + ops.mul(ops.mul(q2, k1), ops.mul(c, s'))
            + ops.mul(ops.mul(q1, k2), ops.mul(s, c')) + ops.mul(ops.mul(q1, k1), ops.mul(s, s'))
  {
    MulPlus(ops, ops.mul(q2, c), ops.mul(q1, s), ops.mul(k2, c'), ops.mul(k1, s'), x, y);
    MulFour(ops, q2, c, k2, c');
    MulFour(ops, q2, c, k1, s');
    MulFour(ops, q1, s, k2, c');
    MulFour(ops, q1, s, k1, s');
  }

  /** What two pairs score, one with components along and one across the other. */
  function Along(ops: Reals, q1: real, q2: real, k1: real, k2: real): real {
    ops.mul(q1, k1) + ops.mul(q2, k2)
  }

  function Across(ops: Reals, q1: real, q2: real, k1: real, k2: real): real {
    ops.mul(q1, k2) - ops.mul(q2, k1)
  }

  /** Two turned pairs score as the unturned ones turned by the difference of their angles, of which
      `dc` and `ds` are cosine and sine. */
  lemma PairsScore(ops: ExactOps, q1: real, q2: real, k1: real, k2: real, c: real, s: real, c': real, s': real,
                   dc: real, ds: real)
    requires dc == ops.mul(c, c') + ops.mul(s, s') && ds == ops.mul(s, c') - ops.mul(c, s')
    ensures ops.mul(First(ops, q1, q2, c, s), First(ops, k1, k2, c', s'))
            + ops.mul(Second(ops, q1, q2, c, s), Second(ops, k1, k2, c', s'))
         == ops.mul(Along(ops, q1, q2, k1, k2), dc) + ops.mul(Across(ops, q1, q2, k1, k2), ds)
  {
    FirstTerms(ops, q1, q2, k1, k2, c, s, c', s', First(ops, q1, q2, c, s), First(ops, k1, k2, c', s'));
    SecondTerms(ops, q1, q2, k1, k2, c, s, c', s', Second(ops, q1, q2, c, s), Second(ops, k1, k2, c', s'));
    MulPlus(ops, ops.mul(q1, k1), ops.mul(q2, k2), ops.mul(c, c'), ops.mul(s, s'), Along(ops, q1, q2, k1, k2), dc);
    MulMinus(ops, ops.mul(q1, k2), ops.mul(q2, k1), ops.mul(s, c'), ops.mul(c, s'), Across(ops, q1, q2, k1, k2), ds);
  }

  // ------------------------------------------------------------------ a rotated vector

  type RealLayer = Layer<real, real>

  lemma RotatedAt(ops: ExactOps, x: seq<real>, cos: seq<real>, sin: seq<real>, i: nat)
    requires |cos| == |sin| <= |x| && i < |cos|
    ensures Rotated(ops, x, cos, sin)[i] == ops.mul(x[i], cos[i]) + ops.mul(RotateHalf(ops, x[..|cos|])[i], sin[i])
  {
    assert x[..|cos|][i] == x[i];
  }

  lemma HalfAt(ops: ExactOps, x: seq<real>, rd: nat, i: nat)
    requires rd <= |x| && i < rd / 2
    ensures RotateHalf(ops, x[..rd])[i] == -x[rd / 2 + i] && RotateHalf(ops, x[..rd])[rd / 2 + i] == x[i]
  {
    assert x[..rd][rd / 2 + i] == x[rd / 2 + i] && x[..rd][i] == x[i];
  }

  lemma TableAt(m: RealLayer, p: nat, i: nat)
    requires i < m.cfg.Half()
    ensures var h := m.cfg.Half();
            && h + i < m.cfg.rotary
            && CosRow(m, p)[i] == CosRow(m, p)[h + i] == m.ops.cos(Angle(m, p, i))
            && SinRow(m, p)[i] == SinRow(m, p)[h + i] == m.ops.sin(Angle(m, p, i))
  {
  }

  /** Half `i` of the vector turned by its angle at position `p`, of cosine `c` and sine `s`. */
  lemma TurnedPair(ops: ExactOps, m: RealLayer, x: seq<real>, p: nat, i: nat, h: nat, c: real, s: real)
    requires m.ops == ops && m.cfg.rotary <= |x| && i < h == m.cfg.Half()
    requires c == ops.cos(Angle(m, p, i)) && s == ops.sin(Angle(m, p, i))
    ensures var r := Rotated(ops, x, CosRow(m, p), SinRow(m, p));
            h + i < |x| && r[i] == First(ops, x[i], x[h + i], c, s) && r[h + i] == Second(ops, x[i], x[h + i], c, s)
  {
    TableAt(m, p, i);
    PairTurned(ops, x, CosRow(m, p), SinRow(m, p), i, h, c, s);
  }

  lemma PairTurned(ops: ExactOps, x: seq<real>, cos: seq<real>, sin: seq<real>, i: nat, h: nat, c: real, s: real)
    requires |cos| == |sin| <= |x| && h == |cos| / 2 && i < h
    requires cos[i] == cos[h + i] == c && sin[i] == sin[h + i] == s
    ensures var r := Rotated(ops, x, cos, sin);
            r[i] == First(ops, x[i], x[h + i], c, s) && r[h + i] == Second(ops, x[i], x[h + i], c, s)
  {
    MulNegated(ops, x[h + i], s);
    HalfAt(ops, x, |cos|, i);
    RotatedAt(ops, x, cos, sin, i);
    RotatedAt(ops, x, cos, sin, h + i);
  }

  /** The slot an odd rotary dimension leaves over is wiped; the rest passes through. */
  lemma Unturned(ops: ExactOps, m: RealLayer, x: seq<real>, p: nat, i: nat)
    requires m.ops == ops && m.cfg.rotary <= |x| && 2 * m.cfg.Half() <= i < |x|
    ensures Rotated(ops, x, CosRow(m, p), SinRow(m, p))[i] == if i < m.cfg.rotary then 0.0 else x[i]
  {
    if i < m.cfg.rotary {
      assert x[..m.cfg.rotary][i] == x[i];
      MulUnits(ops, x[i]);
      MulUnits(ops, 0.0);
    }
  }

  // ------------------------------------------------------------------ angles

  function Frequency(ops: Reals, m: RealLayer, i: nat): real {
    ops.div(ops.one, ops.powf(m.cfg.theta, ops.div(ops.ofNat(2 * i), ops.ofNat(m.cfg.rotary))))
  }

  /** The difference of two angles of slot `i` depends on the distance of the positions only. */
  lemma AngleDifference(ops: ExactOps, m: RealLayer, p: nat, r: nat, i: nat, d: real)
    requires m.ops == ops && d == p as real - r as real
    ensures Angle(m, p, i) - Angle(m, r, i) == ops.mul(d, Frequency(ops, m, i))
  {
    SumMul(ops, p as real, r as real, Frequency(ops, m, i));
  }

  /** Slot `i` of query and key and their partners, scored at an angle `a` apart. */
  function SlotValue(ops: Reals, q: seq<real>, k: seq<real>, i: nat, h: nat, a: real): real
    requires h + i < |q| == |k|
  {
    ops.mul(Along(ops, q[i], q[h + i], k[i], k[h + i]), ops.cos(a))
    + ops.mul(Across(ops, q[i], q[h + i], k[i], k[h + i]), ops.sin(a))
  }

  /** What slot `i` and its partner add to the score: a function of the distance. */
  lemma SlotScore(ops: ExactOps, m: RealLayer, q: seq<real>, k: seq<real>, p: nat, r: nat, i: nat, h: nat, d: real, a: real)
    requires m.ops == ops && ExactTrig(ops) && m.cfg.rotary <= |q| == |k| && i < h == m.cfg.Half()
    requires d == p as real - r as real && a == ops.mul(d, Frequency(ops, m, i))
    ensures var ps := ScoreTerms(m, q, k, p, r);
            h + i < |q| && ps[i] + ps[h + i] == SlotValue(ops, q, k, i, h, a)
  {
    var b, b' := Angle(m, p, i), Angle(m, r, i);
    var c, s, c', s' := ops.cos(b), ops.sin(b), ops.cos(b'), ops.sin(b');
    AngleDifference(ops, m, p, r, i, d);
    TrigOfDifference(ops, b, b', a);
    TurnedPair(ops, m, q, p, i, h, c, s);
    TurnedPair(ops, m, k, r, i, h, c', s');
    PairsScore(ops, q[i], q[h + i], k[i], k[h + i], c, s, c', s', ops.cos(a), ops.sin(a));
  }

  /** The products that make up the score of `q` at `p` and `k` at `r`. */
  function ScoreTerms(m: RealLayer, q: seq<real>, k: seq<real>, p: nat, r: nat): (ps: seq<real>)
    requires m.cfg.rotary <= |q| == |k|
    ensures |ps| == |q|
  {
    Products(m.ops, Rotated(m.ops, q, CosRow(m, p), SinRow(m, p)), Rotated(m.ops, k, CosRow(m, r), SinRow(m, r)))
  }

  // ------------------------------------------------------------------ the score

  /** Sums over paired halves agree when the pairs and the rest do. */
  lemma PairedSums(a: seq<real>, b: seq<real>, h: nat)
    requires |a| == |b| && 2 * h <= |a| && Folded(a, h) == Folded(b, h) && a[2 * h..] == b[2 * h..]
    ensures Sum(a) == Sum(b)
  {
    HalvesSum(a, h);
    HalvesSum(b, h);
  }

  function Folded(a: seq<real>, h: nat): (r: seq<real>)
    requires 2 * h <= |a|
    ensures |r| == h && forall i :: 0 <= i < h ==> r[i] == a[i] + a[h + i]
  {
    seq(h, i requires 0 <= i < h => a[i] + a[h + i])
  }

  lemma HalvesSum(a: seq<real>, h: nat)
    requires 2 * h <= |a|
    ensures Sum(a) == Sum(Folded(a, h)) + Sum(a[2 * h..])
  {
    CutInThree(a, h, 2 * h);
    ThreeParts(a, a[..h], a[h..2 * h], a[2 * h..], Folded(a, h));
  }

  lemma CutInThree<T>(a: seq<T>, m: nat, n: nat)
    requires m <= n <= |a|
    ensures a == (a[..m] + a[m..n]) + a[n..]
  {
  }

  lemma ThreeParts(a: seq<real>, x: seq<real>, y: seq<real>, z: seq<real>, f: seq<real>)
    requires a == (x + y) + z && |x| == |y| == |f| && forall i :: 0 <= i < |x| ==> f[i] == x[i] + y[i]
    ensures Sum(a) == Sum(f) + Sum(z)
  {
    SumAppend(x + y, z);
    SumAppend(x, y);
    SumPointwise(x, y, f);
  }

  lemma PairsAlike(ops: ExactOps, m: RealLayer, q: seq<real>, k: seq<real>, p: nat, r: nat, p': nat, r': nat)
    requires m.ops == ops && ExactTrig(ops) && m.cfg.rotary <= |q| == |k| && p - r == p' - r'
    ensures Folded(ScoreTerms(m, q, k, p, r), m.cfg.Half()) == Folded(ScoreTerms(m, q, k, p', r'), m.cfg.Half())
  {
    var h := m.cfg.Half();
    var a, b := Folded(ScoreTerms(m, q, k, p, r), h), Folded(ScoreTerms(m, q, k, p', r'), h);
    forall i | 0 <= i < h ensures a[i] == b[i] {
      PairAlike(ops, m, q, k, p, r, p', r', i, h, p as real - r as real);
    }
  }

  lemma PairAlike(ops: ExactOps, m: RealLayer, q: seq<real>, k: seq<real>, p: nat, r: nat, p': nat, r': nat, i: nat, h: nat,
                  d: real)
    requires m.ops == ops && ExactTrig(ops) && m.cfg.rotary <= |q| == |k| && i < h == m.cfg.Half()
    requires d == p as real - r as real == p' as real - r' as real
    ensures var a, b := ScoreTerms(m, q, k, p, r), ScoreTerms(m, q, k, p', r');
            h + i < |q| && a[i] + a[h + i] == b[i] + b[h + i]
  {
    var a := ops.mul(d, Frequency(ops, m, i));
    SlotScore(ops, m, q, k, p, r, i, h, d, a);
    SlotScore(ops, m, q, k, p', r', i, h, d, a);
  }

  lemma RestsAlike(ops: ExactOps, m: RealLayer, q: seq<real>, k: seq<real>, p: nat, r: nat, p': nat, r': nat)
    requires m.ops == ops && m.cfg.rotary <= |q| == |k|
    ensures ScoreTerms(m, q, k, p, r)[2 * m.cfg.Half()..] == ScoreTerms(m, q, k, p', r')[2 * m.cfg.Half()..]
  {
    var a, b := ScoreTerms(m, q, k, p, r), ScoreTerms(m, q, k, p', r');
    forall i | 2 * m.cfg.Half() <= i < |q| ensures a[i] == b[i] {
      Unturned(ops, m, q, p, i);
      Unturned(ops, m, k, r, i);
      Unturned(ops, m, q, p', i);
      Unturned(ops, m, k, r', i);
    }
  }

  lemma ScoreIsSum(ops: ExactOps, m: RealLayer, q: seq<real>, k: seq<real>, p: nat, r: nat)
    requires m.ops == ops && m.cfg.rotary <= |q| == |k|
    ensures Dot(ops, Rotated(ops, q, CosRow(m, p), SinRow(m, p)), Rotated(ops, k, CosRow(m, r), SinRow(m, r)), |q|)
         == Sum(ScoreTerms(m, q, k, p, r))
  {
    DotIs(ops, Rotated(ops, q, CosRow(m, p), SinRow(m, p)), Rotated(ops, k, CosRow(m, r), SinRow(m, r)));
  }

  /** The score of a query at `p` and a key at `r` is that of any other positions as far apart. */
  lemma ScoreIsRelative(ops: ExactOps, m: RealLayer, q: seq<real>, k: seq<real>, p: nat, r: nat, p': nat, r': nat)
    requires m.ops == ops && ExactTrig(ops) && m.cfg.rotary <= |q| == |k| && p - r == p' - r'
    ensures Dot(ops, Rotated(ops, q, CosRow(m, p), SinRow(m, p)), Rotated(ops, k, CosRow(m, r), SinRow(m, r)), |q|)
         == Dot(ops, Rotated(ops, q, CosRow(m, p'), SinRow(m, p')), Rotated(ops, k, CosRow(m, r'), SinRow(m, r')), |q|)
  {
    ScoreIsSum(ops, m, q, k, p, r);
    ScoreIsSum(ops, m, q, k, p', r');
    PairsAlike(ops, m, q, k, p, r, p', r');
    RestsAlike(ops, m, q, k, p, r, p', r');
    PairedSums(ScoreTerms(m, q, k, p, r), ScoreTerms(m, q, k, p', r'), m.cfg.Half());
  }
}
