/** Exchanging two axes of a flat tensor: `btc_to_bct` and `bct_to_btc`
    (qwen35-forward/gdn/src/lib.rs, with vectors of length one), `to_bhtd` and its inverse
    at the end of attention's `forward_impl` (qwen35-forward/gdn/src/attention.rs). */
module Axes {
  import opened FlatTensor

  /** The index of vector `(bi, i, j)` in a `[B, M, N, D]` tensor. */
  function Ix3(bi: nat, m: nat, i: nat, n: nat, j: nat): nat {
    Ix(Ix(bi, m, i), n, j)
  }

  lemma Ix3Fits(b: nat, bi: nat, m: nat, i: nat, n: nat, j: nat, d: nat)
    requires bi < b && i < m && j < n
    ensures Ix3(bi, m, i, n, j) < b * m * n
    ensures Ix3(bi, m, i, n, j) * d + d <= b * m * n * d
  {
    IxFits(bi, b, m, i);
    IxFits(Ix(bi, m, i), b * m, n, j);
    RowFits(Ix3(bi, m, i, n, j), b * m * n, d);
  }

  lemma Ix3Injective(m: nat, n: nat, bi: nat, i: nat, j: nat, ci: nat, k: nat, l: nat)
    requires i < m && k < m && j < n && l < n
    requires Ix3(bi, m, i, n, j) == Ix3(ci, m, k, n, l)
    ensures bi == ci && i == k && j == l
  {
    IxInjective(Ix(bi, m, i), j, Ix(ci, m, k), l, n);
    IxInjective(bi, i, ci, k, m);
  }

  /** Vector `(bi, j, i)` of the result is vector `(bi, i, j)` of the source. */
  ghost predicate VectorSwapped<F>(x: seq<F>, y: seq<F>, m: nat, n: nat, d: nat, bi: nat, i: nat, j: nat)
  {
    && Ix3(bi, m, i, n, j) * d + d <= |x|
    && Ix3(bi, n, j, m, i) * d + d <= |y|
    && Row(y, Ix3(bi, n, j, m, i), d) == Row(x, Ix3(bi, m, i, n, j), d)
  }

  ghost predicate SwappedTo<F>(x: seq<F>, y: seq<F>, b: nat, m: nat, n: nat, d: nat, upto: nat)
  {
    forall bi: nat, i: nat, j: nat {:trigger VectorSwapped(x, y, m, n, d, bi, i, j)} ::
      bi < b && i < m && j < n && Ix3(bi, m, i, n, j) < upto ==> VectorSwapped(x, y, m, n, d, bi, i, j)
  }

  ghost predicate Swapped<F>(x: seq<F>, y: seq<F>, b: nat, m: nat, n: nat, d: nat)
  {
    && |y| == b * n * m * d
    && forall bi: nat, i: nat, j: nat {:trigger VectorSwapped(x, y, m, n, d, bi, i, j)} ::
         bi < b && i < m && j < n ==> VectorSwapped(x, y, m, n, d, bi, i, j)
  }

  lemma SwapNext<F>(x: seq<F>, y: seq<F>, b: nat, m: nat, n: nat, d: nat, bi: nat, i: nat, j: nat)
    requires |x| == b * m * n * d && |y| == b * n * m * d && bi < b && i < m && j < n
    requires SwappedTo(x, y, b, m, n, d, Ix3(bi, m, i, n, j))
    ensures Ix3(bi, m, i, n, j) * d + d <= |x| && Ix3(bi, n, j, m, i) * d + d <= |y|
    ensures SwappedTo(x, SetRow(y, Ix3(bi, n, j, m, i), d, Row(x, Ix3(bi, m, i, n, j), d)),
                      b, m, n, d, Ix3(bi, m, i, n, j) + 1)
  {
    Ix3Fits(b, bi, m, i, n, j, d);
    Ix3Fits(b, bi, n, j, m, i, d);
    var z := SetRow(y, Ix3(bi, n, j, m, i), d, Row(x, Ix3(bi, m, i, n, j), d));
    forall ci: nat, k: nat, l: nat | ci < b && k < m && l < n && Ix3(ci, m, k, n, l) < Ix3(bi, m, i, n, j) + 1
      ensures VectorSwapped(x, z, m, n, d, ci, k, l)
    {
      SwapKeeps(x, y, b, m, n, d, bi, i, j, ci, k, l);
    }
  }

  lemma SwapKeeps<F>(x: seq<F>, y: seq<F>, b: nat, m: nat, n: nat, d: nat,
                     bi: nat, i: nat, j: nat, ci: nat, k: nat, l: nat)
    requires |x| == b * m * n * d && |y| == b * n * m * d && bi < b && i < m && j < n
    requires Ix3(bi, m, i, n, j) * d + d <= |x| && Ix3(bi, n, j, m, i) * d + d <= |y|
    requires SwappedTo(x, y, b, m, n, d, Ix3(bi, m, i, n, j))
    requires ci < b && k < m && l < n && Ix3(ci, m, k, n, l) <= Ix3(bi, m, i, n, j)
    ensures VectorSwapped(x, SetRow(y, Ix3(bi, n, j, m, i), d, Row(x, Ix3(bi, m, i, n, j), d)), m, n, d, ci, k, l)
  {
    Ix3Fits(b, ci, m, k, n, l, d);
    Ix3Fits(b, ci, n, l, m, k, d);
    var from, to := Ix3(bi, m, i, n, j), Ix3(bi, n, j, m, i);
    RowOfSetRow(y, to, Ix3(ci, n, l, m, k), d, Row(x, from, d));
    if Ix3(ci, m, k, n, l) == from {
      Ix3Injective(m, n, bi, i, j, ci, k, l);
    } else {
      assert VectorSwapped(x, y, m, n, d, ci, k, l);
      if Ix3(ci, n, l, m, k) == to {
        Ix3Injective(n, m, bi, j, i, ci, l, k);
      }
    }
  }

  lemma LastInRow(a: nat, n: nat)
    ensures Ix(a, n, n) == Ix(a + 1, n, 0)
  {
  }

  lemma LastInPlane(bi: nat, m: nat, n: nat)
    ensures Ix3(bi, m, m, n, 0) == Ix3(bi + 1, m, 0, n, 0)
  {
    LastInRow(bi, m);
  }

  lemma AllSwapped<F>(x: seq<F>, y: seq<F>, b: nat, m: nat, n: nat, d: nat)
    requires |y| == b * n * m * d && SwappedTo(x, y, b, m, n, d, Ix3(b, m, 0, n, 0))
    ensures Swapped(x, y, b, m, n, d)
  {
    forall bi: nat, i: nat, j: nat | bi < b && i < m && j < n
      ensures VectorSwapped(x, y, m, n, d, bi, i, j)
    {
      IxFits(bi, b, m, i);
      IxFits(Ix(bi, m, i), b * m, n, j);
    }
  }

  /** The innermost loop: one line of vectors. */
  method SwapLine<F>(x: seq<F>, y0: seq<F>, b: nat, m: nat, n: nat, d: nat, bi: nat, i: nat) returns (y: seq<F>)
    requires |x| == b * m * n * d && |y0| == b * n * m * d && bi < b && i < m
    requires SwappedTo(x, y0, b, m, n, d, Ix3(bi, m, i, n, 0))
    ensures |y| == |y0| && SwappedTo(x, y, b, m, n, d, Ix3(bi, m, i, n, n))
  {
    y := y0;
    for j := 0 to n
      invariant |y| == |y0| && SwappedTo(x, y, b, m, n, d, Ix3(bi, m, i, n, j))
    {
      SwapNext(x, y, b, m, n, d, bi, i, j);
      var s, dst := (bi * m + i) * n + j, (bi * n + j) * m + i;
      y := SetRow(y, dst, d, Row(x, s, d));
    }
  }

  method SwapPlane<F>(x: seq<F>, y0: seq<F>, b: nat, m: nat, n: nat, d: nat, bi: nat) returns (y: seq<F>)
    requires |x| == b * m * n * d && |y0| == b * n * m * d && bi < b
    requires SwappedTo(x, y0, b, m, n, d, Ix3(bi, m, 0, n, 0))
    ensures |y| == |y0| && SwappedTo(x, y, b, m, n, d, Ix3(bi, m, m, n, 0))
  {
    y := y0;
    for i := 0 to m
      invariant |y| == |y0| && SwappedTo(x, y, b, m, n, d, Ix3(bi, m, i, n, 0))
    {
      y := SwapLine(x, y, b, m, n, d, bi, i);
      LastInRow(Ix(bi, m, i), n);
    }
  }

  /** `[B, M, N, D]` to `[B, N, M, D]`, vector by vector. */
  method SwapAxes<F>(x: seq<F>, b: nat, m: nat, n: nat, d: nat, zero: F) returns (y: seq<F>)
    requires |x| == b * m * n * d
    ensures Swapped(x, y, b, m, n, d)
  {
    y := seq(b * n * m * d, _ => zero);
    for bi := 0 to b
      invariant |y| == b * n * m * d && SwappedTo(x, y, b, m, n, d, Ix3(bi, m, 0, n, 0))
    {
      y := SwapPlane(x, y, b, m, n, d, bi);
      LastInPlane(bi, m, n);
    }
    AllSwapped(x, y, b, m, n, d);
  }

  /** Swapping back restores the tensor. */
  lemma SwapTwice<F>(x: seq<F>, y: seq<F>, z: seq<F>, b: nat, m: nat, n: nat, d: nat)
    requires |x| == b * m * n * d && Swapped(x, y, b, m, n, d) && Swapped(y, z, b, n, m, d)
    ensures z == x
  {
    forall r: nat | r < b * m * n ensures r * d + d <= |z| && Row(z, r, d) == Row(x, r, d) {
      RowFits(r, b * m * n, d);
      VectorRestored(x, y, z, b, m, n, d, r);
    }
    RowsDetermine(z, x, b * m * n, d);
  }

  lemma VectorRestored<F>(x: seq<F>, y: seq<F>, z: seq<F>, b: nat, m: nat, n: nat, d: nat, r: nat)
    requires |x| == b * m * n * d && Swapped(x, y, b, m, n, d) && Swapped(y, z, b, n, m, d)
    requires r < b * m * n && r * d + d <= |z| && r * d + d <= |x|
    ensures Row(z, r, d) == Row(x, r, d)
  {
    var bi, i, j := Coordinates(b, m, n, r);
    assert VectorSwapped(x, y, m, n, d, bi, i, j);
    assert VectorSwapped(y, z, n, m, d, bi, j, i);
  }

  lemma Coordinates(b: nat, m: nat, n: nat, r: nat) returns (bi: nat, i: nat, j: nat)
    requires r < b * m * n
    ensures bi < b && i < m && j < n && Ix3(bi, m, i, n, j) == r
  {
    assert n == 0 ==> b * m * n == 0;
    assert m == 0 ==> b * m == 0 && b * m * n == 0;
    WalkStart(r, b * m, n);
    var a := r / n;
    j := r % n;
    WalkStart(a, b, m);
    bi, i := a / m, a % m;
  }
}
