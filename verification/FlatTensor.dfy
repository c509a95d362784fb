/** Row-major buffers: reading and writing rows and elements of a flat vector. */
module FlatTensor {

  /** The flat index of element `j` in row `i` of width `n`. */
  function Ix(i: nat, n: nat, j: nat): nat {
    i * n + j
  }

  lemma RowFits(i: nat, m: nat, n: nat)
    requires i < m
    ensures i * n + n <= m * n
  {
    var d := m - i;
    assert m * n == i * n + d * n;
    assert d >= 1 ==> d * n >= n;
  }

  lemma IxFits(i: nat, m: nat, n: nat, j: nat)
    requires i < m && j < n
    ensures Ix(i, n, j) < m * n
  {
    RowFits(i, m, n);
  }

  lemma IxInjective(i: nat, j: nat, k: nat, l: nat, n: nat)
    requires j < n && l < n && Ix(i, n, j) == Ix(k, n, l)
    ensures i == k && j == l
  {
    var d := i - k;
    assert i * n == k * n + d * n;
    assert d >= 1 ==> d * n >= n;
    assert d <= -1 ==> d * n + n <= 0;
  }

  /** Equality, taken as a whole rather than element by element. */
  ghost predicate Is<T>(a: T, b: T) {
    a == b
  }

  /** Row `i` of a buffer of rows of width `n`. */
  function Row<F>(s: seq<F>, i: nat, n: nat): (r: seq<F>)
    requires i * n + n <= |s|
    ensures |r| == n
  {
    s[i * n..i * n + n]
  }

  /** `s[i*n .. (i+1)*n].copy_from_slice(row)`. */
  function SetRow<F>(s: seq<F>, i: nat, n: nat, row: seq<F>): (r: seq<F>)
    requires i * n + n <= |s| && |row| == n
    ensures |r| == |s|
  {
    s[..i * n] + row + s[i * n + n..]
  }

  lemma RowOfSetRow<F>(s: seq<F>, i: nat, k: nat, n: nat, row: seq<F>)
    requires i * n + n <= |s| && k * n + n <= |s| && |row| == n
    ensures Row(SetRow(s, i, n, row), k, n) == if k == i then row else Row(s, k, n)
  {
    Spliced(s, i * n, row, k * n, n);
    if k < i {
      RowFits(k, i, n);
    } else if i < k {
      RowFits(i, k, n);
    }
  }

  /** A part of a buffer overwritten: what lies outside it is as before, what lies inside is new. */
  lemma Spliced<F>(s: seq<F>, a: nat, block: seq<F>, from: nat, d: nat)
    requires a + |block| <= |s| && from + d <= |s|
    ensures var r := s[..a] + block + s[a + |block|..];
            && (from + d <= a || a + |block| <= from ==> r[from..from + d] == s[from..from + d])
            && (a <= from && from + d <= a + |block| ==> r[from..from + d] == block[from - a..from - a + d])
  {
  }

  ghost predicate RowIs<F>(s: seq<F>, i: nat, n: nat, row: seq<F>) {
    i * n + n <= |s| && Row(s, i, n) == row
  }

  lemma RowElement<F>(s: seq<F>, i: nat, n: nat, j: nat)
    requires i * n + n <= |s| && j < n
    ensures Ix(i, n, j) < |s| && Row(s, i, n)[j] == s[Ix(i, n, j)]
  {
  }

  lemma IxNested(i: nat, m: nat, j: nat, n: nat)
    ensures Ix(i, m, j) * n == i * (m * n) + j * n
  {
    Distribute(i * m, j, n);
    Associate(i, m, n);
  }

  lemma Distribute(a: nat, b: nat, c: nat)
    ensures (a + b) * c == a * c + b * c
  {
  }

  lemma Associate(a: nat, b: nat, c: nat)
    ensures (a * b) * c == a * (b * c)
  {
  }

  /** A row of a row: inner row `j` of outer row `i`, each outer row being `m` inner ones. */
  lemma NestedRow<F>(s: seq<F>, i: nat, m: nat, j: nat, n: nat)
    requires i * (m * n) + m * n <= |s| && j < m
    ensures j * n + n <= m * n && Ix(i, m, j) * n + n <= |s|
    ensures Row(Row(s, i, m * n), j, n) == Row(s, Ix(i, m, j), n)
  {
    RowFits(j, m, n);
    IxNested(i, m, j, n);
    SliceOfSlice(s, i * (m * n), m * n, j * n, n);
  }

  lemma SliceOfSlice<F>(s: seq<F>, a: nat, n: nat, b: nat, k: nat)
    requires a + n <= |s| && b + k <= n
    ensures s[a..a + n][b..b + k] == s[a + b..a + b + k]
  {
    var l, r := s[a..a + n][b..b + k], s[a + b..a + b + k];
    assert |l| == |r| && forall i :: 0 <= i < k ==> l[i] == r[i];
  }

  /** Row and column of a flat index. */
  lemma WalkStart(k: nat, m: nat, n: nat)
    requires n > 0 && k < m * n
    ensures k / n < m && Ix(k / n, n, k % n) == k
  {
    assert k / n * n + k % n == k;
    WalkInside(k / n, k % n, m, n);
  }

  lemma WalkInside(i: nat, j: nat, m: nat, n: nat)
    requires Ix(i, n, j) < m * n
    ensures i < m
  {
    var d := i - m;
    assert i * n == m * n + d * n;
    assert d >= 0 ==> d * n >= 0;
  }

  /** A buffer is determined by its rows. */
  lemma RowsDetermine<F>(y: seq<F>, z: seq<F>, m: nat, n: nat)
    requires |y| == m * n && |z| == m * n
    requires forall i: nat {:trigger Row(y, i, n)} :: i < m ==> i * n + n <= |y| && Row(y, i, n) == Row(z, i, n)
    ensures y == z
  {
    forall k | 0 <= k < m * n ensures y[k] == z[k] {
      ElementDetermined(y, z, m, n, k);
    }
  }

  lemma ElementDetermined<F>(y: seq<F>, z: seq<F>, m: nat, n: nat, k: nat)
    requires |y| == m * n && |z| == m * n && k < m * n
    requires forall i: nat {:trigger Row(y, i, n)} :: i < m ==> i * n + n <= |y| && Row(y, i, n) == Row(z, i, n)
    ensures y[k] == z[k]
  {
    assert n == 0 ==> m * n == 0;
    WalkStart(k, m, n);
    RowFits(k / n, m, n);
    RowElement(y, k / n, n, k % n);
    RowElement(z, k / n, n, k % n);
  }
}
