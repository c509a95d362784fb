/** Tensors as lists of rows: batches, columns, joined rows, and sequences fed in chunks. */
module Rows {
  import opened FlatTensor

  predicate InputRows<F>(xs: seq<seq<F>>, n: nat) {
    forall i :: 0 <= i < |xs| ==> |xs[i]| == n
  }

  lemma RowsAppend<F>(xs: seq<seq<F>>, ys: seq<seq<F>>, n: nat)
    requires InputRows(xs, n) && InputRows(ys, n)
    ensures InputRows(xs + ys, n)
  {
  }

  /** A sequence that agrees with two others end to end is their concatenation. */
  lemma SplitsAs<T>(l: seq<T>, a: seq<T>, c: seq<T>)
    requires |l| == |a| + |c|
    requires forall i: nat :: i < |l| ==> l[i] == if i < |a| then a[i] else c[i - |a|]
    ensures l == a + c
  {
  }

  lemma SameRows<T>(l: seq<T>, r: seq<T>)
    requires |l| == |r| && forall i: nat :: i < |l| ==> l[i] == r[i]
    ensures l == r
  {
  }

  /** Rows become columns; each of the `rows` has `t` entries. */
  function Transposed<T>(rows: seq<seq<T>>, t: nat): (r: seq<seq<T>>)
    requires InputRows(rows, t)
    ensures |r| == t && InputRows(r, |rows|)
    ensures forall i, c {:trigger r[i][c]} {:trigger r[i], rows[c]} ::
      0 <= i < t && 0 <= c < |rows| ==> r[i][c] == rows[c][i]
  {
    seq(t, i requires 0 <= i < t => Column(rows, t, i))
  }

  function Column<T>(rows: seq<seq<T>>, t: nat, i: nat): (r: seq<T>)
    requires InputRows(rows, t) && i < t
    ensures |r| == |rows| && forall c :: 0 <= c < |rows| ==> r[c] == rows[c][i]
  {
    seq(|rows|, c requires 0 <= c < |rows| => rows[c][i])
  }

  /** Rows that are cut at the same place transpose to a cut list of columns. */
  lemma TransposedSplits<T>(ls: seq<seq<T>>, rs: seq<seq<T>>, cs: seq<seq<T>>, t: nat, u: nat)
    requires |ls| == |rs| == |cs| && InputRows(rs, t) && InputRows(cs, u)
    requires forall c: nat :: c < |ls| ==> ls[c] == rs[c] + cs[c]
    ensures InputRows(ls, t + u) && Transposed(ls, t + u) == Transposed(rs, t) + Transposed(cs, u)
  {
    var l, a, c := Transposed(ls, t + u), Transposed(rs, t), Transposed(cs, u);
    forall i: nat | i < |l| ensures l[i] == if i < |a| then a[i] else c[i - |a|] {
      ColumnSplits(ls, rs, cs, t, u, i);
    }
    SplitsAs(l, a, c);
  }

  lemma ColumnSplits<T>(ls: seq<seq<T>>, rs: seq<seq<T>>, cs: seq<seq<T>>, t: nat, u: nat, i: nat)
    requires |ls| == |rs| == |cs| && InputRows(rs, t) && InputRows(cs, u) && InputRows(ls, t + u) && i < t + u
    requires forall c: nat :: c < |ls| ==> ls[c] == rs[c] + cs[c]
    ensures Column(ls, t + u, i) == if i < t then Column(rs, t, i) else Column(cs, u, i - t)
  {
    SameRows(Column(ls, t + u, i), if i < t then Column(rs, t, i) else Column(cs, u, i - t));
  }

  function Tabulated<T>(n: nat, f: nat --> T): (r: seq<T>)
    requires forall i: nat :: i < n ==> f.requires(i)
    ensures |r| == n && forall i: nat :: i < n ==> r[i] == f(i)
  {
    seq(n, i requires 0 <= i < n => f(i))
  }

  lemma TabulatedPrefix<T>(n: nat, k: nat, f: nat --> T, g: nat --> T)
    requires n <= k && (forall i: nat :: i < k ==> f.requires(i)) && (forall i: nat :: i < n ==> g.requires(i))
    requires forall i: nat :: i < n ==> f(i) == g(i)
    ensures Tabulated(k, f) == Tabulated(n, g) + Tabulated(k, f)[n..]
  {
    SplitsAs(Tabulated(k, f), Tabulated(n, g), Tabulated(k, f)[n..]);
  }

  /** `f` applied pairwise. */
  function Map2<A(!new), B(!new), C>(f: (A, B) --> C, us: seq<A>, xs: seq<B>): (r: seq<C>)
    requires |us| == |xs| && forall i :: 0 <= i < |xs| ==> f.requires(us[i], xs[i])
    ensures |r| == |xs| && forall i :: 0 <= i < |xs| ==> r[i] == f(us[i], xs[i])
  {
    seq(|xs|, i requires 0 <= i < |xs| => f(us[i], xs[i]))
  }

  lemma Map2Splits<A(!new), B(!new), C>(f: (A, B) --> C, us: seq<A>, vs: seq<A>, xs: seq<B>, ys: seq<B>)
    requires |us| == |xs| && |vs| == |ys|
    requires forall i :: 0 <= i < |xs| ==> f.requires(us[i], xs[i])
    requires forall i :: 0 <= i < |ys| ==> f.requires(vs[i], ys[i])
    ensures forall i :: 0 <= i < |xs + ys| ==> f.requires((us + vs)[i], (xs + ys)[i])
    ensures Map2(f, us + vs, xs + ys) == Map2(f, us, xs) + Map2(f, vs, ys)
  {
    SplitsAs(Map2(f, us + vs, xs + ys), Map2(f, us, xs), Map2(f, vs, ys));
  }

  /** The rows one after the other. */
  function Joined<F>(rows: seq<seq<F>>, n: nat): (r: seq<F>)
    requires InputRows(rows, n)
    ensures |r| == |rows| * n
  {
    if rows == [] then []
    else
      Distribute(|rows| - 1, 1, n);
      Joined(rows[..|rows| - 1], n) + rows[|rows| - 1]
  }

  lemma {:induction false} JoinedRow<F>(rows: seq<seq<F>>, n: nat, i: nat)
    requires InputRows(rows, n) && i < |rows|
    ensures i * n + n <= |rows| * n && Row(Joined(rows, n), i, n) == rows[i]
  {
    RowFits(i, |rows|, n);
    var last := |rows| - 1;
    Distribute(last, 1, n);
    if i < last {
      JoinedRow(rows[..last], n, i);
    }
  }

  // ------------------------------------------------------------------ batches

  /** Batch `bi`'s rows of a `[B, T, N]` tensor. */
  ghost function BatchRows<F>(x: seq<F>, b: nat, t: nat, n: nat, bi: nat): (r: seq<seq<F>>)
    requires |x| == b * t * n && bi < b
    ensures |r| == t && InputRows(r, n)
  {
    seq(t, i requires 0 <= i < t => RowAt(x, b, t, n, bi, i))
  }

  function RowAt<F>(x: seq<F>, b: nat, t: nat, n: nat, bi: nat, i: nat): (r: seq<F>)
    requires |x| == b * t * n && bi < b && i < t
    ensures |r| == n
  {
    IxFits(bi, b, t, i);
    RowFits(Ix(bi, t, i), b * t, n);
    Row(x, Ix(bi, t, i), n)
  }

  // ------------------------------------------------------------------ columns

  /** Row `r` of `y` is columns `from .. from + n` of row `r` of `x`. */
  ghost predicate ColumnsCut<F>(x: seq<F>, width: nat, from: nat, n: nat, y: seq<F>, r: nat)
    requires from + n <= width
  {
    && r * width + width <= |x| && r * n + n <= |y|
    && Row(y, r, n) == Row(x, r, width)[from..from + n]
  }

  ghost predicate CutTo<F>(x: seq<F>, width: nat, from: nat, n: nat, y: seq<F>, rows: nat)
    requires from + n <= width
  {
    forall r: nat {:trigger ColumnsCut(x, width, from, n, y, r)} :: r < rows ==> ColumnsCut(x, width, from, n, y, r)
  }

  lemma CutNext<F>(x: seq<F>, width: nat, from: nat, n: nat, y: seq<F>, rows: nat, r: nat)
    requires from + n <= width && |x| == rows * width && |y| == rows * n && r < rows
    requires CutTo(x, width, from, n, y, r)
    ensures r * width + width <= |x| && r * n + n <= |y|
    ensures CutTo(x, width, from, n, SetRow(y, r, n, Row(x, r, width)[from..from + n]), r + 1)
  {
    RowFits(r, rows, width);
    RowFits(r, rows, n);
    var row := Row(x, r, width)[from..from + n];
    var z := SetRow(y, r, n, row);
    forall q: nat | q < r + 1 ensures ColumnsCut(x, width, from, n, z, q) {
      if q < r {
        assert ColumnsCut(x, width, from, n, y, q);
      }
      RowOfSetRow(y, r, q, n, row);
    }
  }

  // ------------------------------------------------------------------ chunks of a sequence

  /** Any split at all: `chunks` of any lengths, empty ones included. */
  function Whole<F>(chunks: seq<seq<seq<F>>>): (r: seq<seq<F>>)
  {
    if chunks == [] then [] else Whole(chunks[..|chunks| - 1]) + chunks[|chunks| - 1]
  }

  predicate AllRows<F>(chunks: seq<seq<seq<F>>>, n: nat) {
    forall i :: 0 <= i < |chunks| ==> InputRows(chunks[i], n)
  }

  lemma {:induction false} WholeRows<F>(chunks: seq<seq<seq<F>>>, n: nat)
    requires AllRows(chunks, n)
    ensures InputRows(Whole(chunks), n)
  {
    if chunks != [] {
      WholeRows(chunks[..|chunks| - 1], n);
    }
  }

  /** A `[B, T, N]` tensor. */
  datatype Chunk<F> = Chunk(t: nat, x: seq<F>)

  ghost predicate ChunksFit<F>(chunks: seq<Chunk<F>>, b: nat, n: nat) {
    forall i :: 0 <= i < |chunks| ==> |chunks[i].x| == b * chunks[i].t * n
  }

  /** Batch `bi`'s rows of every chunk. */
  ghost function RowsOf<F>(chunks: seq<Chunk<F>>, b: nat, n: nat, bi: nat): (r: seq<seq<seq<F>>>)
    requires ChunksFit(chunks, b, n) && bi < b
    ensures |r| == |chunks| && AllRows(r, n)
  {
    seq(|chunks|, i requires 0 <= i < |chunks| => BatchRows(chunks[i].x, b, chunks[i].t, n, bi))
  }

  lemma RowsOfNext<F>(chunks: seq<Chunk<F>>, chunk: Chunk<F>, b: nat, n: nat, bi: nat)
    requires ChunksFit(chunks, b, n) && |chunk.x| == b * chunk.t * n && bi < b
    ensures ChunksFit(chunks + [chunk], b, n)
    ensures RowsOf(chunks + [chunk], b, n, bi) == RowsOf(chunks, b, n, bi) + [BatchRows(chunk.x, b, chunk.t, n, bi)]
  {
  }

  lemma WholeNext<F>(chunks: seq<seq<seq<F>>>, chunk: seq<seq<F>>)
    ensures Whole(chunks + [chunk]) == Whole(chunks) + chunk
  {
    assert (chunks + [chunk])[..|chunks|] == chunks;
  }
}
