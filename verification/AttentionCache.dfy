/** `append_kv` and `attend` (qwen35-forward/gdn/src/attention.rs): growing the key and value
    cache, and causal attention of a chunk over it. */
module AttentionCache {
  import opened FlatTensor
  import opened Axes

  // ------------------------------------------------------------------ append_kv

  /** Vector `j` of key head `hh`: the cache's for the first `start` positions, then the chunk's. */
  ghost predicate VectorAppended<F>(cache: seq<F>, chunk: seq<F>, out: seq<F>, start: nat, t: nat, kvh: nat, d: nat,
                                    bi: nat, hh: nat, j: nat) {
    && Ix3(bi, kvh, hh, start + t, j) * d + d <= |out|
    && if j < start then
         && Ix3(bi, kvh, hh, start, j) * d + d <= |cache|
         && Row(out, Ix3(bi, kvh, hh, start + t, j), d) == Row(cache, Ix3(bi, kvh, hh, start, j), d)
       else
         && Ix3(bi, t, j - start, kvh, hh) * d + d <= |chunk|
         && Row(out, Ix3(bi, kvh, hh, start + t, j), d) == Row(chunk, Ix3(bi, t, j - start, kvh, hh), d)
  }

  ghost predicate AppendedTo<F>(cache: seq<F>, chunk: seq<F>, out: seq<F>, b: nat, start: nat, t: nat, kvh: nat,
                                d: nat, upto: nat) {
    forall bi: nat, hh: nat, j: nat {:trigger VectorAppended(cache, chunk, out, start, t, kvh, d, bi, hh, j)} ::
      bi < b && hh < kvh && j < start + t && Ix3(bi, kvh, hh, start + t, j) < upto ==>
        VectorAppended(cache, chunk, out, start, t, kvh, d, bi, hh, j)
  }

  ghost predicate Appended<F>(cache: seq<F>, chunk: seq<F>, out: seq<F>, b: nat, start: nat, t: nat, kvh: nat, d: nat) {
    && |out| == b * kvh * (start + t) * d
    && forall bi: nat, hh: nat, j: nat {:trigger VectorAppended(cache, chunk, out, start, t, kvh, d, bi, hh, j)} ::
         bi < b && hh < kvh && j < start + t ==> VectorAppended(cache, chunk, out, start, t, kvh, d, bi, hh, j)
  }

  /** The old and the new tensors of one append. */
  ghost predicate AppendShapes<F>(cache: seq<F>, chunk: seq<F>, out: seq<F>, b: nat, start: nat, t: nat, kvh: nat, d: nat) {
    |cache| == b * kvh * start * d && |chunk| == b * t * kvh * d && |out| == b * kvh * (start + t) * d
  }

  /** Copying one chunk vector. */
  lemma AppendNext<F>(cache: seq<F>, chunk: seq<F>, out: seq<F>, b: nat, start: nat, t: nat, kvh: nat, d: nat,
                      bi: nat, hh: nat, ti: nat)
    requires AppendShapes(cache, chunk, out, b, start, t, kvh, d) && bi < b && hh < kvh && ti < t
    requires AppendedTo(cache, chunk, out, b, start, t, kvh, d, Ix3(bi, kvh, hh, start + t, start + ti))
    ensures Ix3(bi, t, ti, kvh, hh) * d + d <= |chunk| && Ix3(bi, kvh, hh, start + t, start + ti) * d + d <= |out|
    ensures AppendedTo(cache, chunk,
                       SetRow(out, Ix3(bi, kvh, hh, start + t, start + ti), d, Row(chunk, Ix3(bi, t, ti, kvh, hh), d)),
                       b, start, t, kvh, d, Ix3(bi, kvh, hh, start + t, start + ti) + 1)
  {
    var total := start + t;
    var n := Ix3(bi, kvh, hh, total, start + ti);
    Ix3Fits(b, bi, t, ti, kvh, hh, d);
    Ix3Fits(b, bi, kvh, hh, total, start + ti, d);
    var row := Row(chunk, Ix3(bi, t, ti, kvh, hh), d);
    forall ci: nat, k: nat, j: nat | ci < b && k < kvh && j < total && Ix3(ci, kvh, k, total, j) < n + 1
      ensures VectorAppended(cache, chunk, SetRow(out, n, d, row), start, t, kvh, d, ci, k, j)
    {
      Ix3Fits(b, ci, kvh, k, total, j, d);
      RowOfSetRow(out, n, Ix3(ci, kvh, k, total, j), d, row);
      if Ix3(ci, kvh, k, total, j) == n {
        Ix3Injective(kvh, total, bi, hh, start + ti, ci, k, j);
      } else {
        assert VectorAppended(cache, chunk, out, start, t, kvh, d, ci, k, j);
      }
    }
  }

  /** `s[at*d .. at*d + n*d].copy_from_slice(block)`: `n` vectors at once. */
  function SetBlock<F>(s: seq<F>, at: nat, n: nat, d: nat, block: seq<F>): (r: seq<F>)
    requires at * d + n * d <= |s| && |block| == n * d
    ensures |r| == |s|
  {
    s[..at * d] + block + s[at * d + n * d..]
  }

  /** `n` vectors of the cache copied to place `to`. */
  function CopyBlock<F>(out: seq<F>, to: nat, cache: seq<F>, from: nat, n: nat, d: nat): (r: seq<F>)
    requires from * d + n * d <= |cache| && to * d + n * d <= |out|
    ensures |r| == |out|
  {
    SetBlock(out, to, n, d, cache[from * d..from * d + n * d])
  }

  lemma BlockInside<F>(s: seq<F>, at: nat, n: nat, d: nat, block: seq<F>, o: nat)
    requires at * d + n * d <= |s| && |block| == n * d && o < n
    ensures o * d + d <= |block| && (at + o) * d + d <= |s|
    ensures Row(SetBlock(s, at, n, d, block), at + o, d) == Row(block, o, d)
  {
    RowFits(o, n, d);
    Distribute(at, o, d);
    Spliced(s, at * d, block, at * d + o * d, d);
  }

  lemma BlockOutside<F>(s: seq<F>, at: nat, n: nat, d: nat, block: seq<F>, k: nat)
    requires at * d + n * d <= |s| && |block| == n * d && k * d + d <= |s| && (k < at || at + n <= k)
    ensures Row(SetBlock(s, at, n, d, block), k, d) == Row(s, k, d)
  {
    if k < at {
      RowFits(k, at, d);
    } else {
      Distribute(at, n, d);
      Distribute(at + n, k - at - n, d);
    }
    Spliced(s, at * d, block, k * d, d);
  }

  /** A block of the cache is its vectors. */
  lemma BlockOfCache<F>(cache: seq<F>, at: nat, n: nat, d: nat, o: nat)
    requires at * d + n * d <= |cache| && o < n
    ensures o * d + d <= n * d && (at + o) * d + d <= |cache|
    ensures Row(cache[at * d..at * d + n * d], o, d) == Row(cache, at + o, d)
  {
    RowFits(o, n, d);
    Distribute(at, o, d);
    SliceOfSlice(cache, at * d, n * d, o * d, d);
  }

  /** The block of head `hh` in a `[B, H, N, D]` tensor. */
  lemma HeadBlock(b: nat, kvh: nat, n: nat, d: nat, bi: nat, hh: nat)
    requires bi < b && hh < kvh
    ensures Ix3(bi, kvh, hh, n, 0) * d + n * d <= b * kvh * n * d
    ensures Ix3(bi, kvh, hh, n, 0) == Ix(bi, kvh, hh) * n
  {
    IxFits(bi, b, kvh, hh);
    RowFits(Ix(bi, kvh, hh), b * kvh, n);
    var r := Ix(bi, kvh, hh);
    Distribute(r * n, n, d);
    var k := b * kvh * n - (r * n + n);
    Distribute(r * n + n, k, d);
  }

  /** Copying the old positions of one head. */
  lemma PrefixCopied<F>(cache: seq<F>, chunk: seq<F>, out: seq<F>, b: nat, start: nat, t: nat, kvh: nat, d: nat,
                        bi: nat, hh: nat)
    requires AppendShapes(cache, chunk, out, b, start, t, kvh, d) && bi < b && hh < kvh
    requires AppendedTo(cache, chunk, out, b, start, t, kvh, d, Ix3(bi, kvh, hh, start + t, 0))
    ensures var from, to := Ix3(bi, kvh, hh, start, 0), Ix3(bi, kvh, hh, start + t, 0);
            && from * d + start * d <= |cache| && to * d + start * d <= |out|
            && AppendedTo(cache, chunk, CopyBlock(out, to, cache, from, start, d),
                          b, start, t, kvh, d, to + start)
  {
    var from, to := Ix3(bi, kvh, hh, start, 0), Ix3(bi, kvh, hh, start + t, 0);
    PrefixRoom(cache, chunk, out, b, start, t, kvh, d, bi, hh, from, to);
    forall ci: nat, k: nat, j: nat | ci < b && k < kvh && j < start + t && Ix3(ci, kvh, k, start + t, j) < to + start
      ensures VectorAppended(cache, chunk, CopyBlock(out, to, cache, from, start, d), start, t, kvh, d, ci, k, j)
    {
      PrefixVector(cache, chunk, out, b, start, t, kvh, d, bi, hh, ci, k, j);
    }
  }

  lemma PrefixVector<F>(cache: seq<F>, chunk: seq<F>, out: seq<F>, b: nat, start: nat, t: nat, kvh: nat, d: nat,
                        bi: nat, hh: nat, ci: nat, k: nat, j: nat)
    requires AppendShapes(cache, chunk, out, b, start, t, kvh, d) && bi < b && hh < kvh
    requires AppendedTo(cache, chunk, out, b, start, t, kvh, d, Ix3(bi, kvh, hh, start + t, 0))
    requires ci < b && k < kvh && j < start + t && Ix3(ci, kvh, k, start + t, j) < Ix3(bi, kvh, hh, start + t, 0) + start
    ensures var from, to := Ix3(bi, kvh, hh, start, 0), Ix3(bi, kvh, hh, start + t, 0);
            && from * d + start * d <= |cache| && to * d + start * d <= |out|
            && VectorAppended(cache, chunk, CopyBlock(out, to, cache, from, start, d), start, t, kvh, d, ci, k, j)
  {
    var from, to := Ix3(bi, kvh, hh, start, 0), Ix3(bi, kvh, hh, start + t, 0);
    PrefixRoom(cache, chunk, out, b, start, t, kvh, d, bi, hh, from, to);
    if Ix3(ci, kvh, k, start + t, j) < to {
      assert VectorAppended(cache, chunk, out, start, t, kvh, d, ci, k, j);
      VectorKept(cache, chunk, out, start, t, kvh, d, ci, k, j, from, to);
    } else {
      InsidePrefix(kvh, start, start + t, bi, hh, ci, k, j);
      VectorOfPrefix(cache, chunk, out, start, t, kvh, d, bi, hh, j, from, to);
    }
  }

  /** A vector placed before. */
  lemma VectorKept<F>(cache: seq<F>, chunk: seq<F>, out: seq<F>, start: nat, t: nat, kvh: nat, d: nat,
                      ci: nat, k: nat, j: nat, from: nat, to: nat)
    requires from * d + start * d <= |cache| && to * d + start * d <= |out|
    requires Ix3(ci, kvh, k, start + t, j) < to && VectorAppended(cache, chunk, out, start, t, kvh, d, ci, k, j)
    ensures VectorAppended(cache, chunk, CopyBlock(out, to, cache, from, start, d), start, t, kvh, d, ci, k, j)
  {
    BlockOutside(out, to, start, d, cache[from * d..from * d + start * d], Ix3(ci, kvh, k, start + t, j));
  }

  lemma PrefixRoom<F>(cache: seq<F>, chunk: seq<F>, out: seq<F>, b: nat, start: nat, t: nat, kvh: nat, d: nat,
                      bi: nat, hh: nat, from: nat, to: nat)
    requires AppendShapes(cache, chunk, out, b, start, t, kvh, d) && bi < b && hh < kvh
    requires from == Ix3(bi, kvh, hh, start, 0) && to == Ix3(bi, kvh, hh, start + t, 0)
    ensures from * d + start * d <= |cache| && to * d + start * d <= |out|
  {
    HeadBlock(b, kvh, start, d, bi, hh);
    HeadBlock(b, kvh, start + t, d, bi, hh);
    Distribute(start, t, d);
  }

  /** A copied vector of the head itself. */
  lemma VectorOfPrefix<F>(cache: seq<F>, chunk: seq<F>, out: seq<F>, start: nat, t: nat, kvh: nat, d: nat,
                          bi: nat, hh: nat, j: nat, from: nat, to: nat)
    requires from * d + start * d <= |cache| && to * d + start * d <= |out| && j < start
    requires Ix3(bi, kvh, hh, start, j) == from + j && Ix3(bi, kvh, hh, start + t, j) == to + j
    ensures VectorAppended(cache, chunk, CopyBlock(out, to, cache, from, start, d), start, t, kvh, d, bi, hh, j)
  {
    CopiedVector(out, to, cache, from, start, d, j);
  }

  lemma CopiedVector<F>(out: seq<F>, to: nat, cache: seq<F>, from: nat, n: nat, d: nat, j: nat)
    requires from * d + n * d <= |cache| && to * d + n * d <= |out| && j < n
    ensures (to + j) * d + d <= |out| && (from + j) * d + d <= |cache|
    ensures Row(CopyBlock(out, to, cache, from, n, d), to + j, d) == Row(cache, from + j, d)
  {
    BlockInside(out, to, n, d, cache[from * d..from * d + n * d], j);
    BlockOfCache(cache, from, n, d, j);
  }

  /** A vector among the first `start` of head `(bi, hh)`'s block. */
  lemma InsidePrefix(kvh: nat, start: nat, total: nat, bi: nat, hh: nat, ci: nat, k: nat, j: nat)
    requires hh < kvh && k < kvh && j < total && start <= total
    requires Ix3(bi, kvh, hh, total, 0) <= Ix3(ci, kvh, k, total, j) < Ix3(bi, kvh, hh, total, 0) + start
    ensures ci == bi && k == hh && j < start
    ensures Ix3(ci, kvh, k, total, j) == Ix3(bi, kvh, hh, total, 0) + j
    ensures Ix3(bi, kvh, hh, start, j) == Ix3(bi, kvh, hh, start, 0) + j
  {
    var o := Ix3(ci, kvh, k, total, j) - Ix3(bi, kvh, hh, total, 0);
    assert Ix3(bi, kvh, hh, total, o) == Ix3(ci, kvh, k, total, j);
    Ix3Injective(kvh, total, bi, hh, o, ci, k, j);
  }

  /** One head of the append loop. */
  method AppendHead<F>(cache: seq<F>, chunk: seq<F>, out0: seq<F>, b: nat, start: nat, t: nat, kvh: nat, d: nat,
                       bi: nat, hh: nat) returns (out: seq<F>)
    requires AppendShapes(cache, chunk, out0, b, start, t, kvh, d) && bi < b && hh < kvh
    requires AppendedTo(cache, chunk, out0, b, start, t, kvh, d, Ix3(bi, kvh, hh, start + t, 0))
    ensures |out| == |out0|
    ensures AppendedTo(cache, chunk, out, b, start, t, kvh, d, Ix3(bi, kvh, hh, start + t, start + t))
  {
    out := out0;
    PrefixCopied(cache, chunk, out, b, start, t, kvh, d, bi, hh);
    if start > 0 {
      var from, to := Ix3(bi, kvh, hh, start, 0), Ix3(bi, kvh, hh, start + t, 0);
      out := CopyBlock(out, to, cache, from, start, d);
    }
    assert Ix3(bi, kvh, hh, start + t, start + 0) == Ix3(bi, kvh, hh, start + t, 0) + start;
    for ti := 0 to t
      invariant |out| == |out0|
      invariant AppendedTo(cache, chunk, out, b, start, t, kvh, d, Ix3(bi, kvh, hh, start + t, start + ti))
    {
      AppendNext(cache, chunk, out, b, start, t, kvh, d, bi, hh, ti);
      out := SetRow(out, Ix3(bi, kvh, hh, start + t, start + ti), d, Row(chunk, Ix3(bi, t, ti, kvh, hh), d));
    }
  }

  method AppendBatch<F>(cache: seq<F>, chunk: seq<F>, out0: seq<F>, b: nat, start: nat, t: nat, kvh: nat, d: nat,
                        bi: nat) returns (out: seq<F>)
    requires AppendShapes(cache, chunk, out0, b, start, t, kvh, d) && bi < b
    requires AppendedTo(cache, chunk, out0, b, start, t, kvh, d, Ix3(bi, kvh, 0, start + t, 0))
    ensures |out| == |out0|
    ensures AppendedTo(cache, chunk, out, b, start, t, kvh, d, Ix3(bi, kvh, kvh, start + t, 0))
  {
    out := out0;
    for hh := 0 to kvh
      invariant |out| == |out0|
      invariant AppendedTo(cache, chunk, out, b, start, t, kvh, d, Ix3(bi, kvh, hh, start + t, 0))
    {
      out := AppendHead(cache, chunk, out, b, start, t, kvh, d, bi, hh);
      LastInRow(Ix(bi, kvh, hh), start + t);
    }
  }

  /** `append_kv` for the keys or the values: `[B, H, start, D]` and `[B, T, H, D]` to
      `[B, H, start + T, D]`. */
  method Append<F>(cache: seq<F>, chunk: seq<F>, b: nat, start: nat, t: nat, kvh: nat, d: nat, zero: F) returns (out: seq<F>)
    requires |cache| == b * kvh * start * d && |chunk| == b * t * kvh * d
    ensures Appended(cache, chunk, out, b, start, t, kvh, d)
  {
    out := seq(b * kvh * (start + t) * d, _ => zero);
    for bi := 0 to b
      invariant |out| == b * kvh * (start + t) * d
      invariant AppendedTo(cache, chunk, out, b, start, t, kvh, d, Ix3(bi, kvh, 0, start + t, 0))
    {
      out := AppendBatch(cache, chunk, out, b, start, t, kvh, d, bi);
      LastInPlane(bi, kvh, start + t);
    }
    AllAppended(cache, chunk, out, b, start, t, kvh, d);
  }

  lemma AllAppended<F>(cache: seq<F>, chunk: seq<F>, out: seq<F>, b: nat, start: nat, t: nat, kvh: nat, d: nat)
    requires |out| == b * kvh * (start + t) * d
    requires AppendedTo(cache, chunk, out, b, start, t, kvh, d, Ix3(b, kvh, 0, start + t, 0))
    ensures Appended(cache, chunk, out, b, start, t, kvh, d)
  {
    var total := start + t;
    forall bi: nat, hh: nat, j: nat | bi < b && hh < kvh && j < total
      ensures VectorAppended(cache, chunk, out, start, t, kvh, d, bi, hh, j)
    {
      Ix3Fits(b, bi, kvh, hh, total, j, d);
      assert Ix3(b, kvh, 0, total, 0) == b * kvh * total;
    }
  }
}
