/** How a chunk is divided among the ranks, staged in the host window and put together
    again by the all-gather (csrc/loader_common.cpp, csrc/siphon/types.hpp), and how the
    host buffer is registered with io_uring (csrc/loader_io_uring.cpp). */
module RankSplit {
  import opened Rounding

  /** Geometry after `init_buffer`. `rankChunk` is the page-aligned rank_chunk_size. */
  datatype World = World(page: nat, ranks: nat, rankChunk: nat, depth: nat) {
    predicate Valid() {
      page > 0 && ranks > 0 && rankChunk > 0 && rankChunk % page == 0 && depth > 0
    }
  }

  function PaddedRankSize(w: World, size: nat): (r: nat)
    requires w.Valid()
  {
    assert w.page * w.ranks > 0;
    RoundUp(size, w.page * w.ranks) / w.ranks
  }

  function RankOffset(w: World, size: nat, rank: nat): nat
    requires w.Valid()
  {
    PaddedRankSize(w, size) * rank
  }

  /** `rank_logical_size`. */
  function LogicalSize(w: World, size: nat, rank: nat): nat
    requires w.Valid()
  {
    var offset := RankOffset(w, size, rank);
    if size <= offset then 0
    else if size - offset < PaddedRankSize(w, size) then size - offset
    else PaddedRankSize(w, size)
  }

  lemma PaddedSplitsEvenly(w: World, size: nat)
    requires w.Valid()
    ensures w.page * w.ranks > 0
    ensures PaddedRankSize(w, size) * w.ranks == RoundUp(size, w.page * w.ranks)
    ensures PaddedRankSize(w, size) % w.page == 0
    ensures size <= PaddedRankSize(w, size) * w.ranks
  {
    var wa := w.page * w.ranks;
    assert wa > 0;
    var padded := RoundUp(size, wa);
    var q := padded / wa;
    AlignedQuotient(padded, wa);
    assert padded == q * w.page * w.ranks;
    QuotientExact(q * w.page, w.ranks);
    MultipleIsAligned(q, w.page);
  }

  lemma QuotientExact(x: nat, y: nat)
    requires y > 0
    ensures x * y / y == x
  {
    MultipleIsAligned(x, y);
    AlignedQuotient(x * y, y);
    var d := x * y / y - x;
    assert d * y == 0;
    assert d >= 1 ==> d * y >= y;
    assert d <= -1 ==> d * y + y <= 0;
  }

  /** The rank whose slice holds logical byte `x`. */
  function OwnerOf(w: World, size: nat, x: nat): (r: nat)
    requires w.Valid() && x < size
  {
    PaddedSplitsEvenly(w, size);
    assert PaddedRankSize(w, size) > 0;
    x / PaddedRankSize(w, size)
  }

  predicate InSlice(w: World, size: nat, rank: nat, x: nat)
    requires w.Valid()
  {
    RankOffset(w, size, rank) <= x < RankOffset(w, size, rank) + LogicalSize(w, size, rank)
  }

  /** The logical slices partition the chunk: byte `x` lies in the slice of exactly one
      rank, and no slice reaches beyond the chunk. */
  lemma SlicesPartition(w: World, size: nat, rank: nat, x: nat)
    requires w.Valid() && rank < w.ranks
    ensures InSlice(w, size, rank, x) <==> x < size && OwnerOf(w, size, x) == rank
    ensures x < size ==> OwnerOf(w, size, x) < w.ranks
  {
    PaddedSplitsEvenly(w, size);
    var n := PaddedRankSize(w, size);
    if x < size {
      QuotientIs(x, n, rank);
      assert n * rank == rank * n;
      OwnerExists(w, size, x);
    }
  }

  lemma OwnerExists(w: World, size: nat, x: nat)
    requires w.Valid() && x < size
    ensures OwnerOf(w, size, x) < w.ranks
  {
    PaddedSplitsEvenly(w, size);
    var n := PaddedRankSize(w, size);
    DivisionBounds(x, n);
    var e := OwnerOf(w, size, x) - w.ranks;
    assert OwnerOf(w, size, x) * n == w.ranks * n + e * n;
    assert e >= 0 ==> e * n >= 0;
    assert w.ranks * n == n * w.ranks;
  }

  /** Every rank reads from a page boundary of the file. */
  lemma RankReadsAligned(w: World, size: nat, fileOffset: nat, rank: nat)
    requires w.Valid() && fileOffset % w.page == 0
    ensures (fileOffset + RankOffset(w, size, rank)) % w.page == 0
  {
    PaddedSplitsEvenly(w, size);
    var n := PaddedRankSize(w, size);
    AlignedQuotient(n, w.page);
    assert n * rank == (n / w.page * rank) * w.page;
    MultipleIsAligned(n / w.page * rank, w.page);
    AlignedSum(fileOffset, n * rank, w.page);
  }

  /** The in-place all-gather: rank `r` contributes `n` bytes at `r * n`. */
  function Gather<T>(slices: seq<seq<T>>): seq<T> {
    if slices == [] then [] else Gather(slices[..|slices| - 1]) + slices[|slices| - 1]
  }

  lemma {:induction false} GatherLength<T>(slices: seq<seq<T>>, n: nat)
    requires forall i :: 0 <= i < |slices| ==> |slices[i]| == n
    ensures |Gather(slices)| == |slices| * n
  {
    var m := |slices| - 1;
    if m >= 0 {
      GatherLength(slices[..m], n);
      assert (m + 1) * n == m * n + n;
    }
  }

  /** Byte `k` of rank `r`'s slice lands at `r * n + k`. */
  lemma {:induction false} GatherIndex<T>(slices: seq<seq<T>>, n: nat, r: nat, k: nat)
    requires r < |slices| && k < n && forall i :: 0 <= i < |slices| ==> |slices[i]| == n
    ensures r * n + k < |Gather(slices)| && Gather(slices)[r * n + k] == slices[r][k]
  {
    var m := |slices| - 1;
    var init := slices[..m];
    GatherLength(init, n);
    if r < m {
      GatherIndex(init, n, r, k);
    }
  }

  /** If every rank stages the logical bytes of its slice, whatever follows them, the
      gathered buffer starts with the chunk's bytes. */
  lemma GatherRebuilds<T>(w: World, size: nat, bytes: nat -> T, slices: seq<seq<T>>, x: nat)
    requires w.Valid() && |slices| == w.ranks && x < size
    requires forall r :: 0 <= r < w.ranks ==> |slices[r]| == PaddedRankSize(w, size)
    requires forall r: nat, k: nat {:trigger slices[r][k]} ::
               r < w.ranks && k < LogicalSize(w, size, r) && k < |slices[r]| ==>
                 slices[r][k] == bytes(RankOffset(w, size, r) + k)
    ensures x < |Gather(slices)| && Gather(slices)[x] == bytes(x)
  {
    PaddedSplitsEvenly(w, size);
    var n, r := PaddedRankSize(w, size), OwnerOf(w, size, x);
    SlicesPartition(w, size, 0, x);
    SlicesPartition(w, size, r, x);
    DivisionBounds(x, n);
    var k := x - r * n;
    assert RankOffset(w, size, r) == r * n;
    GatherIndex(slices, n, r, k);
    assert slices[r][k] == bytes(RankOffset(w, size, r) + k);
  }

  // -------------------------------------------------------------- the host window

  function WindowOffset(w: World, chunkId: nat): nat
    requires w.Valid()
  {
    chunkId % w.depth * w.rankChunk
  }

  /** A rank's share of a chunk is at most its chunk size. */
  lemma PaddedWithinRankChunk(w: World, size: nat)
    requires w.Valid() && size <= w.rankChunk * w.ranks
    ensures PaddedRankSize(w, size) <= w.rankChunk
  {
    PaddedSplitsEvenly(w, size);
    AlignedProduct(w.rankChunk, w.page, w.ranks);
    RoundUpMonotone(size, w.rankChunk * w.ranks, w.page * w.ranks);
    RoundUpOfAligned(w.rankChunk * w.ranks, w.page * w.ranks);
    SmallerFactor(PaddedRankSize(w, size), w.rankChunk, w.ranks);
  }

  lemma SmallerFactor(a: nat, b: nat, k: nat)
    requires k > 0 && a * k <= b * k
    ensures a <= b
  {
    var d := a - b;
    assert a * k == b * k + d * k;
    assert d >= 1 ==> d * k >= k;
  }

  lemma SlotInside(slot: nat, depth: nat, width: nat)
    requires slot < depth
    ensures slot * width + width <= depth * width
  {
    var after := depth - slot;
    assert depth * width == slot * width + after * width;
    assert after >= 1 ==> after * width >= width;
  }

  /** A rank's read, rounded up to pages, stays inside the chunk's window slot, and the
      slot inside the host buffer. */
  lemma ReadFitsSlot(w: World, size: nat, rank: nat, chunkId: nat)
    requires w.Valid() && 0 < size <= w.rankChunk * w.ranks
    ensures RoundUp(LogicalSize(w, size, rank), w.page) <= w.rankChunk
    ensures WindowOffset(w, chunkId) + w.rankChunk <= w.depth * w.rankChunk
  {
    PaddedWithinRankChunk(w, size);
    RoundUpMonotone(LogicalSize(w, size, rank), w.rankChunk, w.page);
    RoundUpOfAligned(w.rankChunk, w.page);
    SlotInside(chunkId % w.depth, w.depth, w.rankChunk);
  }

  // -------------------------------------------------------- io_uring registration

  datatype Region = Region(start: nat, size: nat)

  /** The regions a buffer of `size` bytes is registered as, each at most `limit` long. */
  function Regions(start: nat, size: nat, limit: nat): (r: seq<Region>)
    requires limit > 0
    decreases size
  {
    if size == 0 then []
    else
      var n := if size < limit then size else limit;
      [Region(start, n)] + Regions(start + n, size - n, limit)
  }

  /** `register_host_buffer_uring`. */
  method RegisterHostBuffer(hostSize: nat, limit: nat) returns (iovs: seq<Region>)
    requires limit > 0
    ensures iovs == Regions(0, hostSize, limit)
  {
    var ptr: nat := 0;
    var size: nat := hostSize;
    iovs := [];
    assert iovs + Regions(ptr, size, limit) == Regions(0, hostSize, limit);
    while size > 0
      invariant iovs + Regions(ptr, size, limit) == Regions(0, hostSize, limit)
    {
      var iovSize := if size < limit then size else limit;
      assert Regions(ptr, size, limit) == [Region(ptr, iovSize)] + Regions(ptr + iovSize, size - iovSize, limit);
      iovs := iovs + [Region(ptr, iovSize)];
      ptr := ptr + iovSize;
      size := size - iovSize;
    }
  }

  /** Region `i` starts at `i * limit`, and the regions end where the buffer does. */
  lemma {:induction false} RegionAt(start: nat, size: nat, limit: nat, i: nat)
    requires limit > 0 && i * limit < size
    ensures i < |Regions(start, size, limit)|
    ensures Regions(start, size, limit)[i].start == start + i * limit
    ensures Regions(start, size, limit)[i].size == if size - i * limit < limit then size - i * limit else limit
    decreases i
  {
    if i > 0 {
      assert i * limit == (i - 1) * limit + limit;
      assert (i - 1) * limit >= 0;
      RegionAt(start + limit, size - limit, limit, i - 1);
    }
  }

  /** The fixed-buffer index for a read of `length` bytes at `offset`, if one region can
      hold it. */
  function FixedBufferIndex(offset: nat, length: nat, limit: nat): (r: int)
    requires limit > 0 && length > 0
    ensures r >= -1
  {
    var left, right := offset / limit, (offset + length - 1) / limit;
    if left == right then left else -1
  }

  ghost predicate Crosses(offset: nat, length: nat, limit: nat, b: nat) {
    offset < b * limit < offset + length
  }

  /** No region boundary lies strictly inside a read whose ends have the same quotient. */
  lemma SameQuotientNoBoundary(offset: nat, length: nat, limit: nat, b: nat)
    requires limit > 0 && length > 0 && offset / limit == (offset + length - 1) / limit
    ensures !Crosses(offset, length, limit, b)
  {
    var left := offset / limit;
    DivisionBounds(offset, limit);
    DivisionBounds(offset + length - 1, limit);
    var d := b - left;
    assert b * limit == left * limit + d * limit;
    assert d <= 0 ==> d * limit <= 0;
    assert d >= 1 ==> d * limit >= limit;
  }

  lemma DifferentQuotientBoundary(offset: nat, length: nat, limit: nat)
    requires limit > 0 && length > 0 && offset / limit != (offset + length - 1) / limit
    ensures Crosses(offset, length, limit, (offset + length - 1) / limit)
  {
    var left, right := offset / limit, (offset + length - 1) / limit;
    DivisionBounds(offset, limit);
    DivisionBounds(offset + length - 1, limit);
    var d := right - left;
    assert right * limit == left * limit + d * limit;
    assert d <= -1 ==> d * limit + limit <= 0;
    assert d >= 1 ==> d * limit >= limit;
  }

  /** A chosen index names a registered region that contains the whole read; none is chosen
      exactly when the read crosses a region boundary. */
  lemma FixedBufferContainsRead(hostSize: nat, offset: nat, length: nat, limit: nat)
    requires limit > 0 && length > 0 && offset + length <= hostSize
    ensures var i, rs := FixedBufferIndex(offset, length, limit), Regions(0, hostSize, limit);
            && (i >= 0 ==> i < |rs| && rs[i].start <= offset && offset + length <= rs[i].start + rs[i].size)
            && (i == -1 <==> exists b: nat :: Crosses(offset, length, limit, b))
  {
    if offset / limit == (offset + length - 1) / limit {
      ReadInRegion(hostSize, offset, length, limit);
      forall b: nat ensures !Crosses(offset, length, limit, b) {
        SameQuotientNoBoundary(offset, length, limit, b);
      }
    } else {
      DifferentQuotientBoundary(offset, length, limit);
    }
  }

  lemma ReadInRegion(hostSize: nat, offset: nat, length: nat, limit: nat)
    requires limit > 0 && length > 0 && offset + length <= hostSize
    requires offset / limit == (offset + length - 1) / limit
    ensures var i, rs := offset / limit, Regions(0, hostSize, limit);
            i < |rs| && rs[i].start <= offset && offset + length <= rs[i].start + rs[i].size
  {
    DivisionBounds(offset, limit);
    DivisionBounds(offset + length - 1, limit);
    RegionAt(0, hostSize, limit, offset / limit);
  }
}
