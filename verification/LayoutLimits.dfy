/** Buffers as the sizing code chooses them, and still a chunk past the end: the condition of
    LayoutExtents can fail. */
module LayoutLimits {
  import opened Rounding
  import opened Layout
  import opened LayoutSoundness
  import opened LayoutBounds
  import opened LayoutExtents
  import opened Sizing

  /** One rank, chunks of one page, a queue eight deep, and the least buffer that allows. */
  predicate EightDeep(p: Params, page: nat) {
    && page % FIRST_TENSOR_ALIGNMENT == 0 && page > 100
    && p == InitBuffer(page, 1, page, 8, 8 * page)
  }

  /** A file of two tensors of eight and six pages behind a header of one page, and a file whose
      first tensor starts at byte 100. */
  predicate TwoFiles(bs: seq<Boundary>, page: nat) {
    && |bs| == 5
    && bs[0] == Boundary(0, page) && bs[1] == Boundary(0, 9 * page) && bs[2] == Boundary(0, 15 * page)
    && bs[3] == Boundary(1, 100) && bs[4].file == 1 && 100 < bs[4].offset <= 100 + 8 * page
  }

  lemma EightDeepIs(p: Params, page: nat)
    requires EightDeep(p, page)
    ensures RequiredForIo(page, page, 8, 1) == 8 * page
    ensures p == Params(page, page, page, 14 * page + 48) && p.Valid()
  {
    assert page * 1 == page;
    assert page % page == 0 by {
      MultipleIsAligned(1, page);
    }
    RoundUpOfAligned(page, page);
    assert RequiredForIo(page, page, 8, 1) == page * 8 * 1;
    InitBufferIsValid(page, 1, page, 8, 8 * page);
  }

  lemma TwoFilesFit(p: Params, bs: seq<Boundary>, page: nat)
    requires EightDeep(p, page) && TwoFiles(bs, page)
    ensures p.Valid() && WellFormed(bs) && Roomy(p, bs) && NoEmptyFile(bs)
  {
    EightDeepIs(p, page);
  }

  lemma Pages(p: Params, n: nat)
    requires p.Valid() && p.align == p.page
    ensures (n * p.page) % p.page == 0 && RoundUp(n * p.page, p.align) == n * p.page
  {
    MultipleIsAligned(n, p.page);
    RoundUpOfAligned(n * p.page, p.align);
  }

  /** Where a boundary lies on a page, whole pages are pending. */
  lemma PendingPages(p: Params, bs: seq<Boundary>, n: nat)
    requires p.Valid() && p.align == p.page && WellFormed(bs) && n < |bs| && bs[n].offset % p.page == 0
    ensures var s := Run(p, bs, n); s.size % p.page == 0 && RoundUp(s.size, p.align) == s.size
  {
    RunFollowsInput(p, bs, n);
    FileOffsetOnPage(p, bs, n);
    WholePages(p, Run(p, bs, n), bs[n].offset);
  }

  lemma WholePages(p: Params, s: Cursor, offset: nat)
    requires p.Valid() && p.align == p.page && s.fileOffset + s.size == offset
    requires offset % p.page == 0 && s.fileOffset % p.page == 0
    ensures s.size % p.page == 0 && RoundUp(s.size, p.align) == s.size
  {
    AlignedDifference(offset, s.fileOffset, p.page);
    RoundUpOfAligned(s.size, p.align);
  }

  /** A tensor of whole pages moves the position by its size. */
  lemma PagesLaid(p: Params, bs: seq<Boundary>, n: nat, size: nat)
    requires p.Valid() && p.align == p.page && WellFormed(bs) && n < |bs| - 1 && IsTensor(bs, n)
    requires bs[n].offset % p.page == 0 && TensorSize(bs, n) == size && size % p.page == 0
    requires Run(p, bs, n).deviceOffset + Run(p, bs, n).size + size <= p.buffer
    ensures var s, r := Run(p, bs, n), Run(p, bs, n + 1);
            r.deviceOffset + r.size == s.deviceOffset + s.size + size
  {
    PendingPages(p, bs, n);
    PagesPlaced(p, Run(p, bs, n), size);
    TensorStep(p, bs, n, size);
  }

  lemma PagesPlaced(p: Params, s: Cursor, size: nat)
    requires p.Valid() && p.align == p.page && Counters(s) && s.size <= p.chunk
    requires s.size % p.page == 0 && size % p.page == 0 && s.deviceOffset + s.size + size <= p.buffer
    ensures var r := PlaceTensor(p, s, size); r.deviceOffset + r.size == s.deviceOffset + s.size + size
  {
    AlignedSum(s.size, size, p.page);
    RoundUpOfAligned(s.size + size, p.align);
    PlacedAt(p, s, size);
  }

  lemma TensorStep(p: Params, bs: seq<Boundary>, n: nat, size: nat)
    requires p.Valid() && WellFormed(bs) && n < |bs| - 1 && IsTensor(bs, n) && TensorSize(bs, n) == size
    ensures Run(p, bs, n + 1) == PlaceTensor(p, Run(p, bs, n), size)
  {
  }

  /** The position after the first file. */
  lemma AfterFirstFile(p: Params, bs: seq<Boundary>, page: nat)
    requires EightDeep(p, page) && TwoFiles(bs, page) && p.Valid() && WellFormed(bs)
    ensures Run(p, bs, 2).deviceOffset + Run(p, bs, 2).size == 14 * page + 16
  {
    EightDeepIs(p, page);
    Pages(p, 1);
    Pages(p, 6);
    Pages(p, 8);
    Pages(p, 9);
    FirstPosition(p, bs);
    PagesLaid(p, bs, 0, 8 * page);
    PagesLaid(p, bs, 1, 6 * page);
  }

  lemma FirstPosition(p: Params, bs: seq<Boundary>)
    requires p.Valid() && WellFormed(bs) && bs[0].offset % p.page == 0
    ensures Run(p, bs, 0).deviceOffset == FIRST_TENSOR_ALIGNMENT && Run(p, bs, 0).size == 0
  {
    MultipleIsAligned(0, FIRST_TENSOR_ALIGNMENT);
  }

  /** A header of 100 bytes after whole pages. */
  lemma HeaderPosition(p: Params, s: Cursor)
    requires p.Valid() && Counters(s) && p.page > 100 && s.size <= p.chunk
    requires s.size % p.page == 0 && RoundUp(s.size, p.align) == s.size
    requires (s.deviceOffset + s.size) % FIRST_TENSOR_ALIGNMENT == 0
    ensures NextFile(p, s, Boundary(1, 100)).deviceOffset == s.deviceOffset + s.size + 12
  {
    RoundUpOfAligned(s.deviceOffset + s.size, FIRST_TENSOR_ALIGNMENT);
    assert 100 % p.page == 100;
  }

  /** A file that opens after another. */
  lemma OpensAt(p: Params, bs: seq<Boundary>, n: nat)
    requires p.Valid() && WellFormed(bs) && 0 < n < |bs| && !IsTensor(bs, n - 1)
    ensures Run(p, bs, n) == NextFile(p, Run(p, bs, n - 1), bs[n])
  {
  }

  lemma HeaderStands(p: Params, bs: seq<Boundary>, page: nat)
    requires EightDeep(p, page) && TwoFiles(bs, page) && p.Valid() && WellFormed(bs)
    ensures Run(p, bs, 3).deviceOffset == 14 * page + 28
  {
    EightDeepIs(p, page);
    AfterFirstFile(p, bs, page);
    Pages(p, 15);
    PendingPages(p, bs, 2);
    SixteenthOf(page);
    HeaderPosition(p, Run(p, bs, 2));
    OpensAt(p, bs, 3);
  }

  lemma SixteenthOf(page: nat)
    requires page % FIRST_TENSOR_ALIGNMENT == 0
    ensures (14 * page + 16) % FIRST_TENSOR_ALIGNMENT == 0
  {
  }

  lemma SmallRemainder(x: nat, y: nat)
    requires 0 < x < y
    ensures x % y == x
  {
  }

  lemma HasNoRoom(p: Params, bs: seq<Boundary>, j: nat, at: nat)
    requires p.Valid() && WellFormed(bs) && 0 < j < |bs| && FileStart(bs, j) && bs[j].offset % p.page > 0
    requires Run(p, bs, j).deviceOffset == at && at + p.align > p.buffer
    ensures !HeaderFits(p, bs, j)
  {
  }

  /** With these buffers and files the header's chunk ends past the buffer. */
  lemma HeaderPastEnd(p: Params, bs: seq<Boundary>, page: nat)
    requires EightDeep(p, page) && TwoFiles(bs, page)
    ensures p.Valid() && WellFormed(bs) && Roomy(p, bs) && NoEmptyFile(bs)
    ensures !HeaderFits(p, bs, 3) && !Inside(p, Compute(p, bs).chunks)
  {
    EightDeepIs(p, page);
    TwoFilesFit(p, bs, page);
    HeaderStands(p, bs, page);
    SmallRemainder(100, p.page);
    HasNoRoom(p, bs, 3, 14 * page + 28);
    HeaderEscapes(p, bs, 3);
  }
}
