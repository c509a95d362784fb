/** What the recommended buffer size is good for: room beside a tensor in use, and in the layout
    a tensor that can be read in full while the one before it is in use. */
module SizingMeaning {
  import opened Rounding
  import opened Layout
  import opened LayoutInvariant
  import opened LayoutSoundness
  import opened LayoutBounds
  import opened LayoutEmpty
  import opened LayoutOverlap
  import opened Sizing

  // ------------------------------------------------------------------ room in a ring

  /** With a tensor of `prev` bytes that ends at `e`, there are `size` free bytes behind it or
      before it. */
  predicate RoomBeside(prev: nat, size: nat, buffer: nat, e: nat) {
    prev <= e <= buffer ==> e + size <= buffer || size <= e - prev
  }

  /** So wherever the tensor before it ends, a tensor finds room beside it, exactly from one byte
      below its need on; two bytes below there is a position that leaves no room. */
  lemma NeedIsRoom(sizes: seq<nat>, i: nat, buffer: nat)
    requires 0 < i < |sizes| && sizes[i] > 0 && sizes[i - 1] <= buffer
    ensures (forall e: nat {:trigger RoomBeside(sizes[i - 1], sizes[i], buffer, e)} :: RoomBeside(sizes[i - 1], sizes[i], buffer, e))
       <==> Need(sizes, i) <= buffer + 1
  {
    var prev, size := sizes[i - 1], sizes[i];
    if Need(sizes, i) > buffer + 1 {
      var e := if size < buffer + 1 - prev then buffer + 1 - size else prev;
      assert !RoomBeside(prev, size, buffer, e);
    } else {
      forall e: nat ensures RoomBeside(prev, size, buffer, e) {
      }
    }
  }

  /** The first tensor needs room for itself only. */
  lemma FirstNeed(sizes: seq<nat>, buffer: nat)
    requires sizes != []
    ensures Need(sizes, 0) <= buffer <==> RoomBeside(0, sizes[0], buffer, 0) && sizes[0] <= buffer
  {
  }

  // ------------------------------------------------------------------ positions in the layout

  function Sizes(ts: seq<Tensor>): (r: seq<nat>)
    ensures |r| == |ts| && forall i :: 0 <= i < |ts| ==> r[i] == ts[i].size
  {
    seq(|ts|, i requires 0 <= i < |ts| => ts[i].size)
  }

  /** Opening a file moves the position by less than a padding unit, two alignment units and a page. */
  lemma NextFileMoves(p: Params, s: Cursor, b: Boundary)
    requires p.Valid() && Counters(s)
    ensures var r := NextFile(p, s, b);
            r.deviceOffset + r.size < s.deviceOffset + s.size + p.align + 2 * FIRST_TENSOR_ALIGNMENT + p.page
  {
  }

  /** The byte behind tensor `t` is at most that far behind the layout's position. */
  predicate JustLaid(p: Params, s: Cursor, t: Tensor) {
    s.deviceOffset + s.size < t.deviceOffset + t.size + p.align + 2 * FIRST_TENSOR_ALIGNMENT + p.page
  }

  lemma AfterTensor(p: Params, bs: seq<Boundary>, n: nat, m: nat)
    requires p.Valid() && WellFormed(bs) && m == n + 1 < |bs| && IsTensor(bs, n)
    ensures var s, i := Run(p, bs, m), TensorId(bs, n);
            i < |s.tensors| && s.deviceOffset + s.size == s.tensors[i].deviceOffset + s.tensors[i].size
  {
    RunFollowsInput(p, bs, n);
    PlacedAt(p, Run(p, bs, n), TensorSize(bs, n));
    PlaceTensorRecords(p, Run(p, bs, n), TensorSize(bs, n));
    StepIs(p, bs, n, m);
  }

  lemma AfterFile(p: Params, bs: seq<Boundary>, n: nat, m: nat)
    requires p.Valid() && WellFormed(bs) && m == n + 2 < |bs| && IsTensor(bs, n) && !IsTensor(bs, n + 1)
    ensures var s, i := Run(p, bs, m), TensorId(bs, n); i < |s.tensors| && JustLaid(p, s, s.tensors[i])
  {
    AfterTensor(p, bs, n, n + 1);
    FileStep(p, bs, n + 1, m, TensorId(bs, n));
  }

  lemma FileStep(p: Params, bs: seq<Boundary>, n: nat, m: nat, i: nat)
    requires p.Valid() && WellFormed(bs) && m == n + 1 < |bs| && !IsTensor(bs, n)
    requires var s := Run(p, bs, n);
             i < |s.tensors| && s.deviceOffset + s.size == s.tensors[i].deviceOffset + s.tensors[i].size
    ensures var r := Run(p, bs, m); i < |r.tensors| && JustLaid(p, r, r.tensors[i])
  {
    NextFileMoves(p, Run(p, bs, n), bs[m]);
  }

  lemma BeforeIsLaid(p: Params, bs: seq<Boundary>, m: nat)
    requires p.Valid() && WellFormed(bs) && NoEmptyFile(bs) && Successor(bs, m)
    ensures var s, i := Run(p, bs, m), Before(bs, m); i < |s.tensors| && JustLaid(p, s, s.tensors[i])
  {
    var n := PreviousTensor(bs, m);
    if n + 1 == m {
      AfterTensor(p, bs, n, m);
    } else {
      AfterFile(p, bs, n, m);
    }
  }

  /** The tensor before begins at the boundary before, or, behind a file's end, at the one before that. */
  lemma PreviousTensor(bs: seq<Boundary>, m: nat) returns (n: nat)
    requires WellFormed(bs) && NoEmptyFile(bs) && Successor(bs, m)
    ensures n < m && IsTensor(bs, n) && TensorId(bs, n) == Before(bs, m)
    ensures n + 1 == m || (n + 2 == m && !IsTensor(bs, n + 1))
  {
    n := m - 1;
    if !IsTensor(bs, n) {
      assert n > 0;
      n := m - 2;
      assert !IsTensor(bs, n) ==> IsTensor(bs, n + 1);
      assert TensorId(bs, n + 1) == TensorId(bs, m);
    }
  }

  // ------------------------------------------------------------------ how far a wrapped tensor reaches

  /** The first tensor of a lap begins near the left end. */
  lemma WrapsToLeft(p: Params, s: Cursor, size: nat)
    requires p.Valid() && Counters(s) && s.size <= p.chunk && MustWrap(p, s, size)
    ensures var r := PlaceTensor(p, s, size);
            r.tensors[|s.tensors|].deviceOffset < FIRST_TENSOR_ALIGNMENT + p.page
  {
    var w := Wrap(p, s);
    assert w.deviceOffset + w.size < FIRST_TENSOR_ALIGNMENT + p.page;
    FillAdvances(p, w, size);
  }

  /** The last chunk of a tensor ends less than a chunk behind it. */
  lemma LastChunkNear(p: Params, r: Cursor, t: Tensor)
    requires p.Valid() && t.size > 0 && Covered(p, r.chunks, t)
    requires forall c :: 0 <= c < |r.chunks| ==> r.chunks[c].size <= p.chunk
    ensures EndsBy(p, r, t.lastChunk, t.deviceOffset + t.size + p.chunk)
  {
    var first :| Spans(p, r.chunks, t, first);
    var c := r.chunks[t.lastChunk];
    assert SameMapping(c, t);
    RoundUpMonotone(c.size, p.chunk, p.align);
    RoundUpOfAligned(p.chunk, p.align);
  }

  lemma WrappedStart(p: Params, bs: seq<Boundary>, m: nat, l: nat)
    requires p.Valid() && WellFormed(bs) && Successor(bs, m) && l == m + 1
    requires MustWrap(p, Run(p, bs, m), TensorSize(bs, m))
    ensures var i, r := Before(bs, m), Run(p, bs, l);
            i + 1 < |r.tensors| && r.tensors[i + 1].deviceOffset < FIRST_TENSOR_ALIGNMENT + p.page
  {
    RunFollowsInput(p, bs, m);
    WrapsToLeft(p, Run(p, bs, m), TensorSize(bs, m));
    StepIs(p, bs, m, l);
  }

  // ------------------------------------------------------------------ the theorem

  /** What a wrap says of the position: the next tensor did not fit behind it. */
  lemma WrapMeansFull(p: Params, s: Cursor, size: nat)
    requires p.Valid() && MustWrap(p, s, size)
    ensures s.deviceOffset + s.size + size + p.align > p.buffer
  {
  }

  /** The facts of the finished layout about two successive tensors of which the second wrapped. */
  lemma WrappedFacts(p: Params, bs: seq<Boundary>, m: nat)
    requires p.Valid() && WellFormed(bs) && NoEmptyFile(bs) && Successor(bs, m)
    requires MustWrap(p, Run(p, bs, m), TensorSize(bs, m))
    ensures var i, ts := Before(bs, m), Compute(p, bs).tensors;
            && i + 1 < |ts|
            && p.buffer < ts[i].deviceOffset + ts[i].size + ts[i + 1].size
                          + 2 * p.align + 2 * FIRST_TENSOR_ALIGNMENT + p.page
            && EndsBy(p, Compute(p, bs), ts[i + 1].lastChunk,
                      FIRST_TENSOR_ALIGNMENT + p.page + ts[i + 1].size + p.chunk)
  {
    FarEnough(p, bs, m);
    NearEnough(p, bs, m);
  }

  lemma FarEnough(p: Params, bs: seq<Boundary>, m: nat)
    requires p.Valid() && WellFormed(bs) && NoEmptyFile(bs) && Successor(bs, m)
    requires MustWrap(p, Run(p, bs, m), TensorSize(bs, m))
    ensures var i, ts := Before(bs, m), Compute(p, bs).tensors;
            && i + 1 < |ts| && ts[i + 1].size == TensorSize(bs, m)
            && p.buffer < ts[i].deviceOffset + ts[i].size + ts[i + 1].size
                          + 2 * p.align + 2 * FIRST_TENSOR_ALIGNMENT + p.page
  {
    var i := Before(bs, m);
    BeforeIsLaid(p, bs, m);
    SizeKept(p, bs, m, i);
    SuccessorSize(p, bs, m);
    FullAt(p, Run(p, bs, m), TensorSize(bs, m), i);
  }

  lemma FullAt(p: Params, s: Cursor, size: nat, i: nat)
    requires p.Valid() && i < |s.tensors| && MustWrap(p, s, size) && JustLaid(p, s, s.tensors[i])
    ensures p.buffer < s.tensors[i].deviceOffset + s.tensors[i].size + size + 2 * p.align + 2 * FIRST_TENSOR_ALIGNMENT + p.page
  {
    WrapMeansFull(p, s, size);
  }

  lemma SuccessorSize(p: Params, bs: seq<Boundary>, m: nat)
    requires p.Valid() && WellFormed(bs) && Successor(bs, m)
    ensures var ts := Compute(p, bs).tensors; TensorId(bs, m) < |ts| && ts[TensorId(bs, m)].size == TensorSize(bs, m)
  {
    ComputeSound(p, bs);
    assert Describes(Compute(p, bs).tensors[TensorId(bs, m)], bs, m);
  }

  lemma SizeKept(p: Params, bs: seq<Boundary>, m: nat, i: nat)
    requires p.Valid() && WellFormed(bs) && m < |bs| && i < |Run(p, bs, m).tensors|
    ensures var t, ts := Run(p, bs, m).tensors[i], Compute(p, bs).tensors;
            i < |ts| && ts[i].size == t.size && ts[i].deviceOffset == t.deviceOffset
  {
    RecordKept(p, bs, m, i);
    SizesAlong(p, bs, m, |bs| - 1, i);
  }

  lemma SizesAlong(p: Params, bs: seq<Boundary>, m: nat, n: nat, i: nat)
    requires p.Valid() && WellFormed(bs) && m <= n < |bs| && i < |Run(p, bs, m).tensors|
    ensures i < |Run(p, bs, n).tensors| && Run(p, bs, n).tensors[i].size == Run(p, bs, m).tensors[i].size
  {
    var run := Trajectory(p, bs);
    forall x | m < x <= n && i < |run[x - 1].tensors|
      ensures i < |run[x].tensors| && run[x].tensors[i].size == run[x - 1].tensors[i].size
    {
      SizeStep(p, bs, x, i);
    }
    SizeAlong(run, m, n, i);
  }

  lemma SizeStep(p: Params, bs: seq<Boundary>, n: nat, i: nat)
    requires p.Valid() && WellFormed(bs) && 0 < n < |bs| && i < |Run(p, bs, n - 1).tensors|
    ensures i < |Run(p, bs, n).tensors| && Run(p, bs, n).tensors[i].size == Run(p, bs, n - 1).tensors[i].size
  {
    if IsTensor(bs, n - 1) {
      PlaceTensorRecords(p, Run(p, bs, n - 1), TensorSize(bs, n - 1));
    }
  }

  lemma {:induction false} SizeAlong(run: seq<Cursor>, m: nat, n: nat, i: nat)
    requires m <= n < |run| && i < |run[m].tensors|
    requires forall x {:trigger run[x]} :: m < x <= n && i < |run[x - 1].tensors| ==>
               i < |run[x].tensors| && run[x].tensors[i].size == run[x - 1].tensors[i].size
    ensures i < |run[n].tensors| && run[n].tensors[i].size == run[m].tensors[i].size
    decreases n
  {
    if m < n {
      SizeAlong(run, m, n - 1, i);
    }
  }

  lemma NearEnough(p: Params, bs: seq<Boundary>, m: nat)
    requires p.Valid() && WellFormed(bs) && Successor(bs, m)
    requires MustWrap(p, Run(p, bs, m), TensorSize(bs, m))
    ensures var i, ts := Before(bs, m), Compute(p, bs).tensors;
            && i + 1 < |ts|
            && EndsBy(p, Compute(p, bs), ts[i + 1].lastChunk,
                      FIRST_TENSOR_ALIGNMENT + p.page + ts[i + 1].size + p.chunk)
  {
    var i := Before(bs, m);
    WrappedStart(p, bs, m, m + 1);
    SizeKept(p, bs, m + 1, i + 1);
    ComputeSound(p, bs);
    var r := Compute(p, bs);
    assert Describes(r.tensors[TensorId(bs, m)], bs, m);
    assert Covered(p, r.chunks, r.tensors[i + 1]);
    LastChunkNear(p, r, r.tensors[i + 1]);
  }

  /** In a buffer with room for what a tensor needs, for one chunk and for the paddings, it is read
      in full within the limit of the tensor before it: its loading overlaps that tensor's use. */
  lemma NeedOverlaps(p: Params, bs: seq<Boundary>, m: nat)
    requires p.Valid() && WellFormed(bs) && NoEmptyFile(bs) && Successor(bs, m)
    requires var ts := Compute(p, bs).tensors;
             TensorId(bs, m) < |ts| &&
             Need(Sizes(ts), TensorId(bs, m)) + p.chunk + 3 * (FIRST_TENSOR_ALIGNMENT + p.page + p.align) <= p.buffer
    ensures var i, ts := Before(bs, m), Compute(p, bs).tensors;
            i + 1 < |ts| && ts[i + 1].lastChunk <= ts[i].prefetchChunk
  {
    NextReached(p, bs, m);
    if MustWrap(p, Run(p, bs, m), TensorSize(bs, m)) {
      WrappedStopsShort(p, bs, m, Before(bs, m), Compute(p, bs));
    }
  }

  lemma WrappedStopsShort(p: Params, bs: seq<Boundary>, m: nat, i: nat, r: Cursor)
    requires p.Valid() && WellFormed(bs) && NoEmptyFile(bs) && Successor(bs, m) && i == Before(bs, m)
    requires MustWrap(p, Run(p, bs, m), TensorSize(bs, m)) && r == Compute(p, bs) && i + 1 < |r.tensors|
    requires Need(Sizes(r.tensors), i + 1) + p.chunk + 3 * (FIRST_TENSOR_ALIGNMENT + p.page + p.align) <= p.buffer
    ensures EndsBy(p, r, r.tensors[i + 1].lastChunk, r.tensors[i].deviceOffset)
  {
    WrappedFacts(p, bs, m);
    StopsShort(p, r, i);
  }

  lemma StopsShort(p: Params, r: Cursor, i: nat)
    requires p.Valid() && i + 1 < |r.tensors|
    requires Need(Sizes(r.tensors), i + 1) + p.chunk + 3 * (FIRST_TENSOR_ALIGNMENT + p.page + p.align) <= p.buffer
    requires p.buffer < r.tensors[i].deviceOffset + r.tensors[i].size + r.tensors[i + 1].size
                        + 2 * p.align + 2 * FIRST_TENSOR_ALIGNMENT + p.page
    requires EndsBy(p, r, r.tensors[i + 1].lastChunk, FIRST_TENSOR_ALIGNMENT + p.page + r.tensors[i + 1].size + p.chunk)
    ensures EndsBy(p, r, r.tensors[i + 1].lastChunk, r.tensors[i].deviceOffset)
  {
  }

  /** The same of the buffer that the set-up makes of a buffer size: its padding absorbs the rest. */
  lemma SizedNeedOverlaps(page: nat, world: nat, chunk: nat, depth: nat, buffer: nat, bs: seq<Boundary>, m: nat)
    requires page > 0 && world > 0 && chunk > 0 && WellFormed(bs) && NoEmptyFile(bs) && Successor(bs, m)
    requires var p := InitBuffer(page, world, chunk, depth, buffer);
             p.Valid() &&
             var ts := Compute(p, bs).tensors;
             TensorId(bs, m) < |ts| && Need(Sizes(ts), TensorId(bs, m)) + p.chunk <= buffer
    ensures var i, ts := Before(bs, m), Compute(InitBuffer(page, world, chunk, depth, buffer), bs).tensors;
            i + 1 < |ts| && ts[i + 1].lastChunk <= ts[i].prefetchChunk
  {
    NeedOverlaps(InitBuffer(page, world, chunk, depth, buffer), bs, m);
  }

  // ------------------------------------------------------------------ the chunk is needed

  /** A tensor that fits behind the pending bytes and in their chunk. */
  lemma Beside(p: Params, s: Cursor, size: nat)
    requires p.Valid() && Counters(s) && RoundUp(s.size + size, p.align) == s.size + size <= p.chunk
    requires s.deviceOffset + s.size + size <= p.buffer
    ensures var r, n := PlaceTensor(p, s, size), |s.tensors|;
            && r.chunks == s.chunks && r.deviceOffset == s.deviceOffset && r.size == s.size + size
            && r.tensors[n].deviceOffset == s.deviceOffset + s.size && r.tensors[n].lastChunk == |s.chunks|
  {
  }

  /** A tensor that fits and fills one chunk up. */
  lemma OneCut(p: Params, s: Cursor, size: nat)
    requires p.Valid() && Counters(s) && s.size <= p.chunk < s.size + size <= 2 * p.chunk
    requires RoundUp(s.size + size, p.align) == s.size + size && s.deviceOffset + s.size + size <= p.buffer
    ensures var r, n := PlaceTensor(p, s, size), |s.tensors|;
            && |r.chunks| == |s.chunks| + 1 && r.deviceOffset == s.deviceOffset + p.chunk
            && r.size == s.size + size - p.chunk && r.tensors[n].deviceOffset == s.deviceOffset + s.size
  {
    FullChunkStep(p, s);
    var full := FinishChunk(p, s.(size := p.chunk));
    assert FillChunks(p, s, size) == FillChunks(p, full, size - (p.chunk - s.size));
    assert FillChunks(p, full, size - (p.chunk - s.size)) == (full, size - (p.chunk - s.size));
  }

  /** A tensor of at most a chunk that starts a new lap behind whole pages. */
  lemma NewLap(p: Params, s: Cursor, size: nat)
    requires p.Valid() && Counters(s) && 0 < s.size <= p.chunk && s.size % p.page == 0 && size <= p.chunk
    requires MustWrap(p, s, size)
    ensures var r := PlaceTensor(p, s, size);
            && |r.chunks| == |s.chunks| + 1 && r.deviceOffset == FIRST_TENSOR_ALIGNMENT && r.size == size
            && r.tensors[|s.tensors|].lastChunk == |r.chunks|
  {
    var w := Wrap(p, s);
    assert w.size == 0;
    assert FillChunks(p, w, size) == (w, size);
  }

  /** One rank, one chunk of twelve pages and a buffer of as many. */
  predicate OneChunkDeep(p: Params, page: nat) {
    page > 32 && p == InitBuffer(page, 1, 12 * page, 1, 12 * page)
  }

  /** Tensors of eleven, four, four and eight pages behind a header of one. */
  predicate FourTensors(bs: seq<Boundary>, page: nat) {
    && |bs| == 5 && (forall j :: 0 <= j < 5 ==> bs[j].file == 0)
    && bs[0].offset == page && bs[1].offset == 12 * page && bs[2].offset == 16 * page
    && bs[3].offset == 20 * page && bs[4].offset == 28 * page
  }

  lemma OneChunkDeepIs(p: Params, page: nat)
    requires OneChunkDeep(p, page)
    ensures p == Params(page, page, 12 * page, 18 * page + 48) && p.Valid()
  {
    assert page * 1 == page;
    MultipleIsAligned(12, page);
    RoundUpOfAligned(12 * page, page);
    assert RequiredForIo(page, 12 * page, 1, 1) == 12 * page;
    InitBufferIsValid(page, 1, 12 * page, 1, 12 * page);
  }

  lemma FourTensorsFit(p: Params, bs: seq<Boundary>, page: nat)
    requires OneChunkDeep(p, page) && FourTensors(bs, page)
    ensures WellFormed(bs) && NoEmptyFile(bs)
    ensures IsTensor(bs, 0) && IsTensor(bs, 1) && IsTensor(bs, 2) && IsTensor(bs, 3)
    ensures TensorSize(bs, 0) == 11 * page && TensorSize(bs, 1) == 4 * page
    ensures TensorSize(bs, 2) == 4 * page && TensorSize(bs, 3) == 8 * page
  {
  }

  lemma Whole(p: Params, n: nat)
    requires p.Valid() && p.align == p.page
    ensures (n * p.page) % p.page == 0 && RoundUp(n * p.page, p.align) == n * p.page
  {
    MultipleIsAligned(n, p.page);
    RoundUpOfAligned(n * p.page, p.align);
  }

  /** The layout's states at its boundaries. */
  predicate StateIs(s: Cursor, chunks: nat, deviceOffset: nat, size: nat) {
    |s.chunks| == chunks && s.deviceOffset == deviceOffset && s.size == size
  }

  lemma StartsAt(p: Params, bs: seq<Boundary>)
    requires p.Valid() && WellFormed(bs) && bs[0].offset % p.page == 0
    ensures StateIs(Run(p, bs, 0), 0, FIRST_TENSOR_ALIGNMENT, 0)
  {
    MultipleIsAligned(0, FIRST_TENSOR_ALIGNMENT);
  }

  lemma FirstTwo(p: Params, bs: seq<Boundary>, page: nat, m: nat)
    requires OneChunkDeep(p, page) && FourTensors(bs, page) && p.Valid() && WellFormed(bs) && m == 2
    ensures var s := Run(p, bs, m);
            && StateIs(s, 1, 16 + 12 * page, 3 * page) && |s.tensors| == 2 && s.tensors[1].deviceOffset == 16 + 11 * page
  {
    OneChunkDeepIs(p, page);
    FourTensorsFit(p, bs, page);
    Whole(p, 1);
    Whole(p, 11);
    Whole(p, 15);
    StartsAt(p, bs);
    RunFollowsInput(p, bs, 0);
    Beside(p, Run(p, bs, 0), 11 * page);
    StepIs(p, bs, 0, 1);
    OneCut(p, Run(p, bs, 1), 4 * page);
    StepIs(p, bs, 1, 2);
  }

  lemma LastTwo(p: Params, bs: seq<Boundary>, page: nat, m: nat, n: nat)
    requires OneChunkDeep(p, page) && FourTensors(bs, page) && p.Valid() && WellFormed(bs) && m == 2 && n == 4
    requires StateIs(Run(p, bs, m), 1, 16 + 12 * page, 3 * page)
    ensures MustWrap(p, Run(p, bs, m), 4 * page)
    ensures StateIs(Run(p, bs, n), 2, 16, 12 * page)
  {
    OneChunkDeepIs(p, page);
    FourTensorsFit(p, bs, page);
    Whole(p, 3);
    Whole(p, 7);
    Whole(p, 12);
    NewLap(p, Run(p, bs, m), 4 * page);
    StepIs(p, bs, m, m + 1);
    Beside(p, Run(p, bs, m + 1), 8 * page);
    StepIs(p, bs, m + 1, n);
  }

  /** The third tensor's need is within the buffer, and yet its last chunk, which the fourth fills
      up, is behind the limit of the second: without room for the chunk nothing overlaps. */
  lemma NeedAloneFails(p: Params, bs: seq<Boundary>, page: nat)
    requires OneChunkDeep(p, page) && FourTensors(bs, page)
    ensures p.Valid() && WellFormed(bs) && NoEmptyFile(bs) && Successor(bs, 2) && TensorId(bs, 2) == 2
    ensures var ts := Compute(p, bs).tensors;
            |ts| == 4 && Need(Sizes(ts), 2) == 12 * page && ts[2].lastChunk > ts[1].prefetchChunk
  {
    OneChunkDeepIs(p, page);
    FourTensorsFit(p, bs, page);
    FirstTwo(p, bs, page, 2);
    LastTwo(p, bs, page, 2, 4);
    SizesAre(p, bs, page);
    ThirdTooFar(p, bs, page, 2, 4);
  }

  lemma SizesAre(p: Params, bs: seq<Boundary>, page: nat)
    requires OneChunkDeep(p, page) && FourTensors(bs, page) && p.Valid() && WellFormed(bs)
    ensures TensorId(bs, 1) == 1 && TensorId(bs, 2) == 2
    ensures var ts := Compute(p, bs).tensors; |ts| == 4 && ts[1].size == 4 * page && ts[2].size == 4 * page
  {
    FourTensorsFit(p, bs, page);
    ComputeSound(p, bs);
    assert TensorId(bs, 1) == 1 && TensorId(bs, 2) == 2 && TensorId(bs, 3) == 3 && TensorId(bs, 4) == 4;
    var ts := Compute(p, bs).tensors;
    assert Describes(ts[TensorId(bs, 1)], bs, 1) && Describes(ts[TensorId(bs, 2)], bs, 2);
  }

  lemma ThirdTooFar(p: Params, bs: seq<Boundary>, page: nat, m: nat, n: nat)
    requires OneChunkDeep(p, page) && FourTensors(bs, page) && p.Valid() && WellFormed(bs) && NoEmptyFile(bs)
    requires m == 2 && n == 4 && Successor(bs, m) && Before(bs, m) == 1 && MustWrap(p, Run(p, bs, m), TensorSize(bs, m))
    requires var s := Run(p, bs, m);
             StateIs(s, 1, 16 + 12 * page, 3 * page) && |s.tensors| == 2 && s.tensors[1].deviceOffset == 16 + 11 * page
    requires StateIs(Run(p, bs, n), 2, 16, 12 * page)
    ensures var ts := Compute(p, bs).tensors; |ts| > 2 && ts[2].lastChunk > ts[1].prefetchChunk
  {
    NextReached(p, bs, m);
    RecordKept(p, bs, m, 1);
    ThirdLast(p, bs, page, m, m + 1);
    LastChunkIs(p, bs, n, 2);
  }

  lemma ThirdLast(p: Params, bs: seq<Boundary>, page: nat, m: nat, l: nat)
    requires OneChunkDeep(p, page) && FourTensors(bs, page) && p.Valid() && WellFormed(bs) && m == 2 && l == 3
    requires StateIs(Run(p, bs, m), 1, 16 + 12 * page, 3 * page) && |Run(p, bs, m).tensors| == 2
    requires MustWrap(p, Run(p, bs, m), TensorSize(bs, m))
    ensures var ts := Compute(p, bs).tensors; |ts| > 2 && ts[2].lastChunk == 2
  {
    OneChunkDeepIs(p, page);
    FourTensorsFit(p, bs, page);
    Whole(p, 3);
    NewLap(p, Run(p, bs, m), 4 * page);
    StepIs(p, bs, m, l);
    RecordKept(p, bs, l, 2);
  }

  /** What is pending at the end is the last chunk. */
  lemma LastChunkIs(p: Params, bs: seq<Boundary>, n: nat, k: nat)
    requires p.Valid() && WellFormed(bs) && n == |bs| - 1 && Run(p, bs, n).size > 0 && |Run(p, bs, n).chunks| == k
    ensures var s, r := Run(p, bs, n), Compute(p, bs); |r.chunks| == k + 1 && r.chunks[k] == Pending(s)
  {
  }
}
