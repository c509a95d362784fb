/** Exactly when every chunk of the layout stays inside the device buffer. */
module LayoutExtents {
  import opened Rounding
  import opened Layout
  import opened LayoutInvariant
  import opened LayoutSoundness
  import opened LayoutBounds

  /** At file start `j`: a header that does not end on a page still has room for its padded
      chunk where the layout stands. */
  predicate HeaderFits(p: Params, bs: seq<Boundary>, j: nat)
    requires p.Valid() && WellFormed(bs) && j < |bs|
  {
    0 < j && FileStart(bs, j) && bs[j].offset % p.page != 0 ==> Run(p, bs, j).deviceOffset + p.align <= p.buffer
  }

  ghost predicate Inside(p: Params, cs: seq<Chunk>)
    requires p.Valid()
  {
    forall c {:trigger End(p, cs[c])} :: 0 <= c < |cs| ==> End(p, cs[c]) <= p.buffer
  }

  /** A part of one page is padded to one padding unit. */
  lemma PaddedHeader(p: Params, size: nat)
    requires p.Valid() && 0 < size < p.page
    ensures p.page <= p.align && RoundUp(size, p.align) == p.align
  {
    AlignedUnique(RoundUp(size, p.align), p.align, p.align);
  }

  // ------------------------------------------------------------------ it suffices

  lemma FinishInside(p: Params, s: Cursor)
    requires p.Valid() && Counters(s) && Inside(p, s.chunks)
    requires s.size > 0 ==> End(p, Pending(s)) <= p.buffer
    ensures Inside(p, FinishChunk(p, s).chunks)
  {
    if s.size > 0 {
      assert FinishChunk(p, s).chunks == s.chunks + [Pending(s)];
    }
  }

  lemma {:induction false} FillInside(p: Params, s: Cursor, left: nat)
    requires p.Valid() && Counters(s) && s.size <= p.chunk && Inside(p, s.chunks)
    requires s.deviceOffset + RoundUp(s.size + left, p.align) <= p.buffer
    ensures Inside(p, FillChunks(p, s, left).0.chunks)
    decreases left, s.size
  {
    if s.size + left > p.chunk {
      var g := s.(size := p.chunk);
      var rest := left - (p.chunk - s.size);
      FullChunkStep(p, s);
      RoundUpShift(p.chunk, rest, p.align);
      assert s.size + left == p.chunk + rest;
      FinishInside(p, g);
      FillInside(p, FinishChunk(p, g), rest);
    }
  }

  lemma PlaceInside(p: Params, s: Cursor, size: nat)
    requires p.Valid() && Counters(s) && s.size <= p.chunk && Inside(p, s.chunks)
    requires s.size > 0 ==> End(p, Pending(s)) <= p.buffer
    requires FIRST_TENSOR_ALIGNMENT + p.page + p.align + size <= p.buffer
    ensures Inside(p, PlaceTensor(p, s, size).chunks)
  {
    PageWithinChunk(p);
    if MustWrap(p, s, size) {
      FinishInside(p, s);
      WrappedFits(p, s, size);
      FillInside(p, Wrap(p, s), size);
    } else {
      FillInside(p, s, size);
    }
  }

  /** What is pending before step `n` would fit as a chunk. */
  lemma PendingInside(p: Params, bs: seq<Boundary>, n: nat)
    requires p.Valid() && WellFormed(bs) && Roomy(p, bs) && NoEmptyFile(bs) && n < |bs| - 1
    requires HeaderFits(p, bs, n)
    ensures var s := Run(p, bs, n); s.size > 0 ==> End(p, Pending(s)) <= p.buffer
  {
    RunBounded(p, bs, n);
    var s := Run(p, bs, n);
    if n == 0 {
      assert IsTensor(bs, 0);
      HeaderBounded(p, bs, 0, s);
      if s.size > 0 {
        PaddedHeader(p, s.size);
      }
    } else if !IsTensor(bs, n - 1) && s.size > 0 {
      HeaderSize(p, bs, n);
      PaddedHeader(p, s.size);
    }
  }

  /** At a file start the pending bytes are the last part of a page. */
  lemma HeaderSize(p: Params, bs: seq<Boundary>, n: nat)
    requires p.Valid() && WellFormed(bs) && 0 < n < |bs| && !IsTensor(bs, n - 1)
    ensures Run(p, bs, n).size == bs[n].offset % p.page
  {
  }

  lemma {:induction false} RunInside(p: Params, bs: seq<Boundary>, n: nat)
    requires p.Valid() && WellFormed(bs) && Roomy(p, bs) && NoEmptyFile(bs) && n < |bs|
    requires forall j {:trigger HeaderFits(p, bs, j)} :: 0 <= j < |bs| ==> HeaderFits(p, bs, j)
    ensures Inside(p, Run(p, bs, n).chunks)
  {
    if n > 0 {
      RunInside(p, bs, n - 1);
      var s := Run(p, bs, n - 1);
      assert HeaderFits(p, bs, n - 1);
      PendingInside(p, bs, n - 1);
      if IsTensor(bs, n - 1) {
        PlaceInside(p, s, TensorSize(bs, n - 1));
      } else {
        FinishInside(p, s);
      }
    }
  }

  // ------------------------------------------------------------------ it is needed

  lemma {:induction false} FillKeepsChunks(p: Params, s: Cursor, left: nat)
    requires p.Valid() && Counters(s) && s.size <= p.chunk
    ensures s.chunks <= FillChunks(p, s, left).0.chunks
    decreases left, s.size
  {
    if s.size + left > p.chunk {
      FillKeepsChunks(p, FinishChunk(p, s.(size := p.chunk)), left - (p.chunk - s.size));
    }
  }

  /** Placing a tensor only adds chunks; after a wrap the pending bytes are one of them. */
  lemma PlaceKeepsChunks(p: Params, s: Cursor, size: nat)
    requires p.Valid() && Counters(s) && s.size <= p.chunk
    ensures s.chunks <= PlaceTensor(p, s, size).chunks
    ensures MustWrap(p, s, size) && s.size > 0 ==> s.chunks + [Pending(s)] <= PlaceTensor(p, s, size).chunks
  {
    FillKeepsChunks(p, WrapIfNeeded(p, s, size), size);
  }

  lemma RunKeepsChunks(p: Params, bs: seq<Boundary>, m: nat, n: nat)
    requires p.Valid() && WellFormed(bs) && m <= n < |bs|
    ensures Run(p, bs, m).chunks <= Run(p, bs, n).chunks
  {
    var run := Trajectory(p, bs);
    forall k | m < k <= n ensures run[k - 1].chunks <= run[k].chunks {
      StepKeepsChunks(p, bs, k);
    }
    ChunksAlong(run, m, n);
  }

  lemma {:induction false} ChunksAlong(run: seq<Cursor>, m: nat, n: nat)
    requires m <= n < |run|
    requires forall k {:trigger run[k]} :: m < k <= n ==> run[k - 1].chunks <= run[k].chunks
    ensures run[m].chunks <= run[n].chunks
    decreases n
  {
    if m < n {
      ChunksAlong(run, m, n - 1);
    }
  }

  lemma StepKeepsChunks(p: Params, bs: seq<Boundary>, n: nat)
    requires p.Valid() && WellFormed(bs) && 0 < n < |bs|
    ensures Run(p, bs, n - 1).chunks <= Run(p, bs, n).chunks
  {
    if IsTensor(bs, n - 1) {
      PlaceKeepsChunks(p, Run(p, bs, n - 1), TensorSize(bs, n - 1));
    }
  }

  lemma FinalChunks(p: Params, bs: seq<Boundary>, m: nat)
    requires p.Valid() && WellFormed(bs) && m < |bs|
    ensures Compute(p, bs).chunks == FinishChunk(p, Run(p, bs, |bs| - 1)).chunks
    ensures Run(p, bs, m).chunks <= Compute(p, bs).chunks
  {
    RunKeepsChunks(p, bs, m, |bs| - 1);
  }

  /** A header without room is pushed past the end when its file's first tensor wraps. */
  lemma HeaderEscapes(p: Params, bs: seq<Boundary>, j: nat)
    requires p.Valid() && WellFormed(bs) && Roomy(p, bs) && NoEmptyFile(bs) && j < |bs|
    requires !HeaderFits(p, bs, j)
    ensures !Inside(p, Compute(p, bs).chunks)
  {
    assert !IsTensor(bs, j - 1);
    assert j + 1 < |bs| && IsTensor(bs, j);
    HeaderSize(p, bs, j);
    var s := Run(p, bs, j);
    HeaderPushed(p, s, TensorSize(bs, j));
    FinalChunks(p, bs, j + 1);
    NotInside(p, s.chunks + [Pending(s)], Compute(p, bs).chunks);
  }

  lemma HeaderPushed(p: Params, s: Cursor, size: nat)
    requires p.Valid() && Counters(s) && s.size <= p.chunk && 0 < s.size < p.page
    requires s.deviceOffset + p.align > p.buffer
    ensures End(p, Pending(s)) > p.buffer
    ensures s.chunks + [Pending(s)] <= PlaceTensor(p, s, size).chunks
  {
    PaddedHeader(p, s.size);
    RoundUpMonotone(s.size, s.size + size, p.align);
    PlaceKeepsChunks(p, s, size);
  }

  lemma NotInside(p: Params, cs: seq<Chunk>, ds: seq<Chunk>)
    requires p.Valid() && cs != [] && cs <= ds && End(p, cs[|cs| - 1]) > p.buffer
    ensures !Inside(p, ds)
  {
    assert ds[|cs| - 1] == cs[|cs| - 1];
    assert End(p, ds[|cs| - 1]) > p.buffer;
  }

  // ------------------------------------------------------------------ the theorem

  /** Every chunk, padding included, lies inside the buffer if and only if every file header
      that does not end on a page finds room for one padding unit where it is put. */
  lemma ChunksStayInside(p: Params, bs: seq<Boundary>)
    requires p.Valid() && WellFormed(bs) && Roomy(p, bs) && NoEmptyFile(bs)
    ensures Inside(p, Compute(p, bs).chunks)
       <==> forall j {:trigger HeaderFits(p, bs, j)} :: 0 <= j < |bs| ==> HeaderFits(p, bs, j)
  {
    if forall j {:trigger HeaderFits(p, bs, j)} :: 0 <= j < |bs| ==> HeaderFits(p, bs, j) {
      var n := |bs| - 1;
      RunInside(p, bs, n);
      RunBounded(p, bs, n);
      LastIsTensor(bs);
      FinishInside(p, Run(p, bs, n));
      FinalChunks(p, bs, n);
    } else {
      var j :| 0 <= j < |bs| && !HeaderFits(p, bs, j);
      HeaderEscapes(p, bs, j);
    }
  }

  lemma LastIsTensor(bs: seq<Boundary>)
    requires NoEmptyFile(bs)
    ensures |bs| > 1 && IsTensor(bs, |bs| - 2)
  {
    var i := |bs| - 2;
    assert !IsTensor(bs, i) ==> i + 2 < |bs|;
  }

  /** So with page-aligned first tensors in the later files nothing leaves the buffer. */
  lemma AlignedFilesStayInside(p: Params, bs: seq<Boundary>)
    requires p.Valid() && WellFormed(bs) && Roomy(p, bs) && NoEmptyFile(bs)
    requires forall j :: 0 < j < |bs| && FileStart(bs, j) ==> bs[j].offset % p.page == 0
    ensures Inside(p, Compute(p, bs).chunks)
  {
    ChunksStayInside(p, bs);
  }
}
