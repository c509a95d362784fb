/** Where the layout stays inside the device buffer, where it does not, and how tensors
    are aligned for their element type. */
module LayoutBounds {
  import opened Rounding
  import opened Layout
  import opened LayoutInvariant
  import opened LayoutSoundness

  // --------------------------------------------------------------------- bounds

  /** Every tensor leaves one alignment unit, one page and one padding unit of the padded
      buffer. `init_buffer` pads by three times that, so it holds whenever no tensor is
      larger than the buffer size asked for. */
  predicate Roomy(p: Params, bs: seq<Boundary>)
    requires WellFormed(bs)
  {
    forall i :: 0 <= i < |bs| - 1 && IsTensor(bs, i) ==>
      FIRST_TENSOR_ALIGNMENT + p.page + p.align + TensorSize(bs, i) <= p.buffer
  }

  /** The front end sends no file without tensors. */
  predicate NoEmptyFile(bs: seq<Boundary>) {
    && |bs| > 1 && IsTensor(bs, 0)
    && forall i :: 0 <= i < |bs| - 1 && !IsTensor(bs, i) ==> i + 2 < |bs| && IsTensor(bs, i + 1)
  }

  predicate FileStart(bs: seq<Boundary>, j: int)
    requires |bs| > 0
  {
    0 <= j < |bs| && (j == 0 || bs[j - 1].file != bs[j].file)
  }

  /** The chunk ends where the first tensor of file number `bs[j].file` begins. */
  ghost predicate HeaderBefore(bs: seq<Boundary>, j: int, c: Chunk)
    requires |bs| > 0
  {
    && FileStart(bs, j) && 0 < j
    && c.file == bs[j].file && c.fileOffset + c.size == bs[j].offset
  }

  ghost predicate HeaderOnly(p: Params, bs: seq<Boundary>, c: Chunk)
    requires |bs| > 0
  {
    c.size < p.page && exists j :: HeaderBefore(bs, j, c)
  }

  ghost predicate ChunkBounded(p: Params, bs: seq<Boundary>, c: Chunk)
    requires p.Valid() && |bs| > 0
  {
    || End(p, c) <= p.buffer
    || (HeaderOnly(p, bs, c) && End(p, c) < p.buffer + 2 * FIRST_TENSOR_ALIGNMENT + p.align)
  }

  ghost predicate AllBounded(p: Params, bs: seq<Boundary>, s: Cursor)
    requires p.Valid() && |bs| > 0
  {
    && (forall c {:trigger ChunkBounded(p, bs, s.chunks[c])} ::
          0 <= c < |s.chunks| ==> ChunkBounded(p, bs, s.chunks[c]))
    && (forall i :: 0 <= i < |s.tensors| ==> s.tensors[i].deviceOffset + s.tensors[i].size <= p.buffer)
  }

  /** The pending chunk, padded, fits. */
  predicate PendingFits(p: Params, s: Cursor)
    requires p.Valid()
  {
    s.size <= p.chunk && s.deviceOffset + RoundUp(s.size, p.align) <= p.buffer
  }

  /** Between a file's start and its first tensor: only header bytes are pending. */
  predicate AtFileStart(p: Params, bs: seq<Boundary>, n: nat, s: Cursor)
    requires p.Valid() && n < |bs|
  {
    && FileStart(bs, n) && s.size < p.page
    && s.file == bs[n].file && s.fileOffset + s.size == bs[n].offset
    && if n == 0 then s.deviceOffset <= FIRST_TENSOR_ALIGNMENT
       else s.deviceOffset < p.buffer + 2 * FIRST_TENSOR_ALIGNMENT
  }

  lemma FinishBounded(p: Params, bs: seq<Boundary>, s: Cursor)
    requires p.Valid() && |bs| > 0 && Counters(s) && AllBounded(p, bs, s)
    requires s.size > 0 ==> ChunkBounded(p, bs, Pending(s))
    ensures AllBounded(p, bs, FinishChunk(p, s))
  {
    var r := FinishChunk(p, s);
    if s.size > 0 {
      assert r.chunks == s.chunks + [Pending(s)];
    }
  }

  lemma {:induction false} FillBounded(p: Params, bs: seq<Boundary>, s: Cursor, left: nat)
    requires p.Valid() && |bs| > 0 && Counters(s) && s.size <= p.chunk && AllBounded(p, bs, s)
    requires s.deviceOffset + RoundUp(s.size + left, p.align) <= p.buffer
    ensures var (f, l) := FillChunks(p, s, left);
            && AllBounded(p, bs, f)
            && f.deviceOffset + RoundUp(f.size + l, p.align) <= p.buffer
    decreases left, s.size
  {
    if s.size + left > p.chunk {
      var g := s.(size := p.chunk);
      var rest := left - (p.chunk - s.size);
      FullChunkStep(p, s);
      RoundUpShift(p.chunk, rest, p.align);
      assert s.size + left == p.chunk + rest;
      FinishBounded(p, bs, g);
      FillBounded(p, bs, FinishChunk(p, g), rest);
    }
  }

  lemma LayBounded(p: Params, bs: seq<Boundary>, w: Cursor, size: nat)
    requires p.Valid() && |bs| > 0 && Counters(w) && w.size <= p.chunk && AllBounded(p, bs, w)
    requires !MustWrap(p, w, size)
    ensures AllBounded(p, bs, Lay(p, w, size)) && PendingFits(p, Lay(p, w, size))
  {
    FillBounded(p, bs, w, size);
  }

  /** After a wrap any roomy tensor fits. */
  lemma WrappedFits(p: Params, s: Cursor, size: nat)
    requires p.Valid() && Counters(s)
    requires FIRST_TENSOR_ALIGNMENT + p.page + p.align + size <= p.buffer
    ensures !MustWrap(p, Wrap(p, s), size)
  {
  }

  lemma PlaceBounded(p: Params, bs: seq<Boundary>, s: Cursor, size: nat)
    requires p.Valid() && |bs| > 0 && Counters(s) && s.size <= p.chunk && AllBounded(p, bs, s)
    requires s.size > 0 ==> ChunkBounded(p, bs, Pending(s))
    requires FIRST_TENSOR_ALIGNMENT + p.page + p.align + size <= p.buffer
    ensures AllBounded(p, bs, PlaceTensor(p, s, size)) && PendingFits(p, PlaceTensor(p, s, size))
  {
    PageWithinChunk(p);
    if MustWrap(p, s, size) {
      FinishBounded(p, bs, s);
      WrappedFits(p, s, size);
      var f, w := FinishChunk(p, s), Wrap(p, s);
      assert forall i :: 0 <= i < |w.tensors| ==>
               w.tensors[i].deviceOffset == f.tensors[i].deviceOffset && w.tensors[i].size == f.tensors[i].size;
      assert AllBounded(p, bs, w);
      LayBounded(p, bs, w, size);
    } else {
      LayBounded(p, bs, s, size);
    }
  }

  /** The bytes pending at a file's start are bounded, wherever they stand. */
  lemma HeaderBounded(p: Params, bs: seq<Boundary>, n: nat, s: Cursor)
    requires p.Valid() && WellFormed(bs) && n < |bs| - 1 && IsTensor(bs, n) && Roomy(p, bs)
    requires AtFileStart(p, bs, n, s)
    ensures s.size > 0 ==> ChunkBounded(p, bs, Pending(s))
  {
    assert p.page <= p.align;
    RoundUpMonotone(s.size, p.align, p.align);
    RoundUpOfAligned(p.align, p.align);
    if n > 0 {
      assert HeaderBefore(bs, n, Pending(s));
    }
  }

  lemma {:induction false} RunBounded(p: Params, bs: seq<Boundary>, n: nat)
    requires p.Valid() && WellFormed(bs) && n < |bs| && Roomy(p, bs) && NoEmptyFile(bs)
    ensures var s := Run(p, bs, n);
            && AllBounded(p, bs, s)
            && if n == 0 || !IsTensor(bs, n - 1) then AtFileStart(p, bs, n, s) else PendingFits(p, s)
  {
    if n > 0 {
      RunBounded(p, bs, n - 1);
      RunFollowsInput(p, bs, n);
      var s := Run(p, bs, n - 1);
      if IsTensor(bs, n - 1) {
        if n == 1 || !IsTensor(bs, n - 2) {
          HeaderBounded(p, bs, n - 1, s);
        }
        PlaceBounded(p, bs, s, TensorSize(bs, n - 1));
      } else {
        FinishBounded(p, bs, s);
      }
    }
  }

  /** Every tensor, and every chunk that carries tensor bytes, lies inside the buffer with
      its padding; a chunk that does not is a header remainder of a later file, and exceeds
      it by less than `2 * 16 + align`. */
  lemma ComputeBounded(p: Params, bs: seq<Boundary>)
    requires p.Valid() && WellFormed(bs) && Roomy(p, bs) && NoEmptyFile(bs)
    ensures AllBounded(p, bs, Compute(p, bs))
  {
    var n := |bs| - 1;
    RunBounded(p, bs, n);
    var s := Run(p, bs, n);
    FinishBounded(p, bs, s);
    var f, r := FinishChunk(p, s), Finalize(p, s);
    assert forall i :: 0 <= i < |r.tensors| ==>
             r.tensors[i].deviceOffset == f.tensors[i].deviceOffset && r.tensors[i].size == f.tensors[i].size;
  }

  /** A header-only chunk carries no byte of any tensor. */
  lemma HeaderCarriesNothing(p: Params, bs: seq<Boundary>, c: Chunk, i: nat, k: nat)
    requires p.Valid() && WellFormed(bs) && HeaderOnly(p, bs, c)
    requires i < |bs| - 1 && IsTensor(bs, i) && k < TensorSize(bs, i)
    ensures c.file == bs[i].file ==> c.fileOffset + c.size <= bs[i].offset + k
  {
    var j :| HeaderBefore(bs, j, c);
    if bs[i].file == bs[j].file {
      FilesInOrder(bs, j, i);
    }
  }

  /** Within one file's stretch the offsets rise, and the stretch begins at its start. */
  lemma {:induction false} FilesInOrder(bs: seq<Boundary>, j: nat, i: nat)
    requires WellFormed(bs) && i < |bs| && FileStart(bs, j) && bs[i].file == bs[j].file
    ensures j <= i && bs[j].offset <= bs[i].offset
  {
    assert 0 < j ==> FollowsOn(bs[j - 1], bs[j]);
    if i < j {
      FilesRise(bs, i, j - 1);
      assert false;
    }
    if j < i {
      FilesRise(bs, j, i - 1);
      assert FollowsOn(bs[i - 1], bs[i]);
      FilesInOrder(bs, j, i - 1);
    }
  }

  lemma {:induction false} FilesRise(bs: seq<Boundary>, i: nat, j: nat)
    requires WellFormed(bs) && i <= j < |bs|
    ensures bs[i].file <= bs[j].file
  {
    if i < j {
      FilesRise(bs, i, j - 1);
      assert FollowsOn(bs[j - 1], bs[j]);
    }
  }

  // ------------------------------------------------------------------ dtype alignment

  /** Element sizes as safetensors files order them: each divides 16 and its tensor's size,
      and within a file each divides the one before. */
  predicate ElementSizes(bs: seq<Boundary>, es: seq<nat>)
    requires WellFormed(bs)
  {
    && |es| == |bs| - 1
    && (forall i :: 0 <= i < |es| ==> es[i] > 0 && FIRST_TENSOR_ALIGNMENT % es[i] == 0)
    && (forall i :: 0 <= i < |es| && IsTensor(bs, i) ==> TensorSize(bs, i) % es[i] == 0)
    && (forall i :: 0 <= i < |es| - 1 && IsTensor(bs, i) && IsTensor(bs, i + 1) ==> es[i] % es[i + 1] == 0)
  }

  lemma AlignedTransitive(x: nat, a: nat, b: nat)
    requires a > 0 && b > 0 && x % a == 0 && a % b == 0
    ensures x % b == 0
  {
    AlignedQuotient(a, b);
    AlignedToFactor(x, b, a / b);
  }

  /** Filling moves the device position by exactly the bytes laid. */
  lemma {:induction false} FillAdvances(p: Params, s: Cursor, left: nat)
    requires p.Valid() && Counters(s) && s.size <= p.chunk
    ensures var (f, l) := FillChunks(p, s, left);
            f.deviceOffset + f.size + l == s.deviceOffset + s.size + left
    decreases left, s.size
  {
    if s.size + left > p.chunk {
      FullChunkStep(p, s);
      FillAdvances(p, FinishChunk(p, s.(size := p.chunk)), left - (p.chunk - s.size));
    }
  }

  /** The tensor lands at the device position, aligned afresh if the layout wrapped. */
  lemma PlacedAt(p: Params, s: Cursor, size: nat)
    requires p.Valid() && Counters(s) && s.size <= p.chunk
    ensures var r, n := PlaceTensor(p, s, size), |s.tensors|;
            && r.deviceOffset + r.size == r.tensors[n].deviceOffset + size
            && if MustWrap(p, s, size) then r.tensors[n].deviceOffset % FIRST_TENSOR_ALIGNMENT == 0
               else r.tensors[n].deviceOffset == s.deviceOffset + s.size
  {
    var w := WrapIfNeeded(p, s, size);
    FillAdvances(p, w, size);
    WrapAligns(p, s);
  }

  /** A new lap puts the byte after the pending ones on a multiple of 16. */
  lemma WrapAligns(p: Params, s: Cursor)
    requires p.Valid() && Counters(s)
    ensures (Wrap(p, s).deviceOffset + Wrap(p, s).size) % FIRST_TENSOR_ALIGNMENT == 0
  {
  }

  /** The next tensor would start on a multiple of its element size. */
  ghost predicate PositionAligned(bs: seq<Boundary>, es: seq<nat>, n: nat, s: Cursor)
    requires WellFormed(bs) && ElementSizes(bs, es) && n < |bs|
  {
    n < |bs| - 1 && IsTensor(bs, n) ==> (s.deviceOffset + s.size) % es[n] == 0
  }

  ghost predicate TableAligned(bs: seq<Boundary>, es: seq<nat>, n: nat, s: Cursor)
    requires WellFormed(bs) && ElementSizes(bs, es) && n < |bs|
  {
    forall i :: 0 <= i < n && IsTensor(bs, i) ==>
      TensorId(bs, i) < |s.tensors| && s.tensors[TensorId(bs, i)].deviceOffset % es[i] == 0
  }

  lemma {:induction false} RunAligned(p: Params, bs: seq<Boundary>, es: seq<nat>, n: nat)
    requires p.Valid() && WellFormed(bs) && n < |bs| && ElementSizes(bs, es)
    ensures PositionAligned(bs, es, n, Run(p, bs, n)) && TableAligned(bs, es, n, Run(p, bs, n))
  {
    if n == 0 {
      FreshPositionAligned(bs, es, 0, Start(p, bs[0]));
    } else {
      RunAligned(p, bs, es, n - 1);
      RunFollowsInput(p, bs, n - 1);
      if IsTensor(bs, n - 1) {
        PlaceAligned(p, bs, es, n, Run(p, bs, n - 1));
      } else {
        NextFileAligned(p, bs, es, n, Run(p, bs, n - 1));
      }
    }
  }

  lemma FreshPositionAligned(bs: seq<Boundary>, es: seq<nat>, n: nat, s: Cursor)
    requires WellFormed(bs) && n < |bs| && ElementSizes(bs, es)
    requires (s.deviceOffset + s.size) % FIRST_TENSOR_ALIGNMENT == 0
    ensures PositionAligned(bs, es, n, s)
  {
    if n < |bs| - 1 {
      AlignedTransitive(s.deviceOffset + s.size, FIRST_TENSOR_ALIGNMENT, es[n]);
    }
  }

  lemma NextFileAligned(p: Params, bs: seq<Boundary>, es: seq<nat>, n: nat, s: Cursor)
    requires p.Valid() && WellFormed(bs) && 0 < n < |bs| && ElementSizes(bs, es)
    requires Counters(s) && !IsTensor(bs, n - 1) && TableAligned(bs, es, n - 1, s)
    ensures var r := NextFile(p, s, bs[n]);
            PositionAligned(bs, es, n, r) && TableAligned(bs, es, n, r)
  {
    FreshPositionAligned(bs, es, n, NextFile(p, s, bs[n]));
  }

  lemma PlaceAligned(p: Params, bs: seq<Boundary>, es: seq<nat>, n: nat, s: Cursor)
    requires p.Valid() && WellFormed(bs) && 0 < n < |bs| && ElementSizes(bs, es)
    requires Counters(s) && s.size <= p.chunk && IsTensor(bs, n - 1)
    requires |s.tensors| == TensorId(bs, n - 1)
    requires PositionAligned(bs, es, n - 1, s) && TableAligned(bs, es, n - 1, s)
    ensures var r := PlaceTensor(p, s, TensorSize(bs, n - 1));
            PositionAligned(bs, es, n, r) && TableAligned(bs, es, n, r)
  {
    var size := TensorSize(bs, n - 1);
    var r := PlaceTensor(p, s, size);
    var at := r.tensors[|s.tensors|].deviceOffset;
    PlacedAt(p, s, size);
    PlaceTensorRecords(p, s, size);
    if MustWrap(p, s, size) {
      AlignedTransitive(at, FIRST_TENSOR_ALIGNMENT, es[n - 1]);
    }
    AlignedSum(at, size, es[n - 1]);
    if n < |bs| - 1 && IsTensor(bs, n) {
      AlignedTransitive(at + size, es[n - 1], es[n]);
    }
    TableStaysAligned(bs, es, n, s, r);
  }

  lemma TableStaysAligned(bs: seq<Boundary>, es: seq<nat>, n: nat, s: Cursor, r: Cursor)
    requires WellFormed(bs) && 0 < n < |bs| && ElementSizes(bs, es) && IsTensor(bs, n - 1)
    requires TableAligned(bs, es, n - 1, s) && SameTensors(s.tensors, r.tensors)
    requires |s.tensors| == TensorId(bs, n - 1) < |r.tensors|
    requires r.tensors[|s.tensors|].deviceOffset % es[n - 1] == 0
    ensures TableAligned(bs, es, n, r)
  {
    forall i | 0 <= i < n && IsTensor(bs, i)
      ensures TensorId(bs, i) < |r.tensors| && r.tensors[TensorId(bs, i)].deviceOffset % es[i] == 0
    {
      if i < n - 1 {
        var k := TensorId(bs, i);
        assert s.tensors[k].(prefetchChunk := 0) == r.tensors[k].(prefetchChunk := 0);
      }
    }
  }

  /** Every tensor's device offset is a multiple of its element size, after any number of
      laps and files. */
  lemma TensorsAligned(p: Params, bs: seq<Boundary>, es: seq<nat>, i: nat)
    requires p.Valid() && WellFormed(bs) && ElementSizes(bs, es)
    requires i < |bs| - 1 && IsTensor(bs, i)
    ensures TensorId(bs, i) < |Compute(p, bs).tensors|
    ensures Compute(p, bs).tensors[TensorId(bs, i)].deviceOffset % es[i] == 0
  {
    RunAligned(p, bs, es, |bs| - 1);
    FinalizeKeepsOffset(p, Run(p, bs, |bs| - 1), TensorId(bs, i));
  }

  lemma FinalizeKeepsOffset(p: Params, s: Cursor, k: nat)
    requires p.Valid() && Counters(s) && k < |s.tensors|
    ensures Finalize(p, s).tensors[k].deviceOffset == s.tensors[k].deviceOffset
  {
  }
}
