/** `Loader::compute_layout` as it runs: lambdas over captured cursors that push onto the
    chunk and tensor vectors in loops. Each method is tied to its function in Layout. */
module LayoutBuilding {
  import opened Rounding
  import opened Layout
  import opened LayoutSoundness

  datatype Outcome = Done | TensorLargerThanBuffer(boundary: nat)

  class LayoutBuilder {
    const p: Params
    var chunks: seq<Chunk>
    var tensors: seq<Tensor>
    var chunkFile: nat
    var chunkFileOffset: nat
    var chunkDeviceOffset: nat
    var currentSize: nat
    var tensorId: nat
    var inBufferId: nat
    var leftMostId: nat

    /** The cursors and the tensors filled in so far. */
    function View(): Cursor
      requires tensorId <= |tensors|
      reads this
    {
      Cursor(chunks, tensors[..tensorId], chunkFile, chunkFileOffset, chunkDeviceOffset, currentSize,
             inBufferId, leftMostId)
    }

    ghost predicate Valid()
      reads this
    {
      && p.Valid()
      && tensorId <= |tensors|
      && inBufferId <= leftMostId <= tensorId
    }

    constructor (p: Params)
      requires p.Valid()
      ensures this.p == p && Valid()
    {
      this.p := p;
      chunks, tensors := [], [];
      chunkFile, chunkFileOffset, chunkDeviceOffset, currentSize := 0, 0, 0, 0;
      tensorId, inBufferId, leftMostId := 0, 0, 0;
    }

    /** The retiring loop of `finish_chunk`. */
    method RetireOverwritten(chunkId: int)
      requires Valid()
      modifies `tensors, `inBufferId
      ensures Valid() && |tensors| == old(|tensors|)
      ensures (tensors[..tensorId], inBufferId)
           == RetireLeftOf(old(tensors[..tensorId]), old(inBufferId), leftMostId, chunkDeviceOffset, chunkId)
    {
      ghost var ts, from := tensors[..tensorId], inBufferId;
      while inBufferId < leftMostId && tensors[inBufferId].deviceOffset < chunkDeviceOffset
        invariant from <= inBufferId <= leftMostId <= tensorId <= |tensors| == old(|tensors|)
        invariant RetireLeftOf(tensors[..tensorId], inBufferId, leftMostId, chunkDeviceOffset, chunkId)
               == RetireLeftOf(ts, from, leftMostId, chunkDeviceOffset, chunkId)
        decreases leftMostId - inBufferId
      {
        ghost var before := tensors[..tensorId];
        tensors := tensors[inBufferId := tensors[inBufferId].(prefetchChunk := chunkId)];
        assert tensors[..tensorId] == before[inBufferId := before[inBufferId].(prefetchChunk := chunkId)];
        inBufferId := inBufferId + 1;
      }
    }

    /** The retiring loop of `reset_chunk_buffer_offset`. */
    method RetirePreviousLap(chunkId: int)
      requires Valid()
      modifies `tensors, `inBufferId
      ensures Valid() && |tensors| == old(|tensors|) && inBufferId == leftMostId
      ensures tensors[..tensorId] == RetireAll(old(tensors[..tensorId]), old(inBufferId), leftMostId, chunkId)
    {
      ghost var ts, from := tensors[..tensorId], inBufferId;
      while inBufferId < leftMostId
        invariant from <= inBufferId <= leftMostId <= tensorId <= |tensors| == old(|tensors|)
        invariant RetireAll(tensors[..tensorId], inBufferId, leftMostId, chunkId)
               == RetireAll(ts, from, leftMostId, chunkId)
      {
        ghost var before := tensors[..tensorId];
        tensors := tensors[inBufferId := tensors[inBufferId].(prefetchChunk := chunkId)];
        assert tensors[..tensorId] == before[inBufferId := before[inBufferId].(prefetchChunk := chunkId)];
        inBufferId := inBufferId + 1;
      }
    }

    /** `finish_chunk`. The alignment error inside it needs a misaligned file offset. */
    method FinishChunk()
      requires Valid() && chunkFileOffset % p.page == 0
      modifies this
      ensures Valid() && View() == Layout.FinishChunk(p, old(View()))
      ensures |tensors| == old(|tensors|) && tensorId == old(tensorId)
      ensures chunkFileOffset % p.page == 0
    {
      if currentSize > 0 {
        chunks := chunks + [Chunk(currentSize, chunkFile, chunkFileOffset, chunkDeviceOffset)];
        if chunkFileOffset % p.page != 0 {
          assert false;
        }
        AlignedSum(chunkFileOffset, RoundDown(currentSize, p.page), p.page);
        chunkFileOffset := chunkFileOffset + RoundDown(currentSize, p.page);
        chunkDeviceOffset := chunkDeviceOffset + RoundUp(currentSize, p.align);
        currentSize := currentSize % p.page;
        RetireOverwritten(|chunks| - 2);
      }
    }

    /** `reset_chunk_buffer_offset`. */
    method ResetBufferOffset(newLeftMostId: nat)
      requires Valid() && leftMostId <= newLeftMostId <= tensorId && currentSize < p.page
      modifies this
      ensures Valid() && View() == Layout.ResetBufferOffset(p, old(View()), newLeftMostId)
      ensures |tensors| == old(|tensors|) && tensorId == old(tensorId) && chunkFileOffset == old(chunkFileOffset)
    {
      RetirePreviousLap(|chunks| - 1);
      chunkDeviceOffset := FIRST_TENSOR_ALIGNMENT - currentSize % FIRST_TENSOR_ALIGNMENT;
      leftMostId := newLeftMostId;
    }

    /** `reset_chunk_file`. */
    method ResetFile(file: nat, offset: nat)
      requires Valid() && currentSize < p.page
      modifies this
      ensures Valid() && View() == Layout.ResetFile(p, old(View()), file, offset)
      ensures tensors == old(tensors) && tensorId == old(tensorId)
      ensures chunkFileOffset % p.page == 0
    {
      chunkFile := file;
      chunkFileOffset := RoundDown(offset, p.page);
      currentSize := offset % p.page;
      chunkDeviceOffset := RoundUp(chunkDeviceOffset, FIRST_TENSOR_ALIGNMENT)
                         + FIRST_TENSOR_ALIGNMENT - currentSize % FIRST_TENSOR_ALIGNMENT;
    }

    /** The loop that cuts full chunks off a tensor of `size` bytes. */
    method CutFullChunks(size: nat) returns (left: nat)
      requires Valid() && currentSize <= p.chunk && chunkFileOffset % p.page == 0
      modifies this
      ensures Valid() && (View(), left) == FillChunks(p, old(View()), size)
      ensures |tensors| == old(|tensors|) && tensorId == old(tensorId)
      ensures chunkFileOffset % p.page == 0
    {
      left := size;
      while currentSize + left > p.chunk
        invariant Valid() && tensorId == old(tensorId) && |tensors| == old(|tensors|)
        invariant currentSize <= p.chunk && chunkFileOffset % p.page == 0
        invariant FillChunks(p, View(), left) == FillChunks(p, old(View()), size)
        decreases left, currentSize
      {
        ghost var s := View();
        var add := p.chunk - currentSize;
        currentSize := currentSize + add;
        left := left - add;
        assert View() == s.(size := p.chunk);
        FinishChunk();
      }
    }

    /** Starts a new lap when the next `size` bytes do not fit. */
    method WrapIfNeeded(size: nat)
      requires Valid() && currentSize <= p.chunk && chunkFileOffset % p.page == 0
      modifies this
      ensures Valid() && View() == Layout.WrapIfNeeded(p, old(View()), size)
      ensures |tensors| == old(|tensors|) && tensorId == old(tensorId)
      ensures chunkFileOffset % p.page == 0
    {
      if chunkDeviceOffset + RoundUp(currentSize + size, p.align) > p.buffer {
        FinishChunk();
        ResetBufferOffset(tensorId);
      }
    }

    /** Lays the next tensor down and records it. */
    method Lay(size: nat)
      requires Valid() && tensorId < |tensors|
      requires currentSize <= p.chunk && chunkFileOffset % p.page == 0
      modifies this
      ensures Valid() && View() == Layout.Lay(p, old(View()), size)
      ensures |tensors| == old(|tensors|) && tensorId == old(tensorId) + 1
      ensures chunkFileOffset % p.page == 0
    {
      var file, fileOffset := chunkFile, chunkFileOffset + currentSize;
      var deviceOffset := fileOffset - chunkFileOffset + chunkDeviceOffset;
      var left := CutFullChunks(size);
      Record(left, Tensor(size, file, fileOffset, deviceOffset, |chunks|, 0));
    }

    method Record(left: nat, t: Tensor)
      requires Valid() && tensorId < |tensors|
      modifies `currentSize, `tensors, `tensorId
      ensures Valid()
      ensures View() == old(View()).(size := old(currentSize) + left, tensors := old(tensors[..tensorId]) + [t])
      ensures |tensors| == old(|tensors|) && tensorId == old(tensorId) + 1
    {
      currentSize := currentSize + left;
      tensors := tensors[tensorId := t];
      tensorId := tensorId + 1;
      assert tensors[..tensorId] == old(tensors[..tensorId]) + [t];
    }

    /** One pass through the main loop's body, between boundaries `i` and `i + 1`. */
    method Step(bs: seq<Boundary>, i: nat) returns (fits: bool)
      requires Valid() && WellFormed(bs) && i < |bs| - 1
      requires IsTensor(bs, i) ==> tensorId < |tensors|
      requires View() == Run(p, bs, i) && chunkFileOffset % p.page == 0
      modifies this
      ensures fits <==> (IsTensor(bs, i) ==> TensorSize(bs, i) <= p.buffer)
      ensures fits ==> Valid() && View() == Run(p, bs, i + 1) && chunkFileOffset % p.page == 0
      ensures fits ==> |tensors| == old(|tensors|)
    {
      if bs[i].file != bs[i + 1].file {
        OpenFile(bs[i + 1]);
        fits := true;
      } else {
        fits := StepTensor(bs, i);
      }
    }

    method StepTensor(bs: seq<Boundary>, i: nat) returns (fits: bool)
      requires Valid() && WellFormed(bs) && i < |bs| - 1 && IsTensor(bs, i) && tensorId < |tensors|
      requires View() == Run(p, bs, i) && chunkFileOffset % p.page == 0
      modifies this
      ensures fits <==> TensorSize(bs, i) <= p.buffer
      ensures fits ==> Valid() && View() == Run(p, bs, i + 1) && chunkFileOffset % p.page == 0
      ensures fits ==> |tensors| == old(|tensors|)
    {
      RunFollowsInput(p, bs, i);
      if currentSize != bs[i].offset - chunkFileOffset {
        assert false;
      }
      assert FollowsOn(bs[i], bs[i + 1]);
      var size := bs[i + 1].offset - bs[i].offset;
      fits := size <= p.buffer;
      if fits {
        Place(size);
      }
    }

    /** The branch for a boundary between files. */
    method OpenFile(b: Boundary)
      requires Valid() && chunkFileOffset % p.page == 0
      modifies this
      ensures Valid() && View() == NextFile(p, old(View()), b)
      ensures |tensors| == old(|tensors|) && chunkFileOffset % p.page == 0
    {
      FinishChunk();
      ResetFile(b.file, b.offset);
    }

    /** The branch for a tensor. */
    method Place(size: nat)
      requires Valid() && tensorId < |tensors| && currentSize <= p.chunk && chunkFileOffset % p.page == 0
      modifies this
      ensures Valid() && View() == PlaceTensor(p, old(View()), size)
      ensures |tensors| == old(|tensors|) && chunkFileOffset % p.page == 0
    {
      WrapIfNeeded(size);
      Lay(size);
    }

    /** Cuts the last chunk and gives the remaining tensors their limit. */
    method Finish()
      requires Valid() && chunkFileOffset % p.page == 0
      modifies this
      ensures Valid() && View() == Finalize(p, old(View()))
      ensures |tensors| == old(|tensors|) && tensorId == old(tensorId)
    {
      FinishChunk();
      ResetBufferOffset(tensorId);
      ResetBufferOffset(tensorId);
    }

    /** Lays out `bs`, or reports the first tensor that is larger than the whole buffer.
        The source's other error exits are the `assert false` branches. */
    method ComputeLayout(bs: seq<Boundary>) returns (r: Outcome)
      requires Valid() && WellFormed(bs)
      requires View() == Cursor([], [], 0, 0, 0, 0, 0, 0)
      modifies this
      ensures r.TensorLargerThanBuffer? ==>
                && r.boundary < |bs| - 1 && IsTensor(bs, r.boundary)
                && TensorSize(bs, r.boundary) > p.buffer
      ensures forall i :: 0 <= i < |bs| - 1 && IsTensor(bs, i) && (r.Done? || i < r.boundary) ==>
                TensorSize(bs, i) <= p.buffer
      ensures r.Done? ==>
                && Valid() && chunks == Compute(p, bs).chunks && tensors == Compute(p, bs).tensors
                && Sound(p, chunks, tensors) && TableOf(tensors, bs, |bs| - 1)
    {
      var numFiles := bs[|bs| - 1].file + 1;
      TensorCount(bs, |bs| - 1);
      var numTensors := |bs| - numFiles;
      tensors := seq(numTensors, _ => Tensor(0, 0, 0, 0, 0, 0));
      ResetFile(bs[0].file, bs[0].offset);
      assert View() == Start(p, bs[0]);

      for i := 0 to |bs| - 1
        invariant Valid() && |tensors| == numTensors
        invariant View() == Run(p, bs, i) && chunkFileOffset % p.page == 0
        invariant forall j :: 0 <= j < i && IsTensor(bs, j) ==> TensorSize(bs, j) <= p.buffer
      {
        RunFollowsInput(p, bs, i);
        TensorIdRises(bs, i + 1, |bs| - 1);
        var fits := Step(bs, i);
        if !fits {
          return TensorLargerThanBuffer(i);
        }
      }
      RunFollowsInput(p, bs, |bs| - 1);
      Finish();
      ComputeSound(p, bs);
      assert tensors == tensors[..tensorId];
      r := Done;
    }
  }

  lemma {:induction false} TensorIdRises(bs: seq<Boundary>, m: nat, n: nat)
    requires m <= n < |bs|
    ensures TensorId(bs, m) <= TensorId(bs, n)
  {
    if m < n {
      TensorIdRises(bs, m, n - 1);
    }
  }
}
