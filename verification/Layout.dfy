/** What `Loader::compute_layout` (csrc/loader_common.cpp) computes, on values.

    A chunk is one contiguous read of a file placed at one device-buffer offset.
    Chunks are laid one after another; when the next tensor does not fit, the layout
    starts again at the left end of the buffer (a new lap). For every tensor it records
    the last chunk holding its bytes and how far reading may run ahead without
    overwriting it. */
module Layout {
  import opened Rounding

  const FIRST_TENSOR_ALIGNMENT: nat := 16

  /** What `init_buffer` fixes before the layout: rank_alignment (the page size),
      world_chunk_alignment, world_chunk_size and the padded buffer_size. */
  datatype Params = Params(page: nat, align: nat, chunk: nat, buffer: nat) {
    predicate Valid() {
      && page > 0 && align > 0 && chunk > 0
      && align % page == 0 && chunk % align == 0 && chunk % page == 0
    }
  }

  /** One entry of the input list: a tensor boundary in a file. Each file contributes the
      offsets of its tensors followed by the end of its last tensor. */
  datatype Boundary = Boundary(file: nat, offset: nat)

  datatype Chunk = Chunk(size: nat, file: nat, fileOffset: nat, deviceOffset: nat)

  datatype Tensor = Tensor(size: nat, file: nat, fileOffset: nat, deviceOffset: nat,
                           lastChunk: int, prefetchChunk: int)

  /** The six cursors of compute_layout together with what it has produced so far.
      `|tensors|` is the running tensor_id. */
  datatype Cursor = Cursor(chunks: seq<Chunk>, tensors: seq<Tensor>,
                           file: nat, fileOffset: nat, deviceOffset: nat, size: nat,
                           inBuffer: nat, leftMost: nat)

  /** The end of the device extent a chunk may write, padding included. */
  function End(p: Params, c: Chunk): (r: nat)
    requires p.Valid()
    ensures c.deviceOffset + c.size <= r
  {
    c.deviceOffset + RoundUp(c.size, p.align)
  }

  // ------------------------------------------------------------------ the steps

  /** Give `id` as prefetch limit to the tensors from `from` up to `to` that start left of
      `bound`; stop at the first that does not. */
  function RetireLeftOf(ts: seq<Tensor>, from: nat, to: nat, bound: nat, id: int): (r: (seq<Tensor>, nat))
    requires from <= to <= |ts|
    ensures |r.0| == |ts| && from <= r.1 <= to
    ensures forall i :: 0 <= i < |ts| ==>
              r.0[i] == (if from <= i < r.1 then ts[i].(prefetchChunk := id) else ts[i])
    ensures forall i :: from <= i < r.1 ==> ts[i].deviceOffset < bound
    ensures r.1 < to ==> ts[r.1].deviceOffset >= bound
    decreases |ts| - from
  {
    if from < to && ts[from].deviceOffset < bound then
      RetireLeftOf(ts[from := ts[from].(prefetchChunk := id)], from + 1, to, bound, id)
    else
      (ts, from)
  }

  /** Give `id` as prefetch limit to all tensors from `from` up to `to`. */
  function RetireAll(ts: seq<Tensor>, from: nat, to: nat, id: int): (r: seq<Tensor>)
    requires from <= to <= |ts|
    ensures |r| == |ts|
    ensures forall i :: 0 <= i < |ts| ==>
              r[i] == (if from <= i < to then ts[i].(prefetchChunk := id) else ts[i])
    decreases |ts| - from
  {
    if from < to then
      RetireAll(ts[from := ts[from].(prefetchChunk := id)], from + 1, to, id)
    else
      ts
  }

  predicate Counters(s: Cursor) {
    s.inBuffer <= s.leftMost <= |s.tensors|
  }

  function FinishChunk(p: Params, s: Cursor): (r: Cursor)
    requires p.Valid() && Counters(s)
    ensures Counters(r) && |r.tensors| == |s.tensors| && r.leftMost == s.leftMost
    ensures r.size == s.size % p.page
  {
    if s.size == 0 then s
    else
      var chunks := s.chunks + [Chunk(s.size, s.file, s.fileOffset, s.deviceOffset)];
      var dev := s.deviceOffset + RoundUp(s.size, p.align);
      var (ts, inBuffer) := RetireLeftOf(s.tensors, s.inBuffer, s.leftMost, dev, |chunks| - 2);
      Cursor(chunks, ts, s.file, s.fileOffset + RoundDown(s.size, p.page), dev,
             s.size % p.page, inBuffer, s.leftMost)
  }

  /** Where the pending bytes must start so that the byte after them is aligned. */
  function AlignedStart(base: nat, pending: nat): (r: nat)
    ensures base <= r < base + 2 * FIRST_TENSOR_ALIGNMENT
    ensures (r + pending) % FIRST_TENSOR_ALIGNMENT == 0
  {
    RoundUp(base, FIRST_TENSOR_ALIGNMENT) + FIRST_TENSOR_ALIGNMENT - pending % FIRST_TENSOR_ALIGNMENT
  }

  function ResetBufferOffset(p: Params, s: Cursor, newLeftMost: nat): (r: Cursor)
    requires p.Valid() && Counters(s) && s.size < p.page
    requires s.leftMost <= newLeftMost <= |s.tensors|
    ensures Counters(r) && |r.tensors| == |s.tensors|
  {
    s.(tensors := RetireAll(s.tensors, s.inBuffer, s.leftMost, |s.chunks| - 1),
       inBuffer := s.leftMost,
       deviceOffset := FIRST_TENSOR_ALIGNMENT - s.size % FIRST_TENSOR_ALIGNMENT,
       leftMost := newLeftMost)
  }

  function ResetFile(p: Params, s: Cursor, file: nat, offset: nat): (r: Cursor)
    requires p.Valid() && Counters(s) && s.size < p.page
    ensures Counters(r)
  {
    var pending := offset % p.page;
    s.(file := file,
       fileOffset := RoundDown(offset, p.page),
       size := pending,
       deviceOffset := AlignedStart(s.deviceOffset, pending))
  }

  /** Cut full chunks off until the remaining `left` tensor bytes fit the pending one. */
  function FillChunks(p: Params, s: Cursor, left: nat): (r: (Cursor, nat))
    requires p.Valid() && Counters(s) && s.size <= p.chunk
    ensures Counters(r.0) && |r.0.tensors| == |s.tensors| && r.0.leftMost == s.leftMost
    ensures r.0.size + r.1 <= p.chunk
    decreases left, s.size
  {
    if s.size + left > p.chunk then
      var full := FinishChunk(p, s.(size := p.chunk));
      FillChunks(p, full, left - (p.chunk - s.size))
    else
      (s, left)
  }

  predicate MustWrap(p: Params, s: Cursor, size: nat)
    requires p.Valid()
  {
    s.deviceOffset + RoundUp(s.size + size, p.align) > p.buffer
  }

  function Wrap(p: Params, s: Cursor): (r: Cursor)
    requires p.Valid() && Counters(s)
    ensures Counters(r) && |r.tensors| == |s.tensors| && r.leftMost == |r.tensors| && r.size < p.page
  {
    ResetBufferOffset(p, FinishChunk(p, s), |s.tensors|)
  }

  function WrapIfNeeded(p: Params, s: Cursor, size: nat): (r: Cursor)
    requires p.Valid() && Counters(s) && s.size <= p.chunk
    ensures Counters(r) && |r.tensors| == |s.tensors| && r.size <= p.chunk
  {
    PageWithinChunk(p);
    if MustWrap(p, s, size) then Wrap(p, s) else s
  }

  lemma PageWithinChunk(p: Params)
    requires p.Valid()
    ensures p.page <= p.chunk
  {
  }

  /** Lay down the next tensor of the current file where the cursor stands. */
  function Lay(p: Params, w: Cursor, size: nat): (r: Cursor)
    requires p.Valid() && Counters(w) && w.size <= p.chunk
    ensures Counters(r) && |r.tensors| == |w.tensors| + 1 && r.size <= p.chunk
  {
    var (f, left) := FillChunks(p, w, size);
    var t := Tensor(size, w.file, w.fileOffset + w.size, w.deviceOffset + w.size, |f.chunks|, 0);
    f.(size := f.size + left, tensors := f.tensors + [t])
  }

  function PlaceTensor(p: Params, s: Cursor, size: nat): (r: Cursor)
    requires p.Valid() && Counters(s) && s.size <= p.chunk
    ensures Counters(r) && |r.tensors| == |s.tensors| + 1 && r.size <= p.chunk
  {
    Lay(p, WrapIfNeeded(p, s, size), size)
  }

  function NextFile(p: Params, s: Cursor, b: Boundary): (r: Cursor)
    requires p.Valid() && Counters(s)
    ensures Counters(r) && r.size < p.page && |r.tensors| == |s.tensors|
  {
    ResetFile(p, FinishChunk(p, s), b.file, b.offset)
  }

  function Start(p: Params, b: Boundary): (r: Cursor)
    requires p.Valid()
    ensures Counters(r) && r.size < p.page
  {
    ResetFile(p, Cursor([], [], 0, 0, 0, 0, 0, 0), b.file, b.offset)
  }

  /** The boundaries the Python front end sends: files 0, 1, ... in order, offsets rising
      within a file. */
  predicate WellFormed(bs: seq<Boundary>) {
    && |bs| > 0
    && bs[0].file == 0
    && (forall i :: 0 <= i < |bs| - 1 ==> FollowsOn(bs[i], bs[i + 1]))
  }

  predicate FollowsOn(a: Boundary, b: Boundary) {
    || (b.file == a.file && a.offset <= b.offset)
    || b.file == a.file + 1
  }

  predicate IsTensor(bs: seq<Boundary>, i: nat)
    requires i < |bs| - 1
  {
    bs[i].file == bs[i + 1].file
  }

  function TensorSize(bs: seq<Boundary>, i: nat): (r: nat)
    requires WellFormed(bs) && i < |bs| - 1 && IsTensor(bs, i)
    ensures bs[i].offset + r == bs[i + 1].offset
  {
    assert FollowsOn(bs[i], bs[i + 1]);
    bs[i + 1].offset - bs[i].offset
  }

  /** The state after the first `n` iterations of the main loop. */
  function Run(p: Params, bs: seq<Boundary>, n: nat): (r: Cursor)
    requires p.Valid() && WellFormed(bs) && n < |bs|
    ensures Counters(r) && r.size <= p.chunk
  {
    PageWithinChunk(p);
    if n == 0 then Start(p, bs[0])
    else
      var s := Run(p, bs, n - 1);
      if IsTensor(bs, n - 1) then PlaceTensor(p, s, TensorSize(bs, n - 1))
      else NextFile(p, s, bs[n])
  }

  /** Everything retired: what the constructor leaves behind. */
  function Finalize(p: Params, s: Cursor): (r: Cursor)
    requires p.Valid() && Counters(s)
    ensures Counters(r) && |r.tensors| == |s.tensors|
  {
    var f := FinishChunk(p, s);
    var once := ResetBufferOffset(p, f, |f.tensors|);
    ResetBufferOffset(p, once, |once.tensors|)
  }

  function Compute(p: Params, bs: seq<Boundary>): (r: Cursor)
    requires p.Valid() && WellFormed(bs)
  {
    Finalize(p, Run(p, bs, |bs| - 1))
  }
}
