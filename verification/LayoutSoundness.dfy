/** The layout of a whole input: the invariant over every iteration of the main loop and
    what it gives once all tensors have their prefetch limit. */
module LayoutSoundness {
  import opened Rounding
  import opened Layout
  import opened LayoutInvariant

  // ------------------------------------------------------------ laying a tensor

  /** Tensor `t` is being laid: its bytes so far run through chunks `first ..` up to the
      cursor, and `left` bytes remain. */
  ghost predicate InProgress(p: Params, s: Cursor, lap: nat, t: Tensor, first: nat, left: nat)
    requires p.Valid() && Counters(s)
  {
    var n := |s.chunks|;
    && lap <= first <= n
    && SameMapping(Pending(s), t)
    && s.fileOffset + s.size + left == t.fileOffset + t.size
    && (forall c :: first <= c < n ==> SameMapping(s.chunks[c], t))
    && (forall c :: first <= c < n - 1 ==> Link(p, s.chunks, c))
    && (first < n ==> s.chunks[first].fileOffset <= t.fileOffset)
    && (first < n ==> Follows(p, s.chunks[n - 1], Pending(s)))
    && (first == n ==> s.fileOffset <= t.fileOffset)
    && (forall i :: s.leftMost <= i < |s.tensors| ==> s.tensors[i].deviceOffset <= t.deviceOffset)
  }

  lemma FullChunkStep(p: Params, s: Cursor)
    requires p.Valid() && Counters(s)
    ensures var f := FinishChunk(p, s.(size := p.chunk));
            && f.chunks == s.chunks + [Chunk(p.chunk, s.file, s.fileOffset, s.deviceOffset)]
            && f.size == 0 && f.file == s.file
            && f.fileOffset == s.fileOffset + p.chunk
            && f.deviceOffset == s.deviceOffset + p.chunk
            && End(p, f.chunks[|s.chunks|]) == f.deviceOffset
  {
    RoundUpOfAligned(p.chunk, p.align);
  }

  lemma FullChunkKeepsProgress(p: Params, s: Cursor, lap: nat, t: Tensor, first: nat, left: nat)
    requires p.Valid() && Counters(s) && InProgress(p, s, lap, t, first, left)
    requires s.size <= p.chunk && s.size + left > p.chunk
    ensures InProgress(p, FinishChunk(p, s.(size := p.chunk)), lap, t, first,
                       left - (p.chunk - s.size))
  {
    FullChunkStep(p, s);
    var f := FinishChunk(p, s.(size := p.chunk));
    var n := |s.chunks|;
    forall c | first <= c < n ensures Link(p, f.chunks, c) {
      if c == n - 1 {
        assert Follows(p, s.chunks[n - 1], Pending(s));
      } else {
        assert Link(p, s.chunks, c);
      }
    }
  }

  lemma {:induction false} FillKeepsProgress(p: Params, s: Cursor, lap: nat, t: Tensor, first: nat, left: nat)
    requires p.Valid() && Counters(s) && s.size <= p.chunk && InProgress(p, s, lap, t, first, left)
    ensures var (f, l) := FillChunks(p, s, left);
            InProgress(p, f, lap, t, first, l) && l <= left && (left > 0 ==> l > 0)
    decreases left, s.size
  {
    if s.size + left > p.chunk {
      FullChunkKeepsProgress(p, s, lap, t, first, left);
      FullChunkStep(p, s);
      FillKeepsProgress(p, FinishChunk(p, s.(size := p.chunk)), lap, t, first, left - (p.chunk - s.size));
    }
  }

  lemma {:induction false} FillPreserves(p: Params, s: Cursor, lap: nat, left: nat)
    requires p.Valid() && Inv(p, s, lap)
    ensures Inv(p, FillChunks(p, s, left).0, lap)
    decreases left, s.size
  {
    if s.size + left > p.chunk {
      FullChunkPreserves(p, s, lap);
      FullChunkStep(p, s);
      FillPreserves(p, FinishChunk(p, s.(size := p.chunk)), lap, left - (p.chunk - s.size));
    }
  }

  lemma FullChunkPreserves(p: Params, s: Cursor, lap: nat)
    requires p.Valid() && Inv(p, s, lap)
    ensures Inv(p, FinishChunk(p, s.(size := p.chunk)), lap)
  {
    GrowPreserves(p, s, lap, p.chunk);
    FinishPreserves(p, s.(size := p.chunk), lap);
    var f := FinishChunk(p, s.(size := p.chunk));
    assert f == f.(size := 0);
  }

  /** A tensor whose remaining bytes fit the pending chunk is recorded. */
  lemma RecordPreserves(p: Params, f: Cursor, lap: nat, t: Tensor, first: nat, left: nat)
    requires p.Valid() && Inv(p, f, lap) && InProgress(p, f, lap, t, first, left)
    requires f.size + left <= p.chunk && (t.size > 0 ==> left > 0)
    requires t.lastChunk == |f.chunks| && left <= t.size
    ensures Inv(p, f.(size := f.size + left, tensors := f.tensors + [t]), lap)
  {
    var g := f.(size := f.size + left);
    GrowPreserves(p, f, lap, g.size);
    RecordCovers(p, f, lap, t, first, left);
    AppendTensorPreserves(p, g, lap, t);
  }

  lemma RecordCovers(p: Params, f: Cursor, lap: nat, t: Tensor, first: nat, left: nat)
    requires p.Valid() && Counters(f) && InProgress(p, f, lap, t, first, left)
    requires (t.size > 0 ==> left > 0) && left <= t.size && t.lastChunk == |f.chunks|
    ensures Covered(p, AllChunks(f.(size := f.size + left)), t)
  {
    if t.size > 0 {
      RecordSpans(p, f, lap, t, first, left);
    }
  }

  lemma AppendTensorPreserves(p: Params, g: Cursor, lap: nat, t: Tensor)
    requires p.Valid() && Inv(p, g, lap) && t.lastChunk == |g.chunks|
    requires t.deviceOffset + t.size == g.deviceOffset + g.size
    requires forall i :: g.leftMost <= i < |g.tensors| ==> g.tensors[i].deviceOffset <= t.deviceOffset
    requires Covered(p, AllChunks(g), t)
    ensures Inv(p, g.(tensors := g.tensors + [t]), lap)
  {
    RecordKeepsCurrentLap(p, g, lap, t);
    AppendKeepsLimits(p, g, lap, t);
  }

  lemma AppendKeepsLimits(p: Params, g: Cursor, lap: nat, t: Tensor)
    requires p.Valid() && Counters(g) && PreviousLap(p, g, lap) && Retired(p, g, lap)
    ensures PreviousLap(p, g.(tensors := g.tensors + [t]), lap)
    ensures Retired(p, g.(tensors := g.tensors + [t]), lap)
  {
    var r := g.(tensors := g.tensors + [t]);
    assert forall i :: 0 <= i < |g.tensors| ==> r.tensors[i] == g.tensors[i];
  }

  lemma RecordSpans(p: Params, f: Cursor, lap: nat, t: Tensor, first: nat, left: nat)
    requires p.Valid() && Counters(f) && InProgress(p, f, lap, t, first, left)
    requires left > 0 && left <= t.size && t.lastChunk == |f.chunks|
    ensures Spans(p, AllChunks(f.(size := f.size + left)), t, first)
  {
    var g := f.(size := f.size + left);
    var cs, n := AllChunks(g), |f.chunks|;
    assert cs == f.chunks + [Pending(g)];
    forall c | first <= c < n ensures Link(p, cs, c) {
      if c == n - 1 {
        assert Follows(p, f.chunks[n - 1], Pending(f));
      } else {
        assert Link(p, f.chunks, c);
      }
    }
  }

  lemma RecordKeepsCurrentLap(p: Params, g: Cursor, lap: nat, t: Tensor)
    requires p.Valid() && Basics(p, g, lap) && CurrentLap(p, g, lap)
    requires t.lastChunk == |g.chunks|
    requires t.deviceOffset + t.size == g.deviceOffset + g.size
    requires forall i :: g.leftMost <= i < |g.tensors| ==> g.tensors[i].deviceOffset <= t.deviceOffset
    ensures CurrentLap(p, g.(tensors := g.tensors + [t]), lap)
  {
    var r := g.(tensors := g.tensors + [t]);
    forall i | r.leftMost <= i < |r.tensors| ensures InLap(p, r, r.tensors[i], lap) {
      if i < |g.tensors| {
        assert InLap(p, g, g.tensors[i], lap);
      }
    }
  }

  /** The id of the first chunk of the lap that the next tensor is laid in. */
  function LapAfterWrap(p: Params, s: Cursor, lap: nat, size: nat): nat
    requires p.Valid() && Counters(s)
  {
    if MustWrap(p, s, size) then |FinishChunk(p, s).chunks| else lap
  }

  lemma WrapIfNeededPreserves(p: Params, s: Cursor, lap: nat, size: nat)
    requires p.Valid() && Inv(p, s, lap)
    ensures Inv(p, WrapIfNeeded(p, s, size), LapAfterWrap(p, s, lap, size))
    ensures SameFilePosition(s, WrapIfNeeded(p, s, size))
  {
    if MustWrap(p, s, size) {
      FinishPreserves(p, s, lap);
      ResetBufferPreserves(p, FinishChunk(p, s), lap);
    }
  }

  predicate SameFilePosition(s: Cursor, r: Cursor) {
    s.file == r.file && s.fileOffset + s.size == r.fileOffset + r.size
  }

  /** The entry recorded for a tensor of `size` bytes laid from the wrapped state `w`. */
  function NewTensor(p: Params, w: Cursor, size: nat): Tensor
    requires p.Valid() && Counters(w) && w.size <= p.chunk
  {
    Tensor(size, w.file, w.fileOffset + w.size, w.deviceOffset + w.size,
           |FillChunks(p, w, size).0.chunks|, 0)
  }

  lemma NewTensorInProgress(p: Params, w: Cursor, lap: nat, size: nat)
    requires p.Valid() && Basics(p, w, lap) && CurrentLap(p, w, lap)
    ensures InProgress(p, w, lap, NewTensor(p, w, size), |w.chunks|, size)
  {
    var t := NewTensor(p, w, size);
    forall i | w.leftMost <= i < |w.tensors| ensures w.tensors[i].deviceOffset <= t.deviceOffset {
      assert InLap(p, w, w.tensors[i], lap);
    }
  }

  /** Laying a tensor keeps the invariant. */
  lemma PlaceTensorPreserves(p: Params, s: Cursor, lap: nat, size: nat)
    requires p.Valid() && Inv(p, s, lap)
    ensures Inv(p, PlaceTensor(p, s, size), LapAfterWrap(p, s, lap, size))
  {
    WrapIfNeededPreserves(p, s, lap, size);
    LayPreserves(p, WrapIfNeeded(p, s, size), LapAfterWrap(p, s, lap, size), size);
  }

  lemma LayPreserves(p: Params, w: Cursor, lap: nat, size: nat)
    requires p.Valid() && Inv(p, w, lap)
    ensures Inv(p, Lay(p, w, size), lap)
  {
    var (f, left) := FillChunks(p, w, size);
    var t := NewTensor(p, w, size);
    NewTensorInProgress(p, w, lap, size);
    FillPreserves(p, w, lap, size);
    FillKeepsProgress(p, w, lap, t, |w.chunks|, size);
    RecordPreserves(p, f, lap, t, |w.chunks|, left);
  }

  /** Laying a tensor advances the file position by its size, records where it came from,
      and leaves the tensors before it as they were but for their prefetch limits. */
  lemma PlaceTensorRecords(p: Params, s: Cursor, size: nat)
    requires p.Valid() && Counters(s) && s.size <= p.chunk
    ensures var r, n := PlaceTensor(p, s, size), |s.tensors|;
            && r.file == s.file && r.fileOffset + r.size == s.fileOffset + s.size + size
            && SameTensors(s.tensors, r.tensors)
            && r.tensors[n].file == s.file
            && r.tensors[n].fileOffset == s.fileOffset + s.size
            && r.tensors[n].size == size
  {
    FillRecords(p, WrapIfNeeded(p, s, size), size);
  }

  lemma {:induction false} FillRecords(p: Params, s: Cursor, left: nat)
    requires p.Valid() && Counters(s) && s.size <= p.chunk
    ensures var (f, l) := FillChunks(p, s, left);
            && SameTensors(s.tensors, f.tensors) && f.file == s.file
            && f.fileOffset + f.size + l == s.fileOffset + s.size + left
    decreases left, s.size
  {
    if s.size + left > p.chunk {
      FillRecords(p, FinishChunk(p, s.(size := p.chunk)), left - (p.chunk - s.size));
    }
  }

  /** `us` starts with the tensors of `ts`, prefetch limits aside. */
  ghost predicate SameTensors(ts: seq<Tensor>, us: seq<Tensor>) {
    && |ts| <= |us|
    && forall i :: 0 <= i < |ts| ==> ts[i].(prefetchChunk := 0) == us[i].(prefetchChunk := 0)
  }

  // ------------------------------------------------------------- the whole loop

  /** How many tensors the first `n` boundaries start. */
  function TensorId(bs: seq<Boundary>, n: nat): (r: nat)
    requires n < |bs|
    ensures r <= n
  {
    if n == 0 then 0
    else TensorId(bs, n - 1) + if IsTensor(bs, n - 1) then 1 else 0
  }

  ghost predicate Describes(t: Tensor, bs: seq<Boundary>, i: nat)
    requires WellFormed(bs) && i < |bs| - 1 && IsTensor(bs, i)
  {
    t.file == bs[i].file && t.fileOffset == bs[i].offset && t.size == TensorSize(bs, i)
  }

  /** The tensor table lists the tensors of the first `n` boundaries in order. */
  ghost predicate TableOf(ts: seq<Tensor>, bs: seq<Boundary>, n: nat)
    requires WellFormed(bs) && n < |bs|
  {
    && |ts| == TensorId(bs, n)
    && forall i :: 0 <= i < n && IsTensor(bs, i) ==>
         TensorId(bs, i) < |ts| && Describes(ts[TensorId(bs, i)], bs, i)
  }

  /** The id of the first chunk of the lap reached after `n` iterations. */
  function LapStart(p: Params, bs: seq<Boundary>, n: nat): nat
    requires p.Valid() && WellFormed(bs) && n < |bs|
  {
    if n == 0 then 0
    else if IsTensor(bs, n - 1) then
      LapAfterWrap(p, Run(p, bs, n - 1), LapStart(p, bs, n - 1), TensorSize(bs, n - 1))
    else LapStart(p, bs, n - 1)
  }

  /** The invariant holds after every iteration. */
  lemma {:induction false} RunPreserves(p: Params, bs: seq<Boundary>, n: nat)
    requires p.Valid() && WellFormed(bs) && n < |bs|
    ensures Inv(p, Run(p, bs, n), LapStart(p, bs, n))
  {
    if n == 0 {
      var empty := Cursor([], [], 0, 0, 0, 0, 0, 0);
      assert Inv(p, empty.(size := 0), 0);
      ResetFilePreserves(p, empty, 0, bs[0].file, bs[0].offset);
    } else {
      RunPreserves(p, bs, n - 1);
      var s, lap := Run(p, bs, n - 1), LapStart(p, bs, n - 1);
      if IsTensor(bs, n - 1) {
        PlaceTensorPreserves(p, s, lap, TensorSize(bs, n - 1));
      } else {
        FinishPreserves(p, s, lap);
        ResetFilePreserves(p, FinishChunk(p, s), lap, bs[n].file, bs[n].offset);
      }
    }
  }

  /** After every iteration the tensor table lists the input so far, and the cursor stands
      at the next boundary: the size-mismatch error in the loop cannot occur. */
  lemma {:induction false} RunFollowsInput(p: Params, bs: seq<Boundary>, n: nat)
    requires p.Valid() && WellFormed(bs) && n < |bs|
    ensures var s := Run(p, bs, n);
            && TableOf(s.tensors, bs, n)
            && s.file == bs[n].file && s.fileOffset + s.size == bs[n].offset
  {
    if n > 0 {
      RunFollowsInput(p, bs, n - 1);
      var s := Run(p, bs, n - 1);
      if IsTensor(bs, n - 1) {
        PlaceTensorRecords(p, s, TensorSize(bs, n - 1));
      }
      TableStep(s.tensors, Run(p, bs, n).tensors, bs, n);
    }
  }

  lemma TableStep(ts: seq<Tensor>, us: seq<Tensor>, bs: seq<Boundary>, n: nat)
    requires WellFormed(bs) && 0 < n < |bs| && TableOf(ts, bs, n - 1)
    requires SameTensors(ts, us)
    requires if IsTensor(bs, n - 1) then |us| == |ts| + 1 && Describes(us[|ts|], bs, n - 1)
             else |us| == |ts|
    ensures TableOf(us, bs, n)
  {
    forall i | 0 <= i < n && IsTensor(bs, i)
      ensures TensorId(bs, i) < |us| && Describes(us[TensorId(bs, i)], bs, i)
    {
      if i < n - 1 {
        var k := TensorId(bs, i);
        assert Describes(ts[k], bs, i);
        assert ts[k].(prefetchChunk := 0) == us[k].(prefetchChunk := 0);
      }
    }
  }

  // -------------------------------------------------------------- the result

  /** What the finished layout promises its users. */
  ghost predicate Sound(p: Params, cs: seq<Chunk>, ts: seq<Tensor>)
    requires p.Valid()
  {
    && (forall c :: 0 <= c < |cs| ==> 0 < cs[c].size <= p.chunk && cs[c].fileOffset % p.page == 0)
    && AllCovered(p, cs, ts)
    && (forall i {:trigger SafeUpToLimit(p, cs, ts[i])} :: 0 <= i < |ts| ==> SafeUpToLimit(p, cs, ts[i]))
    && (forall i {:trigger Readable(ts[i])} :: 0 <= i < |ts| ==> Readable(ts[i]))
    && (forall i, j {:trigger LimitsInOrder(ts[i], ts[j])} ::
          0 <= i <= j < |ts| ==> LimitsInOrder(ts[i], ts[j]))
    && (|ts| > 0 ==> ts[|ts| - 1].prefetchChunk == |cs| - 1)
  }

  /** The tensor laid last belongs to the current lap, so it has no limit yet. */
  predicate LastTensorCurrent(s: Cursor) {
    |s.tensors| > 0 ==> s.leftMost < |s.tensors|
  }

  lemma {:induction false} RunLastTensorCurrent(p: Params, bs: seq<Boundary>, n: nat)
    requires p.Valid() && WellFormed(bs) && n < |bs|
    ensures LastTensorCurrent(Run(p, bs, n))
  {
    if n > 0 {
      RunLastTensorCurrent(p, bs, n - 1);
    }
  }

  /** Finishing gives every remaining tensor the last chunk as its limit. */
  lemma FinalizeSound(p: Params, s: Cursor, lap: nat)
    requires p.Valid() && Inv(p, s, lap) && LastTensorCurrent(s)
    ensures var r := Finalize(p, s); Sound(p, r.chunks, r.tensors)
  {
    var z := FinishChunk(p, s).(size := 0);
    FinishPreserves(p, s, lap);
    ResetBufferPreserves(p, z, lap);
    var once := ResetBufferOffset(p, z, |z.tensors|);
    assert once == once.(size := 0);
    ResetBufferPreserves(p, once, |z.chunks|);
    var twice := ResetBufferOffset(p, once, |once.tensors|);
    var r := Finalize(p, s);
    assert r.chunks == twice.chunks && r.tensors == twice.tensors;
    if |r.tensors| > 0 {
      assert r.tensors[|r.tensors| - 1].prefetchChunk == |r.chunks| - 1;
    }
  }

  lemma FinalizeKeepsTable(p: Params, s: Cursor, bs: seq<Boundary>, n: nat)
    requires p.Valid() && Counters(s) && WellFormed(bs) && n < |bs| && TableOf(s.tensors, bs, n)
    ensures TableOf(Finalize(p, s).tensors, bs, n)
  {
    var r := Finalize(p, s);
    forall i | 0 <= i < n && IsTensor(bs, i) ensures Describes(r.tensors[TensorId(bs, i)], bs, i) {
      var k := TensorId(bs, i);
      assert Describes(s.tensors[k], bs, i);
      assert s.tensors[k].(prefetchChunk := 0) == r.tensors[k].(prefetchChunk := 0);
    }
  }

  /** The layout of every input lists exactly its tensors, covers their bytes, and gives
      each a prefetch limit that protects it. */
  lemma ComputeSound(p: Params, bs: seq<Boundary>)
    requires p.Valid() && WellFormed(bs)
    ensures var r := Compute(p, bs);
            Sound(p, r.chunks, r.tensors) && TableOf(r.tensors, bs, |bs| - 1)
  {
    var n := |bs| - 1;
    RunPreserves(p, bs, n);
    RunFollowsInput(p, bs, n);
    RunLastTensorCurrent(p, bs, n);
    FinalizeSound(p, Run(p, bs, n), LapStart(p, bs, n));
    FinalizeKeepsTable(p, Run(p, bs, n), bs, n);
  }

  /** `num_tensors` as the source computes it: boundaries less one end per file. */
  lemma {:induction false} TensorCount(bs: seq<Boundary>, n: nat)
    requires WellFormed(bs) && n < |bs|
    ensures TensorId(bs, n) + bs[n].file == n
  {
    if n > 0 {
      TensorCount(bs, n - 1);
      assert FollowsOn(bs[n - 1], bs[n]);
    }
  }

  /** Tensor `i` has its limit in `s`, and the same one in `r`. */
  ghost predicate LimitKept(s: Cursor, r: Cursor, i: nat) {
    && i < s.inBuffer && i < |s.tensors|
    && i < r.inBuffer && i < |r.tensors|
    && s.tensors[i] == r.tensors[i]
  }

  /** A prefetch limit is given once: nothing that follows changes it. */
  lemma LimitGivenOnce(p: Params, bs: seq<Boundary>, m: nat, i: nat)
    requires p.Valid() && WellFormed(bs) && m < |bs| && i < Run(p, bs, m).inBuffer
    ensures LimitKept(Run(p, bs, m), Compute(p, bs), i)
  {
    var s, e := Run(p, bs, m), Run(p, bs, |bs| - 1);
    RunKeepsLimit(p, bs, m, |bs| - 1, i);
    FinalizeKeepsRetired(p, e, i);
  }

  lemma RunKeepsLimit(p: Params, bs: seq<Boundary>, m: nat, n: nat, i: nat)
    requires p.Valid() && WellFormed(bs) && m <= n < |bs| && i < Run(p, bs, m).inBuffer
    ensures LimitKept(Run(p, bs, m), Run(p, bs, n), i)
  {
    var run := Trajectory(p, bs);
    RunCounters(p, bs, m);
    forall k | m < k <= n && i < run[k - 1].inBuffer ensures LimitKept(run[k - 1], run[k], i) {
      StepKeepsLimit(p, bs, k, i);
    }
    KeptAlong(run, m, n, i);
  }

  lemma FileOffsetOnPage(p: Params, bs: seq<Boundary>, m: nat)
    requires p.Valid() && WellFormed(bs) && m < |bs|
    ensures Run(p, bs, m).fileOffset % p.page == 0
  {
    RunPreserves(p, bs, m);
  }

  lemma RunCounters(p: Params, bs: seq<Boundary>, n: nat)
    requires p.Valid() && WellFormed(bs) && n < |bs|
    ensures Run(p, bs, n).inBuffer <= |Run(p, bs, n).tensors|
  {
  }

  /** The states after each iteration. */
  function Trajectory(p: Params, bs: seq<Boundary>): (r: seq<Cursor>)
    requires p.Valid() && WellFormed(bs)
    ensures |r| == |bs| && forall n :: 0 <= n < |bs| ==> r[n] == Run(p, bs, n)
  {
    seq(|bs|, n requires 0 <= n < |bs| => Run(p, bs, n))
  }

  lemma {:induction false} KeptAlong(run: seq<Cursor>, m: nat, n: nat, i: nat)
    requires m <= n < |run| && i < run[m].inBuffer <= |run[m].tensors|
    requires forall k {:trigger run[k]} :: m < k <= n && i < run[k - 1].inBuffer ==> LimitKept(run[k - 1], run[k], i)
    ensures LimitKept(run[m], run[n], i)
    decreases n
  {
    if m < n {
      KeptAlong(run, m, n - 1, i);
    }
  }

  lemma StepKeepsLimit(p: Params, bs: seq<Boundary>, n: nat, i: nat)
    requires p.Valid() && WellFormed(bs) && 0 < n < |bs| && i < Run(p, bs, n - 1).inBuffer
    ensures LimitKept(Run(p, bs, n - 1), Run(p, bs, n), i)
  {
    if IsTensor(bs, n - 1) {
      StepKeepsRetired(p, Run(p, bs, n - 1), TensorSize(bs, n - 1), i);
    }
  }

  lemma FinalizeKeepsRetired(p: Params, s: Cursor, i: nat)
    requires p.Valid() && Counters(s) && i < s.inBuffer
    ensures LimitKept(s, Finalize(p, s), i)
  {
  }

  lemma StepKeepsRetired(p: Params, s: Cursor, size: nat, i: nat)
    requires p.Valid() && Counters(s) && s.size <= p.chunk && i < s.inBuffer
    ensures var r := PlaceTensor(p, s, size);
            i < r.inBuffer && r.tensors[i] == s.tensors[i]
  {
    FillKeepsRetired(p, WrapIfNeeded(p, s, size), size, i);
  }

  lemma {:induction false} FillKeepsRetired(p: Params, s: Cursor, left: nat, i: nat)
    requires p.Valid() && Counters(s) && s.size <= p.chunk && i < s.inBuffer
    ensures var f := FillChunks(p, s, left).0;
            i < f.inBuffer && f.tensors[i] == s.tensors[i]
    decreases left, s.size
  {
    if s.size + left > p.chunk {
      FillKeepsRetired(p, FinishChunk(p, s.(size := p.chunk)), left - (p.chunk - s.size), i);
    }
  }

  // ------------------------------------------------- consequences for one tensor

  lemma {:induction false} LinkedRun(p: Params, cs: seq<Chunk>, t: Tensor, first: int, c: int, d: int)
    requires p.Valid() && Spans(p, cs, t, first) && first <= c < d <= t.lastChunk
    ensures End(p, cs[c]) <= cs[d].deviceOffset
    ensures cs[c].fileOffset + cs[c].size <= cs[d].fileOffset
    decreases d - c
  {
    assert Link(p, cs, c);
    if c + 1 < d {
      LinkedRun(p, cs, t, first, c + 1, d);
    }
  }

  /** Chunk `c` brings byte `k` of tensor `t` to its place in the tensor's device interval. */
  predicate Carries(c: Chunk, t: Tensor, k: nat) {
    && c.file == t.file
    && c.fileOffset <= t.fileOffset + k < c.fileOffset + c.size
    && c.deviceOffset + (t.fileOffset + k - c.fileOffset) == t.deviceOffset + k
  }

  /** Every byte of a covered tensor is carried by a chunk no later than its last one. */
  lemma {:induction false} ByteCovered(p: Params, cs: seq<Chunk>, t: Tensor, first: int, k: nat) returns (c: int)
    requires p.Valid() && k < t.size && Spans(p, cs, t, first)
    ensures first <= c <= t.lastChunk && Carries(cs[c], t, k)
  {
    c := t.lastChunk;
    while cs[c].fileOffset > t.fileOffset + k
      invariant first <= c <= t.lastChunk
      invariant t.fileOffset + k < cs[c].fileOffset + cs[c].size
      decreases c - first
    {
      assert Link(p, cs, c - 1);
      c := c - 1;
    }
    assert SameMapping(cs[c], t);
  }

  /** The last byte lies in the last chunk. */
  lemma LastByteInLastChunk(p: Params, cs: seq<Chunk>, t: Tensor, first: int)
    requires p.Valid() && t.size > 0 && Spans(p, cs, t, first)
    ensures Carries(cs[t.lastChunk], t, t.size - 1)
  {
    assert SameMapping(cs[t.lastChunk], t);
  }

  /** Prefetch safety: a chunk read after tensor `i`'s last one and within its limit
      writes nothing, padding included, into the tensor's device interval. */
  lemma PrefetchSafety(p: Params, bs: seq<Boundary>, i: nat, c: nat)
    requires p.Valid() && WellFormed(bs)
    requires var r := Compute(p, bs);
             i < |r.tensors| && c < |r.chunks|
             && r.tensors[i].lastChunk < c <= r.tensors[i].prefetchChunk
    ensures var r := Compute(p, bs);
            Disjoint(p, r.chunks[c], r.tensors[i])
  {
    var r := Compute(p, bs);
    ComputeSound(p, bs);
    assert SafeUpToLimit(p, r.chunks, r.tensors[i]);
  }
}
