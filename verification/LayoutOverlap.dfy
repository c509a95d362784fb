/** When a tensor can be read in full while the one before it is still in use: exactly, and by
    the size of the buffer. */
module LayoutOverlap {
  import opened Layout
  import opened LayoutSoundness
  import opened LayoutBounds
  import opened LayoutEmpty

  // ------------------------------------------------------------------ while the next tensor is laid

  /** Tensor `i` of the previous lap, at `at`, is the next but for those left of it to be overrun. */
  predicate Threatened(s: Cursor, i: nat, at: nat) {
    && i < |s.tensors| && s.inBuffer <= i < s.leftMost && s.tensors[i].deviceOffset == at
    && forall j :: s.inBuffer <= j <= i ==> s.tensors[j].deviceOffset <= s.tensors[i].deviceOffset
  }

  /** It has been overrun, and its limit is before the chunk now being filled, which lies behind it. */
  predicate Passed(s: Cursor, i: nat, at: nat) {
    i < |s.tensors| && i < s.inBuffer && s.tensors[i].prefetchChunk < |s.chunks| && at < s.deviceOffset
  }

  lemma ThreatFinish(p: Params, s: Cursor, i: nat, at: nat)
    requires p.Valid() && Counters(s) && (Threatened(s, i, at) || Passed(s, i, at))
    ensures var r := FinishChunk(p, s); Threatened(r, i, at) || Passed(r, i, at)
  {
  }

  lemma {:induction false} ThreatFill(p: Params, s: Cursor, left: nat, i: nat, at: nat)
    requires p.Valid() && Counters(s) && s.size <= p.chunk && (Threatened(s, i, at) || Passed(s, i, at))
    ensures var f := FillChunks(p, s, left).0; Threatened(f, i, at) || Passed(f, i, at)
    decreases left, s.size
  {
    if s.size + left > p.chunk {
      var full := s.(size := p.chunk);
      assert Threatened(full, i, at) || Passed(full, i, at);
      ThreatFinish(p, full, i, at);
      ThreatFill(p, FinishChunk(p, full), left - (p.chunk - s.size), i, at);
    }
  }

  lemma LaidBehind(p: Params, w: Cursor, size: nat, i: nat, at: nat)
    requires p.Valid() && Counters(w) && w.size <= p.chunk && Threatened(w, i, at) && size > 0
    ensures var r := Lay(p, w, size);
            && r.size > 0 && r.tensors[|w.tensors|].lastChunk == |r.chunks|
            && (AtRisk(r, i, |r.chunks|) || Passed(r, i, at))
            && (AtRisk(r, i, |r.chunks|) ==> r.tensors[i].deviceOffset == at)
  {
    ThreatFill(p, w, size, i, at);
    FillLeavesBytes(p, w, size);
  }

  lemma LaidBeside(p: Params, w: Cursor, size: nat, i: nat)
    requires p.Valid() && Counters(w) && w.size <= p.chunk && w.leftMost <= i < |w.tensors| && size > 0
    ensures var r := Lay(p, w, size);
            && r.size > 0 && r.tensors[|w.tensors|].lastChunk == |r.chunks| && Secure(r, i, |r.chunks|)
  {
    FillLeavesBytes(p, w, size);
  }

  // ------------------------------------------------------------------ where the pending chunk stands

  /** Chunk `k` is or will be at `at`. */
  predicate Stands(s: Cursor, k: nat, at: nat) {
    if k < |s.chunks| then s.chunks[k].deviceOffset == at else k == |s.chunks| && s.size > 0 && s.deviceOffset == at
  }

  lemma StandsFinish(p: Params, s: Cursor, k: nat, at: nat)
    requires p.Valid() && Counters(s) && Stands(s, k, at)
    ensures var r := FinishChunk(p, s); k < |r.chunks| && r.chunks[k].deviceOffset == at
  {
  }

  lemma {:induction false} StandsFill(p: Params, s: Cursor, left: nat, k: nat, at: nat)
    requires p.Valid() && Counters(s) && s.size <= p.chunk && Stands(s.(size := s.size + left), k, at)
    ensures var (f, l) := FillChunks(p, s, left); Stands(f.(size := f.size + l), k, at)
    decreases left, s.size
  {
    if s.size + left > p.chunk {
      var full := s.(size := p.chunk);
      StandsFinish(p, full, k, at);
      StandsFill(p, FinishChunk(p, full), left - (p.chunk - s.size), k, at);
    }
  }

  lemma StandsPlace(p: Params, s: Cursor, size: nat, k: nat, at: nat)
    requires p.Valid() && Counters(s) && s.size <= p.chunk && Stands(s, k, at)
    ensures Stands(PlaceTensor(p, s, size), k, at)
  {
    var w := WrapIfNeeded(p, s, size);
    if MustWrap(p, s, size) {
      StandsFinish(p, s, k, at);
    }
    StandsFill(p, w, size, k, at);
  }

  lemma StandsStep(p: Params, bs: seq<Boundary>, n: nat, k: nat, at: nat)
    requires p.Valid() && WellFormed(bs) && 0 < n < |bs| && Stands(Run(p, bs, n - 1), k, at)
    ensures Stands(Run(p, bs, n), k, at)
  {
    if IsTensor(bs, n - 1) {
      StandsPlace(p, Run(p, bs, n - 1), TensorSize(bs, n - 1), k, at);
    } else {
      StandsFinish(p, Run(p, bs, n - 1), k, at);
    }
  }

  lemma {:induction false} StandsAlong(run: seq<Cursor>, m: nat, n: nat, k: nat, at: nat)
    requires m <= n < |run| && Stands(run[m], k, at)
    requires forall x {:trigger run[x]} :: m < x <= n && Stands(run[x - 1], k, at) ==> Stands(run[x], k, at)
    ensures Stands(run[n], k, at)
    decreases n
  {
    if m < n {
      StandsAlong(run, m, n - 1, k, at);
    }
  }

  lemma StandsRun(p: Params, bs: seq<Boundary>, m: nat, n: nat, k: nat, at: nat)
    requires p.Valid() && WellFormed(bs) && m <= n < |bs| && Stands(Run(p, bs, m), k, at)
    ensures Stands(Run(p, bs, n), k, at)
  {
    var run := Trajectory(p, bs);
    forall x | m < x <= n && Stands(run[x - 1], k, at) ensures Stands(run[x], k, at) {
      StandsStep(p, bs, x, k, at);
    }
    StandsAlong(run, m, n, k, at);
  }

  lemma StandsFinal(p: Params, s: Cursor, k: nat, at: nat)
    requires p.Valid() && Counters(s) && Stands(s, k, at)
    ensures var r := Finalize(p, s); k < |r.chunks| && r.chunks[k].deviceOffset == at
  {
    StandsFinish(p, s, k, at);
  }

  lemma StandsInTheEnd(p: Params, bs: seq<Boundary>, m: nat, k: nat, at: nat)
    requires p.Valid() && WellFormed(bs) && m < |bs| && Stands(Run(p, bs, m), k, at)
    ensures var r := Compute(p, bs); k < |r.chunks| && r.chunks[k].deviceOffset == at
  {
    StandsRun(p, bs, m, |bs| - 1, k, at);
    StandsFinal(p, Run(p, bs, |bs| - 1), k, at);
  }

  // ------------------------------------------------------------------ the theorem

  /** Chunk `k` of the finished layout ends at or before `at`. */
  predicate EndsBy(p: Params, r: Cursor, k: int, at: nat)
    requires p.Valid()
  {
    0 <= k < |r.chunks| && End(p, r.chunks[k]) <= at
  }

  /** What the layout of tensor `i + 1`, the chunk `k` being its last, makes of tensor `i`. */
  lemma LaterLimit(p: Params, bs: seq<Boundary>, m: nat, i: nat, k: int, at: nat)
    requires p.Valid() && WellFormed(bs) && m < |bs|
    requires var r := Run(p, bs, m); i < |r.tensors| && r.tensors[i].deviceOffset == at && k == |r.chunks| && r.size > 0
    requires AtRisk(Run(p, bs, m), i, k) || Passed(Run(p, bs, m), i, at)
    ensures var r := Compute(p, bs);
            && i < |r.tensors| && 0 <= k < |r.chunks|
            && (k <= r.tensors[i].prefetchChunk <==> EndsBy(p, r, k, at))
  {
    if AtRisk(Run(p, bs, m), i, k) {
      RiskInTheEnd(p, bs, m, i, k, at);
    } else {
      PassedInTheEnd(p, bs, m, i, k, at);
    }
  }

  lemma PassedInTheEnd(p: Params, bs: seq<Boundary>, m: nat, i: nat, k: int, at: nat)
    requires p.Valid() && WellFormed(bs) && m < |bs|
    requires Passed(Run(p, bs, m), i, at) && k == |Run(p, bs, m).chunks| && Run(p, bs, m).size > 0
    ensures var r := Compute(p, bs);
            && i < |r.tensors| && 0 <= k < |r.chunks| && r.tensors[i].prefetchChunk < k && !EndsBy(p, r, k, at)
  {
    var s := Run(p, bs, m);
    DoomedRun(p, bs, m, i, k);
    StandsInTheEnd(p, bs, m, k, s.deviceOffset);
  }

  /** At boundary `m` a tensor with bytes begins, and another was laid before it. */
  predicate Successor(bs: seq<Boundary>, m: nat)
    requires WellFormed(bs)
  {
    m < |bs| - 1 && IsTensor(bs, m) && TensorSize(bs, m) > 0 && TensorId(bs, m) > 0
  }

  /** The tensor before boundary `m`'s. */
  function Before(bs: seq<Boundary>, m: nat): (i: nat)
    requires WellFormed(bs) && Successor(bs, m)
    ensures i + 1 == TensorId(bs, m)
  {
    TensorId(bs, m) - 1
  }

  /** Laid without a wrap, its last chunk comes within the limit of the one before. */
  lemma BesideReached(p: Params, bs: seq<Boundary>, m: nat, l: nat)
    requires p.Valid() && WellFormed(bs) && Successor(bs, m) && l == m + 1
    requires !MustWrap(p, Run(p, bs, m), TensorSize(bs, m))
    ensures var i, k := Before(bs, m), |Run(p, bs, l).chunks|;
            && Recorded(p, bs, i + 1, k, Run(p, bs, m).deviceOffset + Run(p, bs, m).size)
            && i < |Compute(p, bs).tensors| && k <= Compute(p, bs).tensors[i].prefetchChunk
            && k < |Compute(p, bs).chunks|
  {
    var i := Before(bs, m);
    RunFollowsInput(p, bs, m);
    RunLastTensorCurrent(p, bs, m);
    BesideStep(p, bs, m, l, i);
    var r := Run(p, bs, l);
    RecordKept(p, bs, l, i + 1);
    SecureInTheEnd(p, bs, l, i, |r.chunks|);
    StandsInTheEnd(p, bs, l, |r.chunks|, r.deviceOffset);
  }

  lemma BesideStep(p: Params, bs: seq<Boundary>, m: nat, l: nat, i: nat)
    requires p.Valid() && WellFormed(bs) && Successor(bs, m) && l == m + 1
    requires !MustWrap(p, Run(p, bs, m), TensorSize(bs, m))
    requires var s := Run(p, bs, m); s.leftMost <= i && i + 1 == |s.tensors|
    ensures var s, r := Run(p, bs, m), Run(p, bs, l);
            && i + 1 < |r.tensors| && r.size > 0 && r.tensors[i + 1].lastChunk == |r.chunks|
            && Secure(r, i, |r.chunks|) && r.tensors[i + 1].deviceOffset == s.deviceOffset + s.size
  {
    var s, size := Run(p, bs, m), TensorSize(bs, m);
    LaidBeside(p, s, size, i);
    PlacedAt(p, s, size);
    StepIs(p, bs, m, l);
  }

  lemma StepIs(p: Params, bs: seq<Boundary>, m: nat, l: nat)
    requires p.Valid() && WellFormed(bs) && l == m + 1 < |bs| && IsTensor(bs, m)
    ensures Run(p, bs, l) == PlaceTensor(p, Run(p, bs, m), TensorSize(bs, m))
  {
  }

  /** Laid after a wrap, exactly if its last chunk stops short of the one before. */
  lemma WrappedReached(p: Params, bs: seq<Boundary>, m: nat, l: nat)
    requires p.Valid() && WellFormed(bs) && Successor(bs, m) && l == m + 1
    requires MustWrap(p, Run(p, bs, m), TensorSize(bs, m))
    ensures var i, k, r := Before(bs, m), |Run(p, bs, l).chunks|, Compute(p, bs);
            && i + 1 < |r.tensors| && r.tensors[i + 1].lastChunk == k && k < |r.chunks|
            && (k <= r.tensors[i].prefetchChunk <==> EndsBy(p, r, k, r.tensors[i].deviceOffset))
  {
    var i := Before(bs, m);
    var at := ThreatAfterWrap(p, bs, m, l, i);
    WrappedStep(p, bs, m, l, i, at);
    WrappedLimit(p, bs, l, i, at);
  }

  lemma WrappedStep(p: Params, bs: seq<Boundary>, m: nat, l: nat, i: nat, at: nat)
    requires p.Valid() && WellFormed(bs) && Successor(bs, m) && l == m + 1
    requires MustWrap(p, Run(p, bs, m), TensorSize(bs, m))
    requires Threatened(Wrap(p, Run(p, bs, m)), i, at) && i + 1 == |Run(p, bs, m).tensors|
    ensures OverOrNot(Run(p, bs, l), i, at)
  {
    WrappedTensor(p, Run(p, bs, m), TensorSize(bs, m), i, at);
    StepIs(p, bs, m, l);
  }

  lemma WrappedTensor(p: Params, s: Cursor, size: nat, i: nat, at: nat)
    requires p.Valid() && Counters(s) && s.size <= p.chunk && MustWrap(p, s, size) && size > 0
    requires Threatened(Wrap(p, s), i, at) && i + 1 == |s.tensors|
    ensures OverOrNot(PlaceTensor(p, s, size), i, at)
  {
    PageWithinChunk(p);
    LaidBehind(p, Wrap(p, s), size, i, at);
  }

  /** Tensor `i + 1` has just been laid in the lap after tensor `i`'s. */
  predicate OverOrNot(r: Cursor, i: nat, at: nat) {
    && i + 1 < |r.tensors| && r.tensors[i + 1].lastChunk == |r.chunks| && r.size > 0
    && (AtRisk(r, i, |r.chunks|) || Passed(r, i, at))
  }

  lemma WrappedLimit(p: Params, bs: seq<Boundary>, l: nat, i: nat, at: nat)
    requires p.Valid() && WellFormed(bs) && l < |bs|
    requires OverOrNot(Run(p, bs, l), i, at) && Run(p, bs, l).tensors[i].deviceOffset == at
    ensures var k, r := |Run(p, bs, l).chunks|, Compute(p, bs);
            && i + 1 < |r.tensors| && r.tensors[i + 1].lastChunk == k && k < |r.chunks|
            && (k <= r.tensors[i].prefetchChunk <==> EndsBy(p, r, k, r.tensors[i].deviceOffset))
  {
    var k := |Run(p, bs, l).chunks|;
    RecordKept(p, bs, l, i);
    RecordKept(p, bs, l, i + 1);
    LaterLimit(p, bs, l, i, k, at);
  }

  /** After the wrap the last tensor of the old lap is threatened. */
  lemma ThreatAfterWrap(p: Params, bs: seq<Boundary>, m: nat, l: nat, i: nat) returns (at: nat)
    requires p.Valid() && WellFormed(bs) && Successor(bs, m) && l == m + 1 && i == Before(bs, m)
    requires MustWrap(p, Run(p, bs, m), TensorSize(bs, m))
    ensures Threatened(Wrap(p, Run(p, bs, m)), i, at) && i + 1 == |Run(p, bs, m).tensors|
    ensures i < |Run(p, bs, l).tensors| && Run(p, bs, l).tensors[i].deviceOffset == at
  {
    RunFollowsInput(p, bs, m);
    RunLastTensorCurrent(p, bs, m);
    BeginOrdered(p, bs, l, i);
    at := Wrap(p, Run(p, bs, m)).tensors[i].deviceOffset;
    StepKeepsRecord(p, bs, l, i);
  }

  /** A tensor with bytes is read in full within the limit of the one before it if and only if it
      was laid without starting a new lap, or its last chunk ends before that tensor begins. */
  lemma NextReached(p: Params, bs: seq<Boundary>, m: nat)
    requires p.Valid() && WellFormed(bs) && Successor(bs, m)
    ensures var i, r := Before(bs, m), Compute(p, bs);
            && i + 1 < |r.tensors|
            && (r.tensors[i + 1].lastChunk <= r.tensors[i].prefetchChunk
                <==> (!MustWrap(p, Run(p, bs, m), TensorSize(bs, m))
                      || EndsBy(p, r, r.tensors[i + 1].lastChunk, r.tensors[i].deviceOffset)))
  {
    if MustWrap(p, Run(p, bs, m), TensorSize(bs, m)) {
      WrappedReached(p, bs, m, m + 1);
    } else {
      BesideReached(p, bs, m, m + 1);
    }
  }
}
