/** Tensors of no bytes: exactly when the chunk recorded as their last is within their limit. */
module LayoutEmpty {
  import opened Layout
  import opened LayoutInvariant
  import opened LayoutSoundness

  // ------------------------------------------------------------------ what becomes of tensor `i`

  /** Chunk `k` exists, or will before tensor `i` can be retired, or the limit reaches it. */
  predicate Secure(s: Cursor, i: nat, k: int) {
    && i < |s.tensors|
    && if i < s.inBuffer then k <= s.tensors[i].prefetchChunk
       else k < |s.chunks| || (s.leftMost <= i && k == |s.chunks| && s.size > 0)
  }

  /** The limit is before chunk `k`. */
  predicate Doomed(s: Cursor, i: nat, k: int) {
    i < |s.tensors| && i < s.inBuffer && s.tensors[i].prefetchChunk < k
  }

  /** Chunk `k` is the next, and has no byte yet. */
  predicate Unmade(s: Cursor, i: nat, k: int) {
    i < |s.tensors| && s.inBuffer <= i && k == |s.chunks| && s.size == 0
  }

  /** Chunk `k` is being filled in the lap after tensor `i`'s. */
  predicate AtRisk(s: Cursor, i: nat, k: int) {
    && i < |s.tensors| && s.inBuffer <= i < s.leftMost && k == |s.chunks| && s.size > 0
    && forall j :: s.inBuffer <= j <= i ==> s.tensors[j].deviceOffset <= s.tensors[i].deviceOffset
  }

  /** Chunk `k` has been cut in that lap, and whether it reached tensor `i` decided the limit. */
  predicate Settled(p: Params, s: Cursor, i: nat, k: int, at: nat)
    requires p.Valid()
  {
    && 0 <= k < |s.chunks|
    && if End(p, s.chunks[k]) <= at then Secure(s, i, k) else Doomed(s, i, k)
  }

  predicate RiskOrSettled(p: Params, s: Cursor, i: nat, k: int, at: nat)
    requires p.Valid()
  {
    (AtRisk(s, i, k) && s.tensors[i].deviceOffset == at) || Settled(p, s, i, k, at)
  }

  // ------------------------------------------------------------------ secure stays secure

  lemma SecureFinish(p: Params, s: Cursor, i: nat, k: int)
    requires p.Valid() && Counters(s) && Secure(s, i, k)
    ensures var r := FinishChunk(p, s);
            Secure(r, i, k) && (r.inBuffer <= i ==> k < |r.chunks|)
  {
  }

  lemma SecureReset(p: Params, s: Cursor, i: nat, k: int, leftMost: nat)
    requires p.Valid() && Counters(s) && s.size < p.page && s.leftMost <= leftMost <= |s.tensors|
    requires Secure(s, i, k) && (s.inBuffer <= i ==> k < |s.chunks|)
    ensures var r := ResetBufferOffset(p, s, leftMost);
            Secure(r, i, k) && (r.inBuffer <= i ==> k < |r.chunks|)
  {
  }

  lemma {:induction false} SecureFill(p: Params, s: Cursor, left: nat, i: nat, k: int)
    requires p.Valid() && Counters(s) && s.size <= p.chunk && Secure(s.(size := s.size + left), i, k)
    ensures var (f, l) := FillChunks(p, s, left); Secure(f.(size := f.size + l), i, k)
    decreases left, s.size
  {
    if s.size + left > p.chunk {
      var g := FinishChunk(p, s.(size := p.chunk));
      SecureFinish(p, s.(size := p.chunk), i, k);
      SecureFill(p, g, left - (p.chunk - s.size), i, k);
    }
  }

  lemma SecurePlace(p: Params, s: Cursor, size: nat, i: nat, k: int)
    requires p.Valid() && Counters(s) && s.size <= p.chunk && Secure(s, i, k)
    ensures Secure(PlaceTensor(p, s, size), i, k)
  {
    PageWithinChunk(p);
    var w := WrapIfNeeded(p, s, size);
    if MustWrap(p, s, size) {
      SecureFinish(p, s, i, k);
      SecureReset(p, FinishChunk(p, s), i, k, |s.tensors|);
    }
    assert Secure(w.(size := w.size + size), i, k);
    SecureFill(p, w, size, i, k);
  }

  lemma SecureNextFile(p: Params, s: Cursor, b: Boundary, i: nat, k: int)
    requires p.Valid() && Counters(s) && Secure(s, i, k)
    ensures Secure(NextFile(p, s, b), i, k)
  {
    SecureFinish(p, s, i, k);
  }

  lemma SecureStep(p: Params, bs: seq<Boundary>, n: nat, i: nat, k: int)
    requires p.Valid() && WellFormed(bs) && 0 < n < |bs| && Secure(Run(p, bs, n - 1), i, k)
    ensures Secure(Run(p, bs, n), i, k)
  {
    if IsTensor(bs, n - 1) {
      SecurePlace(p, Run(p, bs, n - 1), TensorSize(bs, n - 1), i, k);
    } else {
      SecureNextFile(p, Run(p, bs, n - 1), bs[n], i, k);
    }
  }

  lemma SecureRun(p: Params, bs: seq<Boundary>, m: nat, n: nat, i: nat, k: int)
    requires p.Valid() && WellFormed(bs) && m <= n < |bs| && Secure(Run(p, bs, m), i, k)
    ensures Secure(Run(p, bs, n), i, k)
  {
    var run := Trajectory(p, bs);
    forall x | m < x <= n && Secure(run[x - 1], i, k) ensures Secure(run[x], i, k) {
      SecureStep(p, bs, x, i, k);
    }
    SecureAlong(run, m, n, i, k);
  }

  lemma {:induction false} SecureAlong(run: seq<Cursor>, m: nat, n: nat, i: nat, k: int)
    requires m <= n < |run| && Secure(run[m], i, k)
    requires forall x {:trigger run[x]} :: m < x <= n && Secure(run[x - 1], i, k) ==> Secure(run[x], i, k)
    ensures Secure(run[n], i, k)
    decreases n
  {
    if m < n {
      SecureAlong(run, m, n - 1, i, k);
    }
  }

  lemma SecureFinal(p: Params, s: Cursor, i: nat, k: int)
    requires p.Valid() && Counters(s) && Secure(s, i, k)
    ensures k <= Finalize(p, s).tensors[i].prefetchChunk
  {
    var f := FinishChunk(p, s);
    SecureFinish(p, s, i, k);
    SecureReset(p, f, i, k, |f.tensors|);
    var once := ResetBufferOffset(p, f, |f.tensors|);
    SecureReset(p, once, i, k, |once.tensors|);
  }

  // ------------------------------------------------------------------ doomed stays doomed

  lemma DoomedRun(p: Params, bs: seq<Boundary>, m: nat, i: nat, k: int)
    requires p.Valid() && WellFormed(bs) && m < |bs| && Doomed(Run(p, bs, m), i, k)
    ensures i < |Compute(p, bs).tensors| && Compute(p, bs).tensors[i].prefetchChunk < k
  {
    LimitGivenOnce(p, bs, m, i);
  }

  // ------------------------------------------------------------------ while no byte comes

  /** A step that brings no byte. */
  lemma UnmadeStep(p: Params, bs: seq<Boundary>, n: nat, i: nat, k: int)
    requires p.Valid() && WellFormed(bs) && 0 < n < |bs| && Unmade(Run(p, bs, n - 1), i, k)
    requires Run(p, bs, n).size == 0
    ensures Unmade(Run(p, bs, n), i, k) || Doomed(Run(p, bs, n), i, k)
  {
    var s := Run(p, bs, n - 1);
    assert FinishChunk(p, s) == s;
    if IsTensor(bs, n - 1) {
      EmptyPlace(p, s, TensorSize(bs, n - 1));
    }
  }

  /** Only an empty tensor leaves nothing pending; it cuts no chunk. */
  lemma EmptyPlace(p: Params, s: Cursor, size: nat)
    requires p.Valid() && Counters(s) && s.size == 0 && PlaceTensor(p, s, size).size == 0
    ensures size == 0
    ensures var w, r := WrapIfNeeded(p, s, size), PlaceTensor(p, s, size);
            && w.chunks == s.chunks && w.size == 0
            && r.chunks == w.chunks && r.inBuffer == w.inBuffer && r.leftMost == w.leftMost
            && |r.tensors| == |w.tensors| + 1 && r.tensors[..|w.tensors|] == w.tensors
  {
    PageWithinChunk(p);
    FillLeavesBytes(p, WrapIfNeeded(p, s, size), size);
  }

  lemma {:induction false} FillLeavesBytes(p: Params, s: Cursor, left: nat)
    requires p.Valid() && Counters(s) && s.size <= p.chunk
    ensures var (f, l) := FillChunks(p, s, left); f.size + l > 0 <==> s.size + left > 0
    decreases left, s.size
  {
    if s.size + left > p.chunk {
      FillLeavesBytes(p, FinishChunk(p, s.(size := p.chunk)), left - (p.chunk - s.size));
    }
  }

  /** The first state after boundary `n` with bytes pending. */
  predicate FirstBytes(p: Params, bs: seq<Boundary>, n: nat, m: nat)
    requires p.Valid() && WellFormed(bs)
  {
    n < m < |bs| && Run(p, bs, m).size > 0 && Quiet(Trajectory(p, bs), n, m - 1)
  }

  /** No bytes pending after boundary `n`, up to `m`. */
  predicate Quiet(run: seq<Cursor>, n: nat, m: nat) {
    m < |run| && forall x :: n < x <= m ==> run[x].size == 0
  }

  lemma UnmadeRun(p: Params, bs: seq<Boundary>, n: nat, m: nat, i: nat, k: int)
    requires p.Valid() && WellFormed(bs) && n <= m < |bs| && Unmade(Run(p, bs, n), i, k)
    requires Quiet(Trajectory(p, bs), n, m)
    ensures Unmade(Run(p, bs, m), i, k) || DoomedBy(p, bs, m, i, k)
  {
    var run := Trajectory(p, bs);
    forall x | n < x <= m && Unmade(run[x - 1], i, k) ensures Unmade(run[x], i, k) || Doomed(run[x], i, k) {
      UnmadeStep(p, bs, x, i, k);
    }
    UnmadeAlong(run, n, m, i, k);
    if x: nat :| x <= m && Doomed(run[x], i, k) {
      assert Doomed(Run(p, bs, x), i, k);
    }
  }

  /** Tensor `i` was retired before chunk `k` by boundary `m`. */
  ghost predicate DoomedBy(p: Params, bs: seq<Boundary>, m: nat, i: nat, k: int)
    requires p.Valid() && WellFormed(bs) && m < |bs|
  {
    exists x: nat :: x <= m && Doomed(Run(p, bs, x), i, k)
  }

  lemma {:induction false} UnmadeAlong(run: seq<Cursor>, m: nat, n: nat, i: nat, k: int)
    requires m <= n < |run| && Unmade(run[m], i, k)
    requires forall x {:trigger run[x]} ::
      m < x <= n && Unmade(run[x - 1], i, k) ==> Unmade(run[x], i, k) || Doomed(run[x], i, k)
    ensures Unmade(run[n], i, k) || exists x: nat :: x <= n && Doomed(run[x], i, k)
    decreases n
  {
    if m < n {
      UnmadeAlong(run, m, n - 1, i, k);
      assert Unmade(run[n - 1], i, k) ==> Unmade(run[n], i, k) || Doomed(run[n], i, k);
    }
  }

  lemma UnmadeFinal(p: Params, s: Cursor, i: nat, k: int)
    requires p.Valid() && Counters(s) && Unmade(s, i, k)
    ensures Finalize(p, s).tensors[i].prefetchChunk == k - 1
  {
    assert FinishChunk(p, s) == s;
  }

  // ------------------------------------------------------------------ at risk, until chunk `k` is cut

  lemma RiskFinish(p: Params, s: Cursor, i: nat, k: int, at: nat)
    requires p.Valid() && Counters(s) && RiskOrSettled(p, s, i, k, at)
    ensures Settled(p, FinishChunk(p, s), i, k, at)
  {
    var r := FinishChunk(p, s);
    if Settled(p, s, i, k, at) {
      assert r.chunks[k] == s.chunks[k];
    } else {
      assert r.chunks == s.chunks + [Pending(s)];
      assert r.inBuffer <= i ==> s.tensors[r.inBuffer].deviceOffset <= at;
    }
  }

  lemma SettledReset(p: Params, s: Cursor, i: nat, k: int, at: nat, leftMost: nat)
    requires p.Valid() && Counters(s) && s.size < p.page && s.leftMost <= leftMost <= |s.tensors|
    requires Settled(p, s, i, k, at)
    ensures Settled(p, ResetBufferOffset(p, s, leftMost), i, k, at)
  {
  }

  lemma {:induction false} RiskFill(p: Params, s: Cursor, left: nat, i: nat, k: int, at: nat)
    requires p.Valid() && Counters(s) && s.size <= p.chunk && RiskOrSettled(p, s.(size := s.size + left), i, k, at)
    ensures var (f, l) := FillChunks(p, s, left); RiskOrSettled(p, f.(size := f.size + l), i, k, at)
    decreases left, s.size
  {
    if s.size + left > p.chunk {
      var full := s.(size := p.chunk);
      assert RiskOrSettled(p, full, i, k, at);
      RiskFinish(p, full, i, k, at);
      var g, rest := FinishChunk(p, full), left - (p.chunk - s.size);
      assert Settled(p, g.(size := g.size + rest), i, k, at);
      RiskFill(p, g, rest, i, k, at);
    }
  }

  lemma RiskPlace(p: Params, s: Cursor, size: nat, i: nat, k: int, at: nat)
    requires p.Valid() && Counters(s) && s.size <= p.chunk && RiskOrSettled(p, s, i, k, at)
    ensures RiskOrSettled(p, PlaceTensor(p, s, size), i, k, at)
  {
    PageWithinChunk(p);
    var w := WrapIfNeeded(p, s, size);
    if MustWrap(p, s, size) {
      RiskFinish(p, s, i, k, at);
      SettledReset(p, FinishChunk(p, s), i, k, at, |s.tensors|);
    }
    assert RiskOrSettled(p, w.(size := w.size + size), i, k, at);
    RiskLay(p, w, size, i, k, at);
  }

  lemma RiskLay(p: Params, w: Cursor, size: nat, i: nat, k: int, at: nat)
    requires p.Valid() && Counters(w) && w.size <= p.chunk && RiskOrSettled(p, w.(size := w.size + size), i, k, at)
    ensures RiskOrSettled(p, Lay(p, w, size), i, k, at)
  {
    RiskFill(p, w, size, i, k, at);
  }

  lemma RiskStep(p: Params, bs: seq<Boundary>, n: nat, i: nat, k: int, at: nat)
    requires p.Valid() && WellFormed(bs) && 0 < n < |bs| && RiskOrSettled(p, Run(p, bs, n - 1), i, k, at)
    ensures RiskOrSettled(p, Run(p, bs, n), i, k, at)
  {
    if IsTensor(bs, n - 1) {
      RiskPlace(p, Run(p, bs, n - 1), TensorSize(bs, n - 1), i, k, at);
    } else {
      RiskNextFile(p, Run(p, bs, n - 1), bs[n], i, k, at);
    }
  }

  lemma RiskRun(p: Params, bs: seq<Boundary>, m: nat, n: nat, i: nat, k: int, at: nat)
    requires p.Valid() && WellFormed(bs) && m <= n < |bs| && RiskOrSettled(p, Run(p, bs, m), i, k, at)
    ensures RiskOrSettled(p, Run(p, bs, n), i, k, at)
  {
    var run := Trajectory(p, bs);
    forall x | m < x <= n && RiskOrSettled(p, run[x - 1], i, k, at) ensures RiskOrSettled(p, run[x], i, k, at) {
      RiskStep(p, bs, x, i, k, at);
    }
    RiskAlong(p, run, m, n, i, k, at);
  }

  lemma {:induction false} RiskAlong(p: Params, run: seq<Cursor>, m: nat, n: nat, i: nat, k: int, at: nat)
    requires p.Valid() && m <= n < |run| && RiskOrSettled(p, run[m], i, k, at)
    requires forall x {:trigger run[x]} :: m < x <= n && RiskOrSettled(p, run[x - 1], i, k, at) ==> RiskOrSettled(p, run[x], i, k, at)
    ensures RiskOrSettled(p, run[n], i, k, at)
    decreases n
  {
    if m < n {
      RiskAlong(p, run, m, n - 1, i, k, at);
    }
  }

  lemma RiskNextFile(p: Params, s: Cursor, b: Boundary, i: nat, k: int, at: nat)
    requires p.Valid() && Counters(s) && RiskOrSettled(p, s, i, k, at)
    ensures RiskOrSettled(p, NextFile(p, s, b), i, k, at)
  {
    RiskFinish(p, s, i, k, at);
    assert Settled(p, NextFile(p, s, b), i, k, at);
  }

  /** In the end chunk `k` exists, and the limit reaches it exactly if it stops short of the tensor. */
  lemma RiskFinal(p: Params, s: Cursor, i: nat, k: int, at: nat)
    requires p.Valid() && Counters(s) && RiskOrSettled(p, s, i, k, at)
    ensures var r := Finalize(p, s);
            && i < |r.tensors| && 0 <= k < |r.chunks|
            && (k <= r.tensors[i].prefetchChunk <==> End(p, r.chunks[k]) <= at)
  {
    var f := FinishChunk(p, s);
    RiskFinish(p, s, i, k, at);
    SettledReset(p, f, i, k, at, |f.tensors|);
    var once := ResetBufferOffset(p, f, |f.tensors|);
    SettledReset(p, once, i, k, at, |once.tensors|);
    var r := ResetBufferOffset(p, once, |once.tensors|);
    assert r == Finalize(p, s) && Settled(p, r, i, k, at);
    assert r.inBuffer == |r.tensors|;
  }

  // ------------------------------------------------------------------ the step that brings bytes

  /** Where the first bytes after boundary `n` are laid: after the wrap, if there is one. */
  function Begin(p: Params, bs: seq<Boundary>, m: nat): (r: Cursor)
    requires p.Valid() && WellFormed(bs) && 0 < m < |bs|
    ensures Counters(r)
  {
    if IsTensor(bs, m - 1) then WrapIfNeeded(p, Run(p, bs, m - 1), TensorSize(bs, m - 1)) else Run(p, bs, m)
  }

  /** What `Begin` does to a state with nothing pending. */
  lemma BeginUnmade(p: Params, bs: seq<Boundary>, m: nat, i: nat, k: int)
    requires p.Valid() && WellFormed(bs) && 0 < m < |bs| && Unmade(Run(p, bs, m - 1), i, k)
    ensures var s, b := Run(p, bs, m - 1), Begin(p, bs, m);
            && |b.chunks| == k && i < |b.tensors| && b.tensors[i].deviceOffset == s.tensors[i].deviceOffset
            && (IsTensor(bs, m - 1) ==> b.size == 0)
            && (i < b.inBuffer ==> b.tensors[i].prefetchChunk == k - 1)
  {
    var s := Run(p, bs, m - 1);
    assert FinishChunk(p, s) == s;
  }

  /** Tensors of the previous lap lie left to right. */
  lemma BeginOrdered(p: Params, bs: seq<Boundary>, m: nat, i: nat)
    requires p.Valid() && WellFormed(bs) && 0 < m < |bs|
    ensures var b := Begin(p, bs, m);
            b.inBuffer <= i < b.leftMost ==>
              forall j :: b.inBuffer <= j <= i ==> b.tensors[j].deviceOffset <= b.tensors[i].deviceOffset
  {
    var b := Begin(p, bs, m);
    RunPreserves(p, bs, m - 1);
    RunPreserves(p, bs, m);
    if IsTensor(bs, m - 1) {
      WrapIfNeededPreserves(p, Run(p, bs, m - 1), LapStart(p, bs, m - 1), TensorSize(bs, m - 1));
    }
    if b.inBuffer <= i < b.leftMost {
      forall j | b.inBuffer <= j <= i ensures b.tensors[j].deviceOffset <= b.tensors[i].deviceOffset {
        assert LeftOf(b.tensors[j], b.tensors[i]);
      }
    }
  }

  /** The three outcomes when the first bytes come. */
  lemma BytesCome(p: Params, bs: seq<Boundary>, m: nat, i: nat, k: int)
    requires p.Valid() && WellFormed(bs) && 0 < m < |bs| && Unmade(Run(p, bs, m - 1), i, k)
    requires Run(p, bs, m).size > 0
    ensures var b, r := Begin(p, bs, m), Run(p, bs, m);
            && i < |b.tensors| && i < |r.tensors|
            && (i < b.inBuffer ==> Doomed(r, i, k))
            && (b.leftMost <= i ==> Secure(r, i, k))
            && (b.inBuffer <= i < b.leftMost ==> RiskOrSettled(p, r, i, k, b.tensors[i].deviceOffset))
  {
    BeginUnmade(p, bs, m, i, k);
    BeginOrdered(p, bs, m, i);
    if IsTensor(bs, m - 1) {
      PageWithinChunk(p);
      LaidBytes(p, Begin(p, bs, m), TensorSize(bs, m - 1), i, k);
    }
  }

  lemma LaidBytes(p: Params, w: Cursor, size: nat, i: nat, k: int)
    requires p.Valid() && Counters(w) && w.size == 0 && |w.chunks| == k && i < |w.tensors| && Lay(p, w, size).size > 0
    requires i < w.inBuffer ==> w.tensors[i].prefetchChunk == k - 1
    requires w.inBuffer <= i < w.leftMost ==>
      forall j :: w.inBuffer <= j <= i ==> w.tensors[j].deviceOffset <= w.tensors[i].deviceOffset
    ensures var r := Lay(p, w, size);
            && (i < w.inBuffer ==> Doomed(r, i, k))
            && (w.leftMost <= i ==> Secure(r, i, k))
            && (w.inBuffer <= i < w.leftMost ==> RiskOrSettled(p, r, i, k, w.tensors[i].deviceOffset))
  {
    FillLeavesBytes(p, w, size);
    if i < w.inBuffer {
      FillKeepsRetired(p, w, size, i);
    } else if w.leftMost <= i {
      SecureFill(p, w, size, i, k);
    } else {
      RiskLay(p, w, size, i, k, w.tensors[i].deviceOffset);
    }
  }

  // ------------------------------------------------------------------ the theorem

  /** The tensor of no bytes between boundaries `n` and `n + 1`. */
  predicate EmptyAt(bs: seq<Boundary>, n: nat)
    requires WellFormed(bs)
  {
    n < |bs| - 1 && IsTensor(bs, n) && bs[n + 1].offset == bs[n].offset
  }

  /** What is recorded of it. */
  lemma EmptyRecorded(p: Params, bs: seq<Boundary>, n: nat)
    requires p.Valid() && WellFormed(bs) && EmptyAt(bs, n)
    ensures var i, r := TensorId(bs, n), Run(p, bs, n + 1);
            && i < |r.tensors| && r.leftMost <= i && r.tensors[i].lastChunk == |r.chunks|
  {
    RunFollowsInput(p, bs, n);
    var s := Run(p, bs, n);
    var w := WrapIfNeeded(p, s, 0);
    PageWithinChunk(p);
    assert TensorSize(bs, n) == 0 && FillChunks(p, w, 0) == (w, 0);
    assert Run(p, bs, n + 1) == PlaceTensor(p, s, 0);
  }

  /** Its record is final but for the limit. */
  lemma RecordKept(p: Params, bs: seq<Boundary>, m: nat, i: nat)
    requires p.Valid() && WellFormed(bs) && m < |bs| && i < |Run(p, bs, m).tensors|
    ensures var t, u := Run(p, bs, m).tensors[i], Compute(p, bs).tensors;
            && i < |u| && u[i].lastChunk == t.lastChunk && u[i].deviceOffset == t.deviceOffset
  {
    RunKeepsRecord(p, bs, m, |bs| - 1, i);
    FinalizeKeepsRecord(p, Run(p, bs, |bs| - 1), i);
  }

  lemma FinalizeKeepsRecord(p: Params, s: Cursor, i: nat)
    requires p.Valid() && Counters(s) && i < |s.tensors|
    ensures SameRecord(s, Finalize(p, s), i)
  {
  }

  predicate SameRecord(s: Cursor, r: Cursor, i: nat) {
    && i < |s.tensors| && i < |r.tensors|
    && r.tensors[i].lastChunk == s.tensors[i].lastChunk && r.tensors[i].deviceOffset == s.tensors[i].deviceOffset
  }

  lemma RunKeepsRecord(p: Params, bs: seq<Boundary>, m: nat, n: nat, i: nat)
    requires p.Valid() && WellFormed(bs) && m <= n < |bs| && i < |Run(p, bs, m).tensors|
    ensures SameRecord(Run(p, bs, m), Run(p, bs, n), i)
  {
    var run := Trajectory(p, bs);
    forall k | m < k <= n && i < |run[k - 1].tensors| ensures SameRecord(run[k - 1], run[k], i) {
      StepKeepsRecord(p, bs, k, i);
    }
    RecordAlong(run, m, n, i);
  }

  lemma {:induction false} RecordAlong(run: seq<Cursor>, m: nat, n: nat, i: nat)
    requires m <= n < |run| && i < |run[m].tensors|
    requires forall k {:trigger run[k]} :: m < k <= n && i < |run[k - 1].tensors| ==> SameRecord(run[k - 1], run[k], i)
    ensures SameRecord(run[m], run[n], i)
    decreases n
  {
    if m < n {
      RecordAlong(run, m, n - 1, i);
    }
  }

  lemma StepKeepsRecord(p: Params, bs: seq<Boundary>, n: nat, i: nat)
    requires p.Valid() && WellFormed(bs) && 0 < n < |bs| && i < |Run(p, bs, n - 1).tensors|
    ensures SameRecord(Run(p, bs, n - 1), Run(p, bs, n), i)
  {
    var s := Run(p, bs, n - 1);
    if IsTensor(bs, n - 1) {
      PlaceTensorRecords(p, s, TensorSize(bs, n - 1));
    }
  }

  /** The bytes that come first after boundary `n` come in time for its empty tensor: with it,
      before any wrap, or after one wrap in a chunk that stops short of where it lies. */
  predicate InTime(p: Params, bs: seq<Boundary>, n: nat, m: nat)
    requires p.Valid() && WellFormed(bs) && EmptyAt(bs, n) && n < m < |bs|
  {
    var i, r := TensorId(bs, n), Compute(p, bs);
    || m == n + 1
    || (i < |r.tensors| && Arrives(p, Begin(p, bs, m), r, i, r.tensors[i].lastChunk, r.tensors[i].deviceOffset))
  }

  ghost predicate ReachesLast(p: Params, bs: seq<Boundary>, n: nat)
    requires p.Valid() && WellFormed(bs) && EmptyAt(bs, n)
  {
    var i, r := TensorId(bs, n), Compute(p, bs);
    i < |r.tensors| && r.tensors[i].lastChunk <= r.tensors[i].prefetchChunk
  }

  lemma SecureInTheEnd(p: Params, bs: seq<Boundary>, m: nat, i: nat, k: int)
    requires p.Valid() && WellFormed(bs) && m < |bs| && Secure(Run(p, bs, m), i, k)
    ensures var r := Compute(p, bs); i < |r.tensors| && k <= r.tensors[i].prefetchChunk
  {
    SecureRun(p, bs, m, |bs| - 1, i, k);
    SecureFinal(p, Run(p, bs, |bs| - 1), i, k);
  }

  lemma RiskInTheEnd(p: Params, bs: seq<Boundary>, m: nat, i: nat, k: int, at: nat)
    requires p.Valid() && WellFormed(bs) && m < |bs| && RiskOrSettled(p, Run(p, bs, m), i, k, at)
    ensures var r := Compute(p, bs);
            && i < |r.tensors| && 0 <= k < |r.chunks|
            && (k <= r.tensors[i].prefetchChunk <==> End(p, r.chunks[k]) <= at)
  {
    RiskRun(p, bs, m, |bs| - 1, i, k, at);
    RiskFinal(p, Run(p, bs, |bs| - 1), i, k, at);
  }

  /** Bytes of its own page. */
  lemma OwnBytes(p: Params, bs: seq<Boundary>, n: nat)
    requires p.Valid() && WellFormed(bs) && EmptyAt(bs, n) && Run(p, bs, n + 1).size > 0
    ensures ReachesLast(p, bs, n)
  {
    var i, r := TensorId(bs, n), Run(p, bs, n + 1);
    EmptyRecorded(p, bs, n);
    SecureNow(r, i, |r.chunks|);
    SecureInTheEnd(p, bs, n + 1, i, |r.chunks|);
    RecordKept(p, bs, n + 1, i);
  }

  lemma SecureNow(r: Cursor, i: nat, k: int)
    requires Counters(r) && i < |r.tensors| && r.leftMost <= i && k == |r.chunks| && r.size > 0
    ensures Secure(r, i, k)
  {
  }

  /** What the final layout says of tensor `i`, whose last chunk is `k` and which lies at `at`. */
  predicate Recorded(p: Params, bs: seq<Boundary>, i: nat, k: int, at: nat)
    requires p.Valid() && WellFormed(bs)
  {
    var r := Compute(p, bs);
    i < |r.tensors| && r.tensors[i].lastChunk == k && r.tensors[i].deviceOffset == at
  }

  /** Bytes laid from `b` on reach tensor `i` before the limit of layout `r`. */
  predicate Arrives(p: Params, b: Cursor, r: Cursor, i: nat, k: int, at: nat)
    requires p.Valid()
  {
    b.leftMost <= i || (b.inBuffer <= i && 0 <= k < |r.chunks| && End(p, r.chunks[k]) <= at)
  }

  /** Bytes that come later, in terms of the state that receives them. */
  lemma LaterOutcome(p: Params, bs: seq<Boundary>, m: nat, i: nat, k: int, at: nat)
    requires p.Valid() && WellFormed(bs) && 0 < m < |bs| && Run(p, bs, m).size > 0
    requires Unmade(Run(p, bs, m - 1), i, k) && Run(p, bs, m - 1).tensors[i].deviceOffset == at
    requires Recorded(p, bs, i, k, at)
    ensures i < |Compute(p, bs).tensors|
    ensures (k <= Compute(p, bs).tensors[i].prefetchChunk) <==> Arrives(p, Begin(p, bs, m), Compute(p, bs), i, k, at)
  {
    BeginUnmade(p, bs, m, i, k);
    BytesCome(p, bs, m, i, k);
    var b := Begin(p, bs, m);
    if i < b.inBuffer {
      DoomedRun(p, bs, m, i, k);
    } else if b.leftMost <= i {
      SecureInTheEnd(p, bs, m, i, k);
    } else {
      RiskInTheEnd(p, bs, m, i, k, at);
    }
  }

  /** No byte at all: the limit stays before the chunk that is never made. */
  lemma NoBytes(p: Params, bs: seq<Boundary>, n: nat, last: nat, i: nat, k: int)
    requires p.Valid() && WellFormed(bs) && n <= last == |bs| - 1 && Unmade(Run(p, bs, n), i, k)
    requires Quiet(Trajectory(p, bs), n, last)
    ensures i < |Compute(p, bs).tensors| && Compute(p, bs).tensors[i].prefetchChunk < k
  {
    UnmadeRun(p, bs, n, last, i, k);
    NoBytesOutcome(p, bs, last, i, k);
  }

  lemma NoBytesOutcome(p: Params, bs: seq<Boundary>, last: nat, i: nat, k: int)
    requires p.Valid() && WellFormed(bs) && last == |bs| - 1
    requires Unmade(Run(p, bs, last), i, k) || DoomedBy(p, bs, last, i, k)
    ensures i < |Compute(p, bs).tensors| && Compute(p, bs).tensors[i].prefetchChunk < k
  {
    if Unmade(Run(p, bs, last), i, k) {
      UnmadeFinal(p, Run(p, bs, last), i, k);
    } else {
      var x: nat :| x <= last && Doomed(Run(p, bs, x), i, k);
      DoomedRun(p, bs, x, i, k);
    }
  }

  /** Retired before any byte came. */
  lemma RetiredEarly(p: Params, bs: seq<Boundary>, x: nat, m: nat, i: nat, k: int)
    requires p.Valid() && WellFormed(bs) && x < m < |bs| && Doomed(Run(p, bs, x), i, k)
    ensures i < Begin(p, bs, m).inBuffer
    ensures i < |Compute(p, bs).tensors| && Compute(p, bs).tensors[i].prefetchChunk < k
  {
    DoomedRun(p, bs, x, i, k);
    RunCounters(p, bs, x);
    RunKeepsLimit(p, bs, x, m - 1, i);
    RunKeepsLimit(p, bs, x, m, i);
    BeginKeepsRetired(p, bs, m - 1, m, i);
  }

  lemma BeginKeepsRetired(p: Params, bs: seq<Boundary>, l: nat, m: nat, i: nat)
    requires p.Valid() && WellFormed(bs) && m == l + 1 < |bs|
    requires i < Run(p, bs, l).inBuffer && i < Run(p, bs, m).inBuffer
    ensures i < Begin(p, bs, m).inBuffer
  {
  }

  lemma EmptyUnmade(p: Params, bs: seq<Boundary>, n: nat)
    requires p.Valid() && WellFormed(bs) && EmptyAt(bs, n) && Run(p, bs, n + 1).size == 0
    ensures var i, s := TensorId(bs, n), Run(p, bs, n + 1);
            && i < |s.tensors| && Unmade(s, i, |s.chunks|)
            && Recorded(p, bs, i, |s.chunks|, s.tensors[i].deviceOffset)
  {
    EmptyRecorded(p, bs, n);
    RecordKept(p, bs, n + 1, TensorId(bs, n));
    UnmadeNow(Run(p, bs, n + 1), TensorId(bs, n));
  }

  lemma UnmadeNow(r: Cursor, i: nat)
    requires Counters(r) && i < |r.tensors| && r.leftMost <= i && r.size == 0
    ensures Unmade(r, i, |r.chunks|)
  {
  }

  /** Bytes that come later than the tensor's own step. */
  lemma LaterBytes(p: Params, bs: seq<Boundary>, n: nat, m: nat)
    requires p.Valid() && WellFormed(bs) && EmptyAt(bs, n) && FirstBytes(p, bs, n, m) && n + 1 < m
    ensures ReachesLast(p, bs, n) <==> InTime(p, bs, n, m)
  {
    EmptyUnmade(p, bs, n);
    var i, s := TensorId(bs, n), Run(p, bs, n + 1);
    LaterBytesFor(p, bs, n + 1, m - 1, m, i, |s.chunks|, s.tensors[i].deviceOffset);
    ArrivesInTime(p, bs, n, m, i, |s.chunks|, s.tensors[i].deviceOffset);
  }

  lemma LaterBytesFor(p: Params, bs: seq<Boundary>, n: nat, l: nat, m: nat, i: nat, k: int, at: nat)
    requires p.Valid() && WellFormed(bs) && n <= l && m == l + 1 < |bs|
    requires Quiet(Trajectory(p, bs), n, l) && Run(p, bs, m).size > 0
    requires Unmade(Run(p, bs, n), i, k) && Run(p, bs, n).tensors[i].deviceOffset == at
    requires Recorded(p, bs, i, k, at)
    ensures i < |Compute(p, bs).tensors|
    ensures (k <= Compute(p, bs).tensors[i].prefetchChunk) <==> Arrives(p, Begin(p, bs, m), Compute(p, bs), i, k, at)
  {
    UnmadeRun(p, bs, n, l, i, k);
    OffsetUntil(p, bs, n, l, i, at);
    LaterArrival(p, bs, l, m, i, k, at);
  }

  lemma OffsetUntil(p: Params, bs: seq<Boundary>, m: nat, n: nat, i: nat, at: nat)
    requires p.Valid() && WellFormed(bs) && m <= n < |bs| && i < |Run(p, bs, m).tensors|
    requires Run(p, bs, m).tensors[i].deviceOffset == at
    ensures i < |Run(p, bs, n).tensors| && Run(p, bs, n).tensors[i].deviceOffset == at
  {
    RunKeepsRecord(p, bs, m, n, i);
  }

  lemma ArrivesInTime(p: Params, bs: seq<Boundary>, n: nat, m: nat, i: nat, k: int, at: nat)
    requires p.Valid() && WellFormed(bs) && EmptyAt(bs, n) && n + 1 < m < |bs|
    requires i == TensorId(bs, n) && Recorded(p, bs, i, k, at)
    requires (k <= Compute(p, bs).tensors[i].prefetchChunk) <==> Arrives(p, Begin(p, bs, m), Compute(p, bs), i, k, at)
    ensures ReachesLast(p, bs, n) <==> InTime(p, bs, n, m)
  {
  }

  lemma LaterArrival(p: Params, bs: seq<Boundary>, l: nat, m: nat, i: nat, k: int, at: nat)
    requires p.Valid() && WellFormed(bs) && m == l + 1 < |bs| && Run(p, bs, m).size > 0
    requires Unmade(Run(p, bs, l), i, k) || DoomedBy(p, bs, l, i, k)
    requires i < |Run(p, bs, l).tensors| && Run(p, bs, l).tensors[i].deviceOffset == at
    requires Recorded(p, bs, i, k, at)
    ensures i < |Compute(p, bs).tensors|
    ensures (k <= Compute(p, bs).tensors[i].prefetchChunk) <==> Arrives(p, Begin(p, bs, m), Compute(p, bs), i, k, at)
  {
    if Unmade(Run(p, bs, l), i, k) {
      LaterOutcome(p, bs, m, i, k, at);
    } else {
      var x: nat :| x <= l && Doomed(Run(p, bs, x), i, k);
      RetiredEarly(p, bs, x, m, i, k);
      RunCounters(p, bs, m);
    }
  }

  lemma {:induction false} FirstExists(p: Params, bs: seq<Boundary>, n: nat, x: nat) returns (m: nat)
    requires p.Valid() && WellFormed(bs) && n < x < |bs| && Run(p, bs, x).size > 0
    ensures FirstBytes(p, bs, n, m) && m <= x
    decreases x
  {
    if y :| n < y < x && Run(p, bs, y).size > 0 {
      m := FirstExists(p, bs, n, y);
    } else {
      m := x;
    }
  }

  /** A tensor of no bytes has its last chunk within its limit if and only if bytes follow it,
      and the first that do come in time. */
  lemma EmptyTensorReached(p: Params, bs: seq<Boundary>, n: nat)
    requires p.Valid() && WellFormed(bs) && EmptyAt(bs, n)
    ensures ReachesLast(p, bs, n)
       <==> exists m: nat {:trigger FirstBytes(p, bs, n, m)} :: FirstBytes(p, bs, n, m) && InTime(p, bs, n, m)
  {
    if x: nat :| n < x < |bs| && Run(p, bs, x).size > 0 {
      var m := FirstExists(p, bs, n, x);
      if m == n + 1 {
        OwnBytes(p, bs, n);
      } else {
        LaterBytes(p, bs, n, m);
      }
      forall y: nat | FirstBytes(p, bs, n, y) ensures y == m {
      }
    } else {
      EmptyUnmade(p, bs, n);
      NoBytes(p, bs, n + 1, |bs| - 1, TensorId(bs, n), |Run(p, bs, n + 1).chunks|);
    }
  }

  /** So an empty tensor off a page boundary is always reached: the part of its page before it
      is pending. */
  lemma OffPageReached(p: Params, bs: seq<Boundary>, n: nat)
    requires p.Valid() && WellFormed(bs) && EmptyAt(bs, n) && bs[n].offset % p.page != 0
    ensures ReachesLast(p, bs, n)
  {
    PendingOffPage(p, bs, n + 1);
    OwnBytes(p, bs, n);
  }

  lemma PendingOffPage(p: Params, bs: seq<Boundary>, m: nat)
    requires p.Valid() && WellFormed(bs) && m < |bs| && bs[m].offset % p.page != 0
    ensures Run(p, bs, m).size > 0
  {
    RunFollowsInput(p, bs, m);
    FileOffsetOnPage(p, bs, m);
  }

  /** And one at the end of a file that ends on a page is not, if no bytes come after it. */
  lemma EmptyTensorStranded(p: Params, bs: seq<Boundary>, offset: nat)
    requires p.Valid() && offset % p.page == 0 && bs == [Boundary(0, offset), Boundary(0, offset)]
    ensures WellFormed(bs) && EmptyAt(bs, 0) && !ReachesLast(p, bs, 0)
    ensures Compute(p, bs).chunks == []
  {
    assert FollowsOn(bs[0], bs[1]);
    NothingPlaced(p, bs, 1);
    EmptyTensorReached(p, bs, 0);
  }

  lemma NothingPlaced(p: Params, bs: seq<Boundary>, n: nat)
    requires p.Valid() && WellFormed(bs) && |bs| == 2 && n == 1
    requires bs[0] == bs[1] && bs[0].offset % p.page == 0
    ensures Run(p, bs, n).size == 0 && Compute(p, bs).chunks == []
  {
    var s := Run(p, bs, n - 1);
    assert s.size == 0 && s.chunks == [] && FinishChunk(p, s) == s;
    PageWithinChunk(p);
    var w := WrapIfNeeded(p, s, 0);
    assert FillChunks(p, w, 0) == (w, 0);
    assert Run(p, bs, n) == PlaceTensor(p, s, 0);
  }
}
