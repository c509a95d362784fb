/** The three stages a posted chunk goes through (csrc/loader_io_aio.cpp): its read
    completes in the kernel, the single cuda_thread collects completion events and copies,
    and the single wait_thread reports the chunk done to the loader. Events are collected
    by whichever task is waiting, so the task of one chunk may take the event of another.
    io_uring's path has the same accounting with no separate submitting thread. */
module Pipeline {

  /** Capacity of every executor queue, `MAX_IO_DEPTH`. */
  const CAPACITY: nat := 1024

  /** What a rank has to read for each chunk: zero bytes means no read is submitted.
      `lastPage` tells which reads go through the last-page reader thread. */
  datatype Work = Work(logical: nat -> nat, lastPage: nat -> bool, depth: nat) {
    predicate Valid() {
      0 < depth <= CAPACITY
    }
  }

  datatype State = State(
    posted: nat, reaped: nat,
    toSubmit: set<nat>, kernel: set<nat>, arrived: map<nat, nat>,
    unfinished: map<nat, int>, got: map<nat, nat>,
    cudaQueue: seq<nat>, cudaBusy: seq<nat>, cudaResults: seq<nat>, copied: set<nat>,
    waitQueue: seq<nat>, waitBusy: seq<nat>, waitResults: seq<nat>)

  predicate Init(s: State) {
    s == State(0, 0, {}, {}, map[], map[], map[], [], [], [], {}, [], [], [])
  }

  // ---------------------------------------------------------------------- steps

  /** The loader posts the next chunk: it submits the read (or leaves that to the last-page
      thread), then hands one task to each thread. Both pushes need room. */
  predicate Post(w: Work, s: State, s': State) {
    var c := s.posted;
    && c < s.reaped + w.depth
    && |s.cudaQueue| < CAPACITY && |s.waitQueue| < CAPACITY
    && s' == s.(posted := c + 1,
                unfinished := s.unfinished[c := if w.logical(c) > 0 then 1 else 0],
                toSubmit := s.toSubmit + if w.logical(c) > 0 && w.lastPage(c) then {c} else {},
                kernel := s.kernel + if w.logical(c) > 0 && !w.lastPage(c) then {c} else {},
                cudaQueue := s.cudaQueue + [c],
                waitQueue := s.waitQueue + [c])
  }

  /** The last-page thread submits its read. */
  predicate SubmitLastPage(s: State, s': State, c: nat) {
    && c in s.toSubmit
    && s' == s.(toSubmit := s.toSubmit - {c}, kernel := s.kernel + {c})
  }

  /** The kernel completes a read of `n` bytes, in any order. */
  predicate Complete(s: State, s': State, c: nat, n: nat) {
    && c in s.kernel
    && s' == s.(kernel := s.kernel - {c}, arrived := s.arrived[c := n])
  }

  predicate CudaTake(s: State, s': State) {
    && s.cudaBusy == [] && s.cudaQueue != []
    && s' == s.(cudaBusy := [s.cudaQueue[0]], cudaQueue := s.cudaQueue[1..])
  }

  /** The running cuda task, its own read submitted but not accounted for, takes an event
      `e` that is not a short read, and accounts it to the event's chunk. */
  predicate CudaEvent(w: Work, s: State, s': State, e: nat) {
    && |s.cudaBusy| == 1
    && var c := s.cudaBusy[0];
    && c !in s.toSubmit && c in s.unfinished && s.unfinished[c] > 0
    && e in s.arrived && s.arrived[e] >= w.logical(e) && e in s.unfinished
    && s' == s.(arrived := s.arrived - {e},
                unfinished := s.unfinished[e := s.unfinished[e] - 1],
                got := s.got[e := s.arrived[e]])
  }

  /** The running cuda task finds its count at zero, copies, and delivers its result. */
  predicate CudaFinish(s: State, s': State) {
    && |s.cudaBusy| == 1
    && var c := s.cudaBusy[0];
    && c !in s.toSubmit && c in s.unfinished && s.unfinished[c] <= 0
    && |s.cudaResults| < CAPACITY
    && s' == s.(cudaBusy := [], cudaResults := s.cudaResults + [c], copied := s.copied + {c})
  }

  predicate WaitTake(s: State, s': State) {
    && s.waitBusy == [] && s.waitQueue != []
    && s' == s.(waitBusy := [s.waitQueue[0]], waitQueue := s.waitQueue[1..])
  }

  /** The running wait task reaps its cuda task and delivers its own result. */
  predicate WaitFinish(s: State, s': State) {
    && |s.waitBusy| == 1 && s.cudaResults != [] && s.cudaResults[0] == s.waitBusy[0]
    && |s.waitResults| < CAPACITY
    && s' == s.(waitBusy := [], cudaResults := s.cudaResults[1..], waitResults := s.waitResults + s.waitBusy)
  }

  /** The loader reaps the next chunk. */
  predicate LoaderReap(s: State, s': State) {
    && s.waitResults != [] && s.waitResults[0] == s.reaped
    && s' == s.(waitResults := s.waitResults[1..], reaped := s.reaped + 1)
  }

  /** What the threads and the kernel do, without the loader. */
  ghost predicate ThreadStep(w: Work, s: State, s': State) {
    || (exists c :: SubmitLastPage(s, s', c))
    || (exists c, n :: Complete(s, s', c, n))
    || CudaTake(s, s') || (exists e :: CudaEvent(w, s, s', e)) || CudaFinish(s, s')
    || WaitTake(s, s') || WaitFinish(s, s')
  }

  ghost predicate Next(w: Work, s: State, s': State) {
    Post(w, s, s') || ThreadStep(w, s, s') || LoaderReap(s, s')
  }

  ghost predicate IsRun(w: Work, run: seq<State>) {
    && |run| > 0 && Init(run[0])
    && forall i :: 0 <= i < |run| - 1 ==> Next(w, run[i], run[i + 1])
  }

  // ------------------------------------------------------------------- invariant

  function Interval(a: nat, b: nat): (r: seq<nat>)
    requires a <= b
    ensures |r| == b - a && forall i :: 0 <= i < b - a ==> r[i] == a + i
  {
    seq(b - a, i requires 0 <= i => a + i)
  }

  /** Each thread's queues hold, front to back, exactly the chunks not yet past it. */
  ghost predicate QueuesInOrder(s: State) {
    && s.reaped <= s.posted && |s.cudaBusy| <= 1 && |s.waitBusy| <= 1
    && s.waitResults + s.waitBusy + s.waitQueue == Interval(s.reaped, s.posted)
    && |s.waitBusy + s.waitQueue| <= s.posted
    && s.cudaResults + s.cudaBusy + s.cudaQueue
       == Interval(s.posted - |s.waitBusy + s.waitQueue|, s.posted)
  }

  /** Handed out to be read, and not yet read. */
  predicate Outstanding(s: State, c: nat) {
    c in s.toSubmit || c in s.kernel
  }

  /** A chunk's count is one while its read is outstanding anywhere, else zero; a read
      whose count reached zero was collected in full. */
  ghost predicate Accounted(w: Work, s: State, c: nat) {
    && c in s.unfinished
    && (c in s.toSubmit ==> c !in s.kernel) && (Outstanding(s, c) ==> c !in s.arrived)
    && s.unfinished[c] == (if Outstanding(s, c) || c in s.arrived then 1 else 0)
    && (s.unfinished[c] == 0 && w.logical(c) > 0 ==> c in s.got && s.got[c] >= w.logical(c))
    && (w.logical(c) == 0 ==> s.unfinished[c] == 0)
  }

  ghost predicate Inv(w: Work, s: State) {
    && s.posted <= s.reaped + w.depth
    && QueuesInOrder(s)
    && (forall c :: c in s.unfinished ==> c < s.posted)
    && (forall c {:trigger c in s.toSubmit} :: c in s.toSubmit ==> c < s.posted)
    && (forall c {:trigger c in s.kernel} :: c in s.kernel ==> c < s.posted)
    && (forall c {:trigger c in s.arrived} :: c in s.arrived ==> c < s.posted)
    && (forall c {:trigger Accounted(w, s, c)} :: 0 <= c < s.posted ==> Accounted(w, s, c))
    && (forall c :: c in s.copied ==> c < s.posted && c in s.unfinished && s.unfinished[c] == 0)
  }

  lemma PostKeepsQueues(w: Work, s: State, s': State)
    requires w.Valid() && QueuesInOrder(s) && Post(w, s, s')
    ensures QueuesInOrder(s')
  {
    var c := s.posted;
    var pending := |s.waitBusy + s.waitQueue|;
    assert s'.waitResults + s'.waitBusy + s'.waitQueue == s.waitResults + s.waitBusy + s.waitQueue + [c];
    assert Interval(s.reaped, c + 1) == Interval(s.reaped, c) + [c];
    assert s'.cudaResults + s'.cudaBusy + s'.cudaQueue == s.cudaResults + s.cudaBusy + s.cudaQueue + [c];
    assert Interval(c - pending, c + 1) == Interval(c - pending, c) + [c];
  }

  lemma CudaKeepsQueues(w: Work, s: State, s': State)
    requires QueuesInOrder(s) && (CudaTake(s, s') || CudaFinish(s, s'))
    ensures QueuesInOrder(s')
  {
    assert s'.cudaResults + s'.cudaBusy + s'.cudaQueue == s.cudaResults + s.cudaBusy + s.cudaQueue;
  }

  lemma WaitKeepsQueues(s: State, s': State)
    requires QueuesInOrder(s) && (WaitTake(s, s') || WaitFinish(s, s') || LoaderReap(s, s'))
    ensures QueuesInOrder(s')
  {
    if WaitTake(s, s') {
      assert s'.waitResults + s'.waitBusy + s'.waitQueue == s.waitResults + s.waitBusy + s.waitQueue;
      assert |s'.waitBusy + s'.waitQueue| == |s.waitBusy + s.waitQueue|;
    } else if WaitFinish(s, s') {
      assert s'.waitResults + s'.waitBusy + s'.waitQueue == s.waitResults + s.waitBusy + s.waitQueue;
      var pending := |s.waitBusy + s.waitQueue|;
      assert |s'.waitBusy + s'.waitQueue| == pending - 1;
      assert s'.cudaResults + s'.cudaBusy + s'.cudaQueue == (s.cudaResults + s.cudaBusy + s.cudaQueue)[1..];
      assert Interval(s.posted - pending + 1, s.posted) == Interval(s.posted - pending, s.posted)[1..];
    } else {
      assert s'.waitResults + s'.waitBusy + s'.waitQueue == (s.waitResults + s.waitBusy + s.waitQueue)[1..];
      assert Interval(s.reaped + 1, s.posted) == Interval(s.reaped, s.posted)[1..];
    }
  }

  lemma EventKeepsAccounts(w: Work, s: State, s': State)
    requires Inv(w, s)
    requires (exists c :: SubmitLastPage(s, s', c)) || (exists c, n :: Complete(s, s', c, n))
          || (exists e :: CudaEvent(w, s, s', e))
    ensures Inv(w, s')
  {
    if e :| CudaEvent(w, s, s', e) {
      assert Accounted(w, s, e);
    }
    forall c | 0 <= c < s'.posted ensures Accounted(w, s', c) {
      assert Accounted(w, s, c);
    }
  }

  lemma PostKeepsAccounts(w: Work, s: State, s': State)
    requires w.Valid() && Inv(w, s) && Post(w, s, s')
    ensures Inv(w, s')
  {
    PostKeepsQueues(w, s, s');
    forall c | 0 <= c < s'.posted ensures Accounted(w, s', c) {
      if c < s.posted {
        PostKeepsAccount(w, s, s', c);
      } else {
        PostOpensAccount(w, s, s');
      }
    }
  }

  lemma PostKeepsAccount(w: Work, s: State, s': State, c: nat)
    requires Inv(w, s) && Post(w, s, s') && c < s.posted
    ensures Accounted(w, s', c)
  {
    assert Accounted(w, s, c);
    assert c != s.posted;
    assert s'.unfinished[c] == s.unfinished[c];
    assert c in s'.toSubmit <==> c in s.toSubmit;
    assert c in s'.kernel <==> c in s.kernel;
  }

  lemma PostOpensAccount(w: Work, s: State, s': State)
    requires w.Valid() && Inv(w, s) && Post(w, s, s')
    ensures Accounted(w, s', s.posted)
  {
    var c := s.posted;
    assert !Outstanding(s, c) && c !in s.arrived;
    assert Outstanding(s', c) <==> w.logical(c) > 0;
  }

  lemma QueueStepKeepsAccounts(w: Work, s: State, s': State)
    requires Inv(w, s)
    requires CudaTake(s, s') || CudaFinish(s, s') || WaitTake(s, s') || WaitFinish(s, s') || LoaderReap(s, s')
    ensures Inv(w, s')
  {
    if CudaTake(s, s') || CudaFinish(s, s') {
      CudaKeepsQueues(w, s, s');
      if CudaFinish(s, s') {
        var c := s.cudaBusy[0];
        assert c in s.unfinished;
        assert Accounted(w, s, c);
      }
    } else {
      WaitKeepsQueues(s, s');
    }
    forall c | 0 <= c < s'.posted ensures Accounted(w, s', c) {
      assert Accounted(w, s, c);
    }
  }

  lemma NextPreserves(w: Work, s: State, s': State)
    requires w.Valid() && Inv(w, s) && Next(w, s, s')
    ensures Inv(w, s')
  {
    if Post(w, s, s') {
      PostKeepsAccounts(w, s, s');
    } else if CudaTake(s, s') || CudaFinish(s, s') || WaitTake(s, s') || WaitFinish(s, s') || LoaderReap(s, s') {
      QueueStepKeepsAccounts(w, s, s');
    } else {
      EventKeepsAccounts(w, s, s');
    }
  }

  lemma {:induction false} RunKeepsInv(w: Work, run: seq<State>, i: nat)
    requires w.Valid() && IsRun(w, run) && i < |run|
    ensures Inv(w, run[i])
  {
    if i == 0 {
      assert Interval(0, 0) == [];
    } else {
      RunKeepsInv(w, run, i - 1);
      NextPreserves(w, run[i - 1], run[i]);
    }
  }

  // ------------------------------------------------------------------- theorems

  /** No count ever falls below zero, although tasks collect each other's events. */
  lemma CountsNeverNegative(w: Work, run: seq<State>, i: nat, c: nat)
    requires w.Valid() && IsRun(w, run) && i < |run| && c in run[i].unfinished
    ensures 0 <= run[i].unfinished[c] <= 1
  {
    RunKeepsInv(w, run, i);
    assert Accounted(w, run[i], c);
  }

  /** A cuda task that still has to wait has its own event in the kernel or arrived: the
      blocking wait always has something to return. */
  lemma BlockedWaitHasEvent(w: Work, run: seq<State>, i: nat)
    requires w.Valid() && IsRun(w, run) && i < |run| && |run[i].cudaBusy| == 1
    requires var c := run[i].cudaBusy[0];
             c !in run[i].toSubmit && c in run[i].unfinished && run[i].unfinished[c] > 0
    ensures run[i].cudaBusy[0] in run[i].kernel || run[i].cudaBusy[0] in run[i].arrived
  {
    RunKeepsInv(w, run, i);
    assert Accounted(w, run[i], run[i].cudaBusy[0]);
  }

  /** Whatever was copied to the device had been read in full. */
  lemma CopiedWasRead(w: Work, run: seq<State>, i: nat, c: nat)
    requires w.Valid() && IsRun(w, run) && i < |run| && c in run[i].copied && w.logical(c) > 0
    ensures c in run[i].got && run[i].got[c] >= w.logical(c)
  {
    RunKeepsInv(w, run, i);
    assert Accounted(w, run[i], c);
  }

  /** Outstanding chunks never exceed the depth, so no queue is full when a push comes. */
  lemma QueuesNeverFull(w: Work, run: seq<State>, i: nat)
    requires w.Valid() && IsRun(w, run) && i < |run|
    ensures var s := run[i];
            && |s.waitResults| + |s.waitBusy| + |s.waitQueue| == s.posted - s.reaped <= w.depth
            && |s.cudaResults| + |s.cudaBusy| + |s.cudaQueue| <= s.posted - s.reaped
            && (s.posted < s.reaped + w.depth ==> |s.cudaQueue| < CAPACITY && |s.waitQueue| < CAPACITY)
            && (|s.cudaBusy| == 1 ==> |s.cudaResults| < CAPACITY)
            && (|s.waitBusy| == 1 ==> |s.waitResults| < CAPACITY)
  {
    RunKeepsInv(w, run, i);
    var s := run[i];
    assert |s.waitResults + s.waitBusy + s.waitQueue| == s.posted - s.reaped;
    assert |s.cudaResults + s.cudaBusy + s.cudaQueue| == |s.waitBusy + s.waitQueue|;
  }

  /** Events that arrive are never short. */
  ghost predicate NoShortReads(w: Work, s: State) {
    forall c :: c in s.arrived ==> s.arrived[c] >= w.logical(c)
  }

  /** The pipeline never deadlocks: with a posted chunk outstanding, a thread or the kernel can
      move unless every outstanding chunk waits to be reaped, and then the loader can reap. */
  lemma NeverDeadlocks(w: Work, run: seq<State>, i: nat) returns (s': State)
    requires w.Valid() && IsRun(w, run) && i < |run| && NoShortReads(w, run[i])
    requires run[i].reaped < run[i].posted
    ensures run[i].waitBusy + run[i].waitQueue != [] ==> ThreadStep(w, run[i], s')
    ensures run[i].waitBusy + run[i].waitQueue == [] ==> LoaderReap(run[i], s')
  {
    RunKeepsInv(w, run, i);
    QueuesNeverFull(w, run, i);
    var s := run[i];
    var all := s.waitResults + s.waitBusy + s.waitQueue;
    if s.waitBusy != [] {
      s' := CudaSideMoves(w, s);
    } else if s.waitQueue != [] {
      s' := s.(waitBusy := [s.waitQueue[0]], waitQueue := s.waitQueue[1..]);
      assert WaitTake(s, s');
    } else {
      assert all[0] == s.waitResults[0];
      s' := s.(waitResults := s.waitResults[1..], reaped := s.reaped + 1);
      assert LoaderReap(s, s');
    }
  }

  lemma CudaSideMoves(w: Work, s: State) returns (s': State)
    requires w.Valid() && Inv(w, s) && NoShortReads(w, s)
    requires |s.waitBusy| == 1 && |s.waitResults| < CAPACITY
    requires |s.cudaBusy| == 1 ==> |s.cudaResults| < CAPACITY
    ensures ThreadStep(w, s, s')
  {
    var c := s.waitBusy[0];
    var all := s.cudaResults + s.cudaBusy + s.cudaQueue;
    assert (s.waitResults + s.waitBusy + s.waitQueue)[|s.waitResults|] == c;
    assert |s.waitBusy + s.waitQueue| == 1 + |s.waitQueue|;
    assert all[0] == c;
    if s.cudaResults != [] {
      s' := s.(waitBusy := [], cudaResults := s.cudaResults[1..], waitResults := s.waitResults + s.waitBusy);
      assert WaitFinish(s, s');
    } else if s.cudaBusy == [] {
      s' := s.(cudaBusy := [s.cudaQueue[0]], cudaQueue := s.cudaQueue[1..]);
      assert CudaTake(s, s');
    } else {
      assert s.cudaBusy[0] == c && Accounted(w, s, c);
      if c in s.toSubmit {
        s' := s.(toSubmit := s.toSubmit - {c}, kernel := s.kernel + {c});
        assert SubmitLastPage(s, s', c);
      } else if c in s.kernel {
        s' := s.(kernel := s.kernel - {c}, arrived := s.arrived[c := w.logical(c)]);
        assert Complete(s, s', c, w.logical(c));
      } else if c in s.arrived {
        s' := s.(arrived := s.arrived - {c}, unfinished := s.unfinished[c := s.unfinished[c] - 1],
                 got := s.got[c := s.arrived[c]]);
        assert CudaEvent(w, s, s', c);
      } else {
        s' := s.(cudaBusy := [], cudaResults := s.cudaResults + [c], copied := s.copied + {c});
        assert CudaFinish(s, s');
      }
    }
  }
}
