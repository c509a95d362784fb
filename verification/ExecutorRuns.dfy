/** Runs of the executor (csrc/siphon/async_executor.hpp): the steps of `Executor` in any
    interleaving of submitter, workers, reaper and the thread that stops. */
module ExecutorRuns {
  import opened Executor

  // ------------------------------------------------------------------ runs

  datatype Step<+P> =
    | Starting(n: nat)
    | Submitting(task: Task<P>)
    | StopBegins
    | StopSends
    | Popping(i: nat)
    | Processing(i: nat)
    | CachingHead
    | TakingHead
    | TakingCached(id: int)

  /** When a thread can take a step. A task with a result is submitted under a new id. */
  predicate CanStep<P, R>(c: Core<P, R>, s: Step<P>) {
    match s
    case Starting(n) => !c.started && !c.stopRequested
    case Submitting(t) => Accepts(c, t.id) && (t.needsResult ==> TaskCount(c.accepted, t.id) == 0)
    case StopBegins => true
    case StopSends => c.unsent > 0
    case Popping(i) => CanPop(c, i)
    case Processing(i) => CanProcess(c, i)
    case CachingHead => c.results != []
    case TakingHead => c.results != []
    case TakingCached(id) => id in c.completed
  }

  function Do<P, R>(f: P -> R, c: Core<P, R>, s: Step<P>): Core<P, R>
    requires CanStep(c, s)
  {
    match s
    case Starting(n) => Start(c, n)
    case Submitting(t) => Submit(c, t)
    case StopBegins => BeginStop(c)
    case StopSends => SendStop(c)
    case Popping(i) => Pop(c, i)
    case Processing(i) => Process(f, c, i)
    case CachingHead => CacheHead(c)
    case TakingHead => TakeHead(c)
    case TakingCached(id) => TakeCached(c, id)
  }

  ghost predicate Steps<P, R>(f: P -> R, c: Core<P, R>, s: Step<P>, d: Core<P, R>) {
    CanStep(c, s) && d == Do(f, c, s)
  }

  /** `run[k + 1]` follows `run[k]` by `steps[k]`. */
  ghost predicate IsRun<P, R>(f: P -> R, run: seq<Core<P, R>>, steps: seq<Step<P>>) {
    && |run| == |steps| + 1 && run[0] == Fresh()
    && forall k {:trigger steps[k]} :: 0 <= k < |steps| ==> Steps(f, run[k], steps[k], run[k + 1])
  }

  // ------------------------------------------------------------------ sentinels

  /** How many workers are still running. */
  function Live<P>(ws: seq<Worker<P>>): nat {
    if ws == [] then 0 else Live(ws[..|ws| - 1]) + if ws[|ws| - 1].Exited? then 0 else 1
  }

  lemma {:induction false} LiveCounts<P>(ws: seq<Worker<P>>, i: nat)
    requires i < |ws| && !ws[i].Exited?
    ensures Live(ws) >= 1
  {
    if i < |ws| - 1 {
      LiveCounts(ws[..|ws| - 1], i);
    }
  }

  lemma {:induction false} LiveUpdate<P>(ws: seq<Worker<P>>, i: nat, w: Worker<P>)
    requires i < |ws|
    ensures Live(ws[i := w]) + (if ws[i].Exited? then 0 else 1) == Live(ws) + (if w.Exited? then 0 else 1)
  {
    var n := |ws| - 1;
    var us := ws[i := w];
    if i < n {
      LiveUpdate(ws[..n], i, w);
      assert us[..n] == ws[..n][i := w] && us[n] == ws[n];
    } else {
      assert us[..n] == ws[..n] && us[n] == w;
    }
  }

  lemma {:induction false} AllLive<P>(ws: seq<Worker<P>>)
    requires forall i :: 0 <= i < |ws| ==> !ws[i].Exited?
    ensures Live(ws) == |ws|
  {
    if ws != [] {
      AllLive(ws[..|ws| - 1]);
    }
  }

  /** Once stopping, the sentinels queued and those to come are one for every worker still
      running; before, there is none to come. */
  ghost predicate Sentinels<P, R>(c: Core<P, R>) {
    && c.popped <= |c.accepted|
    && (if c.stopRequested then |c.queue| + c.unsent == |c.accepted| - c.popped + Live(c.workers) else c.unsent == 0)
  }

  ghost predicate Safe<P(!new), R(!new)>(f: P -> R, c: Core<P, R>) {
    Inv(f, c) && Sentinels(c) && Lifecycle(c)
  }

  // ------------------------------------------------------------------ every step is safe

  lemma StepKeepsInv<P(!new), R(!new)>(f: P -> R, c: Core<P, R>, s: Step<P>)
    requires Safe(f, c) && CanStep(c, s)
    ensures Inv(f, Do(f, c, s))
  {
    match s
    case Starting(n) => StartPreserves(f, c, n);
    case Submitting(t) => SubmitPreserves(f, c, t);
    case StopBegins => StopStepPreserves(f, c, BeginStop(c));
    case StopSends => StopStepPreserves(f, c, SendStop(c));
    case Popping(i) => PopPreserves(f, c, i);
    case Processing(i) => ProcessPreserves(f, c, i);
    case CachingHead => CacheHeadPreserves(f, c);
    case TakingHead => TakeHeadPreserves(f, c);
    case TakingCached(id) => TakeCachedPreserves(f, c, id);
  }

  lemma StepKeepsSentinels<P(!new), R(!new)>(f: P -> R, c: Core<P, R>, s: Step<P>)
    requires QueueShape(c) && Sentinels(c) && Lifecycle(c) && CanStep(c, s)
    ensures Sentinels(Do(f, c, s)) && Lifecycle(Do(f, c, s))
  {
    match s
    case StopBegins =>
      if c.started && !c.stopRequested {
        AllLive(c.workers);
      }
    case Popping(i) => LiveUpdate(c.workers, i, Pop(c, i).workers[i]);
    case Processing(i) => LiveUpdate(c.workers, i, Idle);
    case _ =>
  }

  lemma {:induction false} RunIsSafe<P(!new), R(!new)>(f: P -> R, run: seq<Core<P, R>>, steps: seq<Step<P>>, k: nat)
    requires IsRun(f, run, steps) && k < |run|
    ensures Safe(f, run[k])
  {
    if k == 0 {
      FreshEstablishes<P, R>(f);
    } else {
      RunIsSafe(f, run, steps, k - 1);
      assert Steps(f, run[k - 1], steps[k - 1], run[k]);
      StepKeepsInv(f, run[k - 1], steps[k - 1]);
      StepKeepsSentinels(f, run[k - 1], steps[k - 1]);
    }
  }

  /** The number of workers stays what the start made it. */
  lemma {:induction false} WorkersStay<P, R>(f: P -> R, run: seq<Core<P, R>>, steps: seq<Step<P>>, k: nat, m: nat)
    requires IsRun(f, run, steps) && k <= m < |run| && run[k].started
    ensures run[m].started && |run[m].workers| == |run[k].workers|
    decreases m
  {
    if k < m {
      WorkersStay(f, run, steps, k, m - 1);
      assert Steps(f, run[m - 1], steps[m - 1], run[m]);
    }
  }

  predicate AllIdle<P>(ws: seq<Worker<P>>) {
    forall i :: 0 <= i < |ws| ==> ws[i].Idle?
  }

  /** After a start of `n` workers every later state has `n` of them, or one. */
  lemma StartedWorkers<P, R>(f: P -> R, run: seq<Core<P, R>>, steps: seq<Step<P>>, k: nat, m: nat)
    requires IsRun(f, run, steps) && k < m < |run| && steps[k].Starting?
    ensures |run[m].workers| == (if steps[k].n == 0 then 1 else steps[k].n)
    ensures AllIdle(run[k + 1].workers)
  {
    assert Steps(f, run[k], steps[k], run[k + 1]);
    WorkersStay(f, run, steps, k + 1, m);
  }

  // ------------------------------------------------------------------ in every state of every run

  /** Nothing is lost and nothing made up: every accepted task waits, is at one worker or has run,
      and the id of a task with a result is in exactly one of the places it goes through. */
  lemma RunAccounts<P(!new), R(!new)>(f: P -> R, run: seq<Core<P, R>>, steps: seq<Step<P>>, k: nat, t: Task<P>, id: int)
    requires IsRun(f, run, steps) && k < |run|
    ensures var c := run[k];
            && c.popped <= |c.accepted|
            && Occurrences(c.accepted[..c.popped], t) == BusyOccurrences(c.workers, t) + Occurrences(c.ran, t)
            && TaskCount(c.accepted, id) == Places(c, id) <= 1
  {
    RunIsSafe(f, run, steps, k);
    assert TaskConserved(run[k], t) && IdConserved(run[k], id);
  }

  lemma {:induction false} CountTwo<R>(rs: seq<(int, R)>, i: nat, j: nat)
    requires i < j < |rs| && rs[i].0 == rs[j].0
    ensures ResultCount(rs, rs[i].0) >= 2
  {
    var n := |rs| - 1;
    if j < n {
      CountTwo(rs[..n], i, j);
    } else {
      CountOne(rs[..n], i);
    }
  }

  lemma {:induction false} CountOne<R>(rs: seq<(int, R)>, i: nat)
    requires i < |rs|
    ensures ResultCount(rs, rs[i].0) >= 1
  {
    if i < |rs| - 1 {
      CountOne(rs[..|rs| - 1], i);
    }
  }

  /** Whatever has been reaped is what its own task returned, and no id is reaped twice. */
  lemma ReapedOnceAndOwn<P(!new), R(!new)>(f: P -> R, run: seq<Core<P, R>>, steps: seq<Step<P>>, k: nat, i: nat)
    requires IsRun(f, run, steps) && k < |run| && i < |run[k].reaped|
    ensures OwnResult(f, run[k], run[k].reaped[i].0, run[k].reaped[i].1)
    ensures forall j :: 0 <= j < |run[k].reaped| && run[k].reaped[j].0 == run[k].reaped[i].0 ==> j == i
  {
    RunIsSafe(f, run, steps, k);
    var c := run[k];
    forall j | 0 <= j < |c.reaped| && c.reaped[j].0 == c.reaped[i].0 ensures j == i {
      assert IdConserved(c, c.reaped[i].0);
      if j < i {
        CountTwo(c.reaped, j, i);
      } else if i < j {
        CountTwo(c.reaped, i, j);
      }
    }
  }

  /** A reap of a delivered result succeeds, in every state of every run. */
  lemma RunReaps<P(!new), R(!new)>(f: P -> R, run: seq<Core<P, R>>, steps: seq<Step<P>>, k: nat, id: int)
    requires IsRun(f, run, steps) && k < |run|
    ensures var (d, r) := TryReap(run[k], id);
            && (r.Some? <==> Waiting(run[k], id))
            && (r.Some? ==> OwnResult(f, run[k], id, r.value) && !Waiting(d, id))
  {
    RunIsSafe(f, run, steps, k);
    TryReapOnceAndOwn(f, run[k], id);
  }

  predicate AllExited<P, R>(c: Core<P, R>) {
    c.workers != [] && forall i :: 0 <= i < |c.workers| ==> c.workers[i].Exited?
  }

  /** Stop is lossless in every run. */
  lemma RunStopIsLossless<P(!new), R(!new)>(f: P -> R, run: seq<Core<P, R>>, steps: seq<Step<P>>, k: nat, t: Task<P>, id: int)
    requires IsRun(f, run, steps) && k < |run| && AllExited(run[k])
    ensures var c := run[k];
            && Occurrences(c.ran, t) == Occurrences(c.accepted, t)
            && TaskCount(c.accepted, id) == ResultCount(c.results, id) + One(id in c.completed) + ResultCount(c.reaped, id)
  {
    RunIsSafe(f, run, steps, k);
    StopIsLossless(f, run[k], t, id);
  }

  // ------------------------------------------------------------------ stopping ends

  /** In a stopping executor every worker still running has a task to run or an item to pop,
      or a sentinel is about to be pushed. */
  lemma WorkersFinish<P(!new), R(!new)>(f: P -> R, run: seq<Core<P, R>>, steps: seq<Step<P>>, k: nat, i: nat)
    requires IsRun(f, run, steps) && k < |run|
    requires run[k].stopRequested && i < |run[k].workers| && !run[k].workers[i].Exited?
    ensures CanPop(run[k], i) || CanProcess(run[k], i) || run[k].unsent > 0
  {
    RunIsSafe(f, run, steps, k);
    LiveCounts(run[k].workers, i);
  }

  function Busies<P>(ws: seq<Worker<P>>): nat {
    if ws == [] then 0 else Busies(ws[..|ws| - 1]) + One(ws[|ws| - 1].Busy?)
  }

  lemma {:induction false} BusiesUpdate<P>(ws: seq<Worker<P>>, i: nat, w: Worker<P>)
    requires i < |ws|
    ensures Busies(ws[i := w]) + One(ws[i].Busy?) == Busies(ws) + One(w.Busy?)
  {
    var n := |ws| - 1;
    var us := ws[i := w];
    if i < n {
      BusiesUpdate(ws[..n], i, w);
      assert us[..n] == ws[..n][i := w] && us[n] == ws[n];
    } else {
      assert us[..n] == ws[..n] && us[n] == w;
    }
  }

  /** What the workers and the stopping thread have still to do. */
  function Remaining<P, R>(c: Core<P, R>): nat {
    2 * |c.queue| + 3 * c.unsent + Busies(c.workers)
  }

  /** The steps of the workers and of the stopping thread's loop. */
  predicate Drains<P>(s: Step<P>) {
    s.Popping? || s.Processing? || s.StopSends?
  }

  lemma StepDrains<P(!new), R(!new)>(f: P -> R, c: Core<P, R>, s: Step<P>)
    requires Safe(f, c) && c.stopRequested && CanStep(c, s)
    ensures Do(f, c, s).stopRequested
    ensures Remaining(Do(f, c, s)) + One(Drains(s)) <= Remaining(c)
  {
    match s
    case Popping(i) => BusiesUpdate(c.workers, i, Pop(c, i).workers[i]);
    case Processing(i) => BusiesUpdate(c.workers, i, Idle);
    case _ =>
  }

  function Drained<P>(steps: seq<Step<P>>, k: nat, m: nat): nat
    requires k <= m <= |steps|
  {
    if k == m then 0 else Drained(steps, k, m - 1) + One(Drains(steps[m - 1]))
  }

  /** However the threads interleave, the workers and the stopping thread take only boundedly many
      steps after the stop, and until the workers have all exited one of them can take another. */
  lemma {:induction false} StopEnds<P(!new), R(!new)>(f: P -> R, run: seq<Core<P, R>>, steps: seq<Step<P>>, k: nat, m: nat)
    requires IsRun(f, run, steps) && k <= m < |run| && run[k].stopRequested
    ensures run[m].stopRequested && Drained(steps, k, m) + Remaining(run[m]) <= Remaining(run[k])
    ensures AllExited(run[m]) || exists s: Step<P> :: Drains(s) && CanStep(run[m], s)
    decreases m
  {
    if k < m {
      StopEnds(f, run, steps, k, m - 1);
      RunIsSafe(f, run, steps, m - 1);
      assert Steps(f, run[m - 1], steps[m - 1], run[m]);
      StepDrains(f, run[m - 1], steps[m - 1]);
    }
    SomeoneMoves(f, run, steps, m);
  }

  lemma SomeoneMoves<P(!new), R(!new)>(f: P -> R, run: seq<Core<P, R>>, steps: seq<Step<P>>, m: nat)
    requires IsRun(f, run, steps) && m < |run| && run[m].stopRequested
    ensures AllExited(run[m]) || exists s: Step<P> :: Drains(s) && CanStep(run[m], s)
  {
    RunIsSafe(f, run, steps, m);
    var c := run[m];
    if i :| 0 <= i < |c.workers| && !c.workers[i].Exited? {
      WorkersFinish(f, run, steps, m, i);
      var s: Step<P> := if CanPop(c, i) then Popping(i) else if CanProcess(c, i) then Processing(i) else StopSends;
      assert Drains(s) && CanStep(c, s);
    }
  }

  // ------------------------------------------------------------------ `stop` as one step

  function SendAll<P, R>(c: Core<P, R>): (d: Core<P, R>)
    decreases c.unsent
  {
    if c.unsent == 0 then c else SendAll(SendStop(c))
  }

  lemma {:induction false} SendAllIs<P, R>(c: Core<P, R>)
    ensures SendAll(c) == c.(queue := c.queue + seq(c.unsent, _ => Stop), unsent := 0)
    decreases c.unsent
  {
    if c.unsent > 0 {
      SendAllIs(SendStop(c));
      assert c.queue + [Stop] + seq(c.unsent - 1, _ => Stop) == c.queue + seq(c.unsent, _ => Stop);
    } else {
      assert c.queue + seq(0, _ => Stop) == c.queue;
    }
  }

  /** With nothing in between, the loop pushes what `RequestStop` pushes at once. */
  lemma StopIsOneStep<P, R>(c: Core<P, R>)
    requires c.unsent == 0
    ensures SendAll(BeginStop(c)) == RequestStop(c)
  {
    SendAllIs(BeginStop(c));
  }
}
