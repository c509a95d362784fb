/** `ExecutorCore` with `FunctionWorkerDriver` (csrc/siphon/async_executor.hpp,
    csrc/siphon/function_executor.hpp) on values. Submitter, workers and reaper are
    threads; each function below is one of their atomic queue operations, and every
    interleaving of the threads is a sequence of them. */
module Executor {
  import opened Options

  const STOP_REQUEST_ID: int := -1


  datatype Task<+P> = Task(id: int, payload: P, needsResult: bool)

  /** A queued item: a task or the stop sentinel. */
  datatype Item<+P> = Run(task: Task<P>) | Stop

  /** A worker thread: its driver's pending task if any, or gone. */
  datatype Worker<+P> = Idle | Busy(task: Task<P>) | Exited

  /** The executor, with the history of what was accepted, run and reaped; `unsent` are the
      sentinels that a running `stop` has still to push. */
  datatype Core<P, R> = Core(
    queue: seq<Item<P>>, workers: seq<Worker<P>>, results: seq<(int, R)>, completed: map<int, R>,
    started: bool, stopRequested: bool,
    accepted: seq<Task<P>>, popped: nat, ran: seq<Task<P>>, reaped: seq<(int, R)>, unsent: nat)

  // ----------------------------------------------------------------------- steps

  function Fresh<P, R>(): Core<P, R> {
    Core([], [], [], map[], false, false, [], 0, [], [], 0)
  }

  function Start<P, R>(c: Core<P, R>, n: nat): (d: Core<P, R>)
    ensures |d.workers| == (if n == 0 then 1 else n)
    ensures forall i :: 0 <= i < |d.workers| ==> d.workers[i].Idle?
  {
    c.(started := true, workers := seq(if n == 0 then 1 else n, _ => Idle))
  }

  /** An executor has workers exactly once it is started, and is stopped only then. */
  ghost predicate Lifecycle<P, R>(c: Core<P, R>) {
    if c.started then c.workers != [] else c.workers == [] && !c.stopRequested
  }

  predicate Accepts<P, R>(c: Core<P, R>, id: int) {
    id != STOP_REQUEST_ID && c.started && !c.stopRequested
  }

  function Submit<P, R>(c: Core<P, R>, t: Task<P>): Core<P, R> {
    c.(queue := c.queue + [Run(t)], accepted := c.accepted + [t])
  }

  /** `stop` as one step. */
  function RequestStop<P, R>(c: Core<P, R>): Core<P, R> {
    if !c.started || c.stopRequested then c
    else c.(stopRequested := true, queue := c.queue + seq(|c.workers|, _ => Stop))
  }

  /** `stop` up to its loop, and one turn of the loop: workers run in between. */
  function BeginStop<P, R>(c: Core<P, R>): Core<P, R> {
    if !c.started || c.stopRequested then c else c.(stopRequested := true, unsent := |c.workers|)
  }

  function SendStop<P, R>(c: Core<P, R>): Core<P, R>
    requires c.unsent > 0
  {
    c.(queue := c.queue + [Stop], unsent := c.unsent - 1)
  }

  /** A worker pops only while its driver has no pending task. */
  predicate CanPop<P, R>(c: Core<P, R>, i: nat) {
    i < |c.workers| && c.workers[i].Idle? && c.queue != []
  }

  function Pop<P, R>(c: Core<P, R>, i: nat): Core<P, R>
    requires CanPop(c, i)
  {
    match c.queue[0]
    case Run(t) => c.(queue := c.queue[1..], workers := c.workers[i := Busy(t)], popped := c.popped + 1)
    case Stop => c.(queue := c.queue[1..], workers := c.workers[i := Exited])
  }

  predicate CanProcess<P, R>(c: Core<P, R>, i: nat) {
    i < |c.workers| && c.workers[i].Busy?
  }

  function Process<P, R>(f: P -> R, c: Core<P, R>, i: nat): Core<P, R>
    requires CanProcess(c, i)
  {
    var t := c.workers[i].task;
    c.(workers := c.workers[i := Idle], ran := c.ran + [t],
       results := c.results + if t.needsResult then [(t.id, f(t.payload))] else [])
  }

  /** Moves the oldest result into the cache; `emplace` keeps an entry already there. */
  function CacheHead<P, R>(c: Core<P, R>): Core<P, R>
    requires c.results != []
  {
    var (id, value) := c.results[0];
    c.(results := c.results[1..], completed := if id in c.completed then c.completed else c.completed[id := value])
  }

  function TakeHead<P, R>(c: Core<P, R>): Core<P, R>
    requires c.results != []
  {
    c.(results := c.results[1..], reaped := c.reaped + [c.results[0]])
  }

  function TakeCached<P, R>(c: Core<P, R>, id: int): Core<P, R>
    requires id in c.completed
  {
    c.(completed := c.completed - {id}, reaped := c.reaped + [(id, c.completed[id])])
  }

  /** `take_until_ready`: caches results until `id`'s own comes up. */
  function TakeUntilReady<P, R>(c: Core<P, R>, id: int): (Core<P, R>, Option<R>)
    decreases |c.results|
  {
    if c.results == [] then (c, None)
    else if c.results[0].0 == id then (TakeHead(c), Some(c.results[0].1))
    else TakeUntilReady(CacheHead(c), id)
  }

  function TryReap<P, R>(c: Core<P, R>, id: int): (Core<P, R>, Option<R>) {
    if id in c.completed then (TakeCached(c, id), Some(c.completed[id]))
    else TakeUntilReady(c, id)
  }

  /** `cache_until_ready`. */
  function CacheUntilReady<P, R>(c: Core<P, R>, id: int): (Core<P, R>, bool)
    decreases |c.results|
  {
    if c.results == [] then (c, false)
    else if c.results[0].0 == id then (CacheHead(c), true)
    else CacheUntilReady(CacheHead(c), id)
  }

  function Ready<P, R>(c: Core<P, R>, id: int): (Core<P, R>, bool) {
    if id in c.completed then (c, true) else CacheUntilReady(c, id)
  }

  // ------------------------------------------------------------------- counting

  function One(b: bool): nat {
    if b then 1 else 0
  }

  predicate Needs<P>(t: Task<P>, id: int) {
    t.needsResult && t.id == id
  }

  /** How many result-needing tasks have this id. */
  function TaskCount<P>(ts: seq<Task<P>>, id: int): nat {
    if ts == [] then 0 else TaskCount(ts[..|ts| - 1], id) + One(Needs(ts[|ts| - 1], id))
  }

  function BusyCount<P>(ws: seq<Worker<P>>, id: int): nat {
    if ws == [] then 0
    else BusyCount(ws[..|ws| - 1], id) + One(ws[|ws| - 1].Busy? && Needs(ws[|ws| - 1].task, id))
  }

  function ResultCount<R>(rs: seq<(int, R)>, id: int): nat {
    if rs == [] then 0 else ResultCount(rs[..|rs| - 1], id) + One(rs[|rs| - 1].0 == id)
  }

  /** How often `t` occurs in `ts`. */
  ghost function Occurrences<P>(ts: seq<Task<P>>, t: Task<P>): nat {
    if ts == [] then 0 else Occurrences(ts[..|ts| - 1], t) + One(ts[|ts| - 1] == t)
  }

  ghost function BusyOccurrences<P>(ws: seq<Worker<P>>, t: Task<P>): nat {
    if ws == [] then 0 else BusyOccurrences(ws[..|ws| - 1], t) + One(ws[|ws| - 1] == Busy(t))
  }

  lemma {:induction false} TaskCountHead<P>(ts: seq<Task<P>>, id: int)
    requires ts != []
    ensures TaskCount(ts, id) == One(Needs(ts[0], id)) + TaskCount(ts[1..], id)
  {
    var n := |ts| - 1;
    if n > 0 {
      TaskCountHead(ts[..n], id);
      assert ts[..n][1..] == ts[1..][..n - 1];
    }
  }

  lemma {:induction false} ResultCountHead<R>(rs: seq<(int, R)>, id: int)
    requires rs != []
    ensures ResultCount(rs, id) == One(rs[0].0 == id) + ResultCount(rs[1..], id)
  {
    var n := |rs| - 1;
    if n > 0 {
      ResultCountHead(rs[..n], id);
      assert rs[..n][1..] == rs[1..][..n - 1];
    }
  }

  lemma {:induction false} BusyCountUpdate<P>(ws: seq<Worker<P>>, i: nat, w: Worker<P>, id: int)
    requires i < |ws|
    ensures BusyCount(ws[i := w], id) + One(ws[i].Busy? && Needs(ws[i].task, id))
         == BusyCount(ws, id) + One(w.Busy? && Needs(w.task, id))
  {
    var n := |ws| - 1;
    var us := ws[i := w];
    if i < n {
      BusyCountUpdate(ws[..n], i, w, id);
      assert us[..n] == ws[..n][i := w];
    } else {
      assert us[..n] == ws[..n];
    }
  }

  lemma {:induction false} BusyOccurrencesUpdate<P>(ws: seq<Worker<P>>, i: nat, w: Worker<P>, t: Task<P>)
    requires i < |ws|
    ensures BusyOccurrences(ws[i := w], t) + One(ws[i] == Busy(t)) == BusyOccurrences(ws, t) + One(w == Busy(t))
  {
    var n := |ws| - 1;
    var us := ws[i := w];
    if i < n {
      BusyOccurrencesUpdate(ws[..n], i, w, t);
      assert us[..n] == ws[..n][i := w];
    } else {
      assert us[..n] == ws[..n];
    }
  }

  lemma {:induction false} NoneBusyCount<P>(ws: seq<Worker<P>>, id: int)
    requires forall i :: 0 <= i < |ws| ==> !ws[i].Busy?
    ensures BusyCount(ws, id) == 0
  {
    if ws != [] {
      NoneBusyCount(ws[..|ws| - 1], id);
    }
  }

  lemma {:induction false} NoneBusyOccurrences<P>(ws: seq<Worker<P>>, t: Task<P>)
    requires forall i :: 0 <= i < |ws| ==> !ws[i].Busy?
    ensures BusyOccurrences(ws, t) == 0
  {
    if ws != [] {
      NoneBusyOccurrences(ws[..|ws| - 1], t);
    }
  }

  // ------------------------------------------------------------------- invariant

  /** Waiting in the queue: the tasks not popped yet, in order, then only sentinels. */
  ghost predicate QueueShape<P, R>(c: Core<P, R>) {
    && c.popped <= |c.accepted|
    && |c.accepted| - c.popped <= |c.queue|
    && (forall i :: 0 <= i < |c.queue| ==>
          c.queue[i] == if i < |c.accepted| - c.popped then Run(c.accepted[c.popped + i]) else Stop)
    && (|c.accepted| - c.popped < |c.queue| ==> c.stopRequested)
    && (forall i :: 0 <= i < |c.workers| && c.workers[i].Exited? ==> c.stopRequested && c.popped == |c.accepted|)
  }

  /** Every popped task is pending at one worker or has run, as often as it was popped. */
  ghost predicate TaskConserved<P, R>(c: Core<P, R>, t: Task<P>)
    requires c.popped <= |c.accepted|
  {
    Occurrences(c.accepted[..c.popped], t) == BusyOccurrences(c.workers, t) + Occurrences(c.ran, t)
  }

  /** The places where the id of a result-needing task can be: task queue, workers, result
      queue, cache, reaped. */
  ghost function Places<P, R>(c: Core<P, R>, id: int): nat
    requires c.popped <= |c.accepted|
  {
    TaskCount(c.accepted[c.popped..], id) + BusyCount(c.workers, id) + ResultCount(c.results, id)
    + One(id in c.completed) + ResultCount(c.reaped, id)
  }

  ghost predicate IdConserved<P, R>(c: Core<P, R>, id: int)
    requires c.popped <= |c.accepted|
  {
    TaskCount(c.accepted, id) == Places(c, id) <= 1
  }

  /** `value` is what the payload of `id`'s own task returns. */
  ghost predicate OwnResult<P, R>(f: P -> R, c: Core<P, R>, id: int, value: R) {
    exists k :: 0 <= k < |c.accepted| && c.accepted[k].needsResult
                && c.accepted[k].id == id && value == f(c.accepted[k].payload)
  }

  ghost predicate ResultsRight<P, R>(f: P -> R, c: Core<P, R>) {
    && (forall k {:trigger c.results[k]} :: 0 <= k < |c.results| ==> OwnResult(f, c, c.results[k].0, c.results[k].1))
    && (forall k {:trigger c.reaped[k]} :: 0 <= k < |c.reaped| ==> OwnResult(f, c, c.reaped[k].0, c.reaped[k].1))
    && (forall id {:trigger c.completed[id]} :: id in c.completed ==> OwnResult(f, c, id, c.completed[id]))
    && (forall i :: 0 <= i < |c.workers| && c.workers[i].Busy? ==> c.workers[i].task in c.accepted)
  }

  ghost predicate Conserved<P(!new), R>(c: Core<P, R>)
    requires c.popped <= |c.accepted|
  {
    && (forall t: Task<P> {:trigger TaskConserved(c, t)} :: TaskConserved(c, t))
    && (forall id {:trigger IdConserved(c, id)} :: IdConserved(c, id))
  }

  ghost predicate Inv<P(!new), R(!new)>(f: P -> R, c: Core<P, R>) {
    QueueShape(c) && Conserved(c) && ResultsRight(f, c)
  }

  // ----------------------------------------------------------------- step lemmas

  lemma FreshEstablishes<P(!new), R(!new)>(f: P -> R)
    ensures Inv(f, Fresh<P, R>())
  {
    var c := Fresh<P, R>();
    assert c.accepted[..0] == [] && c.accepted[0..] == [];
  }

  /** Results stay right as long as the accepted tasks stay, and every result held after
      the step was held before or is a task's own. */
  lemma OwnResultKept<P, R>(f: P -> R, c: Core<P, R>, d: Core<P, R>, id: int, value: R)
    requires OwnResult(f, c, id, value) && c.accepted <= d.accepted
    ensures OwnResult(f, d, id, value)
  {
    var k :| 0 <= k < |c.accepted| && c.accepted[k].needsResult
             && c.accepted[k].id == id && value == f(c.accepted[k].payload);
    assert d.accepted[k] == c.accepted[k];
  }

  lemma ResultsKept<P, R>(f: P -> R, c: Core<P, R>, d: Core<P, R>)
    requires ResultsRight(f, c) && c.accepted <= d.accepted
    requires d.results == c.results && d.reaped == c.reaped && d.completed == c.completed
    requires forall i :: 0 <= i < |d.workers| && d.workers[i].Busy? ==> d.workers[i].task in d.accepted
    ensures ResultsRight(f, d)
  {
    forall k | 0 <= k < |d.results| ensures OwnResult(f, d, d.results[k].0, d.results[k].1) {
      OwnResultKept(f, c, d, c.results[k].0, c.results[k].1);
    }
    forall k | 0 <= k < |d.reaped| ensures OwnResult(f, d, d.reaped[k].0, d.reaped[k].1) {
      OwnResultKept(f, c, d, c.reaped[k].0, c.reaped[k].1);
    }
    forall id | id in d.completed ensures OwnResult(f, d, id, d.completed[id]) {
      OwnResultKept(f, c, d, id, c.completed[id]);
    }
  }

  lemma StartPreserves<P(!new), R(!new)>(f: P -> R, c: Core<P, R>, n: nat)
    requires Inv(f, c) && c.workers == []
    ensures Inv(f, Start(c, n))
  {
    var d := Start(c, n);
    forall t: Task<P> ensures TaskConserved(d, t) {
      assert TaskConserved(c, t);
      NoneBusyOccurrences(d.workers, t);
    }
    forall id ensures IdConserved(d, id) {
      assert IdConserved(c, id);
      NoneBusyCount(d.workers, id);
    }
    ResultsKept(f, c, d);
  }

  lemma SubmitPreserves<P(!new), R(!new)>(f: P -> R, c: Core<P, R>, t: Task<P>)
    requires Inv(f, c) && Accepts(c, t.id) && (t.needsResult ==> TaskCount(c.accepted, t.id) == 0)
    ensures Inv(f, Submit(c, t))
  {
    var d := Submit(c, t);
    assert d.accepted[..d.popped] == c.accepted[..c.popped];
    forall u: Task<P> ensures TaskConserved(d, u) {
      assert TaskConserved(c, u);
    }
    forall id ensures IdConserved(d, id) {
      assert IdConserved(c, id);
      assert d.accepted[..|c.accepted|] == c.accepted;
      var waiting := d.accepted[d.popped..];
      assert waiting[..|waiting| - 1] == c.accepted[c.popped..];
    }
    ResultsKept(f, c, d);
  }

  lemma RequestStopPreserves<P(!new), R(!new)>(f: P -> R, c: Core<P, R>)
    requires Inv(f, c)
    ensures Inv(f, RequestStop(c))
  {
    var d := RequestStop(c);
    forall t: Task<P> ensures TaskConserved(d, t) {
      assert TaskConserved(c, t);
    }
    forall id ensures IdConserved(d, id) {
      assert IdConserved(c, id);
    }
    ResultsKept(f, c, d);
  }

  /** A step that only queues sentinels keeps the accounting. */
  lemma StopStepPreserves<P(!new), R(!new)>(f: P -> R, c: Core<P, R>, d: Core<P, R>)
    requires Inv(f, c) && (d == BeginStop(c) || (c.unsent > 0 && c.stopRequested && d == SendStop(c)))
    ensures Inv(f, d)
  {
    forall t: Task<P> ensures TaskConserved(d, t) {
      assert TaskConserved(c, t);
    }
    forall id ensures IdConserved(d, id) {
      assert IdConserved(c, id);
    }
    ResultsKept(f, c, d);
  }

  lemma PopPreserves<P(!new), R(!new)>(f: P -> R, c: Core<P, R>, i: nat)
    requires Inv(f, c) && CanPop(c, i)
    ensures Inv(f, Pop(c, i))
  {
    var d := Pop(c, i);
    forall t: Task<P> ensures TaskConserved(d, t) {
      PopKeepsTask(c, i, t);
    }
    forall id ensures IdConserved(d, id) {
      PopKeepsId(c, i, id);
    }
    ResultsKept(f, c, d);
  }

  lemma PopKeepsTask<P(!new), R>(c: Core<P, R>, i: nat, t: Task<P>)
    requires QueueShape(c) && CanPop(c, i) && TaskConserved(c, t)
    ensures Pop(c, i).popped <= |c.accepted| && TaskConserved(Pop(c, i), t)
  {
    var d := Pop(c, i);
    BusyOccurrencesUpdate(c.workers, i, d.workers[i], t);
    if c.queue[0].Run? {
      assert d.accepted[..d.popped][..c.popped] == c.accepted[..c.popped];
    }
  }

  lemma PopKeepsId<P(!new), R>(c: Core<P, R>, i: nat, id: int)
    requires QueueShape(c) && CanPop(c, i) && IdConserved(c, id)
    ensures Pop(c, i).popped <= |c.accepted| && IdConserved(Pop(c, i), id)
  {
    var d := Pop(c, i);
    BusyCountUpdate(c.workers, i, d.workers[i], id);
    if c.queue[0].Run? {
      var waiting := c.accepted[c.popped..];
      TaskCountHead(waiting, id);
      assert waiting[1..] == d.accepted[d.popped..];
    }
  }

  lemma ProcessPreserves<P(!new), R(!new)>(f: P -> R, c: Core<P, R>, i: nat)
    requires Inv(f, c) && CanProcess(c, i)
    ensures Inv(f, Process(f, c, i))
  {
    var d := Process(f, c, i);
    var t := c.workers[i].task;
    forall u: Task<P> ensures TaskConserved(d, u) {
      assert TaskConserved(c, u);
      BusyOccurrencesUpdate(c.workers, i, Idle, u);
      assert d.ran[..|c.ran|] == c.ran;
    }
    forall id ensures IdConserved(d, id) {
      assert IdConserved(c, id);
      BusyCountUpdate(c.workers, i, Idle, id);
      if t.needsResult {
        assert d.results[..|c.results|] == c.results;
      } else {
        assert d.results == c.results;
      }
    }
    ProcessKeepsResults(f, c, i);
  }

  lemma ProcessKeepsResults<P, R>(f: P -> R, c: Core<P, R>, i: nat)
    requires ResultsRight(f, c) && CanProcess(c, i)
    ensures ResultsRight(f, Process(f, c, i))
  {
    var d := Process(f, c, i);
    var t := c.workers[i].task;
    ResultsKept(f, c, d.(results := c.results));
    if t.needsResult {
      var k :| 0 <= k < |c.accepted| && c.accepted[k] == t;
      assert OwnResult(f, d, t.id, f(t.payload));
    }
    forall k | 0 <= k < |d.results| ensures OwnResult(f, d, d.results[k].0, d.results[k].1) {
      if k < |c.results| {
        OwnResultKept(f, c, d, c.results[k].0, c.results[k].1);
      }
    }
    forall k | 0 <= k < |d.reaped| ensures OwnResult(f, d, d.reaped[k].0, d.reaped[k].1) {
      OwnResultKept(f, c, d, c.reaped[k].0, c.reaped[k].1);
    }
    forall id | id in d.completed ensures OwnResult(f, d, id, d.completed[id]) {
      OwnResultKept(f, c, d, id, c.completed[id]);
    }
  }

  /** The result at the head of the queue is not in the cache: `emplace` never finds an
      entry in its way, so no result is dropped. */
  lemma HeadNotCached<P(!new), R(!new)>(f: P -> R, c: Core<P, R>)
    requires Inv(f, c) && c.results != []
    ensures c.results[0].0 !in c.completed
  {
    ResultCountHead(c.results, c.results[0].0);
    assert IdConserved(c, c.results[0].0);
  }

  /** Moving results between queue, cache and reaper keeps the invariant when each id's
      count over the three stays the same. */
  lemma ReaperStepPreserves<P(!new), R(!new)>(f: P -> R, c: Core<P, R>, d: Core<P, R>)
    requires Inv(f, c)
    requires d == c.(results := d.results, completed := d.completed, reaped := d.reaped)
    requires forall id :: ResultCount(d.results, id) + One(id in d.completed) + ResultCount(d.reaped, id)
                       == ResultCount(c.results, id) + One(id in c.completed) + ResultCount(c.reaped, id)
    requires ResultsRight(f, d)
    ensures Inv(f, d)
  {
    forall t: Task<P> ensures TaskConserved(d, t) {
      assert TaskConserved(c, t);
    }
    forall id ensures IdConserved(d, id) {
      assert IdConserved(c, id);
    }
  }

  lemma CacheHeadPreserves<P(!new), R(!new)>(f: P -> R, c: Core<P, R>)
    requires Inv(f, c) && c.results != []
    ensures Inv(f, CacheHead(c))
  {
    var d := CacheHead(c);
    HeadNotCached(f, c);
    forall id ensures ResultCount(d.results, id) + One(id in d.completed) + ResultCount(d.reaped, id)
                   == ResultCount(c.results, id) + One(id in c.completed) + ResultCount(c.reaped, id) {
      ResultCountHead(c.results, id);
    }
    HeldResultsKept(f, c, d);
    ReaperStepPreserves(f, c, d);
  }

  /** Results stay right when each was held before. */
  lemma HeldResultsKept<P, R>(f: P -> R, c: Core<P, R>, d: Core<P, R>)
    requires ResultsRight(f, c)
    requires d == c.(results := d.results, completed := d.completed, reaped := d.reaped)
    requires forall k :: 0 <= k < |d.results| ==> d.results[k] in c.results
    requires forall k :: 0 <= k < |d.reaped| ==>
               d.reaped[k] in c.reaped || d.reaped[k] in c.results
               || (d.reaped[k].0 in c.completed && c.completed[d.reaped[k].0] == d.reaped[k].1)
    requires forall id :: id in d.completed ==>
               (id in c.completed && d.completed[id] == c.completed[id]) || (id, d.completed[id]) in c.results
    ensures ResultsRight(f, d)
  {
    forall id, value | OwnResult(f, c, id, value) ensures OwnResult(f, d, id, value) {
      OwnResultKept(f, c, d, id, value);
    }
    forall k | 0 <= k < |d.reaped| ensures OwnResult(f, d, d.reaped[k].0, d.reaped[k].1) {
      assert OwnResult(f, c, d.reaped[k].0, d.reaped[k].1);
    }
    forall id | id in d.completed ensures OwnResult(f, d, id, d.completed[id]) {
      assert OwnResult(f, c, id, d.completed[id]);
    }
  }

  lemma TakeHeadPreserves<P(!new), R(!new)>(f: P -> R, c: Core<P, R>)
    requires Inv(f, c) && c.results != []
    ensures Inv(f, TakeHead(c))
  {
    var d := TakeHead(c);
    forall id ensures ResultCount(d.results, id) + One(id in d.completed) + ResultCount(d.reaped, id)
                   == ResultCount(c.results, id) + One(id in c.completed) + ResultCount(c.reaped, id) {
      ResultCountHead(c.results, id);
      assert d.reaped[..|c.reaped|] == c.reaped;
    }
    HeldResultsKept(f, c, d);
    ReaperStepPreserves(f, c, d);
  }

  lemma TakeCachedPreserves<P(!new), R(!new)>(f: P -> R, c: Core<P, R>, id: int)
    requires Inv(f, c) && id in c.completed
    ensures Inv(f, TakeCached(c, id))
  {
    var d := TakeCached(c, id);
    forall x ensures ResultCount(d.results, x) + One(x in d.completed) + ResultCount(d.reaped, x)
                  == ResultCount(c.results, x) + One(x in c.completed) + ResultCount(c.reaped, x) {
      assert d.reaped[..|c.reaped|] == c.reaped;
    }
    HeldResultsKept(f, c, d);
    ReaperStepPreserves(f, c, d);
  }

  lemma {:induction false} TakeUntilReadyPreserves<P(!new), R(!new)>(f: P -> R, c: Core<P, R>, id: int)
    requires Inv(f, c)
    ensures Inv(f, TakeUntilReady(c, id).0)
    decreases |c.results|
  {
    if c.results != [] {
      if c.results[0].0 == id {
        TakeHeadPreserves(f, c);
      } else {
        CacheHeadPreserves(f, c);
        TakeUntilReadyPreserves(f, CacheHead(c), id);
      }
    }
  }

  lemma {:induction false} CacheUntilReadyPreserves<P(!new), R(!new)>(f: P -> R, c: Core<P, R>, id: int)
    requires Inv(f, c)
    ensures Inv(f, CacheUntilReady(c, id).0)
    ensures CacheUntilReady(c, id).1 <==> ResultCount(c.results, id) > 0
    ensures CacheUntilReady(c, id).1 ==> id in CacheUntilReady(c, id).0.completed
    decreases |c.results|
  {
    if c.results != [] {
      ResultCountHead(c.results, id);
      CacheHeadPreserves(f, c);
      if c.results[0].0 != id {
        CacheUntilReadyPreserves(f, CacheHead(c), id);
      } else {
        HeadNotCached(f, c);
      }
    }
  }

  // -------------------------------------------------------------------- theorems

  /** A result for `id` has been delivered and not reaped. */
  predicate Waiting<P, R>(c: Core<P, R>, id: int) {
    id in c.completed || ResultCount(c.results, id) > 0
  }

  /** `try_reap(id)` succeeds exactly when the result has been delivered; it then yields
      what id's own payload returned, and `id` can never be reaped again. */
  lemma TryReapOnceAndOwn<P(!new), R(!new)>(f: P -> R, c: Core<P, R>, id: int)
    requires Inv(f, c)
    ensures var (d, r) := TryReap(c, id);
            && Inv(f, d) && d.accepted == c.accepted
            && (r.Some? <==> Waiting(c, id))
            && (r.Some? ==> OwnResult(f, c, id, r.value) && !Waiting(d, id) && ResultCount(d.reaped, id) == 1)
            && (r.None? ==> d.reaped == c.reaped)
  {
    if id in c.completed {
      TakeCachedPreserves(f, c, id);
      ReapedNotWaiting(f, TakeCached(c, id), id);
    } else {
      TakeUntilReadyPreserves(f, c, id);
      TakeUntilReadyMeaning(f, c, id);
    }
  }

  lemma {:induction false} TakeUntilReadyMeaning<P(!new), R(!new)>(f: P -> R, c: Core<P, R>, id: int)
    requires Inv(f, c) && id !in c.completed
    ensures var (d, r) := TakeUntilReady(c, id);
            && d.accepted == c.accepted
            && (r.Some? <==> ResultCount(c.results, id) > 0)
            && (r.Some? ==> OwnResult(f, c, id, r.value) && !Waiting(d, id) && ResultCount(d.reaped, id) == 1)
            && (r.None? ==> d.reaped == c.reaped)
    decreases |c.results|
  {
    if c.results != [] {
      ResultCountHead(c.results, id);
      if c.results[0].0 == id {
        TakeHeadPreserves(f, c);
        assert OwnResult(f, c, c.results[0].0, c.results[0].1);
        ReapedNotWaiting(f, TakeHead(c), id);
      } else {
        CacheHeadPreserves(f, c);
        TakeUntilReadyMeaning(f, CacheHead(c), id);
      }
    }
  }

  lemma ReapedNotWaiting<P(!new), R(!new)>(f: P -> R, c: Core<P, R>, id: int)
    requires Inv(f, c) && c.reaped != [] && c.reaped[|c.reaped| - 1].0 == id
    ensures !Waiting(c, id) && ResultCount(c.reaped, id) == 1
  {
    assert IdConserved(c, id);
  }

  /** Stop is lossless: once every worker has exited, every accepted task has run, each as
      often as it was accepted, and every result has been delivered. */
  lemma StopIsLossless<P(!new), R(!new)>(f: P -> R, c: Core<P, R>, t: Task<P>, id: int)
    requires Inv(f, c) && c.workers != [] && forall i :: 0 <= i < |c.workers| ==> c.workers[i].Exited?
    ensures Occurrences(c.ran, t) == Occurrences(c.accepted, t)
    ensures TaskCount(c.accepted, id) == ResultCount(c.results, id) + One(id in c.completed) + ResultCount(c.reaped, id)
  {
    NoneBusyCount(c.workers, id);
    NoneBusyOccurrences(c.workers, t);
    assert c.workers[0].Exited?;
    assert c.accepted[..c.popped] == c.accepted && c.accepted[c.popped..] == [];
    assert TaskConserved(c, t) && IdConserved(c, id);
  }
}
