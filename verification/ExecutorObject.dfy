/** `ExecutorCore` (csrc/siphon/async_executor.hpp) as an object: each method is one atomic
    operation of the submitter, a worker or the reaper on the shared fields. */
module ExecutorObject {
  import opened Options
  import opened Executor

  /** What `submit` and `start` throw. */
  datatype Refusal = ReservedId | NotStarted | AlreadyStopped | AlreadyStarted

  /** The executor as the threads share it: queues, cache and flags updated in place. */
  class ExecutorCore<P(!new), R(!new)> {
    const run: P -> R
    var queue: seq<Item<P>>
    var results: seq<(int, R)>
    var completed: map<int, R>
    var started: bool
    var stopRequested: bool
    var workers: seq<Worker<P>>
    ghost var accepted: seq<Task<P>>
    ghost var popped: nat
    ghost var ran: seq<Task<P>>
    ghost var reaped: seq<(int, R)>

    ghost function View(): Core<P, R>
      reads this
    {
      Core(queue, workers, results, completed, started, stopRequested, accepted, popped, ran, reaped, 0)
    }

    ghost predicate Valid()
      reads this
    {
      Inv(run, View()) && Lifecycle(View())
    }

    constructor (run: P -> R)
      ensures Valid() && this.run == run && View() == Fresh<P, R>()
    {
      this.run := run;
      queue, results, completed := [], [], map[];
      started, stopRequested, workers := false, false, [];
      accepted, popped, ran, reaped := [], 0, [], [];
      new;
      FreshEstablishes(run);
    }

    /** `submit`: the id of a task with a result must be new, which is the submitter's obligation. */
    method Submit(id: int, payload: P, needsResult: bool) returns (refused: Option<Refusal>)
      requires Valid() && (needsResult ==> TaskCount(accepted, id) == 0)
      modifies `queue, `accepted
      ensures Valid()
      ensures refused == Some(ReservedId) <==> id == STOP_REQUEST_ID
      ensures refused == Some(NotStarted) <==> id != STOP_REQUEST_ID && !started
      ensures refused == Some(AlreadyStopped) <==> id != STOP_REQUEST_ID && started && stopRequested
      ensures View() == if refused.None? then Executor.Submit(old(View()), Task(id, payload, needsResult)) else old(View())
    {
      if id == STOP_REQUEST_ID {
        return Some(ReservedId);
      }
      if !started {
        return Some(NotStarted);
      }
      if stopRequested {
        return Some(AlreadyStopped);
      }
      SubmitPreserves(run, View(), Task(id, payload, needsResult));
      queue := queue + [Run(Task(id, payload, needsResult))];
      accepted := accepted + [Task(id, payload, needsResult)];
      refused := None;
    }

    /** `start`. */
    method Start(n: nat) returns (refused: Option<Refusal>)
      requires Valid()
      modifies `started, `workers
      ensures Valid()
      ensures refused == (if old(started) then Some(AlreadyStarted) else None)
      ensures View() == if refused.None? then Executor.Start(old(View()), n) else old(View())
      ensures refused.None? ==> |workers| >= 1 && (n >= 1 ==> |workers| == n)
                                && forall i :: 0 <= i < |workers| ==> workers[i].Idle?
    {
      if started {
        return Some(AlreadyStarted);
      }
      if stopRequested {
        assert false;
      }
      StartPreserves(run, View(), n);
      started := true;
      workers := seq(if n == 0 then 1 else n, _ => Idle);
      refused := None;
    }

    /** `stop`. */
    method RequestStop()
      requires Valid()
      modifies `queue, `stopRequested
      ensures Valid() && View() == Executor.RequestStop(old(View()))
    {
      RequestStopPreserves(run, View());
      if !started || stopRequested {
        return;
      }
      stopRequested := true;
      for i := 0 to |workers|
        invariant stopRequested && queue == old(queue) + seq(i, _ => Stop)
      {
        queue := queue + [Stop];
      }
    }

    /** The worker loop's pop, `i` being the worker. */
    method WorkerPop(i: nat)
      requires Valid() && CanPop(View(), i)
      modifies `queue, `workers, `popped
      ensures Valid() && View() == Pop(old(View()), i)
    {
      PopPreserves(run, View(), i);
      var item := queue[0];
      queue := queue[1..];
      if item.Stop? {
        workers := workers[i := Exited];
      } else {
        workers := workers[i := Busy(item.task)];
        popped := popped + 1;
      }
    }

    /** The worker loop's `process_tasks` and the push of its result. */
    method WorkerProcess(i: nat)
      requires Valid() && CanProcess(View(), i)
      modifies `workers, `results, `ran
      ensures Valid() && View() == Process(run, old(View()), i)
    {
      ProcessPreserves(run, View(), i);
      var task := workers[i].task;
      workers := workers[i := Idle];
      ran := ran + [task];
      if task.needsResult {
        results := results + [(task.id, run(task.payload))];
      } else {
        assert results + [] == results;
      }
    }

    /** `take_until_ready`. */
    method TakeUntilReady(id: int) returns (r: Option<R>)
      modifies `results, `completed, `reaped
      ensures (View(), r) == Executor.TakeUntilReady(old(View()), id)
    {
      while results != []
        invariant Executor.TakeUntilReady(View(), id) == Executor.TakeUntilReady(old(View()), id)
        decreases |results|
      {
        var head := results[0];
        results := results[1..];
        if head.0 == id {
          reaped := reaped + [head];
          return Some(head.1);
        }
        completed := if head.0 in completed then completed else completed[head.0 := head.1];
      }
      r := None;
    }

    /** `cache_until_ready`. */
    method CacheUntilReady(id: int) returns (ready: bool)
      modifies `results, `completed
      ensures (View(), ready) == Executor.CacheUntilReady(old(View()), id)
    {
      while results != []
        invariant Executor.CacheUntilReady(View(), id) == Executor.CacheUntilReady(old(View()), id)
        decreases |results|
      {
        var head := results[0];
        results := results[1..];
        completed := if head.0 in completed then completed else completed[head.0 := head.1];
        if head.0 == id {
          return true;
        }
      }
      ready := false;
    }

    /** `try_reap`: the cached result, or the queue drained up to the id's own. */
    method TryReap(id: int) returns (r: Option<R>)
      requires Valid()
      modifies `results, `completed, `reaped
      ensures Valid() && (View(), r) == Executor.TryReap(old(View()), id)
      ensures r.Some? <==> old(Waiting(View(), id))
      ensures r.Some? ==> OwnResult(run, View(), id, r.value) && !Waiting(View(), id)
    {
      TryReapOnceAndOwn(run, View(), id);
      if id in completed {
        r := Some(completed[id]);
        reaped := reaped + [(id, completed[id])];
        completed := completed - {id};
      } else {
        r := TakeUntilReady(id);
      }
    }

    /** `ready`: whether the result is cached, draining the queue to find out. */
    method Ready(id: int) returns (ready: bool)
      requires Valid()
      modifies `results, `completed
      ensures Valid() && (View(), ready) == Executor.Ready(old(View()), id)
      ensures ready <==> old(Waiting(View(), id))
      ensures ready ==> id in completed
    {
      CacheUntilReadyPreserves(run, View(), id);
      if id in completed {
        ready := true;
      } else {
        ready := CacheUntilReady(id);
      }
    }
  }
}
