/** The worker classes of optinum/worker/base.py. `BaseWorker` runs the
    prologue, a generate-and-process loop and the epilogue; `ConcurrentWorker`
    keeps a list of worker handles alive and hands queued tasks to `_process`.
    Both constructors leave the stop event (and the concurrent one the queue)
    as None, and nothing in this file assigns them; the model keeps that None
    as a value of its own, on which every use raises AttributeError, and lets
    a caller assign an event or a queue. The calls each object makes to its
    hooks are recorded in `trace`. */
module WorkerBase {
  import opened Common
  import opened Pool

  class BaseWorker {
    const loop: bool
    var stop: Option<bool>
    var trace: seq<Event>

    /** `BaseWorker.__init__`: the stop event is None. */
    constructor (loop: bool)
      ensures this.loop == loop && stop == None && trace == []
    {
      this.loop := loop;
      stop := None;
      trace := [];
    }

    /** A caller assigning `worker.stop = threading.Event()`, set or clear. */
    method AssignStop(isSet: bool)
      modifies this`stop
      ensures stop == Some(isSet)
    {
      stop := Some(isSet);
    }

    /** `finished`: whether the loop goes on. */
    function Finished(): (r: bool)
      reads this
      ensures r == loop
    {
      loop
    }

    /** `_process(task)`: exactly one of `task_done(task, result)` and
        `task_fail(task, exc)`, as `process` returns or raises. */
    method ProcessTask(task: nat, outcome: Outcome)
      modifies this`trace
      ensures trace == old(trace) + [Processed(task, outcome)]
      ensures |trace| == |old(trace)| + 1 && (trace[|trace| - 1] == TaskDone(task) <==> outcome == Returned)
    {
      match outcome
      case Returned =>
        trace := trace + [TaskDone(task)];
      case Raised(exc) =>
        trace := trace + [TaskFail(task, exc)];
    }

    /** `start`: the generator's tasks go to `put_task`, which is `_process`
        here. With the stop event still None, the first `is_set()` raises
        after `prologue` and `epilogue` is never called. */
    method Start(rounds: seq<seq<nat>>, outcome: nat -> Outcome) returns (r: Outcome)
      modifies this`trace
      ensures old(stop).None? ==> trace == old(trace) + [Prologue] && r == Raised(AttributeError)
      ensures old(stop).Some? ==> trace == old(trace) + StartTrace(loop, stop.value, rounds, outcome) && r == Returned
    {
      if stop.None? {
        trace := trace + [Prologue];
        return Raised(AttributeError);
      }
      var hooks := RunStart(Finished(), stop.value, rounds, outcome);
      trace := trace + hooks;
      r := Returned;
    }
  }

  class ConcurrentWorker {
    const wcount: int
    const qsize: int
    var workers: seq<nat>
    var stop: Option<bool>
    var queue: Option<seq<Item>>
    var trace: seq<Event>

    /** `ConcurrentWorker.__init__`: no workers; the queue and the stop event
        are None. */
    constructor (qsize: int, wcount: int)
      ensures this.qsize == qsize && this.wcount == wcount
      ensures workers == [] && stop == None && queue == None && trace == []
    {
      this.qsize := qsize;
      this.wcount := wcount;
      workers := [];
      stop := None;
      queue := None;
      trace := [];
    }

    /** A caller assigning a stop event and a queue holding `items`. */
    method Assign(isSet: bool, items: seq<Item>)
      modifies this`stop, this`queue
      ensures stop == Some(isSet) && queue == Some(items)
    {
      stop := Some(isSet);
      queue := Some(items);
    }

    /** `manage_workers`: one cycle per entry of `lives` (the handles alive
        at that prune) and of `handles` (the handle `start_worker` returns
        there), while the stop event stays clear; it is found set after the
        last one. */
    method ManageWorkers(lives: seq<set<nat>>, handles: seq<nat>) returns (r: Outcome)
      requires |lives| == |handles|
      modifies this`workers
      ensures stop.None? ==> r == Raised(AttributeError) && workers == old(workers)
      ensures IsSet() ==> r == Returned && workers == old(workers)
      ensures Clear() ==> r == Returned && workers == Cycles(old(workers), lives, handles, wcount)
      ensures Clear() && |old(workers)| <= wcount ==> |workers| <= wcount
    {
      if stop.None? {
        return Raised(AttributeError);
      }
      if stop.value {
        return Returned;
      }
      ghost var goal := Cycles(workers, lives, handles, wcount);
      for k := 0 to |lives|
        invariant Cycles(workers, lives[k..], handles[k..], wcount) == goal
        invariant |old(workers)| <= wcount ==> |workers| <= wcount
      {
        assert lives[k..][1..] == lives[k + 1..] && handles[k..][1..] == handles[k + 1..];
        CycleBound(workers, lives[k], wcount, handles[k]);
        workers := Prune(workers, lives[k]);
        if |workers| == wcount {
          continue;
        }
        workers := workers + [handles[k]];
      }
      r := Returned;
    }

    /** The stop event exists and is clear / is set. */
    predicate Clear()
      reads this
    {
      stop.Some? && !stop.value
    }

    predicate IsSet()
      reads this
    {
      stop.Some? && stop.value
    }

    /** `interrupted`: sets the stop event. */
    method Interrupted() returns (r: Outcome)
      modifies this`stop
      ensures old(stop).None? ==> r == Raised(AttributeError) && stop == None
      ensures old(stop).Some? ==> r == Returned && IsSet()
    {
      if stop.None? {
        return Raised(AttributeError);
      }
      stop := Some(true);
      r := Returned;
    }

    /** `get_task`: the front of the queue while the stop event is clear;
        on an empty queue each `get` times out, and after `timeouts` of them
        another party sets the event, and None is returned. */
    method GetTask(timeouts: nat) returns (r: Result<Option<Item>>)
      modifies this`queue, this`stop
      ensures old(stop).None? ==> r == Err(AttributeError) && unchanged(this)
      ensures old(IsSet()) ==> r == Ok(None) && unchanged(this)
      ensures old(Clear()) && old(queue).None? ==> r == Err(AttributeError) && unchanged(this)
      ensures old(Clear()) && old(queue) == Some([]) ==> r == Ok(None) && IsSet() && queue == old(queue)
      ensures old(Clear()) && old(queue).Some? && old(queue).value != [] ==>
        r == Ok(Some(old(queue).value[0])) && queue == Some(old(queue).value[1..]) && stop == old(stop)
      ensures r == Ok(None) ==> IsSet()
    {
      var polls := 0;
      while !IsSet()
        invariant polls <= timeouts
        invariant queue == old(queue)
        invariant stop == old(stop) || (old(Clear()) && old(queue) == Some([]) && IsSet())
        decreases timeouts - polls, if IsSet() then 0 else 1
      {
        if stop.None? || queue.None? {
          return Err(AttributeError);
        }
        if queue.value != [] {
          var task := queue.value[0];
          queue := Some(queue.value[1..]);
          return Ok(Some(task));
        }
        if polls == timeouts {
          stop := Some(true);
        } else {
          polls := polls + 1;
        }
      }
      r := Ok(None);
    }

    /** `work`: with no stop event the first `is_set()` raises
        AttributeError; a set event ends it at once; with a clear event and
        no queue the first `get_task` raises AttributeError at
        `self.queue.get`. Otherwise every truthy task of the queue, in order,
        goes to `_process` (`task_done` first marks the queue item done,
        whose accounting is not modelled); falsy ones are skipped; when the
        queue is empty the stop event arrives as in `get_task`. */
    method Work(outcome: nat -> Outcome, timeouts: nat) returns (r: Outcome)
      modifies this`queue, this`stop, this`trace
      ensures old(stop).None? ==> r == Raised(AttributeError) && unchanged(this)
      ensures old(IsSet()) ==> r == Returned && unchanged(this)
      ensures old(Clear()) && old(queue).None? ==> r == Raised(AttributeError) && unchanged(this)
      ensures old(Clear()) && old(queue).Some? ==>
        r == Returned && trace == old(trace) + Round(Truthy(old(queue).value), outcome)
        && queue == Some([]) && IsSet()
    {
      if stop.None? {
        return Raised(AttributeError);
      }
      if stop.value {
        return Returned;
      }
      if queue.None? {
        return Raised(AttributeError);
      }
      while !IsSet()
        invariant old(Clear()) && old(queue).Some?
        invariant queue.Some? && stop.Some?
        invariant Clear() ==>
          trace + Round(Truthy(queue.value), outcome) == old(trace) + Round(Truthy(old(queue).value), outcome)
        invariant IsSet() ==> trace == old(trace) + Round(Truthy(old(queue).value), outcome) && queue == Some([])
        decreases |queue.value|, if IsSet() then 0 else 1
      {
        ghost var before := queue.value;
        var task := GetTask(timeouts);
        if before != [] {
          TruthyStep(before);
        }
        if task.Ok? && task.value.Some? && task.value.value.Task? {
          var id := task.value.value.id;
          RoundAppend([id], Truthy(queue.value), outcome);
          assert Round([id], outcome) == [Processed(id, outcome(id))];
          match outcome(id)
          case Returned =>
            trace := trace + [TaskDone(id)];
          case Raised(exc) =>
            trace := trace + [TaskFail(id, exc)];
        }
      }
      r := Returned;
    }
  }
}
