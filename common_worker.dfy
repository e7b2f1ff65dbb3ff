/** The worker classes of optinum/common/worker.py. `BaseWorker.start(task)`
    processes one task between the prologue and the epilogue; `Worker` has
    the generate-and-process loop of optinum/worker/base.py and also leaves
    its stop event None; `ConcurrentWorker` builds its own stop event (clear)
    and a queue of capacity `qsize`. The hook calls are recorded in `trace`. */
module CommonWorker {
  import opened Common
  import opened Pool

  class BaseWorker {
    var trace: seq<Event>

    constructor ()
      ensures trace == []
    {
      trace := [];
    }

    /** `BaseWorker.start(task)`: when `process` raises, `task_fail` and
        then `epilogue`; when it returns, the `else` clause passes `exc`,
        which is bound only in the `except` clause, so UnboundLocalError is
        raised before `task_done` and `epilogue` run. */
    method Start(task: nat, outcome: Outcome) returns (r: Outcome)
      modifies this`trace
      ensures outcome.Raised? ==> trace == old(trace) + [Prologue, TaskFail(task, outcome.exc), Epilogue] && r == Returned
      ensures outcome == Returned ==> trace == old(trace) + [Prologue] && r == Raised(UnboundLocalError)
      ensures Epilogue in trace[|old(trace)|..] <==> outcome.Raised?
      ensures TaskDone(task) !in trace[|old(trace)|..]
    {
      trace := trace + [Prologue];
      if outcome == Returned {
        assert trace[|old(trace)|..] == [Prologue];
        return Raised(UnboundLocalError);
      }
      trace := trace + [TaskFail(task, outcome.exc)];
      trace := trace + [Epilogue];
      assert trace[|old(trace)|..] == [Prologue, TaskFail(task, outcome.exc), Epilogue];
      r := Returned;
    }
  }

  class Worker {
    const loop: bool
    var stop: Option<bool>
    var trace: seq<Event>

    /** `Worker.__init__`: the stop event is None. */
    constructor (loop: bool)
      ensures this.loop == loop && stop == None && trace == []
    {
      this.loop := loop;
      stop := None;
      trace := [];
    }

    /** A caller assigning `worker.stop = threading.Event()`, set or clear. */
    method AssignStop(isSet: bool)
      modifies this`stop
      ensures stop == Some(isSet)
    {
      stop := Some(isSet);
    }

    /** `_process(task)`: exactly one of `task_done` and `task_fail`. */
    method ProcessTask(task: nat, outcome: Outcome)
      modifies this`trace
      ensures trace == old(trace) + [Processed(task, outcome)]
    {
      match outcome
      case Returned =>
        trace := trace + [TaskDone(task)];
      case Raised(exc) =>
        trace := trace + [TaskFail(task, exc)];
    }

    /** `start`: as in optinum/worker/base.py; with the stop event None the
        first `is_set()` raises after `prologue`. */
    method Start(rounds: seq<seq<nat>>, outcome: nat -> Outcome) returns (r: Outcome)
      modifies this`trace
      ensures old(stop).None? ==> trace == old(trace) + [Prologue] && r == Raised(AttributeError)
      ensures old(stop).Some? ==> trace == old(trace) + StartTrace(loop, stop.value, rounds, outcome) && r == Returned
    {
      if stop.None? {
        trace := trace + [Prologue];
        return Raised(AttributeError);
      }
      var hooks := RunStart(loop, stop.value, rounds, outcome);
      trace := trace + hooks;
      r := Returned;
    }
  }

  class ConcurrentWorker {
    const wcount: int
    const qsize: int
    const capacity: Option<nat>
    var workers: seq<nat>
    var stop: bool
    var queue: seq<Item>
    var trace: seq<Event>

    /** `ConcurrentWorker.__init__`: no workers, a clear stop event and an
        empty `queue.Queue(qsize)`, unbounded when `qsize` is 0 (the
        configured default) or less. */
    constructor (qsize: int, wcount: int)
      ensures this.qsize == qsize && this.wcount == wcount && capacity == Capacity(qsize)
      ensures workers == [] && !stop && queue == [] && trace == []
    {
      this.qsize := qsize;
      this.wcount := wcount;
      capacity := Capacity(qsize);
      workers := [];
      stop := false;
      queue := [];
      trace := [];
    }

    /** `put_task`: `queue.put(task)`. A put on a full queue blocks until a
        consumer takes an item, which a sequential caller cannot wait for. */
    method PutTask(item: Item)
      requires capacity.None? || |queue| < capacity.value
      modifies this`queue
      ensures queue == old(queue) + [item]
    {
      queue := queue + [item];
    }

    /** `manage_workers`: one cycle per entry of `lives` and `handles`
        while the stop event is clear; it is found set after the last. */
    method ManageWorkers(lives: seq<set<nat>>, handles: seq<nat>)
      requires |lives| == |handles|
      modifies this`workers
      ensures stop ==> workers == old(workers)
      ensures !stop ==> workers == Cycles(old(workers), lives, handles, wcount)
      ensures |old(workers)| <= wcount ==> |workers| <= wcount
    {
      if stop {
        return;
      }
      ghost var goal := Cycles(workers, lives, handles, wcount);
      for k := 0 to |lives|
        invariant Cycles(workers, lives[k..], handles[k..], wcount) == goal
        invariant |old(workers)| <= wcount ==> |workers| <= wcount
      {
        assert lives[k..][1..] == lives[k + 1..] && handles[k..][1..] == handles[k + 1..];
        CycleBound(workers, lives[k], wcount, handles[k]);
        workers := Prune(workers, lives[k]);
        if |workers| == wcount {
          continue;
        }
        workers := workers + [handles[k]];
      }
    }

    /** `get_task`: the front of the queue while the stop event is clear;
        on an empty queue the event is set by another party after
        `timeouts` timed-out `get`s, and None is returned. */
    method GetTask(timeouts: nat) returns (r: Option<Item>)
      modifies this`queue, this`stop
      ensures old(stop) ==> r == None && unchanged(this)
      ensures !old(stop) && old(queue) == [] ==> r == None && stop && queue == []
      ensures !old(stop) && old(queue) != [] ==> r == Some(old(queue)[0]) && queue == old(queue)[1..] && !stop
      ensures r.None? <==> stop
    {
      var polls := 0;
      while !stop
        invariant polls <= timeouts
        invariant queue == old(queue)
        invariant stop ==> old(stop) || old(queue) == []
        invariant old(stop) ==> stop
        decreases timeouts - polls, if stop then 0 else 1
      {
        if queue != [] {
          var task := queue[0];
          queue := queue[1..];
          return Some(task);
        }
        if polls == timeouts {
          stop := true;
        } else {
          polls := polls + 1;
        }
      }
      r := None;
    }

    /** `work`: every truthy task of the queue, in order, goes to `_process`;
        falsy ones are skipped; the run ends once the queue is empty and the
        stop event has arrived. */
    method Work(outcome: nat -> Outcome, timeouts: nat)
      modifies this`queue, this`stop, this`trace
      ensures old(stop) ==> unchanged(this)
      ensures !old(stop) ==> trace == old(trace) + Round(Truthy(old(queue)), outcome) && queue == [] && stop
    {
      while !stop
        invariant old(stop) ==> unchanged(this)
        invariant !stop ==> trace + Round(Truthy(queue), outcome) == old(trace) + Round(Truthy(old(queue)), outcome)
        invariant !old(stop) && stop ==> trace == old(trace) + Round(Truthy(old(queue)), outcome) && queue == []
        decreases |queue|, if stop then 0 else 1
      {
        ghost var before := queue;
        var task := GetTask(timeouts);
        if before != [] {
          TruthyStep(before);
        }
        if task.Some? && task.value.Task? {
          var id := task.value.id;
          RoundAppend([id], Truthy(queue), outcome);
          assert Round([id], outcome) == [Processed(id, outcome(id))];
          match outcome(id)
          case Returned =>
            trace := trace + [TaskDone(id)];
          case Raised(exc) =>
            trace := trace + [TaskFail(id, exc)];
        }
      }
    }
  }
}
