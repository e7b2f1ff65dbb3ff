/** The daemons of optinum/daemon.py. `Daemon` runs the prologue, a
    generate-and-process loop and the epilogue, but defines no `stop`
    attribute itself, so its `start` raises AttributeError unless a subclass
    or caller provides one. `ThreadDaemon` (a `_ConcurrentDaemon` with a
    thread-safe queue and a clear stop event) keeps its list of worker
    handles alive and hands queued tasks to `_process`. The hook calls are
    recorded in `trace`. */
module Daemon {
  import opened Common
  import opened Pool

  /** `config.DAEMON.QSIZE` and `config.DAEMON.WORKERS` (optinum/config.py). */
  const DefaultQueueSize := 0
  const DefaultWorkers := 5

  /** Python's `value or fallback` on an integer: only 0 is falsy. */
  function Default(value: int, fallback: int): (r: int)
    ensures value != 0 ==> r == value
    ensures value == 0 ==> r == fallback
  {
    if value == 0 then fallback else value
  }

  class Daemon {
    const loop: bool
    var stop: Option<bool>
    var trace: seq<Event>

    /** `Daemon.__init__`: no `stop` attribute yet, shown as None. */
    constructor (loop: bool)
      ensures this.loop == loop && stop == None && trace == []
    {
      this.loop := loop;
      stop := None;
      trace := [];
    }

    /** A subclass or caller providing the stop event, set or clear. */
    method AssignStop(isSet: bool)
      modifies this`stop
      ensures stop == Some(isSet)
    {
      stop := Some(isSet);
    }

    /** `_process(task)`: exactly one of `task_done` and `task_fail`. */
    method ProcessTask(task: nat, outcome: Outcome)
      modifies this`trace
      ensures trace == old(trace) + [Processed(task, outcome)]
    {
      match outcome
      case Returned =>
        trace := trace + [TaskDone(task)];
      case Raised(exc) =>
        trace := trace + [TaskFail(task, exc)];
    }

    /** `start`: `prologue`, then rounds until `finished()` is false, the
        stop event is set or an interrupt arrives, then `epilogue`. Without
        a stop event the first `self.stop` raises after `prologue`. */
    method Start(rounds: seq<seq<nat>>, outcome: nat -> Outcome) returns (r: Outcome)
      modifies this`trace
      ensures old(stop).None? ==> trace == old(trace) + [Prologue] && r == Raised(AttributeError)
      ensures old(stop).Some? ==> trace == old(trace) + StartTrace(loop, stop.value, rounds, outcome) && r == Returned
    {
      if stop.None? {
        trace := trace + [Prologue];
        return Raised(AttributeError);
      }
      var hooks := RunStart(loop, stop.value, rounds, outcome);
      trace := trace + hooks;
      r := Returned;
    }
  }

  class ThreadDaemon {
    const qsize: int
    const wcount: int
    const capacity: Option<nat>
    var workers: seq<nat>
    var stop: bool
    var queue: seq<Item>
    var trace: seq<Event>

    /** `_ConcurrentDaemon.__init__` then `ThreadDaemon.__init__`: a zero
        `qsize` or `wcount` is replaced by the configured default; no
        workers, an empty `queue.Queue(qsize)` and a clear stop event. */
    constructor (qsize: int, wcount: int)
      ensures this.qsize == Default(qsize, DefaultQueueSize) && this.wcount == Default(wcount, DefaultWorkers)
      ensures capacity == Capacity(this.qsize)
      ensures workers == [] && !stop && queue == [] && trace == []
    {
      this.qsize := Default(qsize, DefaultQueueSize);
      this.wcount := Default(wcount, DefaultWorkers);
      capacity := Capacity(Default(qsize, DefaultQueueSize));
      workers := [];
      stop := false;
      queue := [];
      trace := [];
    }

    /** `put_task`: `queue.put(task)`. A put on a full queue blocks until a
        consumer takes an item, which a sequential caller cannot wait for. */
    method PutTask(item: Item)
      requires capacity.None? || |queue| < capacity.value
      modifies this`queue
      ensures queue == old(queue) + [item]
    {
      queue := queue + [item];
    }

    /** `manage_workers`: one cycle per entry of `lives` and `handles`
        while the stop event is clear; it is found set after the last. */
    method ManageWorkers(lives: seq<set<nat>>, handles: seq<nat>)
      requires |lives| == |handles|
      modifies this`workers
      ensures stop ==> workers == old(workers)
      ensures !stop ==> workers == Cycles(old(workers), lives, handles, wcount)
      ensures |old(workers)| <= wcount ==> |workers| <= wcount
    {
      if stop {
        return;
      }
      ghost var goal := Cycles(workers, lives, handles, wcount);
      for k := 0 to |lives|
        invariant Cycles(workers, lives[k..], handles[k..], wcount) == goal
        invariant |old(workers)| <= wcount ==> |workers| <= wcount
      {
        assert lives[k..][1..] == lives[k + 1..] && handles[k..][1..] == handles[k + 1..];
        CycleBound(workers, lives[k], wcount, handles[k]);
        workers := Prune(workers, lives[k]);
        if |workers| == wcount {
          continue;
        }
        workers := workers + [handles[k]];
      }
    }

    /** `interrupted`: sets the stop event. */
    method Interrupted()
      modifies this`stop
      ensures stop
    {
      stop := true;
    }

    /** `get_task`: the front of the queue while the stop event is clear;
        on an empty queue the event is set by another party after
        `timeouts` timed-out `get`s, and None is returned. */
    method GetTask(timeouts: nat) returns (r: Option<Item>)
      modifies this`queue, this`stop
      ensures old(stop) ==> r == None && unchanged(this)
      ensures !old(stop) && old(queue) == [] ==> r == None && stop && queue == []
      ensures !old(stop) && old(queue) != [] ==> r == Some(old(queue)[0]) && queue == old(queue)[1..] && !stop
      ensures r.None? <==> stop
    {
      var polls := 0;
      while !stop
        invariant polls <= timeouts
        invariant queue == old(queue)
        invariant stop ==> old(stop) || old(queue) == []
        invariant old(stop) ==> stop
        decreases timeouts - polls, if stop then 0 else 1
      {
        if queue != [] {
          var task := queue[0];
          queue := queue[1..];
          return Some(task);
        }
        if polls == timeouts {
          stop := true;
        } else {
          polls := polls + 1;
        }
      }
      r := None;
    }

    /** `work`: every truthy task of the queue, in order, goes to `_process`;
        falsy ones are skipped; the run ends once the queue is empty and the
        stop event has arrived. */
    method Work(outcome: nat -> Outcome, timeouts: nat)
      modifies this`queue, this`stop, this`trace
      ensures old(stop) ==> unchanged(this)
      ensures !old(stop) ==> trace == old(trace) + Round(Truthy(old(queue)), outcome) && queue == [] && stop
    {
      while !stop
        invariant old(stop) ==> unchanged(this)
        invariant !stop ==> trace + Round(Truthy(queue), outcome) == old(trace) + Round(Truthy(old(queue)), outcome)
        invariant !old(stop) && stop ==> trace == old(trace) + Round(Truthy(old(queue)), outcome) && queue == []
        decreases |queue|, if stop then 0 else 1
      {
        ghost var before := queue;
        var task := GetTask(timeouts);
        if before != [] {
          TruthyStep(before);
        }
        if task.Some? && task.value.Task? {
          var id := task.value.id;
          RoundAppend([id], Truthy(queue), outcome);
          assert Round([id], outcome) == [Processed(id, outcome(id))];
          match outcome(id)
          case Returned =>
            trace := trace + [TaskDone(id)];
          case Raised(exc) =>
            trace := trace + [TaskFail(id, exc)];
        }
      }
    }
  }
}
