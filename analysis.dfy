/** The analysis of optinum/analysis/base.py: a `Task` whose status the
    algorithm executor moves from RUNNING to DONE or ERROR, the
    `AlgorithmExecutor` that takes tasks from the analysis queue and routes
    their outcome, and the `Analysis` that submits tasks and waits for them.

    As written none of these objects can be built: `Task.__init__` reads
    `config.STATUS.NOSET`, but the configuration defines `NOTSET`;
    `AlgorithmExecutor` leaves the abstract `start_worker` undefined; and
    `Analysis.__init__` builds such an executor. The model therefore takes
    objects in a given state. As in optinum/worker/base.py, the executor's
    stop event and queue are None until a caller assigns them. */
module Analysis {
  import opened Common
  import Pool

  class Task {
    const id: nat
    var status: Status

    /** `Task.__init__` as written. */
    static method New() returns (r: Result<Task>)
      ensures r == Err(AttributeError)
    {
      r := Err(AttributeError);
    }

    constructor (id: nat, status: Status)
      ensures this.id == id && this.status == status
    {
      this.id := id;
      this.status := status;
    }

    /** `callback_fail`: ERROR. */
    method CallbackFail(exc: Exc)
      modifies this`status
      ensures status == Error
    {
      status := Error;
    }

    /** `callback_done`: DONE. */
    method CallbackDone()
      modifies this`status
      ensures status == Done
    {
      status := Done;
    }

    /** `is_done()`: only DONE counts; ERROR does not. */
    predicate IsDone()
      reads this
      ensures IsDone() <==> status == Done
    {
      status == Done
    }

    /** `run`: RUNNING, then the algorithm's `start(self)`, whose outcome
        is `outcome`. */
    method Run(outcome: Outcome) returns (r: Outcome)
      modifies this`status
      ensures status == Running && r == outcome
    {
      status := Running;
      r := outcome;
    }
  }

  class AlgorithmExecutor {
    var stop: Option<bool>
    var queue: Option<seq<Pool.Item>>
    var taskQueue: seq<Pool.Item>

    /** Creating an `AlgorithmExecutor` as written. */
    static method New() returns (r: Result<AlgorithmExecutor>)
      ensures r == Err(TypeError)
    {
      r := Err(TypeError);
    }

    /** An executor reading `taskQueue`, its own stop event and queue None
        as `ConcurrentWorker.__init__` leaves them. */
    constructor (taskQueue: seq<Pool.Item>)
      ensures this.taskQueue == taskQueue && stop == None && queue == None
    {
      this.taskQueue := taskQueue;
      stop := None;
      queue := None;
    }

    /** A caller assigning a stop event and a processing queue. */
    method Assign(isSet: bool, items: seq<Pool.Item>)
      modifies this`stop, this`queue
      ensures stop == Some(isSet) && queue == Some(items)
    {
      stop := Some(isSet);
      queue := Some(items);
    }

    predicate Clear()
      reads this
    {
      stop.Some? && !stop.value
    }

    predicate IsSet()
      reads this
    {
      stop.Some? && stop.value
    }

    /** `task_generator`: the truthy tasks of the analysis queue, in order,
        while the stop event is clear. Once the queue is empty, each `get`
        times out until the event is set (by the analysis epilogue). */
    method TaskGenerator() returns (r: Result<seq<nat>>)
      modifies this`taskQueue, this`stop
      ensures old(stop).None? ==> r == Err(AttributeError) && unchanged(this)
      ensures old(IsSet()) ==> r == Ok([]) && unchanged(this)
      ensures old(Clear()) ==> r == Ok(Pool.Truthy(old(taskQueue))) && taskQueue == [] && IsSet()
    {
      if stop.None? {
        return Err(AttributeError);
      }
      var yielded: seq<nat> := [];
      while !stop.value
        invariant stop.Some?
        invariant stop.value ==> old(IsSet()) || taskQueue == []
        invariant old(IsSet()) ==> unchanged(this)
        invariant old(Clear()) ==> yielded + Pool.Truthy(taskQueue) == Pool.Truthy(old(taskQueue))
        invariant old(IsSet()) ==> yielded == []
        decreases |taskQueue|, if stop.value then 0 else 1
      {
        if taskQueue == [] {
          stop := Some(true);
          continue;
        }
        var task := taskQueue[0];
        Pool.TruthyStep(taskQueue);
        taskQueue := taskQueue[1..];
        if task.Task? {
          yielded := yielded + [task.id];
        }
      }
      assert old(Clear()) ==> taskQueue == [] && yielded + Pool.Truthy(taskQueue) == yielded;
      r := Ok(yielded);
    }

    /** `task_fail`: the base hook does nothing, then `callback_fail`. */
    method TaskFail(task: Task, exc: Exc)
      modifies task`status
      ensures task.status == Error
    {
      task.CallbackFail(exc);
    }

    /** `task_done`: `ConcurrentWorker.task_done` first calls
        `self.queue.task_done()`, which raises while the queue is None; only
        then `callback_done`. */
    method TaskDone(task: Task) returns (r: Outcome)
      modifies task`status
      ensures queue.None? ==> r == Raised(AttributeError) && task.status == old(task.status)
      ensures queue.Some? ==> r == Returned && task.status == Done
    {
      if queue.None? {
        return Raised(AttributeError);
      }
      task.CallbackDone();
      r := Returned;
    }

    /** `_process(task)` with `process` being `task.run()`: a failure of the
        algorithm makes the task ERROR; a success makes it DONE, unless
        `task_done` raises first, which leaves it RUNNING and propagates. */
    method ProcessTask(task: Task, outcome: Outcome) returns (r: Outcome)
      modifies task`status
      ensures outcome.Raised? ==> task.status == Error && r == Returned
      ensures outcome == Returned && queue.Some? ==> task.status == Done && r == Returned
      ensures outcome == Returned && queue.None? ==> task.status == Running && r == Raised(AttributeError)
      ensures task.IsDone() <==> outcome == Returned && queue.Some?
    {
      var result := task.Run(outcome);
      if result.Raised? {
        TaskFail(task, result.exc);
        return Returned;
      }
      r := TaskDone(task);
    }
  }

  class Analysis {
    const executor: AlgorithmExecutor
    var stop: bool
    var executorStarted: bool

    /** `Analysis.__init__` given an executor: the stop event clear, the
        executor thread not started. */
    constructor (executor: AlgorithmExecutor)
      ensures this.executor == executor && !stop && !executorStarted
    {
      this.executor := executor;
      stop := false;
      executorStarted := false;
    }

    /** `_wait_for_tasks`: the `for` loop reads `task.is_done` without
        calling it; a bound method is truthy, so the loop never breaks and
        its `else` clause returns True at the first poll. False only when
        the stop event is already set. */
    method WaitForTasks(tasks: seq<Task>) returns (r: bool)
      ensures r <==> !stop
    {
      if stop {
        return false;
      }
      r := true;
    }

    /** `compute(execution_count)`: `prologue` starts the executor thread;
        the body then raises AttributeError, at `self._algorithm` in the log
        call when `execution_count >= 1` and at `self._tasks` otherwise,
        since `Analysis` defines neither; the `except` clause logs it; the
        `finally` clause runs `epilogue`, whose `self._executor.stop.set()`
        raises while the executor's stop event is None. No task is stored
        and `report` is never called. */
    method Compute(executionCount: int) returns (r: Outcome)
      modifies this`executorStarted, executor`stop
      ensures executorStarted
      ensures old(executor.stop).None? ==> r == Raised(AttributeError) && executor.stop == None
      ensures old(executor.stop).Some? ==> r == Returned && executor.IsSet()
    {
      executorStarted := true;
      if executor.stop.None? {
        return Raised(AttributeError);
      }
      executor.stop := Some(true);
      r := Returned;
    }
  }
}
