/** The `Algorithm` worker of optinum/worker/algorithm.py: a non-looping
    `BaseWorker` of optinum/worker/base.py whose hooks rewrite a status
    field. Every status it assigns is appended to `history`.

    As written the class cannot be instantiated: it leaves the abstract
    `process` undefined, so creating one raises TypeError. Its `__init__`
    would raise AttributeError anyway: it assigns the read-only `name`
    property, then reads `config.STATUS`, which optinum/config.py does not
    define. The hooks are therefore modelled on an object in a given
    status. */
module WorkerAlgorithm {
  import opened Common
  import Pool

  class AlgorithmWorker {
    var status: Status
    var history: seq<Status>
    var task: Option<nat>
    var stop: Option<bool>

    /** Creating an `Algorithm` as written. */
    static method New() returns (r: Result<AlgorithmWorker>)
      ensures r == Err(TypeError)
    {
      r := Err(TypeError);
    }

    /** An object in status `status`, holding `task` (truthy when Some),
        with stop event `stop` (None as `BaseWorker.__init__` leaves it). */
    constructor (status: Status, task: Option<nat>, stop: Option<bool>)
      ensures this.status == status && this.task == task && this.stop == stop && history == []
    {
      this.status := status;
      this.task := task;
      this.stop := stop;
      history := [];
    }

    /** `prologue`: RUNNING. */
    method Prologue()
      modifies this`status, this`history
      ensures status == Running && history == old(history) + [Running]
    {
      status := Running;
      history := history + [Running];
    }

    /** `task_done`: DONE. */
    method TaskDone()
      modifies this`status, this`history
      ensures status == Done && history == old(history) + [Done]
    {
      status := Done;
      history := history + [Done];
    }

    /** `task_fail`: ERROR. */
    method TaskFail(exc: Exc)
      modifies this`status, this`history
      ensures status == Error && history == old(history) + [Error]
    {
      status := Error;
      history := history + [Error];
    }

    /** `epilogue`: DONE, whatever the status was. */
    method Epilogue()
      modifies this`status, this`history
      ensures status == Done && history == old(history) + [Done]
    {
      status := Done;
      history := history + [Done];
    }

    /** `task_generator`: a bare `yield`, that is one None, when a task is
        set; nothing otherwise. */
    method TaskGenerator() returns (items: seq<Pool.Item>)
      ensures task.Some? ==> items == [Pool.Falsy]
      ensures task.None? ==> items == []
    {
      items := [];
      if task.Some? {
        items := items + [Pool.Falsy];
      }
    }

    /** `_process(item)`: `task_done` or `task_fail` as `process` returns or
        raises. */
    method ProcessItem(item: Pool.Item, outcome: Outcome)
      modifies this`status, this`history
      ensures status == (if outcome == Returned then Done else Error)
      ensures history == old(history) + [status]
    {
      if outcome.Raised? {
        TaskFail(outcome.exc);
      } else {
        TaskDone();
      }
    }

    /** `start` with `loop=False`: `prologue`, the generator run once, then
        `epilogue`, which leaves DONE even after a failure. Without a stop
        event the first `is_set()` raises after `prologue`. */
    method Start(outcome: Outcome) returns (r: Outcome)
      modifies this`status, this`history
      ensures old(stop).None? ==> r == Raised(AttributeError) && status == Running && history == old(history) + [Running]
      ensures old(stop).Some? ==> r == Returned && status == Done
      ensures old(stop).Some? && (old(stop).value || task.None?) ==> history == old(history) + [Running, Done]
      ensures old(stop).Some? && !old(stop).value && task.Some? ==>
        history == old(history) + [Running, if outcome == Returned then Done else Error, Done]
    {
      Prologue();
      if stop.None? {
        return Raised(AttributeError);
      }
      if !stop.value {
        var items := TaskGenerator();
        for k := 0 to |items|
          invariant items == [] ==> history == old(history) + [Running]
          invariant items == [Pool.Falsy] ==> history == old(history) + [Running] + (if k == 1 then [if outcome == Returned then Done else Error] else [])
        {
          ProcessItem(items[k], outcome);
        }
      }
      Epilogue();
      r := Returned;
    }
  }
}
