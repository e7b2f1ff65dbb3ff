/** A report's unit of work (the `Job` class of optinum/report.py): it owns a
    hill-climbing algorithm object, runs it when started, and records how the
    executor finished it. */
module Jobs {
  import opened Common
  import opened Data
  import Algorithm

  /** What `_result` holds: `False` until `done`, then the algorithm's result
      record (on success) or the value passed to `done` (on failure). */
  datatype Stored = Unset | FromAlgorithm(data: Option<Algorithm.RunResult>) | Passed(value: Option<Exc>)

  /** The `Result(status, data)` named tuple. */
  datatype JobResult = JobResult(status: bool, data: Option<Algorithm.RunResult>)

  class Job {
    const algorithm: Algorithm.HillClimbing
    var done: bool
    var status: bool
    var stored: Stored

    /** `Job(algorithm, task, ...)` as written: `__init__` first calls
        `factory.get_algorithm`, which optinum/factory.py does not define, so
        it raises AttributeError. */
    static method New() returns (r: Result<Job>)
      ensures r == Err(AttributeError)
    {
      r := Err(AttributeError);
    }

    /** `Job.__init__` past the factory lookup, with the algorithm object
        already built. */
    constructor (algorithm: Algorithm.HillClimbing)
      ensures this.algorithm == algorithm
      ensures !done && !status && stored == Unset
    {
      this.algorithm := algorithm;
      done := false;
      status := false;
      stored := Unset;
    }

    /** The `is_done` property: the flag that only `done` sets. */
    predicate IsDone()
      reads this
      ensures IsDone() <==> done
    {
      done
    }

    /** The `result` property: the status paired with the algorithm's own
        `result`, whatever `done` stored. */
    function Result(): (r: JobResult)
      reads this, algorithm
      ensures r.status == status && r.data == algorithm.result
    {
      JobResult(status, algorithm.result)
    }

    /** `done(status, result)`: marks the job done and records the status;
        on success it stores the algorithm's result, on failure the value
        passed in. */
    method Done(status: bool, result: Option<Exc>)
      modifies this`done, this`status, this`stored
      ensures IsDone() && this.status == status
      ensures stored == if status then FromAlgorithm(algorithm.result) else Passed(result)
    {
      done := true;
      this.status := status;
      if status {
        stored := FromAlgorithm(algorithm.result);
      } else {
        stored := Passed(result);
      }
    }

    /** `start`: runs the algorithm. */
    method Start(draws: seq<nat>) returns (outcome: Outcome)
      requires |draws| == (if algorithm.variables > 0 then algorithm.variables else 0)
      requires ValidDraws(draws, algorithm.space.size)
      modifies algorithm`chromosome, algorithm`score, algorithm`evaluations, algorithm`result
      ensures var (st, e) := Algorithm.ComputeOutcome(algorithm.objective, algorithm.policy, algorithm.maxEvaluations,
                                                      RandomBits(draws, algorithm.space.size),
                                                      old(Algorithm.State(algorithm.chromosome, algorithm.score, algorithm.evaluations)));
        && Algorithm.State(algorithm.chromosome, algorithm.score, algorithm.evaluations) == st
        && (algorithm.result, outcome) == Algorithm.RunOutcome(algorithm.maxEvaluations, st, e, old(algorithm.result))
    {
      outcome := algorithm.Run(draws);
    }
  }
}
