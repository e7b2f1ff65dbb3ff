/** The executor of optinum/executor.py: a daemon whose tasks are report jobs.
    It keeps the submitted jobs in a list and routes a job's outcome to
    `job.done`. */
module Executor {
  import opened Common
  import opened Data
  import Algorithm
  import Jobs

  class Executor {
    var jobs: seq<Jobs.Job>

    constructor ()
      ensures jobs == []
    {
      jobs := [];
    }

    /** `task_done`: the job is done with status True. */
    method TaskDone(job: Jobs.Job, result: Option<Exc>)
      modifies job`done, job`status, job`stored
      ensures job.done && job.status && job.stored == Jobs.FromAlgorithm(job.algorithm.result)
    {
      job.Done(true, result);
    }

    /** `task_fail`: the job is done with status False and the exception. */
    method TaskFail(job: Jobs.Job, exc: Exc)
      modifies job`done, job`status, job`stored
      ensures job.done && !job.status && job.stored == Jobs.Passed(Some(exc))
    {
      job.Done(false, Some(exc));
    }

    /** `process`: starts the job. */
    method Process(job: Jobs.Job, draws: seq<nat>) returns (outcome: Outcome)
      requires |draws| == (if job.algorithm.variables > 0 then job.algorithm.variables else 0)
      requires ValidDraws(draws, job.algorithm.space.size)
      modifies job.algorithm`chromosome, job.algorithm`score, job.algorithm`evaluations, job.algorithm`result
      ensures var (st, e) := Algorithm.ComputeOutcome(job.algorithm.objective, job.algorithm.policy, job.algorithm.maxEvaluations,
                                                      RandomBits(draws, job.algorithm.space.size),
                                                      old(Algorithm.State(job.algorithm.chromosome, job.algorithm.score, job.algorithm.evaluations)));
        && Algorithm.State(job.algorithm.chromosome, job.algorithm.score, job.algorithm.evaluations) == st
        && (job.algorithm.result, outcome) == Algorithm.RunOutcome(job.algorithm.maxEvaluations, st, e, old(job.algorithm.result))
    {
      outcome := job.Start(draws);
    }

    /** The inherited `_process` (optinum/daemon.py) with this executor's
        hooks: the job's algorithm runs as `Process` says; a job whose run
        raises is failed with that exception, any other is done with the
        algorithm's new result stored, and either way the job ends done. */
    method ProcessJob(job: Jobs.Job, draws: seq<nat>) returns (outcome: Outcome)
      requires |draws| == (if job.algorithm.variables > 0 then job.algorithm.variables else 0)
      requires ValidDraws(draws, job.algorithm.space.size)
      modifies job`done, job`status, job`stored
      modifies job.algorithm`chromosome, job.algorithm`score, job.algorithm`evaluations, job.algorithm`result
      ensures var (st, e) := Algorithm.ComputeOutcome(job.algorithm.objective, job.algorithm.policy, job.algorithm.maxEvaluations,
                                                      RandomBits(draws, job.algorithm.space.size),
                                                      old(Algorithm.State(job.algorithm.chromosome, job.algorithm.score, job.algorithm.evaluations)));
        && Algorithm.State(job.algorithm.chromosome, job.algorithm.score, job.algorithm.evaluations) == st
        && (job.algorithm.result, outcome) == Algorithm.RunOutcome(job.algorithm.maxEvaluations, st, e, old(job.algorithm.result))
      ensures job.done && (job.status <==> outcome == Returned)
      ensures outcome == Returned ==> job.stored == Jobs.FromAlgorithm(job.algorithm.result)
      ensures outcome.Raised? ==> job.stored == Jobs.Passed(Some(outcome.exc))
    {
      outcome := Process(job, draws);
      match outcome
      case Raised(e) =>
        TaskFail(job, e);
      case Returned =>
        TaskDone(job, None);
    }

    /** `add_task`: appends the job; nothing else changes. */
    method AddTask(job: Jobs.Job)
      modifies this`jobs
      ensures jobs == old(jobs) + [job]
    {
      jobs := jobs + [job];
    }

    /** `task_generator` as written: nothing when there are no jobs; otherwise
        `self._tasks.pop()` names an attribute that does not exist and raises
        AttributeError. The job list is left as it is in both cases. */
    method TaskGenerator() returns (r: Result<seq<Jobs.Job>>)
      ensures r.Ok? <==> jobs == []
      ensures r.Ok? ==> r.value == []
      ensures r.Err? ==> r.exc == AttributeError
    {
      if jobs == [] {
        return Ok([]);
      }
      r := Err(AttributeError);
    }
  }
}
