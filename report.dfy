/** The report of optinum/report.py: it submits jobs to an executor, polls
    until every job is done or it is interrupted, and turns the jobs' results
    into table rows (`HCReport._report_content`). */
module Report {
  import opened Common
  import Algorithm
  import Jobs
  import Executor

  /** One row of the content table: `[index, evaluations, score]` for a
      successful job, `[index, '-', 'Error']` for a failed one. */
  datatype Row = Scored(index: nat, evaluations: int, score: Option<real>) | Failed(index: nat)

  /** What `compute` returns: False, or the bound method `_prepare_report`
      (which it does not call). */
  datatype ComputeReturn = NotCompleted | PrepareReport

  /** The rows for the job results `results`, the first one numbered `from`.
      A successful job whose algorithm has an empty `result` dictionary makes
      `job_data["evaluations"]` raise KeyError. */
  function RowsFrom(results: seq<Jobs.JobResult>, from: nat): (r: Result<seq<Row>>)
    ensures r.Ok? <==> forall k :: 0 <= k < |results| ==> results[k].status ==> results[k].data.Some?
    ensures r.Err? ==> r.exc == KeyError
    ensures r.Ok? ==> |r.value| == |results| && forall k :: 0 <= k < |results| ==>
      r.value[k] == if results[k].status
        then Scored(from + k, results[k].data.value.evaluations, results[k].data.value.score)
        else Failed(from + k)
    decreases |results|
  {
    if results == [] then Ok([])
    else
      var head :=
        if !results[0].status then Ok(Failed(from))
        else if results[0].data.None? then Err(KeyError)
        else Ok(Scored(from, results[0].data.value.evaluations, results[0].data.value.score));
      var tail := RowsFrom(results[1..], from + 1);
      assert forall k :: 0 < k < |results| ==> results[1..][k - 1] == results[k];
      if head.Err? then Err(head.exc)
      else if tail.Err? then Err(tail.exc)
      else Ok([head.value] + tail.value)
  }

  class Report {
    const executor: Executor.Executor
    var jobs: seq<Jobs.Job>
    var stop: bool

    /** `Report.__init__`: no jobs, the stop event clear. The `task`
        argument is not stored. */
    constructor (executor: Executor.Executor)
      ensures this.executor == executor && jobs == [] && !stop
    {
      this.executor := executor;
      jobs := [];
      stop := false;
    }

    /** Every job reports `is_done`. */
    predicate AllDone()
      reads this`jobs, jobs
    {
      forall k :: 0 <= k < |jobs| ==> jobs[k].done
    }

    /** The `result` of every job, in order. */
    function JobResults(): (r: seq<Jobs.JobResult>)
      reads this, jobs, set k | 0 <= k < |jobs| :: jobs[k].algorithm
      ensures |r| == |jobs| && forall k :: 0 <= k < |jobs| ==> r[k] == jobs[k].Result()
    {
      seq(|jobs|, k reads this, jobs, set k | 0 <= k < |jobs| :: jobs[k].algorithm
                    requires 0 <= k < |jobs| => jobs[k].Result())
    }

    /** The inner `for` loop of `_wait_for_jobs`: True when no job breaks it. */
    method ReportDone() returns (reportDone: bool)
      ensures reportDone == AllDone()
    {
      reportDone := true;
      for k := 0 to |jobs|
        invariant forall j :: 0 <= j < k ==> jobs[j].done
      {
        if !jobs[k].IsDone() {
          reportDone := false;
          break;
        }
      }
    }

    /** `_wait_for_jobs`, as written: while the stop event is clear it
        checks the jobs; when every job is done (at once when there are no
        jobs) it returns True; otherwise the sleep reads
        `config.REPORT.RETRY_INTERVAL`, and `optinum/config.py` (the module
        `optinum/report.py` imports) defines no `REPORT`, so the first
        unsuccessful poll raises AttributeError, which the `except
        KeyboardInterrupt` clause does not catch. A set event gives False.
        The stop event is never changed. */
    method WaitForJobs() returns (r: Result<bool>)
      ensures old(stop) ==> r == Ok(false)
      ensures !old(stop) && AllDone() ==> r == Ok(true)
      ensures !old(stop) && !AllDone() ==> r == Err(AttributeError)
      ensures r == Ok(true) <==> !stop && AllDone()
    {
      // The `while` body either returns or raises, so it runs at most once.
      if stop {
        return Ok(false);
      }
      var reportDone := ReportDone();
      if reportDone {
        return Ok(true);
      }
      r := Err(AttributeError);
    }

    /** `HCReport._get_job` as written: it reads `self._task`, which no
        constructor assigns, and raises AttributeError. */
    method GetJob() returns (r: Result<Jobs.Job>)
      ensures r == Err(AttributeError)
    {
      r := Err(AttributeError);
    }

    /** The base-class template `Report.compute(execution_count)`, given the
        jobs a `_get_job` returned: each is handed to the executor and kept,
        in submission order; then the jobs are awaited, and the error of
        `_wait_for_jobs` propagates. On success it returns `_prepare_report`
        without calling it. With `HCReport`'s own `_get_job`, see
        `ComputeHC`. */
    method Compute(newJobs: seq<Jobs.Job>) returns (r: Result<ComputeReturn>)
      modifies this`jobs, executor`jobs
      ensures jobs == old(jobs) + newJobs
      ensures executor.jobs == old(executor.jobs) + newJobs
      ensures stop ==> r == Ok(NotCompleted)
      ensures !stop && AllDone() ==> r == Ok(PrepareReport)
      ensures !stop && !AllDone() ==> r == Err(AttributeError)
    {
      for index := 0 to |newJobs|
        invariant jobs == old(jobs) + newJobs[..index]
        invariant executor.jobs == old(executor.jobs) + newJobs[..index]
      {
        var job := newJobs[index];
        executor.AddTask(job);
        jobs := jobs + [job];
        assert newJobs[..index + 1] == newJobs[..index] + [job];
      }
      assert newJobs[..|newJobs|] == newJobs;
      var finished := WaitForJobs();
      if finished.Err? {
        return Err(finished.exc);
      }
      if !finished.value {
        return Ok(NotCompleted);
      }
      r := Ok(PrepareReport);
    }

    /** `HCReport.compute(execution_count)`: for a positive count the first
        `_get_job` raises AttributeError before anything is submitted; for
        none (`range` of a count <= 0 is empty) only `_wait_for_jobs` runs. */
    method ComputeHC(executionCount: int) returns (r: Result<ComputeReturn>)
      ensures executionCount > 0 ==> r == Err(AttributeError)
      ensures executionCount <= 0 && stop ==> r == Ok(NotCompleted)
      ensures executionCount <= 0 && !stop && AllDone() ==> r == Ok(PrepareReport)
      ensures executionCount <= 0 && !stop && !AllDone() ==> r == Err(AttributeError)
    {
      if executionCount > 0 {
        var job := GetJob();
        return Err(job.exc);
      }
      var finished := WaitForJobs();
      if finished.Err? {
        return Err(finished.exc);
      }
      if !finished.value {
        return Ok(NotCompleted);
      }
      r := Ok(PrepareReport);
    }

    /** `HCReport._report_content`: one row per job, in order, numbered from
        0, or KeyError. */
    method ReportContent() returns (r: Result<seq<Row>>)
      ensures r == RowsFrom(JobResults(), 0)
    {
      ghost var results := JobResults();
      var rows: seq<Row> := [];
      for index := 0 to |jobs|
        invariant |rows| == index
        invariant forall j :: 0 <= j < index ==> results[j].status ==> results[j].data.Some?
        invariant forall j :: 0 <= j < index ==> rows[j] == if results[j].status
          then Scored(j, results[j].data.value.evaluations, results[j].data.value.score)
          else Failed(j)
      {
        var jobResult := jobs[index].Result();
        if jobResult.status {
          if jobResult.data.None? {
            assert results[index] == jobResult;
            return Err(KeyError);
          }
          var jobData := jobResult.data.value;
          rows := rows + [Scored(index, jobData.evaluations, jobData.score)];
        } else {
          rows := rows + [Failed(index)];
        }
      }
      assert RowsFrom(results, 0).Ok?;
      assert RowsFrom(results, 0).value == rows;
      r := Ok(rows);
    }
  }
}
