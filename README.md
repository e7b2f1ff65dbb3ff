# optinum, modelled in Dafny

optinum is a small Python framework for optimising test functions:

- **Encoding.** A candidate solution is a chromosome: a flat list of bits, cut into genes. Each gene decodes to a real number in a search space.
- **Search.** Hill-climbing algorithms walk the one-bit-flip neighbourhood of a chromosome. They accept a neighbour only when its objective score is strictly lower.
- **Running it.** Reports and analyses run several searches as jobs or tasks. A family of worker and daemon classes supplies the prologue / task-loop / epilogue skeleton and the worker-pool bookkeeping.

This project models those pieces in Dafny and proves properties of the model. Each Python module becomes a Dafny module:

| Dafny file | module | models |
|---|---|---|
| `common.dfy` | `Common` | Python exception classes, `Option`/`Result`, the `STATUS` constants |
| `data.dfy` | `Data` | `optinum/data.py`: `Space`, `Gene.value`, `Chromosome` |
| `objects.dfy` | `Objects` | `optinum/common/objects.py`: the second copy of `Gene` and `Chromosome` |
| `objective.dfy` | `Objective` | `optinum/objective.py`: `compute`, Rosenbrock, six-hump camel back |
| `climbing.dfy` | `Climbing` | the search shared by both hill-climbing files, stated on values |
| `algorithm.dfy` | `Algorithm` | `optinum/algorithm.py`: the `HillClimbing` object, `compute`, `run` |
| `hillclimbing.dfy` | `HillClimbingTask` | `optinum/algorithm/hillclimbing.py`: `process`, move operators, constructors |
| `jobs.dfy` | `Jobs` | the `Job` class of `optinum/report.py` |
| `executor.dfy` | `Executor` | `optinum/executor.py` |
| `report.dfy` | `Report` | `Report` and `HCReport` of `optinum/report.py` |
| `pool.dfy` | `Pool` | what the three worker families share: `_process`, the `start` loop, the `manage_workers` cycle |
| `worker_base.dfy` | `WorkerBase` | `optinum/worker/base.py` |
| `common_worker.dfy` | `CommonWorker` | `optinum/common/worker.py` |
| `daemon.dfy` | `Daemon` | `optinum/daemon.py` |
| `worker_algorithm.dfy` | `WorkerAlgorithm` | `optinum/worker/algorithm.py` |
| `analysis.dfy` | `Analysis` | `optinum/analysis/base.py` |

Objects whose fields the source updates are Dafny classes with those fields. This covers:

- chromosomes, the hill-climbing object, jobs and the executor;
- reports, workers, daemons, analysis tasks and the analysis.

Their loops are `while`/`for` loops, and each loop is proved against a specification function. Each such function has its own properties proved as lemmas.

**Inputs instead of effects:**

- **Randomness.** The values `random.randrange` draws and the orders `random.shuffle` produces are inputs.
- **Objective.** The search sees the objective as an abstract total function from a bit list to a score or a raised exception.
- **Threads.** A thread or process handle is a number, and the handles alive at a given moment are a set passed in.
- **Stop events.** A stop event is a boolean. When the source leaves it `None`, the model uses `Option<bool>`.
- **Queues.** A queue is a sequence. A timed-out `get` on an empty queue is a counted poll, after which another party sets the stop event.
- **Hook calls.** The calls a worker makes to its hooks are recorded in a `trace` of events.

**Crashes as written.** The source has many crash bugs. The model keeps each one as an explicit error outcome (a `Result`, an `Outcome` or a raised exception), and none of them is repaired. They are listed under "Behaviour as written" below.

## Model

| member | source | states |
|---|---|---|
| Data.BitLengthBounds | optinum/data.py:16 | for n >= 1 the bit length k of n satisfies 2^(k-1) <= n < 2^k |
| Data.BitLengthUnique | optinum/data.py:16 | that k is the only one: on an exact `log2`, `int(log2(n)) + 1` is the bit length (float64 rounding is left out) |
| Data.NewSpace | optinum/data.py:11-16 | a domain size n = (stop-start)*10^precision >= 1 gives a space whose width s has 2^(s-1) <= n < 2^s; n == 0 raises OverflowError, n < 0 raises ValueError |
| Data.ExampleSpace | optinum/data.py:11-16 | `Space(-2, 2, 2)` has 9 bits per gene |
| Data.UnsignedBound | optinum/data.py:56 | a bit list of length w reads as a value below 2^w |
| Data.ParseBinary | optinum/data.py:56 | `int(s, 2)` succeeds iff the list is non-empty and all bits (the bits 0/1 or the characters '0'/'1'), and then gives the unsigned value, below 2^len |
| Data.GeneValue | optinum/data.py:55-58 | the value is int(allele,2)/10^precision + start, hence >= start and below 2^len/10^precision + start; ValueError exactly for an empty allele or one with an element other than a bit |
| Data.BinaryDigitsCorrect | optinum/data.py:100-104 | the digits of `format(d, 'b')` are bits that read back as d, with the bit length of d as length |
| Data.FormatRoundTrip | optinum/data.py:100-104 | for d < 2^w the zero-padded `{0:0wb}` format has exactly w bits and reads back as d |
| Data.RandomBitsShape | optinum/data.py:99-106 | g valid draws give g*size bits, all bits, block k being the padded binary of draw k |
| Data.RandomBitsLength | optinum/data.py:102-104 | the bit list has length g*size |
| Data.RandomBitsAllBits | optinum/data.py:102-104 | every element is a bit character |
| Data.RandomBitsBlocks | optinum/data.py:102-104 | block k of width size is the format of draw k |
| Data.Slice | optinum/data.py:80 | a Python slice with clamped bounds: the Dafny slice when in range, never longer than the list |
| Data.GenesFromLoci | optinum/data.py:77-82 | the genes sit at loci 0, size, 2*size, ... below the gene number, in the chromosome's space |
| Data.GenesConcatenate | optinum/data.py:77-82 | when the gene number is the list length, the alleles concatenate back to the stored bits (also optinum/data.py:94) |
| Data.Chromosome.constructor | optinum/data.py:63-67 | gene number and width from the space, empty bit list |
| Data.Chromosome.GetRawData | optinum/data.py:84-85 | returns the stored bits (a value, so changing it cannot change the chromosome) |
| Data.Chromosome.Overwrite | optinum/data.py:87-90 | ValueError iff the length differs from the gene number; otherwise the bits are replaced; nothing else changes |
| Data.Chromosome.FromRaw | optinum/data.py:92-96 | never raises; gene number is the list length and the stored bits are the list |
| Data.Chromosome.Random | optinum/data.py:98-106 | stores the bits of the drawn values: g*size bits, exactly `RandomBits(draws, size)` |
| Data.Chromosome.GetGenes | optinum/data.py:77-82 | ValueError iff the width is 0 (`range` step 0); otherwise the genes of `GenesFrom` |
| Objects.GeneValue | optinum/common/objects.py:28-30 | int(allele,2)/10^precision + min_xi, >= min_xi; ValueError for an empty allele or one with an element other than a bit |
| Objects.ValueOfFormat | optinum/common/objects.py:28-30 | decoding a padded format of d gives d/10^precision + min_xi (also optinum/common/objects.py:76) |
| Objects.Chromosome.constructor | optinum/common/objects.py:35-39 | gene number and width from the space, empty bit list |
| Objects.Chromosome.GetGenes | optinum/common/objects.py:49-54 | returns [] iff the width is non-zero and the gene number <= 0; a zero width raises ValueError; otherwise the three-argument `Gene(...)` raises TypeError (also optinum/common/objects.py:11) |
| Objects.Chromosome.GetRawData | optinum/common/objects.py:56-57 | returns the stored bits |
| Objects.Chromosome.Overwrite | optinum/common/objects.py:59-62 | ValueError iff the length differs; otherwise stores exactly the list |
| Objects.Chromosome.FromRaw | optinum/common/objects.py:64-68 | never raises; stores exactly the list, gene number its length |
| Objects.Chromosome.Random | optinum/common/objects.py:70-78 | stores `RandomBits(draws, size)`: g*size bits, each from a value below 2^size |
| Objective.RosenbrockEvaluate | optinum/objective.py:59-64 | the accumulator loop computes the sum over the len-1 consecutive pairs |
| Objective.SqNonNegative | optinum/objective.py:62-63 | a square is >= 0, and 0 only at 0 |
| Objective.TermProperties | optinum/objective.py:62-63 | one pair term is >= 0, and 0 exactly at (1, 1) |
| Objective.TermsNonNegative | optinum/objective.py:61-63 | a partial sum of terms is >= 0 |
| Objective.RosenbrockNonNegative | optinum/objective.py:59-64 | Rosenbrock's value is never negative |
| Objective.TermsZero | optinum/objective.py:61-63 | the first k terms are 0 iff v[0..k] are all 1 |
| Objective.RosenbrockZero | optinum/objective.py:59-64 | fewer than two variables give 0; with two or more the value is 0 iff every variable is 1 |
| Objective.TermsPrefix | optinum/objective.py:61-63 | appending a variable leaves earlier partial sums unchanged |
| Objective.RosenbrockExtend | optinum/objective.py:61-63 | one more variable adds exactly one pair term: n variables sum n-1 terms |
| Objective.SixHumpCamelBackEvaluate | optinum/objective.py:118-125 | ValueError iff the number of variables is not 2; otherwise the formula as written |
| Objective.SixHumpFacts | optinum/objective.py:122-125 | [0,0] scores 0; negating both variables keeps the value; [1,1] scores 67/15 as written |
| Objective.Decoded | optinum/objective.py:33-36 | Ok iff every gene decodes; then one value per gene, in order, each `value(min_xi, precision)` |
| Objective.DecodeGenes | optinum/objective.py:33-36 | the decoding loop computes `Decoded` |
| Objective.PrefixErr | optinum/objective.py:35-36 | a gene that fails to decode makes the whole decoding fail with ValueError |
| Objective.MinXi | optinum/objective.py:56 | `min_xi` is -2048 for Rosenbrock and -2 for the six-hump camel back (also optinum/objective.py:115) |
| Objective.Evaluate | optinum/objective.py:40-42 | the class's `evaluate`: Rosenbrock never raises, is >= 0, and from two variables on is 0 exactly at all ones; the six-hump camel back raises ValueError iff there are not exactly two variables (also optinum/objective.py:59-64, optinum/objective.py:118-125) |
| Objective.ComputeOnDataGenes | optinum/objective.py:32-38 | on an optinum/data.py chromosome: `get_genes`' error propagates; any gene makes `gene.value(min_xi, precision)` raise TypeError, since that `value` takes no argument; no genes gives `evaluate([])`, 0 for Rosenbrock and ValueError for the six-hump camel back (also optinum/data.py:55) |
| Objective.Compute | optinum/objective.py:25-26 | `get_genes`' error propagates; otherwise the decoded list goes to `evaluate` of the objective's class (also optinum/objective.py:32-38) |
| Climbing.Flip | optinum/algorithm.py:127 | `int(not a)` is 0 or 1 and always differs from a |
| Climbing.FlipBehaviour | optinum/algorithm.py:127 | on 0/1 the flip is an involution; '0' and '1' both flip to 0; on a bit the digit changes iff it was not '0' (also optinum/data.py:104) |
| Climbing.Neighbour | optinum/algorithm.py:126-127 | a copy with exactly position i flipped |
| Climbing.NeighbourDiffersOnce | optinum/algorithm.py:126-127 | a neighbour differs from the pass-start bits exactly at its index |
| Climbing.Indices | optinum/algorithm.py:123 | `range(n)` |
| Climbing.IndicesOnce | optinum/algorithm.py:139 | `range(n)` holds each index below n exactly once |
| Climbing.PermutationShape | optinum/algorithm/hillclimbing.py:67-68 | a shuffled index list has n entries, each below n, each index once |
| Climbing.IndicesArePermutation | optinum/algorithm.py:139 | the unshuffled order is a permutation too |
| Climbing.Candidates | optinum/algorithm.py:122-128 | candidate k is the neighbour of the pass-start bits at order[k] (also optinum/algorithm.py:138-142) |
| Climbing.CandidatesOnePerIndex | optinum/algorithm/hillclimbing.py:65-72 | with a permutation order, each candidate differs in exactly one index and every index has its candidate |
| Climbing.Scan | optinum/algorithm.py:101-108 | a pass never raises the held score; it moves iff some candidate scored strictly lower; it ends on the held bits or a candidate; the held score stays the held bits' score |
| Climbing.Scores | optinum/algorithm.py:102 | the scores of fully scored candidates, index by index |
| Climbing.FirstMin | optinum/algorithm.py:103 | the earliest index of the minimum |
| Climbing.ScanBest | optinum/algorithm.py:101-106 | a best-improvement pass that scores everything ends on the earliest arg-min neighbour when that beats the held score, else unchanged (also optinum/algorithm.py:137-142) |
| Climbing.ScanNoImprovement | optinum/algorithm.py:103 | with no strictly better candidate a pass changes nothing |
| Climbing.ScanFirst | optinum/algorithm.py:103-108 | first-improvement takes the first strictly better candidate and stops |
| Climbing.ScanRaises | optinum/algorithm.py:102 | a raising evaluation ends the pass with that exception |
| Climbing.ClimbBestProgress | optinum/algorithm.py:99-112 | best-improvement: score non-increasing, counter >= start and <= max, length kept; no pass at the counter >= max |
| Climbing.ClimbFirstProgress | optinum/algorithm/hillclimbing.py:40-53 | the same for first-improvement with shuffled orders |
| Climbing.ClimbFirstRunsToMax | optinum/algorithm/hillclimbing.py:48-53 | first-improvement has no early exit: without an exception it finishes with evaluations == max |
| Climbing.FirstPassMovesOnce | optinum/algorithm.py:107-108 | one first-improvement pass makes at most one move |
| Climbing.ClimbBestStopsAtLocalMinimum | optinum/algorithm.py:111-112 | an early best-improvement stop is at a local minimum: no neighbour scores below the final score |
| Climbing.NoMoveLocalMinimum | optinum/algorithm.py:111-112 | a pass without move or exception means every neighbour scores >= the held score (also optinum/algorithm.py:137-142) |
| Climbing.NoMoveMeansNoBetterNeighbour | optinum/algorithm.py:101-106 | the same stated on any candidate list |
| Climbing.FirstRaising | optinum/algorithm.py:102 | the first candidate whose evaluation raises |
| Climbing.UnsignedByDigits | optinum/data.py:56 | lists with the same digits read as the same value |
| Climbing.FlipOfCharacterZero | optinum/algorithm.py:127 | flipping a '0' character of a random chromosome gives Num(0): a neighbour with the same value (also optinum/data.py:104) |
| Algorithm.ClimbMisspelt | optinum/algorithm.py:121-124 | the first-improvement operator raises AttributeError at the first pass, the state unchanged |
| Algorithm.ComputeBounds | optinum/algorithm.py:95-112 | after scoring the start, 1 <= evaluations (<= max when max >= 1), score <= the start's, the held score is the held chromosome's, and max <= 1 runs no pass |
| Algorithm.TypeErrorObjectiveRun | optinum/algorithm.py:95-97 | an objective raising TypeError on the start chromosome leaves the chromosome set and the score and counter as before; `run` catches it and fills the result from them (also optinum/algorithm.py:49-54) |
| Algorithm.FirstImprovementRaises | optinum/algorithm.py:124 | with max > 1 first-improvement raises AttributeError, which `run` does not catch (also optinum/algorithm.py:52) |
| Algorithm.RunOutcome | optinum/algorithm.py:49-54 | a caught (Index/Value/Type) error or none fills the four-key result from the final fields; any other exception propagates, the result kept (also optinum/algorithm.py:84-93) |
| Algorithm.HillClimbing.constructor | optinum/algorithm.py:60-67 | counter 1, no chromosome, no score, empty result |
| Algorithm.HillClimbing.UpdateChromosome | optinum/algorithm.py:80-82 | stores chromosome and score |
| Algorithm.HillClimbing.PrepareResult | optinum/algorithm.py:84-93 | no-op on an error, else the four-key record of the fields |
| Algorithm.HillClimbing.MoveOperator | optinum/algorithm.py:121-128 | best-improvement: the neighbours in index order of the bits held at the start; first-improvement and a missing chromosome: AttributeError (also optinum/algorithm.py:137-142) |
| Algorithm.HillClimbing.RunPass | optinum/algorithm.py:101-108 | the inner loop ends in the state `Scan` gives |
| Algorithm.HillClimbing.Compute | optinum/algorithm.py:95-112 | the fields and raised exception are `ComputeOutcome` of the random start |
| Algorithm.HillClimbing.Run | optinum/algorithm.py:49-54 | fields as `compute` leaves them, result and outcome as `RunOutcome` |
| HillClimbingTask.ProcessBounds | optinum/algorithm/hillclimbing.py:35-53 | 1 <= evaluations (<= max when max >= 1), score non-increasing, held score is the held chromosome's; first-improvement without exception ends at max |
| HillClimbingTask.SearchStep | optinum/algorithm/hillclimbing.py:40-53 | one pass relates the outcome of the search to that after the pass: raise ends it, a no-move best-improvement pass ends it, otherwise the search goes on |
| HillClimbingTask.HillClimbing.constructor | optinum/algorithm/hillclimbing.py:15-18 | counter 1, nothing held |
| HillClimbingTask.HillClimbing.NewFirstImprovement | optinum/algorithm/hillclimbing.py:58-59 | always max_evaluations 50 (also optinum/algorithm/hillclimbing.py:15) |
| HillClimbingTask.HillClimbing.NewBestImprovement | optinum/algorithm/hillclimbing.py:77-78 | raises TypeError |
| HillClimbingTask.HillClimbing.UpdateChromosome | optinum/algorithm/hillclimbing.py:31-33 | stores chromosome and score |
| HillClimbingTask.HillClimbing.MoveOperator | optinum/algorithm/hillclimbing.py:65-72 | first-improvement: the neighbours in the shuffled order; best: in index order; no chromosome: AttributeError (also optinum/algorithm/hillclimbing.py:84-89) |
| HillClimbingTask.HillClimbing.RunPass | optinum/algorithm/hillclimbing.py:42-49 | the inner loop ends in the state `Scan` gives |
| HillClimbingTask.HillClimbing.Process | optinum/algorithm/hillclimbing.py:35-53 | the fields and raised exception are `ProcessOutcome` |
| HillClimbingTask.HillClimbing.Passes | optinum/algorithm/hillclimbing.py:40-53 | after the first evaluation, the `while` loop leaves the chromosome, score, counter and raised exception `Search` gives |
| HillClimbingTask.HillClimbing.OnePass | optinum/algorithm/hillclimbing.py:41-53 | one pass of the `while` loop: a raise ends the search there, a best-improvement pass without a move ends it with the counter advanced, otherwise the rest of the search continues from the new state |
| Jobs.Job.New | optinum/report.py:67-70 | `Job(...)` raises AttributeError: `factory.get_algorithm` does not exist |
| Jobs.Job.constructor | optinum/report.py:67-77 | not done, status False, nothing stored |
| Jobs.Job.Result | optinum/report.py:85-87 | (status, the algorithm's result), whatever `_result` holds |
| Jobs.Job.IsDone | optinum/report.py:81-83 | `is_done` is the `done` flag: false from the constructor, true once `done` has run |
| Jobs.Job.Done | optinum/report.py:89-95 | done; status recorded; the algorithm's result stored on True, the passed value on False |
| Jobs.Job.Start | optinum/report.py:97-98 | runs the algorithm: `Run`'s contract |
| Executor.Executor.constructor | optinum/executor.py:9-14 | no jobs |
| Executor.Executor.TaskDone | optinum/executor.py:16-18 | the job is done with status True and the algorithm's result |
| Executor.Executor.TaskFail | optinum/executor.py:20-22 | the job is done with status False and the exception |
| Executor.Executor.Process | optinum/executor.py:24-25 | starts the job |
| Executor.Executor.ProcessJob | optinum/executor.py:16-25 | the algorithm's chromosome, score, counter and result are `ComputeOutcome` and `RunOutcome` of the run; the job ends done, with status True iff `start` returned, the algorithm's new result stored on success and the exception on failure (also optinum/daemon.py:56-64) |
| Executor.Executor.AddTask | optinum/executor.py:27-29 | appends the job; nothing else changes |
| Executor.Executor.TaskGenerator | optinum/executor.py:31-34 | nothing iff there are no jobs; otherwise AttributeError (`self._tasks`) |
| Report.RowsFrom | optinum/report.py:164-173 | one row per job, in order, numbered from `from`: [index, evaluations, score] on success, [index, '-', 'Error'] on failure; KeyError iff a successful job's result dictionary is empty |
| Report.Report.constructor | optinum/report.py:104-108 | no jobs, stop clear |
| Report.Report.JobResults | optinum/report.py:166-167 | each job's `result`, in order |
| Report.Report.ReportDone | optinum/report.py:121-125 | the inner loop computes whether every job is done |
| Report.Report.WaitForJobs | optinum/report.py:118-132 | True iff the stop event is clear and every job is done (vacuously for none); False iff the event is set; otherwise the sleep's `config.REPORT` raises AttributeError at the first poll; the event is never changed |
| Report.Report.GetJob | optinum/report.py:152-154 | raises AttributeError |
| Report.Report.Compute | optinum/report.py:134-143 | the base-class template given the jobs `_get_job` returned: submits them to the executor and to `_jobs`, in order; then False with the event set, the (uncalled) `_prepare_report` when all are done, and `_wait_for_jobs`' AttributeError otherwise |
| Report.Report.ComputeHC | optinum/report.py:134-143 | `HCReport.compute(n)`: AttributeError from the first `_get_job` for n >= 1; for n <= 0 the outcome of `_wait_for_jobs` on the current jobs (also optinum/report.py:152-154) |
| Report.Report.ReportContent | optinum/report.py:164-173 | the rows are `RowsFrom` of the jobs' results |
| Pool.Processed | optinum/worker/base.py:56-64 | exactly one of task_done/task_fail for the task, task_done iff `process` returned |
| Pool.RoundTasks | optinum/worker/base.py:91-92 | a round hands each generated task, in order, to exactly one of the two hooks |
| Pool.RoundsTasks | optinum/worker/base.py:89-99 | with `loop` every round's tasks in order, an interrupt last; without `loop` only the first round; no prologue/epilogue inside |
| Pool.StartBrackets | optinum/worker/base.py:86-100 | `prologue` first and `epilogue` last, each exactly once; a set stop flag gives only those two; `loop=False` runs one round |
| Pool.RunStart | optinum/worker/base.py:86-100 | the start loop produces `StartTrace` |
| Pool.Remove | optinum/worker/base.py:136 | `list.remove` takes out one element |
| Pool.SubsequenceExtend | optinum/worker/base.py:134-136 | order preservation survives appending to the source list |
| Pool.SubsequenceDrop | optinum/worker/base.py:134-136 | and dropping from the kept list |
| Pool.FilterProperties | optinum/worker/base.py:134-136 | after the prune, a handle is kept iff present and alive; no longer; order preserved |
| Pool.RemoveAfter | optinum/worker/base.py:136 | removing a handle seen for the first time |
| Pool.Prune | optinum/worker/base.py:134-136 | the loop over a copy with `remove` leaves exactly the live handles in order |
| Pool.CycleBound | optinum/worker/base.py:133-143 | a cycle adds at most one handle, none at wcount survivors, keeps len <= wcount, adds only the new handle |
| Pool.CyclesBound | optinum/worker/base.py:133-143 | from at most wcount handles (the empty list) any number of cycles keep len <= wcount (also optinum/worker/base.py:121) |
| Pool.Truthy | optinum/worker/base.py:186-189 | the truthy tasks of a queue, exactly those |
| Pool.Capacity | optinum/common/worker.py:136 | `queue.Queue(qsize)` is unbounded iff qsize <= 0 (also optinum/common/config.py:32) |
| WorkerBase.BaseWorker.constructor | optinum/worker/base.py:24-36 | the stop event is None |
| WorkerBase.BaseWorker.Finished | optinum/worker/base.py:78-80 | returns `loop` |
| WorkerBase.BaseWorker.ProcessTask | optinum/worker/base.py:56-64 | one hook event, task_done iff `process` returned |
| WorkerBase.BaseWorker.Start | optinum/worker/base.py:86-100 | stop None: prologue then AttributeError; otherwise the `StartTrace` |
| WorkerBase.ConcurrentWorker.constructor | optinum/worker/base.py:110-123 | no workers; queue and stop event None |
| WorkerBase.ConcurrentWorker.ManageWorkers | optinum/worker/base.py:130-143 | AttributeError with no stop event; with it clear the workers follow `Cycles` and keep len <= wcount |
| WorkerBase.ConcurrentWorker.Interrupted | optinum/worker/base.py:161-164 | sets the stop event; AttributeError when it is None |
| WorkerBase.ConcurrentWorker.GetTask | optinum/worker/base.py:170-177 | the queue front while stop is clear; None only with stop set; AttributeError with no event or queue |
| WorkerBase.ConcurrentWorker.Work | optinum/worker/base.py:183-189 | no stop event: AttributeError; event set: returns at once; event clear and no queue: AttributeError from `get_task`; each with nothing changed. Otherwise every truthy queued task, in order, goes to `_process`, falsy ones are skipped, and it ends with the queue empty and the event set |
| CommonWorker.BaseWorker.Start | optinum/common/worker.py:42-51 | failure: prologue, task_fail, epilogue; success: prologue then UnboundLocalError; never task_done |
| CommonWorker.Worker.constructor | optinum/common/worker.py:58-70 | the stop event is None |
| CommonWorker.Worker.ProcessTask | optinum/common/worker.py:77-85 | one hook event, task_done iff `process` returned |
| CommonWorker.Worker.Start | optinum/common/worker.py:99-113 | stop None: prologue then AttributeError; otherwise the `StartTrace` |
| CommonWorker.ConcurrentWorker.constructor | optinum/common/worker.py:123-137 | empty queue of capacity `Capacity(qsize)`, stop clear, no workers |
| CommonWorker.ConcurrentWorker.PutTask | optinum/common/worker.py:181-183 | appends to the queue |
| CommonWorker.ConcurrentWorker.ManageWorkers | optinum/common/worker.py:146-158 | the workers follow `Cycles` and keep len <= wcount |
| CommonWorker.ConcurrentWorker.GetTask | optinum/common/worker.py:185-192 | the queue front while stop is clear; None iff stop is set |
| CommonWorker.ConcurrentWorker.Work | optinum/common/worker.py:198-204 | every truthy queued task, in order, goes to `_process` |
| Daemon.Default | optinum/daemon.py:114-116 | `value or fallback`: non-zero kept, 0 replaced |
| Daemon.Daemon.constructor | optinum/daemon.py:25-36 | no stop attribute (None) |
| Daemon.Daemon.ProcessTask | optinum/daemon.py:56-64 | one hook event, task_done iff `process` returned |
| Daemon.Daemon.Start | optinum/daemon.py:86-101 | no stop: prologue then AttributeError; otherwise the `StartTrace` (falsy `finished`, set stop or interrupt end the loop) |
| Daemon.ThreadDaemon.constructor | optinum/daemon.py:111-122 | qsize and wcount replaced by 0 and 5 when 0; empty queue of that capacity; stop clear (also optinum/daemon.py:195-200) |
| Daemon.ThreadDaemon.PutTask | optinum/daemon.py:165-167 | appends to the queue |
| Daemon.ThreadDaemon.ManageWorkers | optinum/daemon.py:129-142 | the workers follow `Cycles` and keep len <= wcount |
| Daemon.ThreadDaemon.Interrupted | optinum/daemon.py:160-163 | sets the stop flag |
| Daemon.ThreadDaemon.GetTask | optinum/daemon.py:169-176 | the queue front while stop is clear; None iff stop is set |
| Daemon.ThreadDaemon.Work | optinum/daemon.py:182-188 | every truthy queued task, in order, goes to `_process` |
| WorkerAlgorithm.AlgorithmWorker.New | optinum/worker/algorithm.py:5-11 | raises TypeError (abstract `process`) |
| WorkerAlgorithm.AlgorithmWorker.Prologue | optinum/worker/algorithm.py:39-42 | RUNNING |
| WorkerAlgorithm.AlgorithmWorker.TaskDone | optinum/worker/algorithm.py:29-32 | DONE |
| WorkerAlgorithm.AlgorithmWorker.TaskFail | optinum/worker/algorithm.py:34-37 | ERROR |
| WorkerAlgorithm.AlgorithmWorker.Epilogue | optinum/worker/algorithm.py:44-48 | DONE unconditionally |
| WorkerAlgorithm.AlgorithmWorker.TaskGenerator | optinum/worker/algorithm.py:50-53 | one None iff a task is set |
| WorkerAlgorithm.AlgorithmWorker.ProcessItem | optinum/worker/base.py:56-64 | DONE on success, ERROR on failure (also optinum/worker/algorithm.py:29-37) |
| WorkerAlgorithm.AlgorithmWorker.Start | optinum/worker/base.py:86-100 | no stop: RUNNING then AttributeError; otherwise statuses RUNNING, then DONE/ERROR if a task is set, then DONE: a completed start ends DONE (also optinum/worker/algorithm.py:8-9) |
| Analysis.Task.New | optinum/analysis/base.py:20-22 | raises AttributeError (`STATUS.NOSET`) (also optinum/common/config.py:43-48) |
| Analysis.Task.IsDone | optinum/analysis/base.py:58-59 | done iff the status is DONE, so a failed (ERROR) task is not done |
| Analysis.Task.CallbackFail | optinum/analysis/base.py:52-53 | ERROR; nothing else changes |
| Analysis.Task.CallbackDone | optinum/analysis/base.py:55-56 | DONE; nothing else changes |
| Analysis.Task.Run | optinum/analysis/base.py:61-63 | RUNNING, then the algorithm's outcome |
| Analysis.AlgorithmExecutor.New | optinum/analysis/base.py:66-71 | raises TypeError (abstract `start_worker`) (also optinum/worker/base.py:125-128) |
| Analysis.AlgorithmExecutor.constructor | optinum/analysis/base.py:68-71 | the task queue; own queue and stop event None (also optinum/worker/base.py:110-123) |
| Analysis.AlgorithmExecutor.TaskGenerator | optinum/analysis/base.py:73-81 | with stop clear, yields exactly the truthy tasks of the queue in order; empty with stop set; AttributeError with no stop event |
| Analysis.AlgorithmExecutor.TaskFail | optinum/analysis/base.py:83-86 | the task becomes ERROR |
| Analysis.AlgorithmExecutor.TaskDone | optinum/analysis/base.py:88-91 | DONE; AttributeError first (task unchanged) when the queue is None (also optinum/worker/base.py:179-181) |
| Analysis.AlgorithmExecutor.ProcessTask | optinum/analysis/base.py:83-95 | failure: ERROR; success: DONE, or RUNNING and AttributeError with no queue; done iff success with a queue (also optinum/worker/base.py:56-64) |
| Analysis.Analysis.constructor | optinum/analysis/base.py:100-107 | stop clear, executor thread not started |
| Analysis.Analysis.WaitForTasks | optinum/analysis/base.py:109-123 | True iff the stop event is clear (the bound method `is_done` is always truthy) |
| Analysis.Analysis.Compute | optinum/analysis/base.py:133-161 | starts the executor; the body's AttributeError is caught; the `finally` epilogue sets the executor's stop, raising AttributeError when it is None |

## Behaviour as written

Each item below is modelled as written and proved in the member named:

- **Chromosome alleles.** `Chromosome.random` stores the characters '0'/'1'. The neighbour flip `int(not a)` turns every non-empty string into 0, so flipping '0' leaves the value unchanged (`Climbing.FlipBehaviour`, `Climbing.FlipOfCharacterZero`).
- **Base `get_genes`.** `optinum/common/objects.py`'s `get_genes` passes three arguments to the two-argument `Gene`. It raises TypeError on any chromosome with a positive gene number and a non-zero width. So `optinum/algorithm/hillclimbing.py`'s objective fails there.
- **`Gene.value` arity.** `Objective.compute` calls `gene.value(self.min_xi, self._precision)`, but `optinum/data.py`'s `Gene.value` takes no argument. So `compute` raises TypeError on every `optinum/data.py` chromosome with a gene (`Objective.ComputeOnDataGenes`). Those are the chromosomes `optinum/algorithm.py`'s `compute` builds and scores. Its `run` catches the TypeError, and the result keeps the score held before, None on a new object (`Algorithm.TypeErrorObjectiveRun`).
- **Best-improvement target.** Best-improvement ends a pass on the earliest arg-min neighbour of the pass-start chromosome, because `genetic_info` is captured once per pass. Describing it as keeping "the last improving neighbour" does not match the code. The model follows the code (`Climbing.ScanBest`).
- **`Job.__init__`.** It calls `factory.get_algorithm`, which `optinum/factory.py` does not define, so creating a job raises AttributeError (`Jobs.Job.New`). The `Jobs.Job` constructor models the object past that line, with the algorithm already built.
- **`shufle` typo.** In `optinum/algorithm.py` the first-improvement operator calls `random.shufle`. This raises AttributeError, which `run` does not catch (`Algorithm.FirstImprovementRaises`).
- **Constructor `super` calls.** `HCBestImprovement.__init__` calls `super(HCFirstImprovement, self)` and raises TypeError. `HCFirstImprovement.__init__` forwards only `name`, so `max_evaluations` is always 50.
- **Six-hump formula.** `SixHumpCamelBack.evaluate` multiplies the first bracket by `x0**2 + x0*x1`. `Objective.SixHumpFacts` states the value of the formula as written.
- **`Job.result`.** `Job.result` pairs the status with the algorithm's result even after a failure. `Report.compute` returns the uncalled `_prepare_report`. `HCReport._get_job` reads `self._task`, which is never stored, so it raises AttributeError, and `HCReport.compute(n)` raises at once for n >= 1 (`Report.Report.ComputeHC`).
- **`config.REPORT`.** `optinum/report.py` imports `optinum/config.py`, which defines no `REPORT` (only `optinum/common/config.py` does). So `_wait_for_jobs` raises AttributeError at its first poll that finds a job not done, and `compute` propagates it (`Report.Report.WaitForJobs`, `Report.Report.Compute`).
- **`Executor.task_generator`.** It pops from `self._tasks`, which does not exist, so it raises AttributeError as soon as there is a job.
- **Stop events never assigned.** `optinum/worker/base.py` and `optinum/daemon.py`:
  - `BaseWorker` and `ConcurrentWorker` leave the stop event (and the queue) None, and `Daemon` defines none.
  - Their loops raise AttributeError after `prologue` until a caller assigns one.
  - No caller in the source ever assigns one. The `AssignStop` and `Assign` methods (`WorkerBase.BaseWorker.AssignStop`, `WorkerBase.ConcurrentWorker.Assign`, `CommonWorker.Worker.AssignStop`, `Daemon.Daemon.AssignStop`, `Analysis.AlgorithmExecutor.Assign`) stand for such a caller. They exist only to open the states the source never reaches, so that the rest of each loop can be stated.
  - `ConcurrentWorker` leaves `start_worker` abstract.
- **Unbound `exc`.** `optinum/common/worker.py`'s `BaseWorker.start(task)` passes the unbound `exc` to `task_done` on success. That raises UnboundLocalError before `epilogue`.
- **`Algorithm` worker.** `optinum/worker/algorithm.py`'s `Algorithm` leaves the abstract `process` undefined, so creating one raises TypeError. Its `__init__` would also fail: it assigns the read-only `name` property and reads `config.STATUS`, which `optinum/config.py` does not define.
- **`Task.__init__`.** It reads `config.STATUS.NOSET`, but the configuration defines `NOTSET`.
- **`_wait_for_tasks`.** It tests the bound method `task.is_done` instead of calling it, so it returns True at once while the stop event is clear.
- **`Analysis.compute`.**
  - Its body always raises AttributeError, because `Analysis` defines neither `_algorithm` nor `_tasks`. The exception is caught and logged.
  - So no task is ever stored and `report` is never called.
  - The `finally` epilogue then calls `set()` on the executor's stop event, which is None.

## Left out

- The encoding works on both numbers and characters. The model bits are `Num(int) | Char(char)` rather than 0/1 integers, so that the behaviour of the characters from `Chromosome.random` is kept.
- Gene values are exact reals, not numpy float64. The width `int(numpy.log2(n)) + 1` is taken as the exact bit length of the integer n; its OverflowError/ValueError for n <= 0 is kept.
- Data.NewSpace: admits integer bounds only, so the domain size n is an integer. Real bounds such as the objectives' -5.12 are not represented; nor is a domain size strictly between 0 and 1, where `int(log2(n)) + 1` gives a width of 0 or below (-2 for n = 0.1). The float64 rounding of `log2` is not modelled either: for n = 2^49 - 1 it rounds to 49.0, so the source's width is 50 where the model's is 49.
- Data.ParseBinary: parses only alleles that are the bits 0/1 or the characters '0'/'1' and gives ValueError for anything else. Python's `int(''.join(str(a) for a in allele), 2)` also accepts other inputs: a number such as 10 whose decimal digits are 0/1, surrounding whitespace, a sign, a `0b` prefix and `_` separators. The program's own chromosomes hold only 0/1 and '0'/'1'.
- Data.GeneValue: inherits the narrowed allele domain of `Data.ParseBinary`.
- Objects.GeneValue: inherits the same narrowed allele domain, as `optinum/common/objects.py` parses alleles the same way.
- `Rastrigin` and `Griewangk` (`cos`, `sqrt`, `pi`) are not modelled: they are floating-point numerics.
- `optinum/factory.py` is not part of this model. The `Job` constructor takes an already built algorithm; `Jobs.Job.New` states that the `factory.get_algorithm` call raises. The `Task` of `optinum/report.py` is not modelled either: it only stores constructor arguments and looks names up in the factory.
- `random.randrange` and `random.shuffle` are inputs: the drawn gene values and one permutation per pass. The permutation inputs assume Python 2, where `range` returns a list that `shuffle` can permute.
- Threads, processes, `threading.Event`, `Thread.join`, the manager thread started by `prologue` and joined by `epilogue`, and `setDaemon` are left out. So are `queue.Queue.task_done` accounting and `time.sleep`.
- Timed-out `get`s are polls counted by an input. The stop event arriving from another party after them is modelled as happening in the call itself.
- `KeyboardInterrupt` is an input to `start`: the round after which it arrives. In `_wait_for_jobs` the first unsuccessful poll raises AttributeError before any sleep, so an interrupt there could only arrive during the `is_done` checks; that is left out.
- CommonWorker.ConcurrentWorker.PutTask: requires room in the queue, because a put on a full queue blocks until another thread takes an item.
- Daemon.ThreadDaemon.PutTask: requires room in the queue, for the same reason.
- `Dispatcher` in `optinum/worker/base.py` (listener I/O) and `ProcessDaemon` (multiprocessing) are left out.
- `start_worker` is left out: each new thread handle is an input.
- PrettyTable rendering and `print` in `optinum/report.py` and `optinum/analysis/hcanalysis.py` are left out. `Report.Report.ReportContent` returns the row list, where `_report_content` builds a table and returns None. `optinum/analysis/hcanalysis.py` is not part of this model.
- Jobs.Job.Start: the algorithm's `run` is the hill-climbing model's own contract.
- Analysis.Task.Run: the algorithm's `start` is given as an outcome.
- WorkerAlgorithm.AlgorithmWorker.Start: the outcome of the abstract `process` is an input.
- Analysis.AlgorithmExecutor.ProcessTask: the outcome of `task.run()` is an input.
- Logging calls are left out.
