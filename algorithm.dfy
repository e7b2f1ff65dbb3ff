/** The hill-climbing algorithm of optinum/algorithm.py: an object holding the
    current chromosome, its score and the pass counter, updated by the search
    loop of `compute`; `run` turns the outcome into the `result` record. */
module Algorithm {
  import opened Common
  import opened Data
  import opened Climbing

  /** The `result` dictionary: its four keys `max_evaluations`,
      `evaluations`, `chromosome` and `score`. */
  datatype RunResult = RunResult(maxEvaluations: int, evaluations: int, chromosome: Option<seq<Allele>>, score: Option<real>)

  /** The three fields `compute` updates. */
  datatype State = State(chromosome: Option<seq<Allele>>, score: Option<real>, evaluations: int)

  /** The first-improvement operator as written: it reaches the misspelt
      `random.shufle` before yielding anything, so the first pass raises
      AttributeError; with `max` at most the starting counter no pass runs. */
  function ClimbMisspelt(max: int, c: Climb): (r: Finish)
    ensures r.state == c
    ensures r.raised == (if c.evaluations < max then Some(AttributeError) else None)
  {
    if c.evaluations >= max then Finish(c, None) else Finish(c, Some(AttributeError))
  }

  /** The search loop of `compute` for a policy. */
  function Search(f: Objective, policy: Policy, max: int, c: Climb): Finish
  {
    match policy
    case BestImprovement => ClimbBest(f, max, c)
    case FirstImprovement => ClimbMisspelt(max, c)
  }

  /** What `compute` leaves in the three fields, and the exception it raises,
      when the random chromosome is `start` and the fields held `before`: the
      first evaluation either raises (the score is then not assigned) or
      starts the search with the counter at 1. */
  function ComputeOutcome(f: Objective, policy: Policy, max: int, start: seq<Allele>, before: State): (State, Option<Exc>)
  {
    match f(start)
    case Raise(e) => (State(Some(start), before.score, before.evaluations), Some(e))
    case Score(s) =>
      var r := Search(f, policy, max, Climb(start, s, 1));
      (State(Some(r.state.bits), Some(r.state.score), r.state.evaluations), r.raised)
  }

  /** After `compute` has scored its starting chromosome, the counter is at
      least 1 and at most `max` when `max >= 1`; the held score never exceeds
      the starting score and is the held chromosome's own score; with `max`
      at most 1 the loop body never runs. */
  lemma ComputeBounds(f: Objective, policy: Policy, max: int, start: seq<Allele>, before: State)
    requires f(start).Score?
    ensures var (st, e) := ComputeOutcome(f, policy, max, start, before);
      && st.chromosome.Some? && st.score.Some?
      && st.evaluations >= 1
      && (max >= 1 ==> st.evaluations <= max)
      && st.score.value <= f(start).value
      && f(st.chromosome.value) == Score(st.score.value)
      && (max <= 1 ==> st == State(Some(start), Some(f(start).value), 1) && e == None)
  {
    var c := Climb(start, f(start).value, 1);
    if policy == BestImprovement {
      ClimbBestProgress(f, max, c);
    }
  }

  /** The first-improvement algorithm as written never completes a search of
      more than one pass: it raises AttributeError, which `run` does not
      catch. */
  lemma FirstImprovementRaises(f: Objective, max: int, start: seq<Allele>, before: State)
    requires f(start).Score? && max > 1
    ensures ComputeOutcome(f, FirstImprovement, max, start, before).1 == Some(AttributeError)
    ensures !Caught(AttributeError)
  {
  }

  /** `compute` with an objective that raises TypeError on the starting
      chromosome, as `Objective.compute` does on every optinum/data.py
      chromosome with a gene (`Objective.ComputeOnDataGenes`): `run` catches
      it and fills the result with the chromosome, the score held before
      (None on a new object) and the counter held before. */
  lemma TypeErrorObjectiveRun(f: Objective, policy: Policy, max: int, start: seq<Allele>, before: State, held: Option<RunResult>)
    requires f(start) == Raise(TypeError)
    ensures ComputeOutcome(f, policy, max, start, before) == (State(Some(start), before.score, before.evaluations), Some(TypeError))
    ensures RunOutcome(max, ComputeOutcome(f, policy, max, start, before).0, Some(TypeError), held)
         == (Some(RunResult(max, before.evaluations, Some(start), before.score)), Returned)
  {
  }

  /** The exceptions `run` catches. */
  predicate Caught(e: Exc)
  {
    e == IndexError || e == ValueError || e == TypeError
  }

  /** The `result` record and the outcome of `run`, given the outcome of
      `compute` and the record held before. */
  function RunOutcome(max: int, st: State, e: Option<Exc>, before: Option<RunResult>): (r: (Option<RunResult>, Outcome))
    ensures e.Some? && !Caught(e.value) ==> r == (before, Raised(e.value))
    ensures e.None? || Caught(e.value) ==>
      r == (Some(RunResult(max, st.evaluations, st.chromosome, st.score)), Returned)
  {
    if e.Some? && !Caught(e.value) then (before, Raised(e.value))
    else (Some(RunResult(max, st.evaluations, st.chromosome, st.score)), Returned)
  }

  class HillClimbing {
    const objective: Objective
    const variables: int
    const space: Space
    const maxEvaluations: int
    const policy: Policy
    var chromosome: Option<seq<Allele>>
    var score: Option<real>
    var evaluations: int
    var result: Option<RunResult>

    /** `HillClimbing.__init__` (`max_evaluations` defaults to 50 in the
        source); `result` starts as the empty dictionary. */
    constructor (objective: Objective, variables: int, space: Space, maxEvaluations: int, policy: Policy)
      ensures this.objective == objective && this.variables == variables && this.space == space
      ensures this.maxEvaluations == maxEvaluations && this.policy == policy
      ensures chromosome == None && score == None && evaluations == 1 && result == None
    {
      this.objective := objective;
      this.variables := variables;
      this.space := space;
      this.maxEvaluations := maxEvaluations;
      this.policy := policy;
      chromosome := None;
      score := None;
      evaluations := 1;
      result := None;
    }

    /** `update_chromosome`: stores the chromosome and its score. */
    method UpdateChromosome(bits: seq<Allele>, s: real)
      modifies this`chromosome, this`score
      ensures chromosome == Some(bits) && score == Some(s)
    {
      chromosome := Some(bits);
      score := Some(s);
    }

    /** `prepare_result(error)`: nothing when an error is passed, otherwise
        the four-key record of the current fields. */
    method PrepareResult(error: bool)
      modifies this`result
      ensures result == if error then old(result) else Some(RunResult(maxEvaluations, evaluations, chromosome, score))
    {
      if error {
        return;
      }
      result := Some(RunResult(maxEvaluations, evaluations, chromosome, score));
    }

    /** `move_operator`: the candidates of one pass, all built from the bits
        held when it starts. Best-improvement visits the indices in order;
        first-improvement raises at `random.shufle`. Without a chromosome,
        `get_raw_data` raises AttributeError on None. */
    method MoveOperator() returns (r: Result<seq<seq<Allele>>>)
      ensures chromosome.None? || policy == FirstImprovement ==> r == Err(AttributeError)
      ensures chromosome.Some? && policy == BestImprovement ==>
        r == Ok(Candidates(chromosome.value, Indices(|chromosome.value|)))
    {
      if chromosome.None? {
        return Err(AttributeError);
      }
      var geneticInfo := chromosome.value;
      if policy == FirstImprovement {
        return Err(AttributeError);
      }
      var cands: seq<seq<Allele>> := [];
      for index := 0 to |geneticInfo|
        invariant cands == Candidates(geneticInfo, Indices(index))
      {
        var hammingNeighbor := geneticInfo;
        hammingNeighbor := hammingNeighbor[index := Flip(geneticInfo[index])];
        cands := cands + [hammingNeighbor];
      }
      r := Ok(cands);
    }

    /** One pass of the inner `for` loop over the candidates. */
    method RunPass(cands: seq<seq<Allele>>) returns (moveMade: bool, raised: Option<Exc>)
      requires chromosome.Some? && score.Some?
      modifies this`chromosome, this`score
      ensures chromosome.Some? && score.Some?
      ensures Scan(objective, cands, old(chromosome).value, old(score).value, false, DepthSearch(policy))
           == Pass(chromosome.value, score.value, moveMade, raised)
    {
      ghost var goal := Scan(objective, cands, chromosome.value, score.value, false, DepthSearch(policy));
      moveMade := false;
      var k := 0;
      while k < |cands|
        invariant 0 <= k <= |cands|
        invariant chromosome.Some? && score.Some?
        invariant Scan(objective, cands[k..], chromosome.value, score.value, moveMade, DepthSearch(policy)) == goal
      {
        assert cands[k..][0] == cands[k] && cands[k..][1..] == cands[k + 1..];
        var candidateScore := objective(cands[k]);
        if candidateScore.Raise? {
          return moveMade, Some(candidateScore.exc);
        }
        if candidateScore.value < score.value {
          moveMade := true;
          UpdateChromosome(cands[k], candidateScore.value);
          if !DepthSearch(policy) {
            return moveMade, None;
          }
        }
        k := k + 1;
      }
      raised := None;
    }

    /** `compute`: a random chromosome from the drawn gene values, its score,
        then passes while the counter is below `max_evaluations`. The fields
        end as `ComputeOutcome` says, also when an evaluation raises. */
    method Compute(draws: seq<nat>) returns (raised: Option<Exc>)
      requires |draws| == (if variables > 0 then variables else 0)
      requires ValidDraws(draws, space.size)
      modifies this`chromosome, this`score, this`evaluations
      ensures (State(chromosome, score, evaluations), raised)
           == ComputeOutcome(objective, policy, maxEvaluations, RandomBits(draws, space.size),
                             old(State(chromosome, score, evaluations)))
    {
      var c := Chromosome.Random(variables, space, draws);
      var start := c.GetRawData();
      chromosome := Some(start);
      var first := objective(start);
      if first.Raise? {
        return Some(first.exc);
      }
      score := Some(first.value);
      evaluations := 1;
      ghost var goal := Search(objective, policy, maxEvaluations, Climb(start, first.value, 1));
      while evaluations < maxEvaluations
        invariant chromosome.Some? && score.Some?
        invariant Search(objective, policy, maxEvaluations, Climb(chromosome.value, score.value, evaluations)) == goal
        decreases maxEvaluations - evaluations
      {
        var moves := MoveOperator();
        if moves.Err? {
          return Some(moves.exc);
        }
        var moveMade, passRaised := RunPass(moves.value);
        if passRaised.Some? {
          return passRaised;
        }
        evaluations := evaluations + 1;
        if !moveMade && DepthSearch(policy) {
          break;
        }
      }
      raised := None;
    }

    /** `run`: `compute`, then `prepare_result(False)` unless the exception
        is not one of IndexError, ValueError and TypeError, in which case it
        propagates and `result` is left as it was. */
    method Run(draws: seq<nat>) returns (outcome: Outcome)
      requires |draws| == (if variables > 0 then variables else 0)
      requires ValidDraws(draws, space.size)
      modifies this`chromosome, this`score, this`evaluations, this`result
      ensures var (st, e) := ComputeOutcome(objective, policy, maxEvaluations, RandomBits(draws, space.size),
                                            old(State(chromosome, score, evaluations)));
        && State(chromosome, score, evaluations) == st
        && (result, outcome) == RunOutcome(maxEvaluations, st, e, old(result))
    {
      var raised := Compute(draws);
      if raised.Some? {
        if !Caught(raised.value) {
          return Raised(raised.value);
        }
        PrepareResult(true);
      }
      PrepareResult(false);
      outcome := Returned;
    }
  }
}
