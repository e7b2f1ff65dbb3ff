/** The hill-climbing algorithm of optinum/algorithm/hillclimbing.py: the same
    search loop as in optinum/algorithm.py, run by `process(task)` on a
    chromosome of optinum/common/objects.py. Here first-improvement shuffles
    the index list properly and searches; the `HCBestImprovement` constructor
    fails. */
module HillClimbingTask {
  import opened Common
  import opened Data
  import opened Climbing
  import Objects

  /** The default of the `max_evaluations` parameter. */
  const DefaultMaxEvaluations := 50

  /** The fields `process` updates: the chromosome and score (unset until
      `process` assigns them) and the pass counter. */
  datatype State = State(chromosome: Option<seq<Allele>>, score: Option<real>, evaluations: int)

  /** The search loop of `process` for a policy; `shuffles` lists the orders
      `random.shuffle` leaves the index list in, one per pass. */
  function Search(f: Objective, policy: Policy, max: int, c: Climb, shuffles: seq<seq<nat>>): Finish
    requires forall k :: 0 <= k < |shuffles| ==> IsPermutation(shuffles[k], |c.bits|)
    requires |shuffles| >= max - c.evaluations
  {
    match policy
    case BestImprovement => ClimbBest(f, max, c)
    case FirstImprovement => ClimbFirst(f, max, c, shuffles)
  }

  /** What `process` leaves in the fields, and the exception it raises, when
      the random chromosome is `start`. */
  function ProcessOutcome(f: Objective, policy: Policy, max: int, start: seq<Allele>, shuffles: seq<seq<nat>>, before: State): (State, Option<Exc>)
    requires forall k :: 0 <= k < |shuffles| ==> IsPermutation(shuffles[k], |start|)
    requires |shuffles| >= max - 1
  {
    match f(start)
    case Raise(e) => (State(Some(start), before.score, before.evaluations), Some(e))
    case Score(s) =>
      var r := Search(f, policy, max, Climb(start, s, 1), shuffles);
      (State(Some(r.state.bits), Some(r.state.score), r.state.evaluations), r.raised)
  }

  /** Once `process` has scored its starting chromosome, the counter starts
      at 1 and never passes a `max >= 1`; the score never increases; and when
      nothing raises, first-improvement always runs all `max` passes. */
  lemma ProcessBounds(f: Objective, policy: Policy, max: int, start: seq<Allele>, shuffles: seq<seq<nat>>, before: State)
    requires forall k :: 0 <= k < |shuffles| ==> IsPermutation(shuffles[k], |start|)
    requires |shuffles| >= max - 1
    requires f(start).Score?
    ensures var (st, e) := ProcessOutcome(f, policy, max, start, shuffles, before);
      && st.chromosome.Some? && st.score.Some?
      && st.evaluations >= 1
      && (max >= 1 ==> st.evaluations <= max)
      && st.score.value <= f(start).value
      && f(st.chromosome.value) == Score(st.score.value)
      && (policy == FirstImprovement && max >= 1 && e == None ==> st.evaluations == max)
  {
    var c := Climb(start, f(start).value, 1);
    if policy == BestImprovement {
      ClimbBestProgress(f, max, c);
    } else {
      ClimbFirstProgress(f, max, c, shuffles);
      if max >= 1 {
        ClimbFirstRunsToMax(f, max, c, shuffles);
      }
    }
  }

  /** One pass of the search loop: how the outcome from c relates to the
      outcome from the state after the pass. */
  lemma SearchStep(f: Objective, policy: Policy, max: int, c: Climb, shuffles: seq<seq<nat>>, cands: seq<seq<Allele>>)
    requires forall k :: 0 <= k < |shuffles| ==> IsPermutation(shuffles[k], |c.bits|)
    requires |shuffles| >= max - c.evaluations
    requires c.evaluations < max
    requires InRange(shuffles[0], |c.bits|)
    requires cands == if policy == FirstImprovement then Candidates(c.bits, shuffles[0]) else Candidates(c.bits, Indices(|c.bits|))
    ensures var p := Scan(f, cands, c.bits, c.score, false, DepthSearch(policy));
      && |p.bits| == |c.bits|
      && (p.raised.Some? ==> Search(f, policy, max, c, shuffles) == Finish(Climb(p.bits, p.score, c.evaluations), p.raised))
      && (p.raised.None? && DepthSearch(policy) && !p.moved ==>
            Search(f, policy, max, c, shuffles) == Finish(Climb(p.bits, p.score, c.evaluations + 1), None))
      && (p.raised.None? && !(DepthSearch(policy) && !p.moved) ==>
            Search(f, policy, max, c, shuffles) == Search(f, policy, max, Climb(p.bits, p.score, c.evaluations + 1), shuffles[1..]))
  {
  }

  class HillClimbing {
    const objective: Objective
    const maxEvaluations: int
    const policy: Policy
    var chromosome: Option<seq<Allele>>
    var score: Option<real>
    var evaluations: int

    /** `HillClimbing.__init__(name, max_evaluations)`: the counter starts at
        1; the chromosome and score are not assigned yet. The objective is
        the one of the task the algorithm is attached to. */
    constructor (objective: Objective, maxEvaluations: int, policy: Policy)
      ensures this.objective == objective && this.maxEvaluations == maxEvaluations && this.policy == policy
      ensures chromosome == None && score == None && evaluations == 1
    {
      this.objective := objective;
      this.maxEvaluations := maxEvaluations;
      this.policy := policy;
      chromosome := None;
      score := None;
      evaluations := 1;
    }

    /** `HCFirstImprovement.__init__`: it forwards only `name`, so the
        search always runs with the default of 50 passes. */
    static method NewFirstImprovement(objective: Objective) returns (h: HillClimbing)
      ensures fresh(h)
      ensures h.objective == objective && h.maxEvaluations == DefaultMaxEvaluations && h.policy == FirstImprovement
      ensures h.chromosome == None && h.score == None && h.evaluations == 1
    {
      h := new HillClimbing(objective, DefaultMaxEvaluations, FirstImprovement);
    }

    /** `HCBestImprovement.__init__`: `super(HCFirstImprovement, self)` on an
        object that is not an `HCFirstImprovement` raises TypeError, so no
        best-improvement object is ever built. */
    static method NewBestImprovement(objective: Objective) returns (r: Result<HillClimbing>)
      ensures r == Err(TypeError)
    {
      r := Err(TypeError);
    }

    method UpdateChromosome(bits: seq<Allele>, s: real)
      modifies this`chromosome, this`score
      ensures chromosome == Some(bits) && score == Some(s)
    {
      chromosome := Some(bits);
      score := Some(s);
    }

    /** The move operators: first-improvement visits the indices in the
        order `random.shuffle` left them (`order`), best-improvement in index
        order; every candidate is built from the bits held when the operator
        starts. Without a chromosome, the attribute lookup raises. */
    method MoveOperator(order: seq<nat>) returns (r: Result<seq<seq<Allele>>>)
      requires chromosome.Some? && policy == FirstImprovement ==> IsPermutation(order, |chromosome.value|)
      ensures chromosome.None? ==> r == Err(AttributeError)
      ensures chromosome.Some? && policy == FirstImprovement ==>
        InRange(order, |chromosome.value|) && r == Ok(Candidates(chromosome.value, order))
      ensures chromosome.Some? && policy == BestImprovement ==>
        r == Ok(Candidates(chromosome.value, Indices(|chromosome.value|)))
    {
      if chromosome.None? {
        return Err(AttributeError);
      }
      var geneticInfo := chromosome.value;
      var indexList := Indices(|geneticInfo|);
      if policy == FirstImprovement {
        PermutationShape(order, |geneticInfo|);
        indexList := order;
      }
      var cands: seq<seq<Allele>> := [];
      for k := 0 to |indexList|
        invariant cands == Candidates(geneticInfo, indexList[..k])
      {
        var index := indexList[k];
        var hammingNeighbor := geneticInfo;
        hammingNeighbor := hammingNeighbor[index := Flip(geneticInfo[index])];
        assert indexList[..k + 1] == indexList[..k] + [index];
        cands := cands + [hammingNeighbor];
      }
      assert indexList[..|indexList|] == indexList;
      r := Ok(cands);
    }

    /** One pass of the inner `for` loop over the candidates. */
    method RunPass(cands: seq<seq<Allele>>) returns (moveMade: bool, raised: Option<Exc>)
      requires chromosome.Some? && score.Some?
      modifies this`chromosome, this`score
      ensures chromosome.Some? && score.Some?
      ensures Scan(objective, cands, old(chromosome).value, old(score).value, false, DepthSearch(policy))
           == Pass(chromosome.value, score.value, moveMade, raised)
    {
      ghost var goal := Scan(objective, cands, chromosome.value, score.value, false, DepthSearch(policy));
      moveMade := false;
      var k := 0;
      while k < |cands|
        invariant 0 <= k <= |cands|
        invariant chromosome.Some? && score.Some?
        invariant Scan(objective, cands[k..], chromosome.value, score.value, moveMade, DepthSearch(policy)) == goal
      {
        assert cands[k..][0] == cands[k] && cands[k..][1..] == cands[k + 1..];
        var candidateScore := objective(cands[k]);
        if candidateScore.Raise? {
          return moveMade, Some(candidateScore.exc);
        }
        if candidateScore.value < score.value {
          moveMade := true;
          UpdateChromosome(cands[k], candidateScore.value);
          if !DepthSearch(policy) {
            return moveMade, None;
          }
        }
        k := k + 1;
      }
      raised := None;
    }

    /** `process(task)`: a random chromosome of `task.variables` genes over
        `task.space`, its score, then the passes. Pass p (counting from 1)
        shuffles the indices into `shuffles[p - 1]`. */
    method Process(variables: int, space: Space, draws: seq<nat>, shuffles: seq<seq<nat>>) returns (raised: Option<Exc>)
      requires |draws| == (if variables > 0 then variables else 0)
      requires ValidDraws(draws, space.size)
      requires forall k :: 0 <= k < |shuffles| ==> IsPermutation(shuffles[k], |RandomBits(draws, space.size)|)
      requires |shuffles| >= maxEvaluations - 1
      modifies this`chromosome, this`score, this`evaluations
      ensures (State(chromosome, score, evaluations), raised)
           == ProcessOutcome(objective, policy, maxEvaluations, RandomBits(draws, space.size), shuffles,
                             old(State(chromosome, score, evaluations)))
    {
      var c := Objects.Chromosome.Random(variables, space, draws);
      var start := c.GetRawData();
      chromosome := Some(start);
      var first := objective(start);
      if first.Raise? {
        return Some(first.exc);
      }
      score := Some(first.value);
      evaluations := 1;
      raised := Passes(shuffles);
    }

    /** The `while` loop of `process`, from the scored start with the
        counter at 1: the fields end as `Search` says. */
    method Passes(shuffles: seq<seq<nat>>) returns (raised: Option<Exc>)
      requires chromosome.Some? && score.Some? && evaluations == 1
      requires forall k :: 0 <= k < |shuffles| ==> IsPermutation(shuffles[k], |chromosome.value|)
      requires |shuffles| >= maxEvaluations - 1
      modifies this`chromosome, this`score, this`evaluations
      ensures var r := Search(objective, policy, maxEvaluations, Climb(old(chromosome).value, old(score).value, 1), shuffles);
        State(chromosome, score, evaluations) == State(Some(r.state.bits), Some(r.state.score), r.state.evaluations)
        && raised == r.raised
    {
      ghost var n := |chromosome.value|;
      ghost var goal := Search(objective, policy, maxEvaluations, Climb(chromosome.value, score.value, 1), shuffles);
      var rest := shuffles;
      while evaluations < maxEvaluations
        invariant chromosome.Some? && score.Some? && |chromosome.value| == n
        invariant forall k :: 0 <= k < |rest| ==> IsPermutation(rest[k], n)
        invariant |rest| >= maxEvaluations - evaluations
        invariant Search(objective, policy, maxEvaluations, Climb(chromosome.value, score.value, evaluations), rest) == goal
        decreases maxEvaluations - evaluations
      {
        var moveMade, passRaised := OnePass(rest);
        if passRaised.Some? {
          return passRaised;
        }
        evaluations := evaluations + 1;
        if !moveMade && DepthSearch(policy) {
          break;
        }
        rest := rest[1..];
      }
      raised := None;
    }

    /** One pass of the `while` loop (the move operator with the order
        `rest[0]`, then the inner loop) and what it leaves of the search. */
    method OnePass(rest: seq<seq<nat>>) returns (moveMade: bool, raised: Option<Exc>)
      requires chromosome.Some? && score.Some? && evaluations < maxEvaluations
      requires forall k :: 0 <= k < |rest| ==> IsPermutation(rest[k], |chromosome.value|)
      requires |rest| >= maxEvaluations - evaluations
      modifies this`chromosome, this`score
      ensures chromosome.Some? && score.Some? && |chromosome.value| == |old(chromosome).value|
      ensures forall k :: 0 <= k < |rest| - 1 ==> IsPermutation(rest[1..][k], |chromosome.value|)
      ensures var before := Search(objective, policy, maxEvaluations, Climb(old(chromosome).value, old(score).value, evaluations), rest);
        && (raised.Some? ==> before == Finish(Climb(chromosome.value, score.value, evaluations), raised))
        && (raised.None? && DepthSearch(policy) && !moveMade ==>
              before == Finish(Climb(chromosome.value, score.value, evaluations + 1), None))
        && (raised.None? && !(DepthSearch(policy) && !moveMade) ==>
              before == Search(objective, policy, maxEvaluations, Climb(chromosome.value, score.value, evaluations + 1), rest[1..]))
    {
      PermutationShape(rest[0], |chromosome.value|);
      var moves := MoveOperator(rest[0]);
      SearchStep(objective, policy, maxEvaluations, Climb(chromosome.value, score.value, evaluations), rest, moves.value);
      moveMade, raised := RunPass(moves.value);
    }
  }
}
