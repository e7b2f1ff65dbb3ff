/** The search that both hill-climbing implementations run (optinum/algorithm.py
    and optinum/algorithm/hillclimbing.py), stated on values. A pass walks the
    one-bit-flip neighbours of the chromosome held when the pass starts and
    accepts a neighbour only when its score is strictly lower than the held
    score; first-improvement stops the pass at the first accepted neighbour,
    best-improvement walks on. The outer loop counts passes in `evaluations`
    and ends when it reaches `max_evaluations` or, for best-improvement, after
    a pass that accepted nothing. */
module Climbing {
  import opened Common
  import opened Data

  /** The concrete subclass: `HCFirstImprovement` or `HCBestImprovement`. */
  datatype Policy = FirstImprovement | BestImprovement

  /** `depth_search`: False for first-improvement, True for best-improvement. */
  function DepthSearch(policy: Policy): bool
  {
    policy == BestImprovement
  }

  /** What evaluating a chromosome produces: a score, or a raised exception. */
  datatype Eval = Score(value: real) | Raise(exc: Exc)

  /** The objective function, seen by the search as a total function of the
      chromosome's bits. */
  type Objective = seq<Allele> -> Eval

  /** `int(not(a))`: Python's truth value of the allele, negated, as an
      integer. Only the integer 0 is falsy; every other integer and every
      one-character string is truthy. */
  function Flip(a: Allele): (r: Allele)
    ensures r == Num(0) || r == Num(1)
    ensures r != a
  {
    if a == Num(0) then Num(1) else Num(0)
  }

  /** On the integers 0 and 1 the flip is an involution; on the characters
      '0' and '1' that `Chromosome.random` stores it is not: both become the
      integer 0, so flipping a '0' does not change the digit it stands for. */
  lemma FlipBehaviour(a: Allele)
    ensures (a == Num(0) || a == Num(1)) ==> Flip(Flip(a)) == a
    ensures Flip(Char('0')) == Num(0) && Flip(Char('1')) == Num(0)
    ensures a.Char? ==> Flip(a) == Num(0) && Flip(Flip(a)) == Num(1)
    ensures IsBit(a) ==> IsBit(Flip(a)) && (Digit(Flip(a)) == Digit(a) <==> a == Char('0'))
  {
  }

  /** The neighbour at index i: a copy of the bits with position i flipped. */
  function Neighbour(bits: seq<Allele>, i: nat): (r: seq<Allele>)
    requires i < |bits|
    ensures |r| == |bits| && r[i] == Flip(bits[i]) && r[i] != bits[i]
    ensures forall j :: 0 <= j < |bits| && j != i ==> r[j] == bits[j]
  {
    bits[i := Flip(bits[i])]
  }

  /** The positions at which two equally long lists differ. */
  function Differences(a: seq<Allele>, b: seq<Allele>): set<nat>
    requires |a| == |b|
  {
    set j: nat | j < |a| && a[j] != b[j]
  }

  /** A neighbour differs from the bits it was made from at exactly its index. */
  lemma NeighbourDiffersOnce(bits: seq<Allele>, i: nat)
    requires i < |bits|
    ensures Differences(bits, Neighbour(bits, i)) == {i}
  {
  }

  predicate InRange(order: seq<nat>, n: nat)
  {
    forall k :: 0 <= k < |order| ==> order[k] < n
  }

  /** `range(n)`. */
  function Indices(n: nat): (r: seq<nat>)
    ensures |r| == n && forall k :: 0 <= k < n ==> r[k] == k
  {
    seq(n, k => k)
  }

  /** `order` is a rearrangement of `range(n)`, as `random.shuffle` leaves it. */
  predicate IsPermutation(order: seq<nat>, n: nat)
  {
    multiset(order) == multiset(Indices(n))
  }

  /** `range(n)` holds every index below n exactly once, and nothing else. */
  lemma {:induction false} IndicesOnce(n: nat)
    ensures forall i: nat :: multiset(Indices(n))[i] == if i < n then 1 else 0
  {
    if n > 0 {
      IndicesOnce(n - 1);
      assert Indices(n) == Indices(n - 1) + [n - 1];
    }
  }

  /** A permutation of `range(n)` has n entries, each an index below n, and
      lists every index below n exactly once. */
  lemma PermutationShape(order: seq<nat>, n: nat)
    requires IsPermutation(order, n)
    ensures |order| == n && InRange(order, n)
    ensures forall i: nat :: i < n ==> multiset(order)[i] == 1
  {
    IndicesOnce(n);
    assert |order| == |multiset(order)| == |multiset(Indices(n))| == n;
    forall k | 0 <= k < |order|
      ensures order[k] < n
    {
      assert order[k] in multiset(order);
    }
  }

  lemma IndicesArePermutation(n: nat)
    ensures IsPermutation(Indices(n), n)
  {
  }

  /** The candidates a move operator yields when it visits the indices in
      `order`: one neighbour of the same pass-start bits per listed index. */
  function Candidates(bits: seq<Allele>, order: seq<nat>): (r: seq<seq<Allele>>)
    requires InRange(order, |bits|)
    ensures |r| == |order|
    ensures forall k :: 0 <= k < |order| ==> r[k] == Neighbour(bits, order[k])
  {
    seq(|order|, k requires 0 <= k < |order| => Neighbour(bits, order[k]))
  }

  /** Visiting a permutation of the indices yields one candidate per index:
      every index is visited exactly once, and each candidate is the
      pass-start bits with only its own index changed. */
  lemma CandidatesOnePerIndex(bits: seq<Allele>, order: seq<nat>)
    requires IsPermutation(order, |bits|)
    ensures InRange(order, |bits|)
    ensures forall k :: 0 <= k < |order| ==>
      |Candidates(bits, order)[k]| == |bits| && Differences(bits, Candidates(bits, order)[k]) == {order[k]}
    ensures forall i: nat :: i < |bits| ==>
      && multiset(order)[i] == 1
      && exists k :: 0 <= k < |order| && order[k] == i && Candidates(bits, order)[k] == Neighbour(bits, i)
  {
    PermutationShape(order, |bits|);
    var c := Candidates(bits, order);
    forall k | 0 <= k < |order|
      ensures Differences(bits, c[k]) == {order[k]}
    {
      NeighbourDiffersOnce(bits, order[k]);
    }
    forall i: nat | i < |bits|
      ensures exists k :: 0 <= k < |order| && order[k] == i && c[k] == Neighbour(bits, i)
    {
      assert i in multiset(order);
      var k :| 0 <= k < |order| && order[k] == i;
      assert c[k] == Neighbour(bits, i);
    }
  }

  /** The state at the end of a pass: the held chromosome and score, whether
      a move was made, and the exception that ended the pass early, if any. */
  datatype Pass = Pass(bits: seq<Allele>, score: real, moved: bool, raised: Option<Exc>)

  /** The inner `for` loop of the search over `cands`, from the held bits and
      score; `depth` is `depth_search`. */
  function Scan(f: Objective, cands: seq<seq<Allele>>, bits: seq<Allele>, score: real, moved: bool, depth: bool): (r: Pass)
    ensures r.score <= score
    ensures r.bits == bits || r.bits in cands
    ensures r.moved <==> moved || r.score < score
    ensures !(r.score < score) ==> r.bits == bits
    ensures f(bits) == Score(score) ==> f(r.bits) == Score(r.score)
    decreases |cands|
  {
    if cands == [] then Pass(bits, score, moved, None)
    else
      match f(cands[0])
      case Raise(e) => Pass(bits, score, moved, Some(e))
      case Score(s) =>
        if s < score then
          if depth then Scan(f, cands[1..], cands[0], s, true, depth)
          else Pass(cands[0], s, true, None)
        else Scan(f, cands[1..], bits, score, moved, depth)
  }

  /** Every candidate evaluates to a score. */
  predicate AllScored(f: Objective, cands: seq<seq<Allele>>)
  {
    forall k :: 0 <= k < |cands| ==> f(cands[k]).Score?
  }

  function Scores(f: Objective, cands: seq<seq<Allele>>): (r: seq<real>)
    requires AllScored(f, cands)
    ensures |r| == |cands| && forall k :: 0 <= k < |cands| ==> f(cands[k]) == Score(r[k])
  {
    seq(|cands|, k requires 0 <= k < |cands| => f(cands[k]).value)
  }

  /** The earliest index holding the minimum of a non-empty list. */
  function FirstMin(xs: seq<real>): (i: nat)
    requires |xs| > 0
    ensures i < |xs|
    ensures forall j :: 0 <= j < |xs| ==> xs[i] <= xs[j]
    ensures forall j :: 0 <= j < i ==> xs[j] > xs[i]
  {
    if |xs| == 1 then 0
    else
      var m := FirstMin(xs[1..]);
      assert forall j :: 1 <= j < |xs| ==> xs[j] == xs[1..][j - 1];
      if xs[0] <= xs[1 + m] then 0 else 1 + m
  }

  /** Best-improvement ends a pass on the earliest neighbour with the minimum
      score, when that minimum is below the pass-start score, and otherwise
      keeps the pass-start state. Because every candidate is a neighbour of
      the pass-start bits, the neighbour it holds is the best one of the
      pass-start neighbourhood, not merely an improving one. */
  lemma {:induction false} ScanBest(f: Objective, cands: seq<seq<Allele>>, bits: seq<Allele>, score: real, moved: bool)
    requires AllScored(f, cands)
    ensures Scan(f, cands, bits, score, moved, true).raised == None
    ensures var r := Scan(f, cands, bits, score, moved, true);
      if cands != [] && Scores(f, cands)[FirstMin(Scores(f, cands))] < score then
        && r.bits == cands[FirstMin(Scores(f, cands))]
        && r.score == Scores(f, cands)[FirstMin(Scores(f, cands))]
        && r.moved
      else
        r == Pass(bits, score, moved, None)
    decreases |cands|
  {
    if cands != [] {
      var xs := Scores(f, cands);
      var rest := cands[1..];
      assert AllScored(f, rest) by {
        assert forall k :: 0 <= k < |rest| ==> rest[k] == cands[k + 1];
      }
      var ys := Scores(f, rest);
      assert ys == xs[1..];
      var s := xs[0];
      assert f(cands[0]) == Score(s);
      if s < score {
        ScanBest(f, rest, cands[0], s, true);
      } else {
        ScanBest(f, rest, bits, score, moved);
      }
    }
  }

  /** When no candidate scores below the held score, a pass changes nothing,
      whatever the policy. */
  lemma {:induction false} ScanNoImprovement(f: Objective, cands: seq<seq<Allele>>, bits: seq<Allele>, score: real, moved: bool, depth: bool)
    requires forall k :: 0 <= k < |cands| ==> f(cands[k]).Score? && f(cands[k]).value >= score
    ensures Scan(f, cands, bits, score, moved, depth) == Pass(bits, score, moved, None)
    decreases |cands|
  {
    if cands != [] {
      assert forall k :: 0 <= k < |cands[1..]| ==> cands[1..][k] == cands[k + 1];
      ScanNoImprovement(f, cands[1..], bits, score, moved, depth);
    }
  }

  /** First-improvement takes the first candidate that scores below the held
      score and evaluates nothing after it. */
  lemma {:induction false} ScanFirst(f: Objective, cands: seq<seq<Allele>>, bits: seq<Allele>, score: real, moved: bool, k: nat)
    requires k < |cands|
    requires forall j :: 0 <= j < k ==> f(cands[j]).Score? && f(cands[j]).value >= score
    requires f(cands[k]).Score? && f(cands[k]).value < score
    ensures Scan(f, cands, bits, score, moved, false) == Pass(cands[k], f(cands[k]).value, true, None)
    decreases k
  {
    if k > 0 {
      assert forall j :: 0 <= j < |cands[1..]| ==> cands[1..][j] == cands[j + 1];
      ScanFirst(f, cands[1..], bits, score, moved, k - 1);
    }
  }

  /** A pass that reaches a candidate whose evaluation raises ends with that
      exception, the state held so far being kept. Best-improvement reaches
      every candidate; first-improvement reaches one only when no earlier
      candidate was accepted. */
  lemma {:induction false} ScanRaises(f: Objective, cands: seq<seq<Allele>>, bits: seq<Allele>, score: real, moved: bool, depth: bool, k: nat)
    requires k < |cands| && f(cands[k]).Raise?
    requires forall j :: 0 <= j < k ==> f(cands[j]).Score?
    requires !depth ==> forall j :: 0 <= j < k ==> f(cands[j]).value >= score
    ensures Scan(f, cands, bits, score, moved, depth).raised == Some(f(cands[k]).exc)
    decreases k
  {
    if k > 0 {
      var rest := cands[1..];
      assert forall j :: 0 <= j < |rest| ==> rest[j] == cands[j + 1];
      var s := f(cands[0]).value;
      if s < score {
        ScanRaises(f, rest, cands[0], s, true, depth, k - 1);
      } else {
        ScanRaises(f, rest, bits, score, moved, depth, k - 1);
      }
    }
  }

  /** The search state the outer loop carries: the held chromosome, its score
      and the pass counter `evaluations`. */
  datatype Climb = Climb(bits: seq<Allele>, score: real, evaluations: int)

  /** A finished search: the final state and the exception that ended it, if
      one did. */
  datatype Finish = Finish(state: Climb, raised: Option<Exc>)

  /** The best-improvement outer `while` loop: passes over all neighbours in
      index order, until `max` passes or a pass without a move. */
  function ClimbBest(f: Objective, max: int, c: Climb): (r: Finish)
    decreases max - c.evaluations
  {
    if c.evaluations >= max then Finish(c, None)
    else
      var p := Scan(f, Candidates(c.bits, Indices(|c.bits|)), c.bits, c.score, false, true);
      if p.raised.Some? then Finish(Climb(p.bits, p.score, c.evaluations), p.raised)
      else if p.moved then ClimbBest(f, max, Climb(p.bits, p.score, c.evaluations + 1))
      else Finish(Climb(p.bits, p.score, c.evaluations + 1), None)
  }

  /** The first-improvement outer `while` loop: pass number `evaluations`
      visits the indices in the order `shuffles[0]`, the next pass in the
      order `shuffles[1]`, and so on; only `max` ends it. */
  function ClimbFirst(f: Objective, max: int, c: Climb, shuffles: seq<seq<nat>>): (r: Finish)
    requires forall k :: 0 <= k < |shuffles| ==> IsPermutation(shuffles[k], |c.bits|)
    requires |shuffles| >= max - c.evaluations
    decreases max - c.evaluations
  {
    if c.evaluations >= max then Finish(c, None)
    else
      PermutationShape(shuffles[0], |c.bits|);
      var cands := Candidates(c.bits, shuffles[0]);
      var p := Scan(f, cands, c.bits, c.score, false, false);
      if p.raised.Some? then Finish(Climb(p.bits, p.score, c.evaluations), p.raised)
      else ClimbFirst(f, max, Climb(p.bits, p.score, c.evaluations + 1), shuffles[1..])
  }

  /** How the held state relates to where the search started: the score
      never increases, the held score is the held chromosome's score, the
      pass counter never decreases and never passes a `max` it started at
      or below, and the chromosome keeps its length. */
  predicate Progress(f: Objective, max: int, c: Climb, r: Finish)
  {
    && r.state.score <= c.score
    && (f(c.bits) == Score(c.score) ==> f(r.state.bits) == Score(r.state.score))
    && r.state.evaluations >= c.evaluations
    && (c.evaluations <= max ==> r.state.evaluations <= max)
    && |r.state.bits| == |c.bits|
  }

  lemma {:induction false} ClimbBestProgress(f: Objective, max: int, c: Climb)
    ensures Progress(f, max, c, ClimbBest(f, max, c))
    ensures c.evaluations >= max ==> ClimbBest(f, max, c) == Finish(c, None)
    decreases max - c.evaluations
  {
    if c.evaluations < max {
      var p := Scan(f, Candidates(c.bits, Indices(|c.bits|)), c.bits, c.score, false, true);
      if p.raised.None? && p.moved {
        ClimbBestProgress(f, max, Climb(p.bits, p.score, c.evaluations + 1));
      }
    }
  }

  lemma {:induction false} ClimbFirstProgress(f: Objective, max: int, c: Climb, shuffles: seq<seq<nat>>)
    requires forall k :: 0 <= k < |shuffles| ==> IsPermutation(shuffles[k], |c.bits|)
    requires |shuffles| >= max - c.evaluations
    ensures Progress(f, max, c, ClimbFirst(f, max, c, shuffles))
    ensures c.evaluations >= max ==> ClimbFirst(f, max, c, shuffles) == Finish(c, None)
    decreases max - c.evaluations
  {
    if c.evaluations < max {
      PermutationShape(shuffles[0], |c.bits|);
      var p := Scan(f, Candidates(c.bits, shuffles[0]), c.bits, c.score, false, false);
      if p.raised.None? {
        ClimbFirstProgress(f, max, Climb(p.bits, p.score, c.evaluations + 1), shuffles[1..]);
      }
    }
  }

  /** First-improvement has no early exit: unless an evaluation raises, it
      runs until the pass counter reaches `max`. */
  lemma {:induction false} ClimbFirstRunsToMax(f: Objective, max: int, c: Climb, shuffles: seq<seq<nat>>)
    requires forall k :: 0 <= k < |shuffles| ==> IsPermutation(shuffles[k], |c.bits|)
    requires |shuffles| >= max - c.evaluations
    requires c.evaluations <= max
    ensures ClimbFirst(f, max, c, shuffles).raised == None ==> ClimbFirst(f, max, c, shuffles).state.evaluations == max
    decreases max - c.evaluations
  {
    if c.evaluations < max {
      PermutationShape(shuffles[0], |c.bits|);
      var p := Scan(f, Candidates(c.bits, shuffles[0]), c.bits, c.score, false, false);
      if p.raised.None? {
        ClimbFirstRunsToMax(f, max, Climb(p.bits, p.score, c.evaluations + 1), shuffles[1..]);
      }
    }
  }

  /** One first-improvement pass makes at most one move: it ends on the
      pass-start bits or on one of their neighbours. */
  lemma FirstPassMovesOnce(f: Objective, c: Climb, order: seq<nat>)
    requires InRange(order, |c.bits|)
    ensures var p := Scan(f, Candidates(c.bits, order), c.bits, c.score, false, false);
      p.bits == c.bits || exists i :: 0 <= i < |c.bits| && p.bits == Neighbour(c.bits, i)
  {
    var cands := Candidates(c.bits, order);
    var p := Scan(f, cands, c.bits, c.score, false, false);
    if p.bits != c.bits {
      var k :| 0 <= k < |cands| && cands[k] == p.bits;
      assert p.bits == Neighbour(c.bits, order[k]);
    }
  }

  /** Best-improvement stops only at `max` passes or at a local minimum: when
      it ends early without an exception, no neighbour of the final
      chromosome scores below the final score. */
  lemma {:induction false} ClimbBestStopsAtLocalMinimum(f: Objective, max: int, c: Climb)
    ensures var r := ClimbBest(f, max, c);
      r.raised == None && r.state.evaluations < max ==>
        forall i :: 0 <= i < |r.state.bits| ==>
          f(Neighbour(r.state.bits, i)).Score? && f(Neighbour(r.state.bits, i)).value >= r.state.score
    decreases max - c.evaluations
  {
    if c.evaluations < max {
      var cands := Candidates(c.bits, Indices(|c.bits|));
      var p := Scan(f, cands, c.bits, c.score, false, true);
      if p.raised.None? {
        if p.moved {
          ClimbBestStopsAtLocalMinimum(f, max, Climb(p.bits, p.score, c.evaluations + 1));
        } else {
          NoMoveLocalMinimum(f, c);
        }
      }
    }
  }

  /** A best-improvement pass from c that raised nothing and moved nothing
      found no neighbour of c scoring below c's score. */
  lemma NoMoveLocalMinimum(f: Objective, c: Climb)
    requires Scan(f, Candidates(c.bits, Indices(|c.bits|)), c.bits, c.score, false, true).raised == None
    requires !Scan(f, Candidates(c.bits, Indices(|c.bits|)), c.bits, c.score, false, true).moved
    ensures forall i :: 0 <= i < |c.bits| ==>
      f(Neighbour(c.bits, i)).Score? && f(Neighbour(c.bits, i)).value >= c.score
  {
    var cands := Candidates(c.bits, Indices(|c.bits|));
    NoMoveMeansNoBetterNeighbour(f, cands, c.bits, c.score);
    forall i | 0 <= i < |c.bits|
      ensures f(Neighbour(c.bits, i)).Score? && f(Neighbour(c.bits, i)).value >= c.score
    {
      assert cands[i] == Neighbour(c.bits, i);
    }
  }

  /** A best-improvement pass that raised nothing and moved nothing scored
      every candidate at or above the held score. */
  lemma NoMoveMeansNoBetterNeighbour(f: Objective, cands: seq<seq<Allele>>, bits: seq<Allele>, score: real)
    requires Scan(f, cands, bits, score, false, true).raised == None
    requires !Scan(f, cands, bits, score, false, true).moved
    ensures forall k :: 0 <= k < |cands| ==> f(cands[k]).Score? && f(cands[k]).value >= score
  {
    if !AllScored(f, cands) {
      var k := FirstRaising(f, cands);
      ScanRaises(f, cands, bits, score, false, true, k);
      assert false;
    }
    ScanBest(f, cands, bits, score, false);
    if cands != [] {
      var xs := Scores(f, cands);
      var m := FirstMin(xs);
      assert !(xs[m] < score);
      forall k | 0 <= k < |cands|
        ensures f(cands[k]).value >= score
      {
        assert xs[m] <= xs[k];
      }
    }
  }

  /** The first candidate whose evaluation raises. */
  function FirstRaising(f: Objective, cands: seq<seq<Allele>>): (k: nat)
    requires !AllScored(f, cands)
    ensures k < |cands| && f(cands[k]).Raise?
    ensures forall j :: 0 <= j < k ==> f(cands[j]).Score?
  {
    if f(cands[0]).Raise? then 0
    else
      assert !AllScored(f, cands[1..]) by {
        var k :| 0 <= k < |cands| && !f(cands[k]).Score?;
        assert cands[1..][k - 1] == cands[k];
      }
      1 + FirstRaising(f, cands[1..])
  }

  /** Two lists of alleles that stand for the same digits have the same
      unsigned value. */
  lemma {:induction false} UnsignedByDigits(a: seq<Allele>, b: seq<Allele>)
    requires |a| == |b| && forall i :: 0 <= i < |a| ==> Digit(a[i]) == Digit(b[i])
    ensures Unsigned(a) == Unsigned(b)
  {
    if a != [] {
      assert forall i :: 0 <= i < |a| - 1 ==> a[1..][i] == a[i + 1] && b[1..][i] == b[i + 1];
      UnsignedByDigits(a[1..], b[1..]);
    }
  }

  /** On a chromosome from `Chromosome.random`, flipping a position that
      holds the character '0' writes the integer 0: the neighbour still
      consists of binary digits and stands for the same number, so that
      move cannot change the gene's value. */
  lemma FlipOfCharacterZero(bits: seq<Allele>, i: nat)
    requires i < |bits| && bits[i] == Char('0') && AllBits(bits)
    ensures AllBits(Neighbour(bits, i))
    ensures Unsigned(Neighbour(bits, i)) == Unsigned(bits)
  {
    UnsignedByDigits(Neighbour(bits, i), bits);
  }
}
