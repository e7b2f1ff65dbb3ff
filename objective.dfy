/** The objective functions (optinum/objective.py): `compute` decodes a
    chromosome's genes with `value(min_xi, precision)` and hands the list of
    values to `evaluate`. Rosenbrock's valley and the six-hump camel back are
    polynomials and are modelled over exact reals. */
module Objective {
  import opened Common
  import Data
  import Objects

  /** The modelled objective classes. */
  datatype Kind = Rosenbrock | SixHumpCamelBack

  /** An objective instance: its class and the `precision` given to its
      constructor. */
  datatype Objective = Objective(kind: Kind, precision: nat)

  /** The class attribute `min_xi`: the lower end of the variables' range,
      -2048 for Rosenbrock and -2 for the six-hump camel back. */
  function MinXi(kind: Kind): (r: real)
    ensures kind == Rosenbrock ==> r == -2048.0
    ensures kind == SixHumpCamelBack ==> r == -2.0
  {
    match kind
    case Rosenbrock => -2048.0
    case SixHumpCamelBack => -2.0
  }

  /** The square of x. The second factor goes through `Same` so that the
      solver treats the product as one of two factors, whose sign it can
      reason about, rather than as a power. */
  function Sq(x: real): real { x * Same(x) }

  function Same(x: real): real { x }

  /** One term of Rosenbrock's sum, for the consecutive pair (a, b). */
  function Term(a: real, b: real): real
  {
    100.0 * Sq(b - Sq(a)) + Sq(1.0 - a)
  }

  /** The sum of the first k pair terms of v. */
  function Terms(v: seq<real>, k: nat): real
    requires k == 0 || k < |v|
  {
    if k == 0 then 0.0 else Terms(v, k - 1) + Term(v[k - 1], v[k])
  }

  /** `Rosenbrock.evaluate`: the sum over `range(len(variables) - 1)`. */
  function RosenbrockValue(v: seq<real>): real
  {
    if |v| < 2 then 0.0 else Terms(v, |v| - 1)
  }

  /** `Rosenbrock.evaluate`, the accumulator loop. */
  method RosenbrockEvaluate(variables: seq<real>) returns (result: real)
    ensures result == RosenbrockValue(variables)
  {
    result := 0.0;
    var index := 0;
    while index < |variables| - 1
      invariant 0 <= index && (index == 0 || index < |variables|)
      invariant result == Terms(variables, index)
    {
      result := result + 100.0 * Sq(variables[index + 1] - Sq(variables[index]));
      result := result + Sq(1.0 - variables[index]);
      index := index + 1;
    }
  }

  lemma MulPositive(a: real, b: real)
    requires a > 0.0 && b > 0.0
    ensures a * b > 0.0
  {
  }

  lemma MulNegative(a: real, b: real)
    requires a < 0.0 && b < 0.0
    ensures a * b > 0.0
  {
  }

  /** A square is never negative, and is zero only at zero. */
  lemma SqNonNegative(x: real)
    ensures Sq(x) >= 0.0
    ensures Sq(x) == 0.0 <==> x == 0.0
  {
    if x > 0.0 {
      MulPositive(x, Same(x));
    } else if x < 0.0 {
      MulNegative(x, Same(x));
    }
  }

  lemma TermProperties(a: real, b: real)
    ensures Term(a, b) >= 0.0
    ensures Term(a, b) == 0.0 <==> a == 1.0 && b == 1.0
  {
    SqNonNegative(b - Sq(a));
    SqNonNegative(1.0 - a);
    if a == 1.0 {
      assert Sq(a) == 1.0;
    }
  }

  lemma {:induction false} TermsNonNegative(v: seq<real>, k: nat)
    requires k == 0 || k < |v|
    ensures Terms(v, k) >= 0.0
  {
    if k > 0 {
      TermsNonNegative(v, k - 1);
      TermProperties(v[k - 1], v[k]);
    }
  }

  /** Rosenbrock's value is a sum of squares, hence never negative. */
  lemma RosenbrockNonNegative(v: seq<real>)
    ensures RosenbrockValue(v) >= 0.0
  {
    if |v| >= 2 {
      TermsNonNegative(v, |v| - 1);
    }
  }

  /** The first k pair terms sum to zero exactly when v[0..k] are all ones. */
  lemma {:induction false} TermsZero(v: seq<real>, k: nat)
    requires 0 < k < |v|
    ensures Terms(v, k) == 0.0 <==> forall i :: 0 <= i <= k ==> v[i] == 1.0
  {
    TermProperties(v[k - 1], v[k]);
    if k == 1 {
      assert Terms(v, 0) == 0.0;
    } else {
      TermsZero(v, k - 1);
      TermsNonNegative(v, k - 1);
    }
  }

  /** With fewer than two variables the sum is empty; with two or more it is
      zero exactly on the all-ones vector. */
  lemma RosenbrockZero(v: seq<real>)
    ensures |v| < 2 ==> RosenbrockValue(v) == 0.0
    ensures |v| >= 2 ==> (RosenbrockValue(v) == 0.0 <==> forall i :: 0 <= i < |v| ==> v[i] == 1.0)
  {
    if |v| >= 2 {
      TermsZero(v, |v| - 1);
    }
  }

  lemma {:induction false} TermsPrefix(v: seq<real>, x: real, k: nat)
    requires k < |v|
    ensures Terms(v + [x], k) == Terms(v, k)
  {
    if k > 0 {
      TermsPrefix(v, x, k - 1);
      assert (v + [x])[k - 1] == v[k - 1] && (v + [x])[k] == v[k];
    }
  }

  /** The sum has exactly one term per consecutive pair: one more variable adds
      exactly the term for the new last pair. */
  lemma RosenbrockExtend(v: seq<real>, x: real)
    requires |v| >= 1
    ensures RosenbrockValue(v + [x]) == RosenbrockValue(v) + Term(v[|v| - 1], x)
  {
    var w := v + [x];
    assert w[|v| - 1] == v[|v| - 1] && w[|v|] == x;
    assert Terms(w, |v|) == Terms(w, |v| - 1) + Term(w[|v| - 1], w[|v|]);
    if |v| >= 2 {
      TermsPrefix(v, x, |v| - 1);
    }
  }

  /** `SixHumpCamelBack.evaluate` as written: ValueError unless there are
      exactly two variables; otherwise
      `(4 - 2.1 x^2 + x^4 / 3) * (x^2 + x y) + (-4 + 4 y^2) y^2`. */
  function SixHumpValue(x: real, y: real): real
  {
    (4.0 - 2.1 * Sq(x) + Sq(Sq(x)) / 3.0) * (Sq(x) + x * y) + (-4.0 + 4.0 * Sq(y)) * Sq(y)
  }

  function SixHumpCamelBackEvaluate(variables: seq<real>): (r: Result<real>)
    ensures r.Err? <==> |variables| != 2
    ensures r.Err? ==> r.exc == ValueError
    ensures r.Ok? ==> r.value == SixHumpValue(variables[0], variables[1])
  {
    if |variables| != 2 then Err(ValueError)
    else Ok(SixHumpValue(variables[0], variables[1]))
  }

  /** The origin scores 0; the formula is unchanged by negating both variables.
      At (1, 1) the formula as written gives 67/15, whereas the published
      six-hump camel back function gives 97/30 there: the `*=` multiplies the
      cross term `x y` by the first factor as well. */
  lemma SixHumpFacts(x: real, y: real)
    ensures SixHumpCamelBackEvaluate([0.0, 0.0]) == Ok(0.0)
    ensures SixHumpValue(-x, -y) == SixHumpValue(x, y)
    ensures SixHumpCamelBackEvaluate([1.0, 1.0]) == Ok(67.0 / 15.0)
  {
    assert Sq(-x) == Sq(x) && Sq(-y) == Sq(y) && (-x) * (-y) == x * y;
  }

  /** An objective's `evaluate`, dispatched on its class: Rosenbrock accepts
      any number of variables and never goes below 0, reaching 0 from two
      variables on exactly at all ones; the six-hump camel back raises
      ValueError unless there are exactly two. */
  function Evaluate(kind: Kind, variables: seq<real>): (r: Result<real>)
    ensures kind == Rosenbrock ==> r.Ok? && r.value >= 0.0
    ensures kind == Rosenbrock && |variables| >= 2 ==>
      (r == Ok(0.0) <==> forall i :: 0 <= i < |variables| ==> variables[i] == 1.0)
    ensures kind == SixHumpCamelBack ==> (r.Ok? <==> |variables| == 2)
    ensures kind == SixHumpCamelBack && r.Err? ==> r.exc == ValueError
  {
    match kind
    case Rosenbrock =>
      RosenbrockNonNegative(variables);
      RosenbrockZero(variables);
      Ok(RosenbrockValue(variables))
    case SixHumpCamelBack => SixHumpCamelBackEvaluate(variables)
  }

  /** The values `compute` collects: every gene decoded, in order, with
      `value(min_xi, precision)`; the first gene that does not decode makes
      the whole call raise its error. */
  function Decoded(genes: seq<Objects.Gene>, minXi: real, precision: nat): (r: Result<seq<real>>)
    ensures r.Ok? <==> forall i :: 0 <= i < |genes| ==> Objects.GeneValue(genes[i], minXi, precision).Ok?
    ensures r.Err? ==> r.exc == ValueError
    ensures r.Ok? ==> |r.value| == |genes|
    ensures r.Ok? ==> forall i :: 0 <= i < |genes| ==>
      Objects.GeneValue(genes[i], minXi, precision) == Ok(r.value[i]) && r.value[i] >= minXi
  {
    if genes == [] then Ok([])
    else
      var init := Decoded(genes[..|genes| - 1], minXi, precision);
      var last := Objects.GeneValue(genes[|genes| - 1], minXi, precision);
      assert forall i :: 0 <= i < |genes| - 1 ==> genes[..|genes| - 1][i] == genes[i];
      if init.Err? then init
      else if last.Err? then Err(last.exc)
      else Ok(init.value + [last.value])
  }

  /** The decoding loop of `compute`. */
  method DecodeGenes(genes: seq<Objects.Gene>, minXi: real, precision: nat) returns (r: Result<seq<real>>)
    ensures r == Decoded(genes, minXi, precision)
  {
    var variables: seq<real> := [];
    var k := 0;
    while k < |genes|
      invariant 0 <= k <= |genes|
      invariant Decoded(genes[..k], minXi, precision) == Ok(variables)
    {
      assert genes[..k + 1][..k] == genes[..k];
      var v := Objects.GeneValue(genes[k], minXi, precision);
      if v.Err? {
        assert Decoded(genes[..k + 1], minXi, precision).Err?;
        PrefixErr(genes, k + 1, minXi, precision);
        assert genes[..|genes|] == genes;
        return Err(v.exc);
      }
      variables := variables + [v.value];
      k := k + 1;
    }
    assert genes[..k] == genes;
    r := Ok(variables);
  }

  /** A gene that does not decode makes every longer prefix fail too. */
  lemma {:induction false} PrefixErr(genes: seq<Objects.Gene>, k: nat, minXi: real, precision: nat)
    requires k <= |genes| && Decoded(genes[..k], minXi, precision).Err?
    ensures Decoded(genes, minXi, precision) == Err(ValueError)
  {
    ghost var i :| 0 <= i < k && Objects.GeneValue(genes[..k][i], minXi, precision).Err?;
    assert genes[..k][i] == genes[i];
  }

  /** `Objective.compute` on a chromosome of optinum/data.py, whose
      `get_genes` produced `genes` (Err when it raised): that `Gene.value`
      takes no argument, so the first `gene.value(self.min_xi,
      self._precision)` raises TypeError and the `for` loop never completes
      an iteration; only a chromosome without genes reaches `evaluate`, on
      the empty list. */
  method ComputeOnDataGenes(objective: Objective, genes: Result<seq<Data.Gene>>) returns (r: Result<real>)
    ensures genes.Err? ==> r == Err(genes.exc)
    ensures genes.Ok? && genes.value != [] ==> r == Err(TypeError)
    ensures genes == Ok([]) ==> r == if objective.kind == Rosenbrock then Ok(0.0) else Err(ValueError)
  {
    if genes.Err? {
      return Err(genes.exc);
    }
    if genes.value != [] {
      return Err(TypeError);
    }
    r := Evaluate(objective.kind, []);
  }

  /** `Objective.compute` (and `__call__`, which only calls it): split the
      chromosome into genes, decode them and evaluate the list. The argument is
      what the chromosome's `get_genes` produced (Err when it raised), since
      `compute` works with any chromosome object whose genes offer
      `value(min_xi, precision)`. */
  method Compute(objective: Objective, genes: Result<seq<Objects.Gene>>) returns (r: Result<real>)
    ensures r == match genes
      case Err(e) => Err(e)
      case Ok(gs) =>
        match Decoded(gs, MinXi(objective.kind), objective.precision)
        case Err(e) => Err(e)
        case Ok(vs) => Evaluate(objective.kind, vs)
  {
    if genes.Err? {
      return Err(genes.exc);
    }
    var variables := DecodeGenes(genes.value, MinXi(objective.kind), objective.precision);
    if variables.Err? {
      return Err(variables.exc);
    }
    match objective.kind
    case Rosenbrock =>
      var v := RosenbrockEvaluate(variables.value);
      r := Ok(v);
    case SixHumpCamelBack =>
      r := SixHumpCamelBackEvaluate(variables.value);
  }
}
