/**
 * Validation answers: a validation result (valid flag plus violations),
 * and the validation aggregator that combines the results of all rules of
 * a validation question.
 */
module Validation {
  import opened Wrappers
  import opened Expressions
  import opened Definitions
  import Strategies

  /** The contents of a validation result as a value; `V` is the violation type the result factory fixes. */
  datatype ValidationOutcome<V> = ValidationOutcome(valid: bool, violations: seq<V>)

  /** The library's violation: a reason. */
  datatype Violation = Violation(reason: string)

  /** An extended violation as a custom result factory may create it: a reason and a hint. */
  datatype HintedViolation = HintedViolation(reason: string, hint: string)

  /** A result object: created valid and without violations, then changed in place by a rule or the aggregator. */
  class ValidationResult<V> {
    var valid: bool
    var violations: seq<V>

    function Outcome(): ValidationOutcome<V>
      reads this
    {
      ValidationOutcome(valid, violations)
    }

    constructor ()
      ensures Outcome() == Initial()
    {
      valid := true;
      violations := [];
    }

    method SetValid(v: bool)
      modifies this
      ensures valid == v && violations == old(violations)
    {
      valid := v;
    }

    /** Appends exactly the given violation, keeping those added before. */
    method AddViolation(violation: V)
      modifies this
      ensures violations == old(violations) + [violation] && valid == old(valid)
    {
      violations := violations + [violation];
    }
  }

  /** A fresh result: valid, no violations. */
  function Initial<V>(): ValidationOutcome<V>
  {
    ValidationOutcome(true, [])
  }

  /**
   * One step of the aggregation: a rule that returned no result (`null`)
   * is skipped; otherwise the aggregate stays valid only if the result is
   * valid, and the result's violations are appended.
   */
  function Include<V>(aggregate: ValidationOutcome<V>, result: Option<ValidationOutcome<V>>): ValidationOutcome<V>
  {
    match result
    case None => aggregate
    case Some(r) => ValidationOutcome(aggregate.valid && r.valid, aggregate.violations + r.violations)
  }

  /** What the validation aggregator answers for the rules' results, in order. */
  function Combine<V>(results: seq<Option<ValidationOutcome<V>>>): ValidationOutcome<V>
  {
    FoldLeft(Include, Initial(), results)
  }

  /** Reference meaning of validity: every result that is present is valid. */
  ghost predicate AllValid<V>(results: seq<Option<ValidationOutcome<V>>>)
  {
    forall i :: 0 <= i < |results| && results[i].Some? ==> results[i].value.valid
  }

  /** Reference meaning of the violations: those of each present result, in the results' order. */
  function AllViolations<V>(results: seq<Option<ValidationOutcome<V>>>): seq<V>
  {
    if results == [] then []
    else (if results[0].Some? then results[0].value.violations else []) + AllViolations(results[1..])
  }

  lemma {:induction false} AllViolationsAppend<V>(a: seq<Option<ValidationOutcome<V>>>, b: seq<Option<ValidationOutcome<V>>>)
    ensures AllViolations(a + b) == AllViolations(a) + AllViolations(b)
  {
    if a == [] {
      assert a + b == b;
    } else {
      assert (a + b)[1..] == a[1..] + b;
      AllViolationsAppend(a[1..], b);
    }
  }

  /**
   * The aggregate is valid exactly when every present result is valid, and
   * its violations are all violations of the present results, in order.
   */
  lemma {:induction false} CombineMeaning<V>(results: seq<Option<ValidationOutcome<V>>>)
    ensures Combine(results) == ValidationOutcome(AllValid(results), AllViolations(results))
  {
    if results != [] {
      var front := results[..|results| - 1];
      var last := results[|results| - 1];
      CombineMeaning(front);
      assert results == front + [last];
      AllViolationsAppend(front, [last]);
      assert [last][1..] == [];
      assert AllValid(results) <==> AllValid(front) && (last.Some? ==> last.value.valid) by {
        if AllValid(front) && (last.Some? ==> last.value.valid) {
          forall i | 0 <= i < |results| && results[i].Some?
            ensures results[i].value.valid
          {
            if i < |front| {
              assert results[i] == front[i];
            }
          }
        }
        if AllValid(results) {
          forall i | 0 <= i < |front| && front[i].Some?
            ensures front[i].value.valid
          {
            assert front[i] == results[i];
          }
        }
      }
    }
  }

  /** A rule that returned no result has no influence on the aggregate. */
  lemma MissingResultIgnored<V>(a: seq<Option<ValidationOutcome<V>>>, b: seq<Option<ValidationOutcome<V>>>)
    ensures Combine(a + [None] + b) == Combine(a + b)
  {
    CombineMeaning(a + [None] + b);
    CombineMeaning(a + b);
    var none: seq<Option<ValidationOutcome<V>>> := [None];
    AllViolationsAppend(a + none, b);
    AllViolationsAppend(a, none);
    AllViolationsAppend(a, b);
    assert none[1..] == [];
    var xs := a + [None] + b;
    var ys := a + b;
    assert AllValid(xs) <==> AllValid(ys) by {
      if AllValid(ys) {
        forall i | 0 <= i < |xs| && xs[i].Some?
          ensures xs[i].value.valid
        {
          if i < |a| {
            assert xs[i] == ys[i];
          } else {
            assert xs[i] == ys[i - 1];
          }
        }
      }
      if AllValid(xs) {
        forall i | 0 <= i < |ys| && ys[i].Some?
          ensures ys[i].value.valid
        {
          if i < |a| {
            assert xs[i] == ys[i];
          } else {
            assert xs[i + 1] == ys[i];
          }
        }
      }
    }
  }

  const ValidationAggregatorDescription := "validation aggregator"

  /**
   * `ValidationAggregator.Aggregate`: evaluates every expression with the
   * parameter and, starting from a fresh result, folds the present results
   * into it by clearing the valid flag and adding their violations one by
   * one.
   */
  method Aggregate<P, V>(expressions: seq<Expression<P, Option<ValidationOutcome<V>>>>, p: P) returns (answer: ValidationOutcome<V>)
    ensures answer == Combine(Results(expressions, p))
  {
    var aggregate := new ValidationResult<V>();
    var i := 0;
    while i < |expressions|
      invariant 0 <= i <= |expressions|
      invariant aggregate.Outcome() == Combine(Results(expressions[..i], p))
    {
      var result := expressions[i].evaluate(p);
      ghost var before := aggregate.Outcome();
      if result.Some? {
        if !result.value.valid {
          aggregate.SetValid(false);
        }
        var violations := result.value.violations;
        var j := 0;
        while j < |violations|
          invariant 0 <= j <= |violations|
          invariant aggregate.violations == before.violations + violations[..j]
          invariant aggregate.valid == (before.valid && result.value.valid)
        {
          aggregate.AddViolation(violations[j]);
          assert violations[..j + 1] == violations[..j] + [violations[j]];
          j := j + 1;
        }
        assert violations[..j] == violations;
      }
      assert aggregate.Outcome() == Include(before, result);
      assert expressions[..i + 1] == expressions[..i] + [expressions[i]];
      ResultsAppend(expressions[..i], [expressions[i]], p);
      i := i + 1;
    }
    assert expressions[..i] == expressions;
    answer := aggregate.Outcome();
  }

  /** The validation aggregator as the definition holds it (`AggregateWithValidationAggregator`). */
  function ValidationAggregator<P, V>(): (agg: Aggregator<P, Option<ValidationOutcome<V>>, ValidationOutcome<V>>)
    ensures DescribeAggregator(agg) == ValidationAggregatorDescription
    ensures agg.CustomAggregator?
  {
    CustomAggregator(ValidationAggregatorDescription, (es, p) => Combine(Results(es, p)))
  }
}
