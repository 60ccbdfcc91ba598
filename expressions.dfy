/**
 * Questions, expressions, expression providers and provider sets: the
 * units of computation a definition holds, and the selection of the active
 * ones for a question (`Definition.GetExpressionProviders`).
 */
module Expressions {

  /** A question type is identified by the name of the question's class. */
  type QuestionType = string

  /** A question instance: its type, the key of every store, and which instance of that type it is. */
  datatype Question = Question(qtype: QuestionType, instance: nat)

  /** The sentinel passed as the parameter of a parameterless question (`Missing.Value`). */
  datatype Missing = Missing

  /** An expression evaluates a parameter to an intermediate result; it describes itself for the log. */
  datatype Expression<!P, R> = Expression(description: string, evaluate: P -> R)

  /**
   * The three kinds of provider `ByEvaluating` registers: a factory of one
   * expression, a factory of several, and an inline `(question, parameter)`
   * function wrapped as an anonymous expression.
   */
  datatype ExpressionProvider<!P, R> =
    | SingleExpressionProvider(create: Question -> Expression<P, R>)
    | MultipleExpressionsProvider(createAll: Question -> seq<Expression<P, R>>)
    | InlineExpressionProvider(compute: (Question, P) -> R)

  const InlineExpressionDescription := "inline expression"

  /** The expressions a provider builds for the asked question. */
  function GetExpressions<P, R>(provider: ExpressionProvider<P, R>, q: Question): seq<Expression<P, R>>
  {
    match provider
    case SingleExpressionProvider(create) => [create(q)]
    case MultipleExpressionsProvider(createAll) => createAll(q)
    case InlineExpressionProvider(compute) => [Expression(InlineExpressionDescription, p => compute(q, p))]
  }

  /** A provider set is either unconditional or guarded by a predicate over the question (`When`). */
  datatype Constraint = Unconditional | Conditional(holds: Question -> bool)

  datatype ExpressionProviderSet<!P, R> = ExpressionProviderSet(constraint: Constraint, providers: seq<ExpressionProvider<P, R>>)

  /** A set takes part in answering `q` when it is unconditional or its predicate holds for `q`. */
  predicate IsActive<P, R>(s: ExpressionProviderSet<P, R>, q: Question)
  {
    match s.constraint
    case Unconditional => true
    case Conditional(holds) => holds(q)
  }

  /**
   * The providers of every active set, set by set in stored order and in
   * declaration order within a set. Every active set contributes (an
   * inclusive filter, not a first match); the predicates are evaluated on
   * each call.
   */
  function SelectProviders<P, R>(sets: seq<ExpressionProviderSet<P, R>>, q: Question): seq<ExpressionProvider<P, R>>
  {
    if sets == [] then []
    else (if IsActive(sets[0], q) then sets[0].providers else []) + SelectProviders(sets[1..], q)
  }

  /** The expressions of the given providers, flattened in order, each built with the asked question. */
  function CollectExpressions<P, R>(providers: seq<ExpressionProvider<P, R>>, q: Question): seq<Expression<P, R>>
  {
    if providers == [] then []
    else GetExpressions(providers[0], q) + CollectExpressions(providers[1..], q)
  }

  /** The result of each expression evaluated with the parameter, in order. */
  function Results<P, R>(expressions: seq<Expression<P, R>>, p: P): (rs: seq<R>)
  {
    seq(|expressions|, i requires 0 <= i < |expressions| => expressions[i].evaluate(p))
  }

  /** Left fold: `step` applied to the seed and the results from first to last. */
  function FoldLeft<T, R>(step: (T, R) -> T, seed: T, rs: seq<R>): T
  {
    if rs == [] then seed else step(FoldLeft(step, seed, rs[..|rs| - 1]), rs[|rs| - 1])
  }

  /** Selection distributes over concatenation of the stored sets: earlier sets contribute first. */
  lemma {:induction false} SelectProvidersAppend<P, R>(a: seq<ExpressionProviderSet<P, R>>, b: seq<ExpressionProviderSet<P, R>>, q: Question)
    ensures SelectProviders(a + b, q) == SelectProviders(a, q) + SelectProviders(b, q)
  {
    if a == [] {
      assert a + b == b;
    } else {
      assert (a + b)[1..] == a[1..] + b;
      SelectProvidersAppend(a[1..], b, q);
    }
  }

  /** A provider is selected exactly when it belongs to some set that is active for the question. */
  lemma {:induction false} SelectProvidersMembers<P, R>(sets: seq<ExpressionProviderSet<P, R>>, q: Question, provider: ExpressionProvider<P, R>)
    ensures provider in SelectProviders(sets, q) <==> exists s :: s in sets && IsActive(s, q) && provider in s.providers
  {
    if sets != [] {
      SelectProvidersMembers(sets[1..], q, provider);
      assert forall s :: s in sets <==> s == sets[0] || s in sets[1..];
    }
  }

  /**
   * The same by position: every selected provider comes from an active set,
   * and every provider of an active set is selected.
   */
  lemma SelectProvidersFromActiveSets<P, R>(sets: seq<ExpressionProviderSet<P, R>>, q: Question)
    ensures forall i :: 0 <= i < |SelectProviders(sets, q)| ==>
              exists k :: 0 <= k < |sets| && IsActive(sets[k], q) && SelectProviders(sets, q)[i] in sets[k].providers
    ensures forall k, j :: 0 <= k < |sets| && IsActive(sets[k], q) && 0 <= j < |sets[k].providers| ==>
              sets[k].providers[j] in SelectProviders(sets, q)
  {
    var selected := SelectProviders(sets, q);
    forall i | 0 <= i < |selected|
      ensures exists k :: 0 <= k < |sets| && IsActive(sets[k], q) && selected[i] in sets[k].providers
    {
      SelectProvidersMembers(sets, q, selected[i]);
      var s :| s in sets && IsActive(s, q) && selected[i] in s.providers;
      var k :| 0 <= k < |sets| && sets[k] == s;
      assert IsActive(sets[k], q) && selected[i] in sets[k].providers;
    }
    assert forall i :: 0 <= i < |selected| ==>
             exists k :: 0 <= k < |sets| && IsActive(sets[k], q) && selected[i] in sets[k].providers;
    forall k, j | 0 <= k < |sets| && IsActive(sets[k], q) && 0 <= j < |sets[k].providers|
      ensures sets[k].providers[j] in selected
    {
      SelectProvidersMembers(sets, q, sets[k].providers[j]);
      assert sets[k] in sets;
    }
  }

  /** A single set contributes all of its providers when active and nothing otherwise. */
  lemma SelectProvidersSingle<P, R>(s: ExpressionProviderSet<P, R>, q: Question)
    ensures SelectProviders([s], q) == if IsActive(s, q) then s.providers else []
  {
    assert [s][1..] == [];
  }

  /** A set whose constraint does not hold for `q` may be removed without changing the selection. */
  lemma InactiveSetContributesNothing<P, R>(a: seq<ExpressionProviderSet<P, R>>, s: ExpressionProviderSet<P, R>, b: seq<ExpressionProviderSet<P, R>>, q: Question)
    requires !IsActive(s, q)
    ensures SelectProviders(a + [s] + b, q) == SelectProviders(a + b, q)
  {
    SelectProvidersAppend(a + [s], b, q);
    SelectProvidersAppend(a, [s], q);
    SelectProvidersSingle(s, q);
    SelectProvidersAppend(a, b, q);
  }

  /** Flattening distributes over concatenation of providers. */
  lemma {:induction false} CollectExpressionsAppend<P, R>(a: seq<ExpressionProvider<P, R>>, b: seq<ExpressionProvider<P, R>>, q: Question)
    ensures CollectExpressions(a + b, q) == CollectExpressions(a, q) + CollectExpressions(b, q)
  {
    if a == [] {
      assert a + b == b;
    } else {
      assert (a + b)[1..] == a[1..] + b;
      CollectExpressionsAppend(a[1..], b, q);
    }
  }

  /** Evaluation keeps the order of the expressions across a concatenation. */
  lemma ResultsAppend<P, R>(a: seq<Expression<P, R>>, b: seq<Expression<P, R>>, p: P)
    ensures Results(a + b, p) == Results(a, p) + Results(b, p)
  {
  }

  /** Folding a concatenation folds the second part starting from the fold of the first. */
  lemma {:induction false} FoldLeftAppend<T, R>(step: (T, R) -> T, seed: T, xs: seq<R>, ys: seq<R>)
    ensures FoldLeft(step, seed, xs + ys) == FoldLeft(step, FoldLeft(step, seed, xs), ys)
  {
    if ys == [] {
      assert xs + ys == xs;
    } else {
      var zs := xs + ys;
      assert zs[..|zs| - 1] == xs + ys[..|ys| - 1];
      FoldLeftAppend(step, seed, xs, ys[..|ys| - 1]);
    }
  }

  /** Folding one result applies the step once. */
  lemma FoldLeftOne<T, R>(step: (T, R) -> T, seed: T, a: R)
    ensures FoldLeft(step, seed, [a]) == step(seed, a)
  {
    assert [a][..0] == [];
  }

  /** Folding two results applies the step to the first, then the second. */
  lemma FoldLeftTwo<T, R>(step: (T, R) -> T, seed: T, a: R, b: R)
    ensures FoldLeft(step, seed, [a, b]) == step(step(seed, a), b)
  {
    assert [a, b][..1] == [a];
    FoldLeftOne(step, seed, a);
  }
}
