/**
 * Answering with a resolved definition: the execution context handed to
 * the log extension, the aggregator strategy, and what a strategy computes.
 */
module Strategies {
  import opened Wrappers
  import opened Expressions
  import opened Definitions

  /** One evaluated expression as the context records it: its description and its result. */
  datatype ExpressionLog<R> = ExpressionLog(description: string, result: R)

  /** The log entries for the expressions evaluated with the parameter, in evaluation order. */
  function Logs<P, R>(expressions: seq<Expression<P, R>>, p: P): seq<ExpressionLog<R>>
  {
    seq(|expressions|, i requires 0 <= i < |expressions| => ExpressionLog(expressions[i].description, expressions[i].evaluate(p)))
  }

  /** What an aggregator returns for the expressions and the parameter. */
  function Aggregate<P, R, A>(aggregator: Aggregator<P, R, A>, expressions: seq<Expression<P, R>>, p: P): A
  {
    match aggregator
    case ExpressionAggregator(seed, step) => FoldLeft(step, seed, Results(expressions, p))
    case CustomAggregator(_, aggregate) => aggregate(expressions, p)
  }

  /**
   * The answer a strategy produces for a resolved definition: a custom
   * strategy's own result, or the aggregator applied to the selected
   * expressions; the aggregator strategy fails when no aggregator is set.
   */
  function Execute<P, R, A>(strategy: Strategy<P, A>, d: DefinitionState<P, R, A>, q: Question, p: P): Result<A, Error>
  {
    match strategy
    case CustomStrategy(_, execute) => Success(execute(q, p))
    case AggregatorStrategy =>
      match d.aggregator
      case None => Failure(NoAggregator(q.qtype))
      case Some(aggregator) => Success(Aggregate(aggregator, SelectedExpressions(d, q), p))
  }

  /**
   * The expressions evaluated while answering, as the context records them:
   * only the expression aggregator evaluates expressions itself; a strategy
   * never does, and any other aggregator receives them unevaluated.
   */
  function Evaluated<P, R, A>(strategy: Strategy<P, A>, d: DefinitionState<P, R, A>, q: Question, p: P): seq<ExpressionLog<R>>
  {
    if strategy.AggregatorStrategy? && d.aggregator.Some? && d.aggregator.value.ExpressionAggregator?
    then Logs(SelectedExpressions(d, q), p)
    else []
  }

  /**
   * With the expression aggregator, the expressions of a concatenation are
   * folded in order: the second part continues from the answer of the first.
   */
  lemma ExpressionAggregatorAppend<P, R, A>(seed: A, step: (A, R) -> A, a: seq<Expression<P, R>>, b: seq<Expression<P, R>>, p: P)
    ensures Aggregate(ExpressionAggregator(seed, step), a + b, p)
         == FoldLeft(step, Aggregate(ExpressionAggregator(seed, step), a, p), Results(b, p))
  {
    ResultsAppend(a, b, p);
    FoldLeftAppend(step, seed, Results(a, p), Results(b, p));
  }

  /** The log of a concatenation is the concatenation of the logs. */
  lemma LogsAppend<P, R>(a: seq<Expression<P, R>>, b: seq<Expression<P, R>>, p: P)
    ensures Logs(a + b, p) == Logs(a, p) + Logs(b, p)
  {
  }

  /**
   * The execution context of one `Answer` call: the question, the
   * parameter, the strategy and aggregator used, every evaluated expression
   * with its result, and finally the answer.
   */
  class Context<P, R, A> {
    const question: Question
    const parameter: P
    const strategy: Strategy<P, A>
    const aggregator: Option<Aggregator<P, R, A>>
    var expressions: seq<ExpressionLog<R>>
    var answer: Option<A>

    constructor (question: Question, parameter: P, strategy: Strategy<P, A>, aggregator: Option<Aggregator<P, R, A>>)
      ensures this.question == question && this.parameter == parameter
      ensures this.strategy == strategy && this.aggregator == aggregator
      ensures expressions == [] && answer == None
    {
      this.question := question;
      this.parameter := parameter;
      this.strategy := strategy;
      this.aggregator := aggregator;
      expressions := [];
      answer := None;
    }

    method ExpressionEvaluated(description: string, result: R)
      modifies this
      ensures expressions == old(expressions) + [ExpressionLog(description, result)]
      ensures answer == old(answer)
    {
      expressions := expressions + [ExpressionLog(description, result)];
    }

    method SetAnswer(a: A)
      modifies this
      ensures answer == Some(a) && expressions == old(expressions)
    {
      answer := Some(a);
    }
  }

  /**
   * The expression aggregator: evaluates each expression with the parameter
   * in order, recording it with its result into the context, and folds the
   * results from the seed.
   */
  method AggregateExpressions<P, R, A>(seed: A, step: (A, R) -> A, expressions: seq<Expression<P, R>>, p: P, context: Context<P, R, A>)
    returns (a: A)
    modifies context
    ensures a == FoldLeft(step, seed, Results(expressions, p))
    ensures context.expressions == old(context.expressions) + Logs(expressions, p)
    ensures context.answer == old(context.answer)
  {
    var results: seq<R> := [];
    var i := 0;
    while i < |expressions|
      invariant 0 <= i <= |expressions|
      invariant results == Results(expressions[..i], p)
      invariant context.expressions == old(context.expressions) + Logs(expressions[..i], p)
      invariant context.answer == old(context.answer)
    {
      var result := expressions[i].evaluate(p);
      context.ExpressionEvaluated(expressions[i].description, result);
      results := results + [result];
      assert expressions[..i + 1] == expressions[..i] + [expressions[i]];
      LogsAppend(expressions[..i], [expressions[i]], p);
      ResultsAppend(expressions[..i], [expressions[i]], p);
      i := i + 1;
    }
    assert expressions[..i] == expressions;
    a := FoldLeft(step, seed, results);
  }

  /**
   * Runs a strategy on a (cloned) definition. A custom strategy answers by
   * itself. The aggregator strategy selects the active expressions and
   * hands them, unevaluated, with the parameter and the context to the
   * aggregator; it evaluates none of them itself.
   */
  method ExecuteStrategy<P, R, A>(strategy: Strategy<P, A>, q: Question, p: P, definition: Definition<P, R, A>, context: Context<P, R, A>)
    returns (r: Result<A, Error>)
    modifies context
    ensures r == Execute(strategy, definition.State(), q, p)
    ensures context.expressions == old(context.expressions) + Evaluated(strategy, definition.State(), q, p)
    ensures context.answer == old(context.answer)
  {
    match strategy
    case CustomStrategy(_, execute) =>
      r := Success(execute(q, p));
    case AggregatorStrategy =>
      if definition.aggregator.None? {
        r := Failure(NoAggregator(q.qtype));
      } else {
        var expressions := CollectExpressions(definition.GetExpressionProviders(q), q);
        match definition.aggregator.value
        case ExpressionAggregator(seed, step) =>
          var a := AggregateExpressions(seed, step, expressions, p, context);
          r := Success(a);
        case CustomAggregator(_, aggregate) =>
          r := Success(aggregate(expressions, p));
      }
  }
}
