/**
 * Definitions: the per-question-type configuration (strategy, aggregator,
 * ordered expression provider sets), its clone and its merge across a
 * parent/child hierarchy.
 */
module Definitions {
  import opened Wrappers
  import opened Expressions

  /**
   * How a question is turned into an answer: the library's aggregator
   * strategy, or a strategy of the caller's own (set with `With`).
   */
  datatype Strategy<!P, A> =
    | AggregatorStrategy
    | CustomStrategy(description: string, execute: (Question, P) -> A)

  /**
   * How the selected expressions are reduced to an answer. The expression
   * aggregator folds the expressions' results from a seed; any other
   * aggregator receives the expressions themselves and the parameter. The
   * expression result type `R` may differ from the answer type `A` (the
   * result-mapping form).
   */
  datatype Aggregator<!P, !R, !A> =
    | ExpressionAggregator(seed: A, step: (A, R) -> A)
    | CustomAggregator(description: string, aggregate: (seq<Expression<P, R>>, P) -> A)

  const AggregatorStrategyDescription := "aggregator strategy"
  const ExpressionAggregatorDescription := "expression aggregator"

  /** The library's strategy describes itself as "aggregator strategy"; a custom one by its own text. */
  function DescribeStrategy<P, A>(s: Strategy<P, A>): (description: string)
    ensures s.AggregatorStrategy? ==> description == AggregatorStrategyDescription
    ensures s.CustomStrategy? ==> description == s.description
  {
    match s
    case AggregatorStrategy => AggregatorStrategyDescription
    case CustomStrategy(description, _) => description
  }

  function DescribeAggregator<P, R, A>(a: Aggregator<P, R, A>): string
  {
    match a
    case ExpressionAggregator(_, _) => ExpressionAggregatorDescription
    case CustomAggregator(description, _) => description
  }

  /** The errors the engine raises (all `InvalidOperationException` in the source). */
  datatype Error =
    | DuplicateDefinition(qtype: QuestionType)
    | NoDefinition(qtype: QuestionType)
    | NoStrategy(qtype: QuestionType)
    | NoAggregator(qtype: QuestionType)

  /** The contents of a definition as a value. */
  datatype DefinitionState<!P, !R, !A> = DefinitionState(
    qtype: QuestionType,
    strategy: Option<Strategy<P, A>>,
    aggregator: Option<Aggregator<P, R, A>>,
    providerSets: seq<ExpressionProviderSet<P, R>>)

  /**
   * A descendant's definition merged into its ancestor's: the descendant's
   * strategy and aggregator win where it has them, and the ancestor's
   * provider sets come before the descendant's.
   */
  function Merged<P, R, A>(ancestor: DefinitionState<P, R, A>, descendant: DefinitionState<P, R, A>): DefinitionState<P, R, A>
  {
    DefinitionState(
      ancestor.qtype,
      if descendant.strategy.Some? then descendant.strategy else ancestor.strategy,
      if descendant.aggregator.Some? then descendant.aggregator else ancestor.aggregator,
      ancestor.providerSets + descendant.providerSets)
  }

  /** A definition as the definition factory creates it: the aggregator strategy, nothing else. */
  function CreatedDefinition<P, R, A>(qtype: QuestionType): DefinitionState<P, R, A>
  {
    DefinitionState(qtype, Some(AggregatorStrategy), None, [])
  }

  /**
   * When the ancestor adds no expressions and the descendant sets both a
   * strategy and an aggregator, the merge is the descendant's definition.
   */
  lemma MergedEquivalentToDescendant<P, R, A>(ancestor: DefinitionState<P, R, A>, descendant: DefinitionState<P, R, A>)
    requires ancestor.qtype == descendant.qtype
    requires ancestor.providerSets == []
    requires descendant.strategy.Some? && descendant.aggregator.Some?
    ensures Merged(ancestor, descendant) == descendant
  {
    assert [] + descendant.providerSets == descendant.providerSets;
  }

  /** The expressions a definition selects for a question, in evaluation order. */
  function SelectedExpressions<P, R, A>(d: DefinitionState<P, R, A>, q: Question): seq<Expression<P, R>>
  {
    CollectExpressions(SelectProviders(d.providerSets, q), q)
  }

  /** After a merge, the ancestor's selected expressions come first, then the descendant's. */
  lemma MergedSelectsAncestorFirst<P, R, A>(ancestor: DefinitionState<P, R, A>, descendant: DefinitionState<P, R, A>, q: Question)
    ensures SelectedExpressions(Merged(ancestor, descendant), q)
         == SelectedExpressions(ancestor, q) + SelectedExpressions(descendant, q)
  {
    SelectProvidersAppend(ancestor.providerSets, descendant.providerSets, q);
    CollectExpressionsAppend(SelectProviders(ancestor.providerSets, q), SelectProviders(descendant.providerSets, q), q);
  }

  /** A definition object: configured in place during setup, cloned and merged when answering. */
  class Definition<P, R, A> {
    const qtype: QuestionType
    var strategy: Option<Strategy<P, A>>
    var aggregator: Option<Aggregator<P, R, A>>
    var providerSets: seq<ExpressionProviderSet<P, R>>

    function State(): DefinitionState<P, R, A>
      reads this
    {
      DefinitionState(qtype, strategy, aggregator, providerSets)
    }

    /** A bare definition: no strategy, no aggregator, no expressions. */
    constructor (qtype: QuestionType)
      ensures State() == DefinitionState(qtype, None, None, [])
    {
      this.qtype := qtype;
      strategy := None;
      aggregator := None;
      providerSets := [];
    }

    /** The definition factory's definition: the aggregator strategy is preset. */
    constructor Create(qtype: QuestionType)
      ensures State() == CreatedDefinition(qtype)
    {
      this.qtype := qtype;
      strategy := Some(AggregatorStrategy);
      aggregator := None;
      providerSets := [];
    }

    /** A fresh definition with the same contents; later changes to either do not reach the other. */
    method Clone() returns (c: Definition<P, R, A>)
      ensures fresh(c) && c.State() == State()
    {
      c := new Definition(qtype);
      c.strategy := strategy;
      c.aggregator := aggregator;
      c.providerSets := providerSets;
    }

    /** Merges a descendant's definition into this one (see `Merged`); only this object changes. */
    method Merge(descendant: Definition<P, R, A>)
      modifies this
      ensures State() == Merged(old(State()), old(descendant.State()))
    {
      var sets := descendant.providerSets;
      if descendant.strategy.Some? {
        strategy := descendant.strategy;
      }
      if descendant.aggregator.Some? {
        aggregator := descendant.aggregator;
      }
      providerSets := providerSets + sets;
    }

    method AddExpressionProviderSet(s: ExpressionProviderSet<P, R>)
      modifies this
      ensures State() == old(State()).(providerSets := old(providerSets) + [s])
    {
      providerSets := providerSets + [s];
    }

    /** The providers of the active sets for the question (see `SelectProviders`). */
    function GetExpressionProviders(q: Question): (providers: seq<ExpressionProvider<P, R>>)
      reads this
      ensures forall i :: 0 <= i < |providers| ==>
                exists k :: 0 <= k < |providerSets| && IsActive(providerSets[k], q) && providers[i] in providerSets[k].providers
      ensures forall k, j :: 0 <= k < |providerSets| && IsActive(providerSets[k], q) && 0 <= j < |providerSets[k].providers| ==>
                providerSets[k].providers[j] in providers
    {
      var sets := providerSets;
      SelectProvidersFromActiveSets(sets, q);
      var r := SelectProviders(sets, q);
      assert forall i :: 0 <= i < |r| ==>
                exists k :: 0 <= k < |sets| && IsActive(sets[k], q) && r[i] in sets[k].providers;
      r
    }
  }
}
