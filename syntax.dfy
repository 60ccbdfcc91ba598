/**
 * The configuration syntax returned by `Solve`: a builder that changes the
 * definition it was created for in place, and the builder of a constrained
 * provider set returned by `When`.
 */
module Syntax {
  import opened Wrappers
  import opened Expressions
  import opened Definitions

  /** The definition's contents after registering a provider in a set of its own, with the given constraint. */
  function WithProviderSet<P, R, A>(d: DefinitionState<P, R, A>, constraint: Constraint, providers: seq<ExpressionProvider<P, R>>): DefinitionState<P, R, A>
  {
    d.(providerSets := d.providerSets + [ExpressionProviderSet(constraint, providers)])
  }

  /** The definition's contents after adding one provider to the set at `index`. */
  function WithProviderAt<P, R, A>(d: DefinitionState<P, R, A>, index: nat, provider: ExpressionProvider<P, R>): DefinitionState<P, R, A>
    requires index < |d.providerSets|
  {
    var s := d.providerSets[index];
    d.(providerSets := d.providerSets[index := s.(providers := s.providers + [provider])])
  }

  /**
   * An unconditional provider adds its expressions after those selected
   * before, for every question.
   */
  lemma ByEvaluatingAppendsExpressions<P, R, A>(d: DefinitionState<P, R, A>, provider: ExpressionProvider<P, R>, q: Question)
    ensures SelectedExpressions(WithProviderSet(d, Unconditional, [provider]), q)
         == SelectedExpressions(d, q) + GetExpressions(provider, q)
  {
    var s := ExpressionProviderSet(Unconditional, [provider]);
    SelectProvidersAppend(d.providerSets, [s], q);
    SelectProvidersSingle(s, q);
    CollectExpressionsAppend(SelectProviders(d.providerSets, q), [provider], q);
    assert [provider][1..] == [];
  }

  /**
   * A constrained set adds the expressions of its providers exactly for the
   * questions its predicate holds for, and nothing for the others.
   */
  lemma WhenAppendsExpressionsIff<P, R, A>(d: DefinitionState<P, R, A>, holds: Question -> bool, providers: seq<ExpressionProvider<P, R>>, q: Question)
    ensures SelectedExpressions(WithProviderSet(d, Conditional(holds), providers), q)
         == SelectedExpressions(d, q) + (if holds(q) then CollectExpressions(providers, q) else [])
  {
    var s := ExpressionProviderSet(Conditional(holds), providers);
    SelectProvidersAppend(d.providerSets, [s], q);
    SelectProvidersSingle(s, q);
    CollectExpressionsAppend(SelectProviders(d.providerSets, q), if holds(q) then providers else [], q);
  }

  /**
   * Adding a provider to a set already stored adds its expressions right
   * after that set's others when the set is active, and changes nothing
   * otherwise.
   */
  lemma {:induction false} WithProviderAtSelects<P, R, A>(d: DefinitionState<P, R, A>, index: nat, provider: ExpressionProvider<P, R>, q: Question)
    requires index < |d.providerSets|
    ensures SelectedExpressions(WithProviderAt(d, index, provider), q)
         == CollectExpressions(SelectProviders(d.providerSets[..index + 1], q), q)
            + (if IsActive(d.providerSets[index], q) then GetExpressions(provider, q) else [])
            + CollectExpressions(SelectProviders(d.providerSets[index + 1..], q), q)
  {
    var sets := d.providerSets;
    var s := sets[index];
    var s' := s.(providers := s.providers + [provider]);
    var front := sets[..index];
    var after := sets[index + 1..];
    assert sets == front + [s] + after;
    assert WithProviderAt(d, index, provider).providerSets == front + [s'] + after;
    assert sets[..index + 1] == front + [s];
    SelectProvidersAppend(front + [s'], after, q);
    SelectProvidersAppend(front, [s'], q);
    SelectProvidersAppend(front, [s], q);
    SelectProvidersSingle(s', q);
    SelectProvidersSingle(s, q);
    var added := if IsActive(s, q) then [provider] else [];
    assert SelectProviders([s'], q) == SelectProviders([s], q) + added;
    var selected := SelectProviders(front + [s], q);
    assert SelectProviders(front + [s'], q) == selected + added;
    CollectExpressionsAppend(selected + added, SelectProviders(after, q), q);
    CollectExpressionsAppend(selected, added, q);
    assert CollectExpressions(added, q) == if IsActive(s, q) then GetExpressions(provider, q) else [] by {
      if IsActive(s, q) {
        assert added[1..] == [];
      }
    }
  }

  /**
   * `DefinitionBuilder`: every method changes the definition it holds and
   * returns the builder itself, so calls chain.
   */
  class DefinitionBuilder<P, R, A> {
    const definition: Definition<P, R, A>

    constructor (definition: Definition<P, R, A>)
      ensures this.definition == definition
    {
      this.definition := definition;
    }

    /** Sets the strategy. */
    method With(strategy: Strategy<P, A>) returns (b: DefinitionBuilder<P, R, A>)
      modifies definition
      ensures b == this
      ensures definition.State() == old(definition.State()).(strategy := Some(strategy))
    {
      definition.strategy := Some(strategy);
      b := this;
    }

    /** Sets the library's aggregator strategy. */
    method WithAggregatorStrategy() returns (b: DefinitionBuilder<P, R, A>)
      modifies definition
      ensures b == this
      ensures definition.State() == old(definition.State()).(strategy := Some(AggregatorStrategy))
    {
      b := With(AggregatorStrategy);
    }

    /** Sets the aggregator (`AggregateWith`, `AggregateWithExpressionAggregator`). */
    method AggregateWith(aggregator: Aggregator<P, R, A>) returns (b: DefinitionBuilder<P, R, A>)
      modifies definition
      ensures b == this
      ensures definition.State() == old(definition.State()).(aggregator := Some(aggregator))
    {
      definition.aggregator := Some(aggregator);
      b := this;
    }

    /** Registers a provider whose expressions answer every question of the type. */
    method ByEvaluating(provider: ExpressionProvider<P, R>) returns (b: DefinitionBuilder<P, R, A>)
      modifies definition
      ensures b == this
      ensures definition.State() == WithProviderSet(old(definition.State()), Unconditional, [provider])
    {
      definition.AddExpressionProviderSet(ExpressionProviderSet(Unconditional, [provider]));
      b := this;
    }

    /** Opens a provider set guarded by the predicate; the providers registered next go into it. */
    method When(holds: Question -> bool) returns (c: ConstraintBuilder<P, R, A>)
      modifies definition
      ensures fresh(c) && c.definition == definition && c.Valid()
      ensures c.index == |old(definition.providerSets)|
      ensures definition.State() == WithProviderSet(old(definition.State()), Conditional(holds), [])
    {
      c := new ConstraintBuilder(definition, holds);
    }
  }

  /**
   * The syntax after `When`: providers registered here join the guarded
   * set; a further `When` opens the next one.
   */
  class ConstraintBuilder<P, R, A> {
    const definition: Definition<P, R, A>
    const index: nat

    /** The guarded set this builder fills is still where it was opened. */
    predicate Valid()
      reads definition
    {
      index < |definition.providerSets|
    }

    constructor (definition: Definition<P, R, A>, holds: Question -> bool)
      modifies definition
      ensures this.definition == definition && Valid()
      ensures index == |old(definition.providerSets)|
      ensures definition.State() == WithProviderSet(old(definition.State()), Conditional(holds), [])
    {
      this.definition := definition;
      index := |definition.providerSets|;
      new;
      definition.AddExpressionProviderSet(ExpressionProviderSet(Conditional(holds), []));
    }

    /** Adds a provider to the guarded set and returns this builder. */
    method ByEvaluating(provider: ExpressionProvider<P, R>) returns (c: ConstraintBuilder<P, R, A>)
      requires Valid()
      modifies definition
      ensures c == this && Valid()
      ensures definition.State() == WithProviderAt(old(definition.State()), index, provider)
    {
      var sets := definition.providerSets;
      var s := sets[index];
      definition.providerSets := sets[index := s.(providers := s.providers + [provider])];
      c := this;
    }

    /** Opens the next guarded set. */
    method When(holds: Question -> bool) returns (c: ConstraintBuilder<P, R, A>)
      modifies definition
      ensures fresh(c) && c.definition == definition && c.Valid()
      ensures c.index == |old(definition.providerSets)|
      ensures definition.State() == WithProviderSet(old(definition.State()), Conditional(holds), [])
    {
      c := new ConstraintBuilder(definition, holds);
    }
  }
}
