/**
 * The engine: `Solve` configures the definition of a question type in the
 * engine's own store, `Answer` resolves the effective definition along the
 * store hierarchy and runs its strategy.
 */
module Engines {
  import opened Wrappers
  import opened Expressions
  import opened Definitions
  import opened Strategies
  import opened Syntax
  import opened Hosts

  class Engine<P, R, A> {
    const host: DefinitionHost<P, R, A>

    /** The store hierarchy is finite and every store keys its definitions by their own type. */
    ghost predicate Valid()
      reads host
    {
      host.Acyclic() && host.Valid()
    }

    /** A top-level engine with an empty store of its own. */
    constructor ()
      ensures Valid() && fresh(host)
      ensures host.parent == null && host.definitions == map[]
    {
      host := new DefinitionHost(null);
    }

    /** A child engine (`CreateChildEngine`): its empty store falls back on the parent's. */
    constructor WithParent(parent: Engine<P, R, A>)
      requires parent.Valid()
      ensures Valid() && fresh(host)
      ensures host.parent == parent.host && host.definitions == map[]
    {
      host := new DefinitionHost(parent.host);
    }

    /**
     * Returns a builder on this store's definition of the question type:
     * the stored one when there is one (so repeated calls configure the same
     * definition), otherwise a new one from the definition factory, which is
     * stored first.
     */
    method Solve(qt: QuestionType) returns (b: DefinitionBuilder<P, R, A>)
      requires Valid()
      modifies host
      ensures Valid() && fresh(b)
      ensures qt in old(host.definitions) ==>
                host.definitions == old(host.definitions) && b.definition == host.definitions[qt]
      ensures qt !in old(host.definitions) ==>
                fresh(b.definition) && b.definition.State() == CreatedDefinition(qt)
                && host.definitions == old(host.definitions)[qt := b.definition]
    {
      var d := host.FindDefinition(qt);
      if d == null {
        d := new Definition.Create(qt);
        var outcome := host.AddDefinition(d);
      }
      b := new DefinitionBuilder(d);
    }

    /**
     * Answers the question with the parameter: fails when no store of the
     * hierarchy defines its type, or the effective definition has no
     * strategy; otherwise runs the strategy on a clone of the effective
     * definition. On success it also returns the execution context handed to
     * the log extension, holding the answer.
     */
    method Answer(q: Question, p: P) returns (r: Result<A, Error>, context: Context?<P, R, A>)
      requires Valid()
      ensures host.Resolve(q.qtype).None? ==> r == Failure(NoDefinition(q.qtype))
      ensures host.Resolve(q.qtype).Some? && host.Resolve(q.qtype).value.strategy.None? ==>
                r == Failure(NoStrategy(q.qtype))
      ensures host.Resolve(q.qtype).Some? && host.Resolve(q.qtype).value.strategy.Some? ==>
                r == Execute(host.Resolve(q.qtype).value.strategy.value, host.Resolve(q.qtype).value, q, p)
      ensures context != null <==> r.Success?
      ensures context != null ==>
                var d := host.Resolve(q.qtype).value;
                fresh(context) && context.question == q && context.parameter == p
                && context.strategy == d.strategy.value && context.aggregator == d.aggregator
                && context.expressions == Evaluated(d.strategy.value, d, q, p)
                && context.answer == Some(r.value)
    {
      host.StoredDefinitionsAllocated();
      var definition := host.FindInHierarchyAndCloneDefinition(q);
      if definition == null {
        return Failure(NoDefinition(q.qtype)), null;
      }
      if definition.strategy.None? {
        return Failure(NoStrategy(q.qtype)), null;
      }
      var strategy := definition.strategy.value;
      var c := new Context(q, p, strategy, definition.aggregator);
      r := ExecuteStrategy(strategy, q, p, definition, c);
      if r.Failure? {
        return r, null;
      }
      c.SetAnswer(r.value);
      context := c;
    }
  }
}
