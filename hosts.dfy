/**
 * The definition store (`DefinitionHost`): one definition per question
 * type, an optional parent store, and lookup along the parent chain that
 * hands out clones, never the stored objects.
 */
module Hosts {
  import opened Wrappers
  import opened Expressions
  import opened Definitions

  class DefinitionHost<P, R, A> {
    var definitions: map<QuestionType, Definition<P, R, A>>
    const parent: DefinitionHost?<P, R, A>
    /** Distance from the topmost ancestor; it strictly grows from parent to child, so the chain has no cycle. */
    ghost const depth: nat

    ghost predicate Acyclic()
      decreases depth
    {
      parent != null ==> parent.depth < depth && parent.Acyclic()
    }

    /** Every stored definition sits under its own question type. */
    ghost predicate Valid()
      reads this
    {
      forall qt :: qt in definitions ==> definitions[qt].qtype == qt
    }

    /** This store and its ancestors. */
    ghost function Hosts(): (hosts: set<DefinitionHost<P, R, A>>)
      requires Acyclic()
      ensures this in hosts
      ensures parent != null ==> parent.Hosts() <= hosts
      decreases depth
    {
      {this} + if parent == null then {} else parent.Hosts()
    }

    /** Every definition stored anywhere along the chain. */
    ghost function StoredDefinitions(): (stored: set<Definition<P, R, A>>)
      requires Acyclic()
      reads Hosts()
      ensures definitions.Values <= stored
      ensures parent != null ==> parent.StoredDefinitions() <= stored
      decreases depth
    {
      definitions.Values + if parent == null then {} else parent.StoredDefinitions()
    }

    /**
     * The effective definition of a question type seen from this store:
     * the definitions found from the topmost ancestor down to this store,
     * each merged into the one above it (see `Merged`); `None` when no level
     * has one.
     */
    ghost function Resolve(qt: QuestionType): Option<DefinitionState<P, R, A>>
      requires Acyclic()
      reads Hosts(), StoredDefinitions()
      decreases depth
    {
      var inherited := if parent == null then None else parent.Resolve(qt);
      if qt !in definitions then inherited
      else if inherited.None? then Some(definitions[qt].State())
      else Some(Merged(inherited.value, definitions[qt].State()))
    }

    /** Whether some level of the chain holds a definition of the question type. */
    ghost predicate DefinedInHierarchy(qt: QuestionType)
      requires Acyclic()
      reads Hosts()
      decreases depth
    {
      qt in definitions || (parent != null && parent.DefinedInHierarchy(qt))
    }

    /** The provider sets of every level that defines the question type, topmost ancestor first. */
    ghost function ProviderSetsInHierarchy(qt: QuestionType): seq<ExpressionProviderSet<P, R>>
      requires Acyclic()
      reads Hosts(), StoredDefinitions()
      decreases depth
    {
      (if parent == null then [] else parent.ProviderSetsInHierarchy(qt))
      + (if qt in definitions then definitions[qt].providerSets else [])
    }

    constructor (parent: DefinitionHost?<P, R, A>)
      requires parent != null ==> parent.Acyclic()
      ensures Acyclic() && Valid()
      ensures this.parent == parent && definitions == map[]
    {
      this.parent := parent;
      depth := if parent == null then 0 else parent.depth + 1;
      definitions := map[];
    }

    /** Stores a definition under its question type; a second definition for a type already here is refused. */
    method AddDefinition(d: Definition<P, R, A>) returns (outcome: Outcome<Error>)
      requires Valid()
      modifies this
      ensures Valid()
      ensures d.qtype in old(definitions) ==> outcome == Fail(DuplicateDefinition(d.qtype)) && definitions == old(definitions)
      ensures d.qtype !in old(definitions) ==> outcome == Pass && definitions == old(definitions)[d.qtype := d]
    {
      if d.qtype in definitions {
        return Fail(DuplicateDefinition(d.qtype));
      }
      definitions := definitions[d.qtype := d];
      outcome := Pass;
    }

    /** The stored definition object itself (not a copy), looked up in this store only. */
    method FindDefinition(qt: QuestionType) returns (d: Definition?<P, R, A>)
      ensures qt in definitions ==> d == definitions[qt]
      ensures qt !in definitions ==> d == null
    {
      d := if qt in definitions then definitions[qt] else null;
    }

    /**
     * The effective definition for the question as a fresh object, or null
     * when no level of the chain defines its type. The stored definitions
     * are not changed.
     */
    method FindInHierarchyAndCloneDefinition(q: Question) returns (r: Definition?<P, R, A>)
      requires Acyclic()
      ensures r == null <==> Resolve(q.qtype).None?
      ensures r != null ==> fresh(r) && r.State() == Resolve(q.qtype).value
      decreases depth
    {
      StoredDefinitionsAllocated();
      var inherited: Definition?<P, R, A> := null;
      if parent != null {
        inherited := parent.FindInHierarchyAndCloneDefinition(q);
      }
      var local := FindDefinition(q.qtype);
      if local == null {
        return inherited;
      }
      var clone := local.Clone();
      if inherited == null {
        return clone;
      }
      inherited.Merge(clone);
      r := inherited;
    }

    /** The stores of the chain and their definitions are objects that already exist, so a fresh object is never one of them. */
    lemma {:induction false} StoredDefinitionsAllocated()
      requires Acyclic()
      ensures allocated(Hosts()) && allocated(StoredDefinitions())
      decreases depth
    {
      if parent != null {
        parent.StoredDefinitionsAllocated();
      }
    }

    /** A question type resolves to a definition exactly when some level of the chain defines it. */
    lemma {:induction false} ResolveDefinedIff(qt: QuestionType)
      requires Acyclic()
      ensures Resolve(qt).Some? <==> DefinedInHierarchy(qt)
      decreases depth
    {
      if parent != null {
        parent.ResolveDefinedIff(qt);
      }
    }

    /** A store without a definition of the type answers with its parent's effective definition, unchanged. */
    lemma ResolveInheritsWhenUndefined(qt: QuestionType)
      requires Acyclic()
      requires qt !in definitions && parent != null
      ensures Resolve(qt) == parent.Resolve(qt)
    {
    }

    /**
     * At any depth, the effective definition holds the provider sets of
     * every level, ancestors' first.
     */
    lemma {:induction false} ResolveKeepsAncestorsFirst(qt: QuestionType)
      requires Acyclic()
      requires Resolve(qt).Some?
      ensures Resolve(qt).value.providerSets == ProviderSetsInHierarchy(qt)
      decreases depth
    {
      if parent != null && parent.Resolve(qt).Some? {
        parent.ResolveKeepsAncestorsFirst(qt);
      } else if parent != null {
        parent.ResolveDefinedIff(qt);
        parent.NoSetsWhenUndefined(qt);
      }
    }

    lemma {:induction false} NoSetsWhenUndefined(qt: QuestionType)
      requires Acyclic()
      requires !DefinedInHierarchy(qt)
      ensures ProviderSetsInHierarchy(qt) == []
      decreases depth
    {
      if parent != null {
        parent.NoSetsWhenUndefined(qt);
      }
    }

    /**
     * The nearest level that sets a strategy decides it: a store's own
     * strategy wins over everything inherited.
     */
    lemma LocalStrategyWins(qt: QuestionType)
      requires Acyclic()
      requires qt in definitions && definitions[qt].strategy.Some?
      ensures Resolve(qt).Some? && Resolve(qt).value.strategy == definitions[qt].strategy
    {
    }

    /** Likewise for the aggregator: a store's own aggregator wins over everything inherited. */
    lemma LocalAggregatorWins(qt: QuestionType)
      requires Acyclic()
      requires qt in definitions && definitions[qt].aggregator.Some?
      ensures Resolve(qt).Some? && Resolve(qt).value.aggregator == definitions[qt].aggregator
    {
    }
  }
}
