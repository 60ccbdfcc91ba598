# Evaluation engine: definitions, resolution and answering

A model of the core of the Appccelerate evaluation engine: a question is
answered by the definition configured for its question type. The model covers:

- **The definition store (`DefinitionHost`)** (`hosts.dfy`). It holds at most one
  definition per question type and may link to a parent store. Local lookup
  returns the stored object itself. Lookup along the hierarchy returns a fresh
  clone: the clones of every matching level, from the topmost ancestor down,
  merged so that a child's strategy and aggregator win and the ancestors'
  expression provider sets come first. A finite depth that grows from parent to
  child proves the chain acyclic.
- **Definitions** (`definitions.dfy`, `expressions.dfy`). A definition object
  holds a strategy, an aggregator and ordered provider sets. Each set is
  unconditional or guarded by a predicate on the question. Selection for a
  question takes every active set (an inclusive filter, not a first match) and
  flattens its providers' expressions in order.
- **The engine** (`engines.dfy`). `Solve` finds the definition of the local
  store or creates and stores one with the aggregator strategy preset, so
  repeated calls configure the same object. `Answer` fails when no level
  defines the question type or the effective definition has no strategy.
  Otherwise it runs the strategy on the clone and returns the execution
  context the log extension receives.
- **Strategies** (`strategies.dfy`). A custom strategy answers by itself. The
  aggregator strategy fails without an aggregator. Otherwise it hands the
  selected expressions, unevaluated, to the aggregator together with the
  parameter; the strategy evaluates none of them. The expression aggregator
  evaluates them in order, records each with its result into the context, and
  folds the results from a seed. Any other aggregator receives the expressions
  themselves, and nothing is recorded. The result type may differ from the
  answer type.
- **The configuration syntax** (`syntax.dfy`). `With`, `WithAggregatorStrategy`,
  `AggregateWith`, `ByEvaluating` and `When` change the definition in place.
  Each returns the builder, so calls chain. A constraint builder fills the
  guarded set it opened.
- **Validation** (`validation.dfy`). A validation result is a valid flag and a
  list of violations. The validation aggregator folds the rules' results: the
  aggregate is valid exactly when every present result is valid, violations
  are concatenated in order, and rules returning no result are skipped. The
  imperative aggregation loop over a `ValidationResult` object is proved equal
  to that fold.
- **The documented scenarios** (`scenarios.dfy`, `validation_scenarios.dfy`).
  The engine scenarios are configured through `Solve` and the builder,
  answered through `Answer`, and proved to give the concrete answer the
  scenario asserts. The aggregator-strategy scenarios (`ExecutesAggregator`,
  `ExecutesAggregatorWithMapping`) build a `Definition` directly and run
  `ExecuteStrategy` on it.

Errors that the source raises as exceptions are failure values here
(`Failure` of a `Result`, or `Fail` of an `Outcome` where the operation has
no result): `DuplicateDefinition`, `NoDefinition`, `NoStrategy` and
`NoAggregator`.

## Model

| member | source | states |
|---|---|---|
| Hosts.DefinitionHost.constructor | source/Appccelerate.EvaluationEngine.Facts/Internals/DefinitionHostHierarchyFacts.cs:33-37 | a new store holds no definitions and is linked to the given parent store, or to none |
| Hosts.DefinitionHost.AddDefinition | source/Appccelerate.EvaluationEngine.Facts/Internals/DefinitionHostSolveFacts.cs:59-88 | a definition for a question type already stored is refused with a duplicate error and the store is unchanged; a new type is stored under its key beside the existing ones |
| Hosts.DefinitionHost.FindDefinition | source/Appccelerate.EvaluationEngine.Facts/Internals/DefinitionHostSolveFacts.cs:37-56 | local lookup by question type returns the very object stored, or null when that type was never added |
| Hosts.DefinitionHost.FindInHierarchyAndCloneDefinition | source/Appccelerate.EvaluationEngine.Facts/Internals/DefinitionHostHierarchyFacts.cs:39-81 | null exactly when no level defines the type; otherwise a fresh object (never a stored one) whose contents are the merge of every level's definition, topmost first |
| Definitions.Definition.Clone | source/Appccelerate.EvaluationEngine.Facts/Internals/DefinitionHostAnswerFacts.cs:36-48 | a fresh object with the same strategy, aggregator and provider sets |
| Definitions.Definition.Merge | source/Appccelerate.EvaluationEngine.Facts/Internals/DefinitionHostHierarchyFacts.cs:69-81 | the descendant's strategy and aggregator replace this one's where set, and its provider sets are appended after this one's |
| Definitions.Definition.constructor | source/Appccelerate.EvaluationEngine.Facts/Syntax/DefinitionBuilderFacts.cs:39 | a new definition of a question type has no strategy, no aggregator and no provider sets |
| Definitions.Definition.Create | source/Appccelerate.EvaluationEngine.Specs/Answering.cs:29-56 | the definition the factory creates for a type (stored by `Solve` as in EngineSolveFacts.cs:58-72) has the aggregator strategy and nothing else: no aggregator, no provider sets, so a question configured without `With` is answered by the aggregator strategy |
| Definitions.Definition.AddExpressionProviderSet | source/Appccelerate.EvaluationEngine.Facts/Syntax/DefinitionBuilderFacts.cs:103-116 | the set is appended after the sets already configured; strategy, aggregator and type are unchanged |
| Definitions.Definition.GetExpressionProviders | source/Appccelerate.EvaluationEngine.Facts/Syntax/DefinitionBuilderFacts.cs:103-122 | every provider returned belongs to a set whose constraint holds for the question, and every provider of such a set is returned |
| Expressions.SelectProvidersMembers | source/Appccelerate.EvaluationEngine.Facts/Syntax/DefinitionBuilderFacts.cs:103-116 | a provider is selected for a question if and only if some set containing it is active for that question |
| Definitions.MergedEquivalentToDescendant | source/Appccelerate.EvaluationEngine.Facts/Internals/DefinitionHostHierarchyFacts.cs:69-81 | merging a parent without expressions with a child that sets strategy and aggregator yields exactly the child's definition |
| Hosts.DefinitionHost.ResolveInheritsWhenUndefined | source/Appccelerate.EvaluationEngine.Facts/Internals/DefinitionHostHierarchyFacts.cs:39-48 | a store without a definition of the type answers with exactly its parent's effective definition |
| Definitions.MergedSelectsAncestorFirst | source/Appccelerate.EvaluationEngine.Specs/HierarchicalEvaluationEngines.cs:64-75 | after a merge the ancestor's selected expressions come first, followed by the descendant's, for every question |
| Hosts.DefinitionHost.ResolveDefinedIff | source/Appccelerate.EvaluationEngine.Facts/Internals/DefinitionHostHierarchyFacts.cs:50-67 | a question type resolves to a definition if and only if some level of the chain stores one |
| Hosts.DefinitionHost.ResolveKeepsAncestorsFirst | source/Appccelerate.EvaluationEngine.Specs/HierarchicalEvaluationEngines.cs:64-75 | at any depth the effective definition holds the provider sets of every defining level, topmost ancestor first |
| Hosts.DefinitionHost.LocalStrategyWins | source/Appccelerate.EvaluationEngine.Facts/Internals/DefinitionHostHierarchyFacts.cs:69-81 | a store's own strategy is the effective one, whatever its ancestors set |
| Hosts.DefinitionHost.LocalAggregatorWins | source/Appccelerate.EvaluationEngine.Specs/HierarchicalEvaluationEngines.cs:59-62 | a store's own aggregator is the effective one, whatever its ancestors set |
| Engines.Engine.constructor | source/Appccelerate.EvaluationEngine.Specs/HierarchicalEvaluationEngines.cs:41 | a new engine owns a fresh, empty store without a parent |
| Engines.Engine.WithParent | source/Appccelerate.EvaluationEngine.Specs/HierarchicalEvaluationEngines.cs:42 | a child engine owns a fresh, empty store whose parent is the parent engine's store |
| Engines.Engine.Solve | source/Appccelerate.EvaluationEngine.Facts/Internals/EngineSolveFacts.cs:44-72 | an existing local definition is handed to the builder and the store is unchanged; otherwise a fresh factory definition (aggregator strategy only) is stored under the type and handed to the builder |
| Engines.Engine.Answer | source/Appccelerate.EvaluationEngine.Facts/Internals/EngineAnswerFacts.cs:44-87 | no definition in the hierarchy gives a no-definition error, no strategy a no-strategy error; otherwise the answer is the strategy's result on the effective definition, question and parameter, and on success a fresh context records question, parameter, strategy, aggregator and the answer, plus the expressions with their results when (and only when) the expression aggregator evaluated them |
| Strategies.ExecuteStrategy | source/Appccelerate.EvaluationEngine.Facts/Strategies/AggregatorStrategyFacts.cs:33-96 | the result is that of `Execute`: the aggregator applied to exactly the selected expressions and the caller's parameter, or a no-aggregator error; the context gains log entries only from the expression aggregator, never from the strategy itself |
| Strategies.Context.constructor | source/Appccelerate.EvaluationEngine.Specs/Logging.cs:77-95 | a new context holds the question, parameter, strategy and aggregator it was given, and starts without log entries and without an answer |
| Strategies.Context.ExpressionEvaluated | source/Appccelerate.EvaluationEngine.Specs/Logging.cs:80-94 | each evaluation appends exactly one entry (the expression's description and its result) after the earlier ones; the answer is untouched |
| Strategies.Context.SetAnswer | source/Appccelerate.EvaluationEngine.Specs/Logging.cs:80-94 | recording the answer leaves the log entries unchanged |
| Strategies.AggregateExpressions | source/Appccelerate.EvaluationEngine.Specs/Logging.cs:46-73 | the expression aggregator answers the left fold of the expressions' results from its seed, and the context gains every expression with its result, in evaluation order |
| Strategies.ExpressionAggregatorAppend | source/Appccelerate.EvaluationEngine.Specs/ExpressionDefinition.cs:28-53 | folding the expressions of two configuration steps continues from the fold of the first step's expressions |
| Definitions.DescribeStrategy | source/Appccelerate.EvaluationEngine.Facts/Strategies/AggregatorStrategyFacts.cs:98-106 | the aggregator strategy describes itself as "aggregator strategy" |
| Expressions.SelectProvidersAppend | source/Appccelerate.EvaluationEngine.Facts/Syntax/DefinitionBuilderFacts.cs:117-122 | selection over stored sets distributes over concatenation, earlier sets first |
| Expressions.InactiveSetContributesNothing | source/Appccelerate.EvaluationEngine.Specs/Logging.cs:48-73 | a set whose constraint does not hold can be removed without changing the selected providers |
| Syntax.DefinitionBuilder.With | source/Appccelerate.EvaluationEngine.Facts/Syntax/DefinitionBuilderFacts.cs:44-53 | returns the same builder; the definition's strategy is the given one and nothing else changes |
| Syntax.DefinitionBuilder.WithAggregatorStrategy | source/Appccelerate.EvaluationEngine.Specs/Strategies.cs:60-87 | returns the same builder; the definition's strategy is the aggregator strategy and nothing else changes |
| Syntax.DefinitionBuilder.AggregateWith | source/Appccelerate.EvaluationEngine.Facts/Syntax/DefinitionBuilderFacts.cs:55-64 | returns the same builder; the definition's aggregator is the given one and nothing else changes |
| Syntax.DefinitionBuilder.ByEvaluating | source/Appccelerate.EvaluationEngine.Facts/Syntax/DefinitionBuilderFacts.cs:66-101 | returns the same builder; exactly one unconditional set holding the provider is appended |
| Syntax.DefinitionBuilder.When | source/Appccelerate.EvaluationEngine.Facts/Syntax/DefinitionBuilderFacts.cs:103-115 | appends one empty set guarded by the predicate and returns a fresh constraint builder on that set |
| Syntax.ConstraintBuilder.ByEvaluating | source/Appccelerate.EvaluationEngine.Specs/Answering.cs:97-107 | adds the provider to the guarded set this builder opened and to no other |
| Syntax.ConstraintBuilder.When | source/Appccelerate.EvaluationEngine.Specs/Answering.cs:104-107 | opens the next guarded set after the current one |
| Syntax.ByEvaluatingAppendsExpressions | source/Appccelerate.EvaluationEngine.Facts/Syntax/DefinitionBuilderFacts.cs:66-89 | after `ByEvaluating` every question selects the earlier expressions followed by all of the provider's expressions, each built for that question |
| Syntax.WhenAppendsExpressionsIff | source/Appccelerate.EvaluationEngine.Facts/Syntax/DefinitionBuilderFacts.cs:103-115 | a guarded set adds its providers' expressions for exactly the questions its predicate holds for, and nothing otherwise |
| Syntax.WithProviderAtSelects | source/Appccelerate.EvaluationEngine.Specs/Answering.cs:97-128 | a provider added to a stored guarded set is selected right after that set's other providers when the set is active, and not at all otherwise |
| Validation.ValidationResult.constructor | source/Appccelerate.EvaluationEngine.Facts/Validation/ValidationResultFacts.cs:34-58 | a new result is valid and has no violations |
| Validation.ValidationResult.SetValid | source/Appccelerate.EvaluationEngine.Facts/Validation/ValidationResultFacts.cs:42-50 | the flag reads back as set; the violations are unchanged |
| Validation.ValidationResult.AddViolation | source/Appccelerate.EvaluationEngine.Facts/Validation/ValidationResultFacts.cs:60-71 | exactly the given violation is appended after the earlier ones; the flag is unchanged |
| Validation.Aggregate | source/Appccelerate.EvaluationEngine.Facts/Validation/Aggregators/ValidationAggregatorFacts.cs:39-105 | the imperative aggregation over a result object answers the fold `Combine` of the expressions' results |
| Validation.CombineMeaning | source/Appccelerate.EvaluationEngine.Facts/Validation/Aggregators/ValidationAggregatorFacts.cs:39-89 | the aggregate is valid if and only if every present result is valid, and its violations are all present results' violations in expression order |
| Validation.MissingResultIgnored | source/Appccelerate.EvaluationEngine.Facts/Validation/Aggregators/ValidationAggregatorFacts.cs:91-105 | a rule that returns no result changes neither validity nor violations |
| Validation.ValidationAggregator | source/Appccelerate.EvaluationEngine.Facts/Validation/Aggregators/ValidationAggregatorFacts.cs:107-113 | the validation aggregator describes itself as "validation aggregator" |
| Scenarios.ParameterlessQuestion | source/Appccelerate.EvaluationEngine.Specs/Answering.cs:29-56 | a sum aggregator from 0 over the expressions 3 and 2 answers 5 |
| Scenarios.ParametrizedQuestion | source/Appccelerate.EvaluationEngine.Specs/Answering.cs:58-86 | the parameter given to `Answer` reaches the expression and the context records it |
| Scenarios.Constraints | source/Appccelerate.EvaluationEngine.Specs/Answering.cs:88-129 | the unconditional and the true-constrained expressions are evaluated, the false-constrained one is not: the answer is "NT" |
| Scenarios.MissingAggregator | source/Appccelerate.EvaluationEngine.Specs/Answering.cs:131-153 | answering a question whose definition has no aggregator fails with the no-aggregator error |
| Scenarios.SeveralCallsWithSingleExpressionToSolve | source/Appccelerate.EvaluationEngine.Specs/ExpressionDefinition.cs:27-54 | expressions added through separate `Solve` calls accumulate and the earlier aggregator is kept: the answer is 5 |
| Scenarios.SeveralExpressionsInSingleCallToSolve | source/Appccelerate.EvaluationEngine.Specs/ExpressionDefinition.cs:56-81 | chained `ByEvaluating` calls all contribute: the answer is 5 |
| Scenarios.SeveralExpressionsInSingleCallToByEvaluating | source/Appccelerate.EvaluationEngine.Specs/ExpressionDefinition.cs:83-107 | a factory of several expressions contributes all of them: the answer is 5 |
| Scenarios.InlineExpressions | source/Appccelerate.EvaluationEngine.Specs/ExpressionDefinition.cs:109-133 | inline expressions contribute their values: the answer is 5 |
| Scenarios.AskingChild | source/Appccelerate.EvaluationEngine.Specs/HierarchicalEvaluationEngines.cs:34-76 | the child's answer uses the child's aggregator seed and ends with the parent's expression followed by the child's |
| Scenarios.AskingParent | source/Appccelerate.EvaluationEngine.Specs/HierarchicalEvaluationEngines.cs:78-112 | the parent's answer uses the parent's aggregator and never includes the child's expression |
| Scenarios.CustomStrategyAnswers | source/Appccelerate.EvaluationEngine.Specs/Strategies.cs:36-58 | a custom strategy set with `With` answers 42 without any aggregator configured |
| Scenarios.AggregatorStrategyAnswers | source/Appccelerate.EvaluationEngine.Specs/Strategies.cs:60-87 | the aggregator strategy with a custom aggregator answers the aggregator's 42 for the `Missing` parameter |
| Scenarios.LoadModule | source/Appccelerate.EvaluationEngine.Specs/Modules.cs:30-63 | a module's `Solve` extends the existing definition without a duplicate error and reuses its aggregator: the answer is 2 + 3 |
| Scenarios.Calculation | source/Appccelerate.EvaluationEngine.Specs/Logging.cs:32-92 | the context holds the question, the parameter 'A', the strategy, the aggregator, the answer 3 and every evaluated expression with its result, and not the one under the false constraint |
| Scenarios.ExecutesAggregator | source/Appccelerate.EvaluationEngine.Facts/Strategies/AggregatorStrategyFacts.cs:33-64 | the aggregator receives exactly the one provided expression and the parameter 7, and the strategy answers its "42"; the expression is never evaluated, so the context stays empty |
| Scenarios.ExecutesAggregatorWithMapping | source/Appccelerate.EvaluationEngine.Facts/Strategies/AggregatorStrategyFacts.cs:66-96 | the same with integer-valued expressions and a string answer |
| ValidationScenarios.NameSetRule | source/Appccelerate.EvaluationEngine.Specs/Validation/Validation.cs:125-139 | the rule's result is invalid with exactly the given violation when the name is missing or empty, and valid without violations otherwise |
| ValidationScenarios.DescriptionSetRule | source/Appccelerate.EvaluationEngine.Specs/Validation/Validation.cs:141-146 | the rule always returns a fresh valid result |
| ValidationScenarios.ValidData | source/Appccelerate.EvaluationEngine.Specs/Validation/Validation.cs:33-68 | named data validates as valid with no violations (the same case is stated again by the context-style specification in ValidationSpecification.cs) |
| ValidationScenarios.InvalidData | source/Appccelerate.EvaluationEngine.Specs/Validation/Validation.cs:70-110 | data without a name is invalid with exactly one violation, whose reason is "Name is empty" (likewise stated again in ValidationSpecification.cs) |
| ValidationScenarios.ExtendedValidData | source/Appccelerate.EvaluationEngine.Specs/Validation/ValidationExtensibility.cs:43-76 | with the custom result factory, named data is valid with no violations |
| ValidationScenarios.ExtendedInvalidData | source/Appccelerate.EvaluationEngine.Specs/Validation/ValidationExtensibility.cs:78-124 | with the custom result factory, data without a name is invalid with one violation that keeps both its reason and its hint |

## Left out

- Typed stores and reflection: the source keys stores by runtime `Type` and casts definitions to their answer and parameter types. Here one engine is generic in the parameter, expression result and answer types, and a question type is a name. Definitions of different answer types in one store are not modelled.
- Module loading (`EvaluationEngineModule.Load`) only forwards `Solve` calls to the engine. `Scenarios.LoadFruitModule` is that batch of calls.
- The parameterless expression adapter is not modelled. Parameterless expressions are functions that ignore the `Missing` sentinel.
- Log text formatting (`string.Format`, newlines, expression-tree printing) is runtime output and is not modelled. The log extension's input is modelled as the context that `Engine.Answer` returns.
- `Describe` strings of user-defined questions, expressions and strategies are not modelled. Only the library's own descriptions are constants.
- Locking and thread safety of the store are not modelled: the model is sequential.
- Fakes are fixed functions. This covers the faked strategy, the aggregator and the expressions of the unit facts, the hook, and the mocked factory in the engine facts.
- Engines.Engine.Answer: a custom strategy is a function of the question and the parameter only, so the model cannot state that it receives the resolved definition and the context. source/Appccelerate.EvaluationEngine.Facts/Internals/EngineAnswerFacts.cs:56 checks that the definition is passed. A strategy held inside the definition cannot be a function of that definition: Dafny datatypes do not allow that recursion. The aggregator strategy does use the resolved definition's providers and aggregator.
- Strategies.ExecuteStrategy: a custom aggregator receives the selected expressions and the parameter, but not the context. Whatever a custom aggregator would write into the context is not modelled; the validation aggregator's facts pass it no context.
- Validation results flow through the engine as values (`ValidationOutcome`). The `ValidationResult` class is used by the aggregation loop. Rules build their result by value rather than through a result object.
- The validation result factory is a choice of violation type, the type parameter `V` (`Violation` or `HintedViolation`). The factory object itself is not modelled.
- Scenarios.ParametrizedQuestion: the source's word-count expression stores the parameter it received, and a single-expression aggregator passes its result on. The single-expression aggregator is not modelled. Here the expression's result is the received parameter, a concatenating aggregator from the empty string passes it on unchanged, and the context's log shows the parameter arrived. The word count itself is not modelled.
- Scenarios.Calculation: the parametrized fruit expression's counting rule is not shown in the source. The model takes it from the logged results: a kind counts when it starts with the parameter letter.
