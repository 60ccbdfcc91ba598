/**
 * The validation scenarios: a data object validated by a name rule and a
 * description rule through the validation aggregator, with the library's
 * violations and with extended ones from a custom result factory.
 */
module ValidationScenarios {
  import opened Wrappers
  import opened Expressions
  import opened Definitions
  import opened Strategies
  import opened Syntax
  import opened Hosts
  import opened Engines
  import opened Validation

  const IsDataValid := "IsDataValid"
  const NameIsEmpty := "Name is empty"
  const Hint := "A hint"

  /** The validated data: a name that may be missing (`null`). */
  datatype Data = Data(name: Option<string>)

  type Rule<V> = Expression<Data, Option<ValidationOutcome<V>>>

  /** The name is missing or empty. */
  predicate NameIsNullOrEmpty(data: Data)
  {
    data.name.None? || data.name.value == ""
  }

  /**
   * `NameSetRule`: a fresh result, made invalid with the given violation
   * exactly when the name is missing or empty.
   */
  function NameSetRule<V>(violation: V): (rule: Rule<V>)
    ensures forall data :: rule.evaluate(data).Some?
    ensures forall data :: rule.evaluate(data).value.valid <==> !NameIsNullOrEmpty(data)
    ensures forall data :: rule.evaluate(data).value.violations == if NameIsNullOrEmpty(data) then [violation] else []
  {
    Expression("name set rule", (data: Data) =>
      Some(if NameIsNullOrEmpty(data) then ValidationOutcome(false, [violation]) else Initial()))
  }

  /** `DescriptionSetRule`: always a fresh, valid result. */
  function DescriptionSetRule<V>(): (rule: Rule<V>)
    ensures forall data :: rule.evaluate(data) == Some(Initial())
  {
    Expression("description set rule", (_: Data) => Some(Initial()))
  }

  function RuleProvider<V>(rule: Rule<V>): ExpressionProvider<Data, Option<ValidationOutcome<V>>>
  {
    SingleExpressionProvider(_ => rule)
  }

  /** The validation aggregator over the name rule, then the description rule. */
  method ConfigureDataValidation(engine: Engine<Data, Option<ValidationOutcome<Violation>>, ValidationOutcome<Violation>>)
    returns (d: Definition<Data, Option<ValidationOutcome<Violation>>, ValidationOutcome<Violation>>)
    requires engine.Valid() && engine.host.parent == null && engine.host.definitions == map[]
    modifies engine.host
    ensures engine.Valid() && fresh(d) && engine.host.parent == null
    ensures engine.host.definitions == map[IsDataValid := d]
    ensures d.State() == DefinitionState(IsDataValid, Some(AggregatorStrategy), Some(ValidationAggregator()),
      [ExpressionProviderSet(Unconditional, [RuleProvider(NameSetRule(Violation(NameIsEmpty)))]),
       ExpressionProviderSet(Unconditional, [RuleProvider(DescriptionSetRule())])])
  {
    var b := engine.Solve(IsDataValid);
    b := b.AggregateWith(ValidationAggregator());
    b := b.ByEvaluating(RuleProvider(NameSetRule(Violation(NameIsEmpty))));
    b := b.ByEvaluating(RuleProvider(DescriptionSetRule()));
    d := b.definition;
  }

  /** The two rules, name rule first, are the selected expressions. */
  lemma TwoRulesSelected<V>(d: DefinitionState<Data, Option<ValidationOutcome<V>>, ValidationOutcome<V>>, q: Question, first: Rule<V>, second: Rule<V>)
    requires d.providerSets == [ExpressionProviderSet(Unconditional, [RuleProvider(first)]), ExpressionProviderSet(Unconditional, [RuleProvider(second)])]
    ensures SelectedExpressions(d, q) == [first, second]
  {
    var sets := d.providerSets;
    assert sets[1..][1..] == [];
    var p := RuleProvider(first);
    var p' := RuleProvider(second);
    assert SelectProviders(sets[1..], q) == [p'] + [];
    assert SelectProviders(sets, q) == [p, p'];
    assert [p, p'][1..] == [p'] && [p'][1..] == [];
    assert CollectExpressions([p'], q) == [second] + [];
  }

  /** Both rules pass for a named data object: valid, no violations. */
  method ValidData() returns (answer: Result<ValidationOutcome<Violation>, Error>)
    ensures answer == Success(ValidationOutcome(true, []))
  {
    var engine := new Engine<Data, Option<ValidationOutcome<Violation>>, ValidationOutcome<Violation>>();
    var d := ConfigureDataValidation(engine);
    var q := Question(IsDataValid, 0);
    var data := Data(Some("Tester"));
    var context;
    answer, context := engine.Answer(q, data);
    assert engine.host.Resolve(IsDataValid) == Some(d.State());
    TwoRulesSelected(d.State(), q, NameSetRule(Violation(NameIsEmpty)), DescriptionSetRule());
    assert Results(SelectedExpressions(d.State(), q), data) == [Some(Initial()), Some(Initial())];
    FoldLeftTwo(Include, Initial(), Some(Initial<Violation>()), Some(Initial()));
    var none: seq<Violation> := [];
    assert none + none + none == [];
  }

  /** A missing name: invalid, with exactly the name rule's one violation. */
  method InvalidData() returns (answer: Result<ValidationOutcome<Violation>, Error>)
    ensures answer == Success(ValidationOutcome(false, [Violation(NameIsEmpty)]))
  {
    var engine := new Engine<Data, Option<ValidationOutcome<Violation>>, ValidationOutcome<Violation>>();
    var d := ConfigureDataValidation(engine);
    var q := Question(IsDataValid, 0);
    var data := Data(None);
    var context;
    answer, context := engine.Answer(q, data);
    assert engine.host.Resolve(IsDataValid) == Some(d.State());
    TwoRulesSelected(d.State(), q, NameSetRule(Violation(NameIsEmpty)), DescriptionSetRule());
    var invalid := ValidationOutcome(false, [Violation(NameIsEmpty)]);
    assert Results(SelectedExpressions(d.State(), q), data) == [Some(invalid), Some(Initial())];
    FoldLeftTwo(Include, Initial(), Some(invalid), Some(Initial()));
    assert [] + [Violation(NameIsEmpty)] + [] == [Violation(NameIsEmpty)];
  }

  /** The validation aggregator with results of hinted violations, over the name rule alone. */
  method ConfigureExtendedValidation(engine: Engine<Data, Option<ValidationOutcome<HintedViolation>>, ValidationOutcome<HintedViolation>>)
    returns (d: Definition<Data, Option<ValidationOutcome<HintedViolation>>, ValidationOutcome<HintedViolation>>)
    requires engine.Valid() && engine.host.parent == null && engine.host.definitions == map[]
    modifies engine.host
    ensures engine.Valid() && fresh(d) && engine.host.parent == null
    ensures engine.host.definitions == map[IsDataValid := d]
    ensures d.State() == DefinitionState(IsDataValid, Some(AggregatorStrategy), Some(ValidationAggregator()),
      [ExpressionProviderSet(Unconditional, [RuleProvider(NameSetRule(HintedViolation(NameIsEmpty, Hint)))])])
  {
    var b := engine.Solve(IsDataValid);
    b := b.AggregateWith(ValidationAggregator());
    b := b.ByEvaluating(RuleProvider(NameSetRule(HintedViolation(NameIsEmpty, Hint))));
    d := b.definition;
  }

  lemma OneRuleSelected<V>(d: DefinitionState<Data, Option<ValidationOutcome<V>>, ValidationOutcome<V>>, q: Question, rule: Rule<V>)
    requires d.providerSets == [ExpressionProviderSet(Unconditional, [RuleProvider(rule)])]
    ensures SelectedExpressions(d, q) == [rule]
  {
    var p := RuleProvider(rule);
    assert d.providerSets[1..] == [];
    assert SelectProviders(d.providerSets, q) == [p] + [];
    assert [p][1..] == [];
    assert CollectExpressions([p], q) == [rule] + [];
  }

  /** With the custom factory's results, valid data is still valid without violations. */
  method ExtendedValidData() returns (answer: Result<ValidationOutcome<HintedViolation>, Error>)
    ensures answer == Success(ValidationOutcome(true, []))
  {
    var engine := new Engine<Data, Option<ValidationOutcome<HintedViolation>>, ValidationOutcome<HintedViolation>>();
    var d := ConfigureExtendedValidation(engine);
    var q := Question(IsDataValid, 0);
    var data := Data(Some("Tester"));
    var context;
    answer, context := engine.Answer(q, data);
    assert engine.host.Resolve(IsDataValid) == Some(d.State());
    OneRuleSelected(d.State(), q, NameSetRule(HintedViolation(NameIsEmpty, Hint)));
    assert Results(SelectedExpressions(d.State(), q), data) == [Some(Initial())];
    FoldLeftOne(Include, Initial(), Some(Initial<HintedViolation>()));
    var none: seq<HintedViolation> := [];
    assert none + none == [];
  }

  /** The one violation keeps both the reason and the extended hint through aggregation. */
  method ExtendedInvalidData() returns (answer: Result<ValidationOutcome<HintedViolation>, Error>)
    ensures answer == Success(ValidationOutcome(false, [HintedViolation(NameIsEmpty, Hint)]))
  {
    var engine := new Engine<Data, Option<ValidationOutcome<HintedViolation>>, ValidationOutcome<HintedViolation>>();
    var d := ConfigureExtendedValidation(engine);
    var q := Question(IsDataValid, 0);
    var data := Data(None);
    var context;
    answer, context := engine.Answer(q, data);
    assert engine.host.Resolve(IsDataValid) == Some(d.State());
    OneRuleSelected(d.State(), q, NameSetRule(HintedViolation(NameIsEmpty, Hint)));
    var invalid := ValidationOutcome(false, [HintedViolation(NameIsEmpty, Hint)]);
    assert Results(SelectedExpressions(d.State(), q), data) == [Some(invalid)];
    FoldLeftOne(Include, Initial(), Some(invalid));
    assert [] + [HintedViolation(NameIsEmpty, Hint)] == [HintedViolation(NameIsEmpty, Hint)];
  }
}
