/**
 * The engine's documented scenarios, configured through `Solve` and the
 * builder and answered through `Answer`, with the answers they promise.
 */
module Scenarios {
  import opened Wrappers
  import opened Expressions
  import opened Definitions
  import opened Strategies
  import opened Syntax
  import opened Hosts
  import opened Engines

  const HowManyFruitsAreThere := "HowManyFruitsAreThere"
  const HowManyWordsDoesThisTextHave := "HowManyWordsDoesThisTextHave"
  const WhatIsTheText := "WhatIsTheText"
  const HowManyFruitsAreThereStartingWith := "HowManyFruitsAreThereStartingWith"
  const TestQuestion := "Question"

  const ParentAggregator := "parentAggregator"
  const ChildAggregator := "childAggregator"
  const ParentExpression := "parentExpression"
  const ChildExpression := "childExpression"

  /** The expression aggregator summing integer results from 0. */
  function SumAggregator<P>(): Aggregator<P, int, int>
  {
    ExpressionAggregator(0, (aggregate: int, value: int) => aggregate + value)
  }

  /** The expression aggregator concatenating string results after the seed. */
  function ConcatAggregator<P>(seed: string): Aggregator<P, string, string>
  {
    ExpressionAggregator(seed, (aggregate: string, value: string) => aggregate + value)
  }

  /** `FruitCountExpression`: a parameterless expression, so it ignores the `Missing` sentinel. */
  function FruitCount(kind: string, count: int): Expression<Missing, int>
  {
    Expression(kind, (_: Missing) => count)
  }

  /** The aggregator strategy with an expression aggregator folds the selected expressions' results. */
  lemma ExecuteFolds<P, R, A>(d: DefinitionState<P, R, A>, q: Question, p: P, seed: A, step: (A, R) -> A)
    requires d.strategy == Some(AggregatorStrategy) && d.aggregator == Some(ExpressionAggregator(seed, step))
    ensures Execute(AggregatorStrategy, d, q, p) == Success(FoldLeft(step, seed, Results(SelectedExpressions(d, q), p)))
  {
  }

  /** Two expressions, 3 apples and 2 bananas, summed: the answer is 5. */
  method ParameterlessQuestion() returns (answer: Result<int, Error>)
    ensures answer == Success(5)
  {
    var engine := new Engine<Missing, int, int>();
    var q := Question(HowManyFruitsAreThere, 0);
    var apples := SingleExpressionProvider(_ => FruitCount("Apples", 3));
    var bananas := SingleExpressionProvider(_ => FruitCount("Bananas", 2));
    var b := engine.Solve(q.qtype);
    b := b.AggregateWith(SumAggregator());
    ghost var s0 := b.definition.State();
    b := b.ByEvaluating(apples);
    ghost var s1 := b.definition.State();
    b := b.ByEvaluating(bananas);
    ghost var s2 := b.definition.State();
    ByEvaluatingAppendsExpressions(s0, apples, q);
    ByEvaluatingAppendsExpressions(s1, bananas, q);
    var context;
    answer, context := engine.Answer(q, Missing);
    assert engine.host.Resolve(q.qtype) == Some(s2);
    assert Results(SelectedExpressions(s2, q), Missing) == [3, 2];
    ExecuteFolds(s2, q, Missing, 0, SumAggregator<Missing>().step);
    FoldLeftTwo(SumAggregator<Missing>().step, 0, 3, 2);
  }

  /**
   * The parameter passed to `Answer` reaches the expression: the expression
   * here answers with the parameter it received, and the context records
   * that result.
   */
  method ParametrizedQuestion(parameter: string) returns (answer: Result<string, Error>, context: Context?<string, string, string>)
    ensures answer == Success(parameter)
    ensures context != null && context.parameter == parameter
    ensures context.expressions == [ExpressionLog("received parameter", parameter)]
  {
    var engine := new Engine<string, string, string>();
    var q := Question(HowManyWordsDoesThisTextHave, 0);
    var received := SingleExpressionProvider(_ => Expression("received parameter", (p: string) => p));
    var b := engine.Solve(q.qtype);
    b := b.AggregateWith(ConcatAggregator(""));
    ghost var s0 := b.definition.State();
    b := b.ByEvaluating(received);
    ghost var s1 := b.definition.State();
    ByEvaluatingAppendsExpressions(s0, received, q);
    answer, context := engine.Answer(q, parameter);
    assert engine.host.Resolve(q.qtype) == Some(s1);
    assert Results(SelectedExpressions(s1, q), parameter) == [parameter];
    ExecuteFolds(s1, q, parameter, "", ConcatAggregator<string>("").step);
    FoldLeftOne(ConcatAggregator<string>("").step, "", parameter);
    assert "" + parameter == parameter;
  }

  function TextProvider(text: string): ExpressionProvider<Missing, string>
  {
    InlineExpressionProvider((_, _) => text)
  }

  /** The provider sets the constraint scenario configures: "N" always, "F" under a false and "T" under a true constraint. */
  function ConstrainedTextSets(): seq<ExpressionProviderSet<Missing, string>>
  {
    [ExpressionProviderSet(Unconditional, [TextProvider("N")]),
     ExpressionProviderSet(Conditional(_ => false), [TextProvider("F")]),
     ExpressionProviderSet(Conditional(_ => true), [TextProvider("T")])]
  }

  /** Registers "N" unconditionally, then "F" under a constraint that never holds, then "T" under one that always holds. */
  method ConfigureConstrainedText(b: DefinitionBuilder<Missing, string, string>)
    modifies b.definition
    ensures b.definition.State() == old(b.definition.State()).(providerSets := old(b.definition.providerSets) + ConstrainedTextSets())
  {
    var none: seq<ExpressionProvider<Missing, string>> := [];
    assert none + [TextProvider("F")] == [TextProvider("F")] && none + [TextProvider("T")] == [TextProvider("T")];
    ghost var s0 := b.definition.providerSets;
    var b' := b.ByEvaluating(TextProvider("N"));
    var c := b.When(_ => false);
    c := c.ByEvaluating(TextProvider("F"));
    assert b.definition.providerSets == s0 + ConstrainedTextSets()[..2];
    c := c.When(_ => true);
    c := c.ByEvaluating(TextProvider("T"));
  }

  /**
   * An unconditional expression ("N") and one under a true constraint ("T")
   * are evaluated, one under a false constraint ("F") is not.
   */
  method Constraints() returns (answer: Result<string, Error>)
    ensures answer == Success("NT")
  {
    var engine := new Engine<Missing, string, string>();
    var q := Question(WhatIsTheText, 0);
    var b := engine.Solve(q.qtype);
    b := b.AggregateWith(ConcatAggregator(""));
    ConfigureConstrainedText(b);
    ghost var d := b.definition.State();
    var context;
    answer, context := engine.Answer(q, Missing);
    assert engine.host.Resolve(q.qtype) == Some(d);
    ConstrainedTextAnswer(d, q);
  }

  lemma ConstrainedTextAnswer(d: DefinitionState<Missing, string, string>, q: Question)
    requires d.strategy == Some(AggregatorStrategy) && d.aggregator == Some(ConcatAggregator(""))
    requires d.providerSets == [] + ConstrainedTextSets()
    ensures Execute(AggregatorStrategy, d, q, Missing) == Success("NT")
  {
    var sets := ConstrainedTextSets();
    var n := TextProvider("N");
    var t := TextProvider("T");
    assert d.providerSets == sets;
    assert SelectProviders(sets[2..], q) == [t] by {
      assert sets[2..][1..] == [];
    }
    assert SelectProviders(sets[1..], q) == [t] by {
      assert sets[1..][1..] == sets[2..];
    }
    assert SelectProviders(sets, q) == [n, t];
    assert CollectExpressions([n, t], q) == GetExpressions(n, q) + GetExpressions(t, q) by {
      assert [n, t][1..] == [t];
      assert [t][1..] == [];
      assert CollectExpressions([t], q) == GetExpressions(t, q) + [];
    }
    var es := SelectedExpressions(d, q);
    assert |es| == 2 && es[0].evaluate(Missing) == "N" && es[1].evaluate(Missing) == "T";
    assert Results(es, Missing) == ["N", "T"];
    ExecuteFolds(d, q, Missing, "", ConcatAggregator<Missing>("").step);
    FoldLeftTwo(ConcatAggregator<Missing>("").step, "", "N", "T");
    assert ("" + "N") + "T" == "NT";
  }

  /** A definition created by `Solve` alone has the aggregator strategy but no aggregator: answering fails. */
  method MissingAggregator() returns (answer: Result<int, Error>)
    ensures answer == Failure(NoAggregator(HowManyFruitsAreThere))
  {
    var engine := new Engine<Missing, int, int>();
    var q := Question(HowManyFruitsAreThere, 0);
    var b := engine.Solve(q.qtype);
    var context;
    answer, context := engine.Answer(q, Missing);
    assert engine.host.Resolve(q.qtype) == Some(CreatedDefinition(q.qtype));
  }

  /** With the sum aggregator, two selected expressions answer the sum of their results. */
  lemma SumOfTwo(d: DefinitionState<Missing, int, int>, q: Question, a: int, b: int)
    requires d.strategy == Some(AggregatorStrategy) && d.aggregator == Some(SumAggregator())
    requires Results(SelectedExpressions(d, q), Missing) == [a, b]
    ensures Execute(AggregatorStrategy, d, q, Missing) == Success(a + b)
  {
    ExecuteFolds(d, q, Missing, 0, SumAggregator<Missing>().step);
    FoldLeftTwo(SumAggregator<Missing>().step, 0, a, b);
  }

  function FruitProvider(count: int): ExpressionProvider<Missing, int>
  {
    SingleExpressionProvider(_ => FruitCount("Fruits", count))
  }

  /** Expressions added through separate `Solve` calls accumulate on one definition; the earlier aggregator stays. */
  method SeveralCallsWithSingleExpressionToSolve() returns (answer: Result<int, Error>)
    ensures answer == Success(5)
  {
    var engine := new Engine<Missing, int, int>();
    var q := Question(HowManyFruitsAreThere, 0);
    var b := engine.Solve(q.qtype);
    b := b.AggregateWith(SumAggregator());
    ghost var s0 := b.definition.State();
    var b2 := engine.Solve(q.qtype);
    b2 := b2.ByEvaluating(FruitProvider(2));
    ghost var s1 := b2.definition.State();
    var b3 := engine.Solve(q.qtype);
    b3 := b3.ByEvaluating(FruitProvider(3));
    ghost var s2 := b3.definition.State();
    var context;
    answer, context := engine.Answer(q, Missing);
    assert engine.host.Resolve(q.qtype) == Some(s2);
    ByEvaluatingAppendsExpressions(s0, FruitProvider(2), q);
    ByEvaluatingAppendsExpressions(s1, FruitProvider(3), q);
    SumOfTwo(s2, q, 2, 3);
  }

  /** Chained `ByEvaluating` calls in one `Solve` all contribute. */
  method SeveralExpressionsInSingleCallToSolve() returns (answer: Result<int, Error>)
    ensures answer == Success(5)
  {
    var engine := new Engine<Missing, int, int>();
    var q := Question(HowManyFruitsAreThere, 0);
    var b := engine.Solve(q.qtype);
    b := b.AggregateWith(SumAggregator());
    ghost var s0 := b.definition.State();
    var b2 := engine.Solve(q.qtype);
    b2 := b2.ByEvaluating(FruitProvider(2));
    ghost var s1 := b2.definition.State();
    b2 := b2.ByEvaluating(FruitProvider(3));
    ghost var s2 := b2.definition.State();
    var context;
    answer, context := engine.Answer(q, Missing);
    assert engine.host.Resolve(q.qtype) == Some(s2);
    ByEvaluatingAppendsExpressions(s0, FruitProvider(2), q);
    ByEvaluatingAppendsExpressions(s1, FruitProvider(3), q);
    SumOfTwo(s2, q, 2, 3);
  }

  /** A factory returning several expressions contributes all of them. */
  method SeveralExpressionsInSingleCallToByEvaluating() returns (answer: Result<int, Error>)
    ensures answer == Success(5)
  {
    var engine := new Engine<Missing, int, int>();
    var q := Question(HowManyFruitsAreThere, 0);
    var both := MultipleExpressionsProvider(_ => [FruitCount("Fruits", 2), FruitCount("Fruits", 3)]);
    var b := engine.Solve(q.qtype);
    b := b.AggregateWith(SumAggregator());
    ghost var s0 := b.definition.State();
    var b2 := engine.Solve(q.qtype);
    b2 := b2.ByEvaluating(both);
    ghost var s1 := b2.definition.State();
    var context;
    answer, context := engine.Answer(q, Missing);
    assert engine.host.Resolve(q.qtype) == Some(s1);
    ByEvaluatingAppendsExpressions(s0, both, q);
    SumOfTwo(s1, q, 2, 3);
  }

  /** Inline expressions (functions of the question and the parameter) contribute their values. */
  method InlineExpressions() returns (answer: Result<int, Error>)
    ensures answer == Success(5)
  {
    var engine := new Engine<Missing, int, int>();
    var q := Question(HowManyFruitsAreThere, 0);
    var two := InlineExpressionProvider((_, _) => 2);
    var three := InlineExpressionProvider((_, _) => 3);
    var b := engine.Solve(q.qtype);
    b := b.AggregateWith(SumAggregator());
    ghost var s0 := b.definition.State();
    var b2 := engine.Solve(q.qtype);
    b2 := b2.ByEvaluating(two);
    ghost var s1 := b2.definition.State();
    b2 := b2.ByEvaluating(three);
    ghost var s2 := b2.definition.State();
    var context;
    answer, context := engine.Answer(q, Missing);
    assert engine.host.Resolve(q.qtype) == Some(s2);
    ByEvaluatingAppendsExpressions(s0, two, q);
    ByEvaluatingAppendsExpressions(s1, three, q);
    SumOfTwo(s2, q, 2, 3);
  }

  /** Configures one engine level: a concatenating aggregator with its own seed and one inline expression. */
  method ConfigureLevel(engine: Engine<Missing, string, string>, seed: string, expression: string) returns (d: Definition<Missing, string, string>)
    requires engine.Valid() && TestQuestion !in engine.host.definitions
    modifies engine.host
    ensures engine.Valid() && fresh(d)
    ensures engine.host.definitions == old(engine.host.definitions)[TestQuestion := d]
    ensures d.State() == WithProviderSet(DefinitionState(TestQuestion, Some(AggregatorStrategy), Some(ConcatAggregator(seed)), []), Unconditional, [TextProvider(expression)])
  {
    var b := engine.Solve(TestQuestion);
    b := b.AggregateWith(ConcatAggregator(seed));
    b := b.ByEvaluating(TextProvider(expression));
    d := b.definition;
  }

  /** The concatenation aggregator over one unconditional inline text. */
  lemma ConcatOfOne(d: DefinitionState<Missing, string, string>, q: Question, seed: string, a: string)
    requires d.strategy == Some(AggregatorStrategy) && d.aggregator == Some(ConcatAggregator(seed))
    requires d.providerSets == [ExpressionProviderSet(Unconditional, [TextProvider(a)])]
    ensures Execute(AggregatorStrategy, d, q, Missing) == Success(seed + a)
  {
    ExecuteFolds(d, q, Missing, seed, ConcatAggregator<Missing>(seed).step);
    var p := TextProvider(a);
    assert d.providerSets[1..] == [];
    assert [p][1..] == [];
    assert SelectProviders(d.providerSets, q) == [p] + [];
    assert CollectExpressions([p], q) == GetExpressions(p, q) + [];
    var es := SelectedExpressions(d, q);
    assert |es| == 1 && es[0].evaluate(Missing) == a;
    assert Results(es, Missing) == [a];
    FoldLeftOne(ConcatAggregator<Missing>(seed).step, seed, a);
  }

  /** The concatenation aggregator over two unconditional inline texts, in stored order. */
  lemma ConcatOfTwo(d: DefinitionState<Missing, string, string>, q: Question, seed: string, a: string, b: string)
    requires d.strategy == Some(AggregatorStrategy) && d.aggregator == Some(ConcatAggregator(seed))
    requires d.providerSets == [ExpressionProviderSet(Unconditional, [TextProvider(a)]), ExpressionProviderSet(Unconditional, [TextProvider(b)])]
    ensures Execute(AggregatorStrategy, d, q, Missing) == Success(seed + a + b)
  {
    ExecuteFolds(d, q, Missing, seed, ConcatAggregator<Missing>(seed).step);
    var sets := d.providerSets;
    var pa := TextProvider(a);
    var pb := TextProvider(b);
    assert sets[1..][1..] == [];
    assert SelectProviders(sets[1..], q) == [pb];
    assert SelectProviders(sets, q) == [pa, pb];
    assert [pa, pb][1..] == [pb] && [pb][1..] == [];
    assert CollectExpressions([pb], q) == GetExpressions(pb, q) + [];
    assert CollectExpressions([pa, pb], q) == GetExpressions(pa, q) + GetExpressions(pb, q);
    var es := SelectedExpressions(d, q);
    assert |es| == 2 && es[0].evaluate(Missing) == a && es[1].evaluate(Missing) == b;
    assert Results(es, Missing) == [a, b];
    FoldLeftTwo(ConcatAggregator<Missing>(seed).step, seed, a, b);
  }

  /**
   * Asking the child: the child's aggregator seed wins, and the parent's
   * expression is evaluated before the child's.
   */
  method AskingChild() returns (childAnswer: Result<string, Error>)
    ensures childAnswer == Success(ChildAggregator + ParentExpression + ChildExpression)
  {
    var parentEngine := new Engine<Missing, string, string>();
    var childEngine := new Engine.WithParent(parentEngine);
    var parentDefinition := ConfigureLevel(parentEngine, ParentAggregator, ParentExpression);
    assert parentEngine.host.Resolve(TestQuestion) == Some(parentDefinition.State());
    var childDefinition := ConfigureLevel(childEngine, ChildAggregator, ChildExpression);
    assert parentEngine.host.Resolve(TestQuestion) == Some(parentDefinition.State());
    var q := Question(TestQuestion, 0);
    var context;
    childAnswer, context := childEngine.Answer(q, Missing);
    var merged := Merged(parentDefinition.State(), childDefinition.State());
    assert childEngine.host.Resolve(TestQuestion) == Some(merged);
    assert merged.providerSets == [] + [ExpressionProviderSet(Unconditional, [TextProvider(ParentExpression)])] + ([] + [ExpressionProviderSet(Unconditional, [TextProvider(ChildExpression)])]);
    ConcatOfTwo(merged, q, ChildAggregator, ParentExpression, ChildExpression);
  }

  /** Asking the parent: the parent's aggregator, and none of the child's expressions. */
  method AskingParent() returns (parentAnswer: Result<string, Error>)
    ensures parentAnswer == Success(ParentAggregator + ParentExpression)
  {
    var parentEngine := new Engine<Missing, string, string>();
    var childEngine := new Engine.WithParent(parentEngine);
    var parentDefinition := ConfigureLevel(parentEngine, ParentAggregator, ParentExpression);
    var childDefinition := ConfigureLevel(childEngine, ChildAggregator, ChildExpression);
    var q := Question(TestQuestion, 0);
    var context;
    parentAnswer, context := parentEngine.Answer(q, Missing);
    var d := parentDefinition.State();
    assert parentEngine.host.Resolve(TestQuestion) == Some(d);
    assert d.providerSets == [] + [ExpressionProviderSet(Unconditional, [TextProvider(ParentExpression)])];
    ConcatOfOne(d, q, ParentAggregator, ParentExpression);
  }

  const TheAnswer := 42

  /** `SpecialStrategy`: answers 42 whatever the question and parameter. */
  function SpecialStrategy(): Strategy<Missing, int>
  {
    CustomStrategy("my own special strategy", (_, _) => TheAnswer)
  }

  /** A strategy set with `With` answers, without any aggregator configured. */
  method CustomStrategyAnswers() returns (answer: Result<int, Error>)
    ensures answer == Success(TheAnswer)
  {
    var engine := new Engine<Missing, int, int>();
    var q := Question(HowManyFruitsAreThere, 0);
    var b := engine.Solve(q.qtype);
    b := b.With(SpecialStrategy());
    var context;
    answer, context := engine.Answer(q, Missing);
    assert engine.host.Resolve(q.qtype) == Some(b.definition.State());
  }

  /** A fake aggregator answering 42 for any expressions when given the `Missing` sentinel. */
  function FakeAggregator(): Aggregator<Missing, int, int>
  {
    CustomAggregator("fake aggregator", (_, p: Missing) => if p == Missing then TheAnswer else 0)
  }

  /** The aggregator strategy chosen explicitly, with a custom aggregator: the answer is the aggregator's. */
  method AggregatorStrategyAnswers() returns (answer: Result<int, Error>)
    ensures answer == Success(TheAnswer)
  {
    var engine := new Engine<Missing, int, int>();
    var q := Question(HowManyFruitsAreThere, 0);
    var b := engine.Solve(q.qtype);
    b := b.WithAggregatorStrategy();
    b := b.AggregateWith(FakeAggregator());
    var context;
    answer, context := engine.Answer(q, Missing);
    assert engine.host.Resolve(q.qtype) == Some(b.definition.State());
  }

  /**
   * `FruitModule.Load`: a batch of `Solve` calls on the engine it is loaded
   * into; here one that adds 3 ananas to the existing definition.
   */
  method LoadFruitModule(engine: Engine<Missing, int, int>)
    requires engine.Valid() && HowManyFruitsAreThere in engine.host.definitions
    modifies engine.host, engine.host.definitions[HowManyFruitsAreThere]
    ensures engine.Valid() && engine.host.definitions == old(engine.host.definitions)
    ensures var d := engine.host.definitions[HowManyFruitsAreThere];
            d.State() == WithProviderSet(old(d.State()), Unconditional, [FruitProvider(3)])
  {
    var b := engine.Solve(HowManyFruitsAreThere);
    b := b.ByEvaluating(FruitProvider(3));
  }

  /**
   * A module's `Solve` extends the definition configured before loading:
   * it keeps its aggregator and its expression (2 + 3).
   */
  method LoadModule() returns (answer: Result<int, Error>)
    ensures answer == Success(5)
  {
    var engine := new Engine<Missing, int, int>();
    var q := Question(HowManyFruitsAreThere, 0);
    var b := engine.Solve(q.qtype);
    b := b.AggregateWith(SumAggregator());
    ghost var s0 := b.definition.State();
    b := b.ByEvaluating(FruitProvider(2));
    ghost var s1 := b.definition.State();
    LoadFruitModule(engine);
    ghost var s2 := b.definition.State();
    var context;
    answer, context := engine.Answer(q, Missing);
    assert engine.host.Resolve(q.qtype) == Some(s2);
    ByEvaluatingAppendsExpressions(s0, FruitProvider(2), q);
    ByEvaluatingAppendsExpressions(s1, FruitProvider(3), q);
    SumOfTwo(s2, q, 2, 3);
  }

  /** `ParametrizedFruitExpression`: counts its fruits when their kind starts with the parameter letter. */
  function ParametrizedFruit(kind: string, count: int): Expression<char, int>
  {
    Expression(kind, (p: char) => if |kind| > 0 && kind[0] == p then count else 0)
  }

  function AppleProvider(): ExpressionProvider<char, int>
  {
    SingleExpressionProvider(_ => ParametrizedFruit("Apple", 1))
  }

  function AnanasAndBananaProvider(): ExpressionProvider<char, int>
  {
    MultipleExpressionsProvider(_ => [ParametrizedFruit("Ananas", 2), ParametrizedFruit("Banana", 4)])
  }

  /** The inline expression: 8 for the parameter 'B', 0 otherwise. */
  function InlineBProvider(): ExpressionProvider<char, int>
  {
    InlineExpressionProvider((_, p: char) => if p == 'B' then 8 else 0)
  }

  function UnknownProvider(): ExpressionProvider<char, int>
  {
    SingleExpressionProvider(_ => ParametrizedFruit("Unknown", 0))
  }

  /** The provider sets of the logging scenario: Apple always; Ananas, Banana and an inline expression under a true constraint; Unknown under a false one. */
  function LoggedFruitSets(): seq<ExpressionProviderSet<char, int>>
  {
    [ExpressionProviderSet(Unconditional, [AppleProvider()]),
     ExpressionProviderSet(Conditional(_ => true), [AnanasAndBananaProvider(), InlineBProvider()]),
     ExpressionProviderSet(Conditional(_ => false), [UnknownProvider()])]
  }

  method ConfigureLoggedFruits(b: DefinitionBuilder<char, int, int>)
    modifies b.definition
    ensures b.definition.State() == old(b.definition.State()).(providerSets := old(b.definition.providerSets) + LoggedFruitSets())
  {
    var sets := LoggedFruitSets();
    var none: seq<ExpressionProvider<char, int>> := [];
    assert none + [AnanasAndBananaProvider()] == [AnanasAndBananaProvider()];
    assert [AnanasAndBananaProvider()] + [InlineBProvider()] == sets[1].providers;
    assert none + [UnknownProvider()] == sets[2].providers;
    ghost var s0 := b.definition.providerSets;
    var b' := b.ByEvaluating(AppleProvider());
    var c := b.When(_ => true);
    c := c.ByEvaluating(AnanasAndBananaProvider());
    c := c.ByEvaluating(InlineBProvider());
    assert b.definition.providerSets == s0 + sets[..2];
    c := c.When(_ => false);
    c := c.ByEvaluating(UnknownProvider());
  }

  /** The Unknown provider sits under a false constraint and is not selected. */
  lemma LoggedFruitProviders(q: Question)
    ensures SelectProviders(LoggedFruitSets(), q) == [AppleProvider(), AnanasAndBananaProvider(), InlineBProvider()]
  {
    var sets := LoggedFruitSets();
    assert SelectProviders(sets[2..], q) == [] by {
      assert sets[2..][1..] == [];
    }
    assert SelectProviders(sets[1..], q) == [AnanasAndBananaProvider(), InlineBProvider()] + [] by {
      assert sets[1..][1..] == sets[2..];
    }
  }

  lemma LoggedFruitExpressions(q: Question)
    ensures CollectExpressions([AppleProvider(), AnanasAndBananaProvider(), InlineBProvider()], q)
         == [ParametrizedFruit("Apple", 1), ParametrizedFruit("Ananas", 2), ParametrizedFruit("Banana", 4)] + GetExpressions(InlineBProvider(), q)
  {
    var ps := [AppleProvider(), AnanasAndBananaProvider(), InlineBProvider()];
    assert ps[1..] == [AnanasAndBananaProvider(), InlineBProvider()];
    assert ps[1..][1..] == [InlineBProvider()];
    assert [InlineBProvider()][1..] == [];
    assert CollectExpressions([InlineBProvider()], q) == GetExpressions(InlineBProvider(), q) + [];
  }

  /** The expressions the logging scenario evaluates with 'A', and their results: the Unknown one is not among them. */
  lemma LoggedFruitsEvaluated(d: DefinitionState<char, int, int>, q: Question)
    requires d.providerSets == [] + LoggedFruitSets()
    ensures Logs(SelectedExpressions(d, q), 'A')
         == [ExpressionLog("Apple", 1), ExpressionLog("Ananas", 2), ExpressionLog("Banana", 0), ExpressionLog(InlineExpressionDescription, 0)]
    ensures Results(SelectedExpressions(d, q), 'A') == [1, 2, 0, 0]
  {
    assert d.providerSets == LoggedFruitSets();
    LoggedFruitProviders(q);
    LoggedFruitExpressions(q);
    var es := SelectedExpressions(d, q);
    assert |es| == 4;
    assert es[3].description == InlineExpressionDescription && es[3].evaluate('A') == 0;
  }

  lemma SumOfFour(a: int, b: int, c: int, e: int)
    ensures FoldLeft(SumAggregator<char>().step, 0, [a, b, c, e]) == a + b + c + e
  {
    var step := SumAggregator<char>().step;
    FoldLeftTwo(step, 0, a, b);
    FoldLeftTwo(step, a + b, c, e);
    FoldLeftAppend(step, 0, [a, b], [c, e]);
    assert [a, b] + [c, e] == [a, b, c, e];
  }

  /**
   * The context handed to the log extension: the question, the parameter,
   * the strategy and aggregator used, the answer 3, and every evaluated
   * expression with its result; the expression under the false constraint
   * was never evaluated.
   */
  method Calculation() returns (answer: Result<int, Error>, context: Context?<char, int, int>)
    ensures answer == Success(3)
    ensures context != null && context.question == Question(HowManyFruitsAreThereStartingWith, 0)
    ensures context.parameter == 'A' && context.answer == Some(3)
    ensures context.strategy == AggregatorStrategy && context.aggregator == Some(SumAggregator())
    ensures context.expressions
         == [ExpressionLog("Apple", 1), ExpressionLog("Ananas", 2), ExpressionLog("Banana", 0), ExpressionLog(InlineExpressionDescription, 0)]
  {
    var engine := new Engine<char, int, int>();
    var q := Question(HowManyFruitsAreThereStartingWith, 0);
    var b := engine.Solve(q.qtype);
    b := b.AggregateWith(SumAggregator());
    ConfigureLoggedFruits(b);
    ghost var d := b.definition.State();
    answer, context := engine.Answer(q, 'A');
    assert engine.host.Resolve(q.qtype) == Some(d);
    LoggedFruitsEvaluated(d, q);
    ExecuteFolds(d, q, 'A', 0, SumAggregator<char>().step);
    SumOfFour(1, 2, 0, 0);
  }

  const FakeAnswer := "42"
  const FakeParameter := 7
  const TestExpressionDescription := "test expression"

  /** The one expression the test provider builds; the strategy never evaluates it. */
  function TestExpression<R>(value: R): Expression<int, R>
  {
    Expression(TestExpressionDescription, (_: int) => value)
  }

  /**
   * The faked aggregator: it answers "42" only when handed exactly one
   * expression, the test expression, together with the parameter 7.
   */
  function MatchingAggregator<R>(): Aggregator<int, R, string>
  {
    CustomAggregator("fake aggregator", (es: seq<Expression<int, R>>, p: int) =>
      if |es| == 1 && es[0].description == TestExpressionDescription && p == FakeParameter then FakeAnswer else "")
  }

  lemma OneExpressionSelected<R>(d: DefinitionState<int, R, string>, q: Question, value: R)
    requires d.providerSets == [ExpressionProviderSet(Unconditional, [SingleExpressionProvider(_ => TestExpression(value))])]
    ensures SelectedExpressions(d, q) == [TestExpression(value)]
  {
    var provider := SingleExpressionProvider(_ => TestExpression(value));
    assert d.providerSets[1..] == [];
    assert SelectProviders(d.providerSets, q) == [provider] + [];
    assert [provider][1..] == [];
    assert CollectExpressions([provider], q) == [TestExpression(value)] + [];
  }

  /**
   * The aggregator strategy run directly on a definition with one provider
   * of one expression: the aggregator receives exactly that expression and
   * the caller's parameter, and its answer is the strategy's answer. The
   * expression is never evaluated, so the context records nothing.
   */
  method ExecuteWithOneExpression<R>(value: R) returns (result: Result<string, Error>, context: Context<int, R, string>)
    ensures result == Success(FakeAnswer)
    ensures context.expressions == [] && context.answer == None
  {
    var q := Question(TestQuestion, 0);
    var d := new Definition<int, R, string>(TestQuestion);
    d.aggregator := Some(MatchingAggregator());
    d.AddExpressionProviderSet(ExpressionProviderSet(Unconditional, [SingleExpressionProvider(_ => TestExpression(value))]));
    OneExpressionSelected(d.State(), q, value);
    context := new Context(q, FakeParameter, AggregatorStrategy, d.aggregator);
    result := ExecuteStrategy(AggregatorStrategy, q, FakeParameter, d, context);
  }

  /** Expressions with results of the answer type. */
  method ExecutesAggregator() returns (result: Result<string, Error>, context: Context<int, string, string>)
    ensures result == Success(FakeAnswer)
    ensures context.expressions == []
  {
    result, context := ExecuteWithOneExpression<string>("");
  }

  /** The mapping form: integer-valued expressions, a string answer. */
  method ExecutesAggregatorWithMapping() returns (result: Result<string, Error>, context: Context<int, int, string>)
    ensures result == Success(FakeAnswer)
    ensures context.expressions == []
  {
    result, context := ExecuteWithOneExpression<int>(0);
  }
}
