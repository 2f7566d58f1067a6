/**
 * The deciders, views and sagas of the library's own test files, rebuilt
 * over explicit sum types: the tests' TypeScript unions of number and string
 * (or of command classes) become the datatypes `Val` and `Cmd`, and each
 * `isNumber`/`isString`/`instanceof` test becomes a pattern match.
 */
module Fixtures {
  import opened Seqs
  import opened Options
  import opened Deciders
  import opened Views
  import opened Sagas
  import opened Repositories
  import opened EventSourcing
  import opened StateStored
  import opened MaterializedViews
  import opened SagaManagers
  import Consistency

  /** `number | string`, the event (and action) union of the domain tests. */
  datatype Val = Num(n: int) | Str(s: string)

  /** The odd commands carry numbers, the even commands carry strings, as in the domain decider test. */
  datatype Cmd = AddOdd(value: int) | MultiplyOdd(value: int) | AddEven(valueEven: string) | MultiplyEven(valueEven: string)

  /** The number decider: both odd commands decide their value; evolve adds number events. */
  function OddDecider(): Decider<Cmd, int, int, Val, Val>
  {
    Decider(
      (c: Cmd, s: int) => match c
        case AddOdd(v) => [Num(v)]
        case MultiplyOdd(v) => [Num(v)]
        case _ => [],
      (s: int, e: Val) => match e
        case Num(n) => s + n
        case Str(_) => s,
      0)
  }

  /** The string decider: both even commands decide their value; evolve appends string events. */
  function EvenDecider(): Decider<Cmd, string, string, Val, Val>
  {
    Decider(
      (c: Cmd, s: string) => match c
        case AddEven(v) => [Str(v)]
        case MultiplyEven(v) => [Str(v)]
        case _ => [],
      (s: string, e: Val) => match e
        case Str(x) => s + x
        case Num(_) => s,
      "0")
  }

  function NumView(): View<int, int, Val>
  {
    View((s: int, e: Val) => match e case Num(n) => s + n case Str(_) => s, 0)
  }

  function StrView(): View<string, string, Val>
  {
    View((s: string, e: Val) => match e case Str(x) => s + x case Num(_) => s, "")
  }

  /** Reacts to a number with that number. */
  function NumSaga(): Saga<Val, Val>
  {
    Saga((ar: Val) => match ar case Num(n) => [Num(n)] case Str(_) => [])
  }

  /** Reacts to a string with that string. */
  function StrSaga(): Saga<Val, Val>
  {
    Saga((ar: Val) => match ar case Str(x) => [Str(x)] case Num(_) => [])
  }

  /** The combined decider evolves each component by the events meant for it. */
  lemma CombinedDeciderEvolve()
    ensures OddDecider().Combine(EvenDecider()).evolve((0, "Yin"), Str("Yang")) == (0, "YinYang")
    ensures OddDecider().Combine(EvenDecider()).evolve((0, "Yin"), Num(1)) == (1, "Yin")
  {
    assert "Yin" + "Yang" == "YinYang";
  }

  /** The combined decider decides an odd command by the number decider alone. */
  lemma CombinedDeciderDecide()
    ensures OddDecider().Combine(EvenDecider()).decide(AddOdd(1), (0, "Yin")) == [Num(1)]
    ensures OddDecider().MapLeftOnCommand((c: Cmd) => c).decide(AddEven("test"), 1) == []
  {
  }

  lemma CombinedViewEvolve()
    ensures NumView().Combine(StrView()).evolve((0, "Yin"), Str("Yang")) == (0, "YinYang")
    ensures NumView().Combine(StrView()).evolve((0, "Yin"), Num(1)) == (1, "Yin")
  {
    assert "Yin" + "Yang" == "YinYang";
  }

  lemma CombinedSagaReact()
    ensures NumSaga().Combine(StrSaga()).react(Str("Yang")) == [Str("Yang")]
    ensures NumSaga().Combine(StrSaga()).react(Num(0)) == [Num(0)]
  {
    var combined := NumSaga().Combine(StrSaga());
    assert combined.react(Str("Yang")) == [] + [Str("Yang")];
    assert combined.react(Num(0)) == [Num(0)] + [];
  }

  /** The command union of the application tests, where every payload is a number. */
  datatype NumberCmd = AddOddNumber(value: int) | MultiplyOddNumber(value: int)
                     | AddEvenNumber(valueEven: int) | MultiplyEvenNumber(valueEven: int)

  /** Decides the odd commands' values; evolve adds. */
  function OddNumberDecider(): SimpleDecider<NumberCmd, int, int>
  {
    Decider(
      (c: NumberCmd, s: int) => match c
        case AddOddNumber(v) => [v]
        case MultiplyOddNumber(v) => [v]
        case _ => [],
      (s: int, e: int) => s + e,
      0)
  }

  /** Decides the even commands' values; evolve adds. */
  function EvenNumberDecider(): SimpleDecider<NumberCmd, int, int>
  {
    Decider(
      (c: NumberCmd, s: int) => match c
        case AddEvenNumber(v) => [v]
        case MultiplyEvenNumber(v) => [v]
        case _ => [],
      (s: int, e: int) => s + e,
      0)
  }

  /** An event-sourced aggregate over an empty stream decides `[1]` for `AddOddNumber(1)` and `[2]` for `AddEvenNumber(2)`. */
  method EventSourcedHandleScenario() returns (odd: seq<int>, even: seq<int>)
    ensures odd == [1] && even == [2]
  {
    var repository := new InMemoryEventRepository<int>([]);
    var aggregate := new EventSourcingAggregate(OddNumberDecider(), repository);
    odd := aggregate.Handle(AddOddNumber(1));
    var repository2 := new InMemoryEventRepository<int>([]);
    var aggregate2 := new EventSourcingAggregate(EvenNumberDecider(), repository2);
    even := aggregate2.Handle(AddEvenNumber(2));
  }

  /** A state-stored aggregate over empty storage, without a saga, saves `1` and `2`. */
  method StateStoredHandleScenario() returns (odd: Option<int>, even: Option<int>)
    ensures odd == Some(1) && even == Some(2)
  {
    var repository := new InMemoryStateRepository<int>(None);
    var aggregate := new StateStoredAggregate(OddNumberDecider(), repository, None, NumberTruthy);
    odd := aggregate.Handle(AddOddNumber(1), 0);
    FoldLeftSingle(OddNumberDecider().evolve, 0, 1);
    var repository2 := new InMemoryStateRepository<int>(None);
    var aggregate2 := new StateStoredAggregate(EvenNumberDecider(), repository2, None, NumberTruthy);
    even := aggregate2.Handle(AddEvenNumber(2), 0);
    FoldLeftSingle(EvenNumberDecider().evolve, 0, 2);
  }

  /** Materialized views over empty storage save `1` for `Num(1)` and `"Yin"` for `Str("Yin")`. */
  method MaterializedViewHandleScenario() returns (n: int, s: string)
    ensures n == 1 && s == "Yin"
  {
    var repository := new InMemoryStateRepository<int>(None);
    var numbers := new MaterializedView(NumView(), repository, NumberTruthy);
    n := numbers.Handle(Num(1));
    var repository2 := new InMemoryStateRepository<string>(None);
    var strings := new MaterializedView(StrView(), repository2, StringTruthy);
    s := strings.Handle(Str("Yin"));
  }

  /** The number and string views keep their replay in storage for any non-empty stream of events. */
  lemma FixtureViewsStoreReplay(events: seq<Val>)
    requires events != []
    ensures StoredAfter(NumView(), NumberTruthy, None, events) == Some(FoldLeft(NumView().evolve, 0, events))
    ensures StoredAfter(StrView(), StringTruthy, None, events) == Some(FoldLeft(StrView().evolve, "", events))
  {
    StoredAfterFromEmpty(NumView(), NumberTruthy, events);
    StoredAfterFromEmpty(StrView(), StringTruthy, events);
  }

  lemma SagaManagerHandle()
    ensures SagaManager(NumSaga(), EchoPublisher()).Handle(Num(1)) == [Num(1)]
    ensures SagaManager(StrSaga(), EchoPublisher()).Handle(Str("Yin")) == [Str("Yin")]
    ensures SagaManager(NumSaga().Combine(StrSaga()), EchoPublisher()).Handle(Str("Yin")) == [Str("Yin")]
    ensures SagaManager(NumSaga().Combine(StrSaga()), EchoPublisher()).Handle(Num(1)) == [Num(1)]
  {
  }

  /**
   * A saga over the combined decider's events: every number event is
   * followed by an even command carrying the digit `'1'`; strings cause nothing.
   */
  function FollowUpSaga(): Saga<Val, Cmd>
  {
    Saga((e: Val) => match e case Num(_) => [AddEven("1")] case Str(_) => [])
  }

  /**
   * Orchestrating `AddOdd(1)` on the combined decider from an empty history:
   * the saga's follow-up adds its own event after the first, and the
   * state-stored aggregate reaches the replay of both, with one level of fuel;
   * with none, both flavours run out.
   */
  lemma OrchestrationScenario()
    ensures OrchestratedEvents(OddDecider().Combine(EvenDecider()), FollowUpSaga(), 1, [], AddOdd(1))
         == Some([Num(1), Str("1")])
    ensures CalculatedState(OddDecider().Combine(EvenDecider()), Some(FollowUpSaga()), 1, (0, "0"), AddOdd(1))
         == Some((1, "01"))
    ensures OrchestratedEvents(OddDecider().Combine(EvenDecider()), FollowUpSaga(), 0, [], AddOdd(1)) == None
    ensures CalculatedState(OddDecider().Combine(EvenDecider()), Some(FollowUpSaga()), 0, (0, "0"), AddOdd(1)) == None
  {
    var d := OddDecider().Combine(EvenDecider());
    var sg := FollowUpSaga();
    assert d.decide(AddOdd(1), (0, "0")) == [Num(1)];
    assert FlatMap(sg.react, [Num(1)]) == [AddEven("1")];
    FoldLeftSingle(d.evolve, (0, "0"), Num(1));
    assert ReplayState(d, [] + [Num(1)]) == (1, "0");
    assert d.decide(AddEven("1"), (1, "0")) == [Str("1")];
    assert FlatMap(sg.react, [Str("1")]) == [];
    assert OrchestratedEvents(d, sg, 0, [] + [Num(1)], AddEven("1")) == Some([Str("1")]);
    assert [AddEven("1")][1..] == [];
    assert AppendFollowUps(d, sg, 0, [], [Num(1)], [AddEven("1")]) == Some([Num(1)] + [Str("1")]);
    assert [Num(1)] + [Str("1")] == [Num(1), Str("1")];
    Consistency.OrchestratedAggregatesAgree(d, sg, 1, [], AddOdd(1));
    Consistency.OrchestratedAggregatesAgree(d, sg, 0, [], AddOdd(1));
    FoldLeftAppend(d.evolve, (0, "0"), [Num(1)], [Str("1")]);
    FoldLeftSingle(d.evolve, (1, "0"), Str("1"));
    assert "0" + "1" == "01";
  }
}
