# fmodel-ts in Dafny

A model of the core of fmodel-ts, a TypeScript library for functional domain
modelling. The model covers the domain algebras and the application layer
that runs them.

- **Decider** (`decide`, `evolve`, `initialState`): the command side.
- **View** (`evolve`, `initialState`): the query side.
- **Saga** (`react`): reacts to events with new commands.
- The combinators of these three algebras: the profunctor, functor and
  applicative maps, and `combine`, which merges two components into one.
- The application layer:
  - the event-sourced aggregate, plain and orchestrating;
  - the state-stored aggregate, with an optional saga;
  - the materialized view;
  - the saga manager.

Every algebra is an immutable value, so each is a Dafny `datatype` of total
functions. Each combinator is a member function whose `ensures` says
pointwise what the new component does. The laws are lemmas over an
`Equivalent` predicate (identity, composition, folding a combined component).

The application objects own injected repositories. Those repositories are
Dafny classes (`InMemoryEventRepository`, `InMemoryStateRepository`) shaped
like the library's test stubs. The aggregates and the materialized view are
classes whose `Handle` methods modify the repository.

The loops of the two recursive algorithms are written as `while` loops with
a recursive call. They are proved equal to specification functions:

- the event-sourced `computeNewEvents`, against `OrchestratedEvents`/`AppendFollowUps`;
- the state-stored `calculateNewState`, against `CalculatedState`/`ApplyFollowUps`.

The central theorem is `Consistency.OrchestratedAggregatesAgree`, which
relates the two persistence styles. Suppose the state-stored aggregate starts
from the state replayed from a history. It then reaches exactly the state to
which that history, followed by the orchestrating aggregate's new events,
replays. Both run out of fuel together.

Each file is one module:

- `seqs.dfy`: map, flatMap, reduce and their laws.
- `deciders.dfy`, `views.dfy`, `sagas.dfy`: the domain algebras.
- `options.dfy`: the optional value.
- `repositories.dfy`: the in-memory repositories and JavaScript truthiness.
- `eventsourcing.dfy`, `statestored.dfy`, `materialized_views.dfy`,
  `saga_managers.dfy`: the application layer.
- `consistency.dfy`: the agreement theorem.
- `fixtures.dfy`: the deciders, views and sagas of the library's tests, and
  the expected results of those tests.

The repository contains two revisions of the domain algebras. The newer one
is `src/lib/domain/*.ts` and the older one is `src/lib/decider.ts`,
`src/lib/view.ts` and `src/lib/saga.ts`. Their combinators have the same
bodies, so one set of members models both. The older revision's lines are:

- `src/lib/decider.ts`:
  - `mapLeftOnCommand` 35-41, `dimapOnEvent` 46-55, `mapLeftOnEvent` 60-62,
    `mapOnEvent` 67-69;
  - `dimapOnState` 74-83, `mapLeftOnState` 88-90, `mapOnState` 95-97;
  - `applyOnState` 102-110, `productOnState` 115-119, `combine` 124-149.
- `src/lib/view.ts`:
  - `mapLeftOnEvent` 28-33, `dimapOnState` 41-49, `mapLeftOnState` 56-58,
    `mapOnState` 65-67;
  - `applyOnState` 74-79, `productOnState` 86-88, `combine` 96-108.
- `src/lib/saga.ts`: `mapLeftOnActionResult` 22-24 (the newer
  `mapContraOnActionResult`), `mapOnAction` 29-31, `combine` 33-45.

In the newer view, `mapLeftOnState`, `mapOnState`, `applyOnState` and
`productOnState` are private. In the older view they are public. The model
states them once.

## Model

| member | source | states |
|---|---|---|
| Deciders.Decider.MapLeftOnCommand | src/lib/domain/decider.ts:90-96 | decides a wider command by narrowing it first; evolve and initial state unchanged |
| Deciders.Decider.DimapOnEvent | src/lib/domain/decider.ts:104-113 | decided events are widened one by one, same length and order; incoming events are narrowed before evolving |
| Deciders.Decider.MapLeftOnEvent | src/lib/domain/decider.ts:120-122 | decisions are unchanged (the identity map leaves them alone); evolve narrows the event first |
| Deciders.Decider.MapOnEvent | src/lib/domain/decider.ts:129-131 | every decided event is widened, same length and order; evolve unchanged |
| Deciders.Decider.DimapOnState | src/lib/domain/decider.ts:139-148 | decide and evolve see the narrowed state; evolve's result and the initial state are widened |
| Deciders.Decider.MapLeftOnState | src/lib/domain/decider.ts:155-157 | decide and evolve see the narrowed state; output state unchanged |
| Deciders.Decider.MapOnState | src/lib/domain/decider.ts:164-166 | evolve's result and the initial state are mapped; decide unchanged |
| Deciders.Decider.ApplyOnState | src/lib/domain/decider.ts:173-181 | decide is the function decider's events followed by this decider's; evolve and initial state apply the evolved function to the evolved state |
| Deciders.Decider.ProductOnState | src/lib/domain/decider.ts:188-192 | the state is the pair of both outputs; the second decider's events come first |
| Deciders.Decider.Combine | src/lib/domain/decider.ts:197-222 | on a pair state, decide is y's decision on the second component followed by x's on the first; evolve evolves each component by its own decider; initial state is the pair |
| Deciders.DimapOnEventIdentity | src/lib/domain/decider.ts:104-113 | dimapping identities on the events gives an equivalent decider |
| Deciders.DimapOnStateIdentity | src/lib/domain/decider.ts:139-148 | dimapping identities on the state gives an equivalent decider |
| Deciders.DimapOnEventCompose | src/lib/domain/decider.ts:104-113 | two event dimaps are one dimap with the composed functions |
| Deciders.DimapOnStateCompose | src/lib/domain/decider.ts:139-148 | two state dimaps are one dimap with the composed functions |
| Deciders.CombineFold | src/lib/domain/decider.ts:197-222 | folding any event list through the combined evolve gives the pair of the two separate folds |
| Deciders.CombineDecideDispatch | src/lib/domain/decider.ts:197-222 | a command one sub-decider decides nothing for yields exactly the other's events |
| Deciders.CombineEvolveDispatch | src/lib/domain/decider.ts:197-222 | an event a sub-decider ignores leaves that component of the combined state unchanged |
| Views.View.MapLeftOnEvent | src/lib/domain/view.ts:80-85 | evolve narrows the event first; initial state unchanged |
| Views.View.DimapOnState | src/lib/domain/view.ts:93-101 | evolve sees the narrowed state and its result is widened; the initial state is widened |
| Views.View.MapLeftOnState | src/lib/domain/view.ts:108-110 | evolve sees the narrowed state; output unchanged |
| Views.View.MapOnState | src/lib/domain/view.ts:117-119 | evolve's result and the initial state are mapped |
| Views.View.ApplyOnState | src/lib/domain/view.ts:126-133 | the evolved function is applied to the evolved state, and likewise for the initial states |
| Views.View.ProductOnState | src/lib/domain/view.ts:140-144 | the state is the pair of both views' outputs on the same state and event |
| Views.View.Combine | src/lib/domain/view.ts:150-162 | on a pair state each component is evolved by its own view on the same event; initial state is the pair |
| Views.DimapOnStateIdentity | src/lib/domain/view.ts:93-101 | dimapping identities gives an equivalent view |
| Views.DimapOnStateCompose | src/lib/domain/view.ts:93-101 | two state dimaps are one dimap with the composed functions |
| Views.MapLeftOnEventFold | src/lib/domain/view.ts:80-85 | folding events through the narrowed view equals folding the narrowed events through the original |
| Views.CombineFold | src/lib/domain/view.ts:150-162 | folding any event list through the combined view gives the pair of the two separate folds |
| Views.CombineReplay | src/lib/domain/view.ts:150-162 | replaying from the combined initial state gives each view's own replay |
| Sagas.Saga.MapContraOnActionResult | src/lib/domain/saga.ts:50-52 | reacts to a wider action result by narrowing it first |
| Sagas.Saga.MapOnAction | src/lib/domain/saga.ts:59-61 | every action is mapped, same length and order |
| Sagas.Saga.Combine | src/lib/domain/saga.ts:68-80 | reacts with x's actions followed by y's |
| Sagas.MapOnActionIdentity | src/lib/domain/saga.ts:59-61 | mapping the identity leaves the reaction unchanged |
| Sagas.MapOnActionCompose | src/lib/domain/saga.ts:59-61 | two action maps are one map with the composed function |
| Sagas.CombineEmpty | src/lib/domain/saga.ts:68-80 | the combined reaction's length is the sum; it is empty exactly when both reactions are |
| Repositories.InMemoryEventRepository.FetchEvents | src/lib/application/eventsourcing-aggregate.ts:195 | returns the stored stream |
| Repositories.InMemoryEventRepository.Save | src/lib/application/eventsourcing-aggregate.ts:203 | appends the event and returns it |
| Repositories.InMemoryEventRepository.SaveAll | src/lib/application/eventsourcing-aggregate.ts:211 | appends the events in order and returns them |
| Repositories.InMemoryStateRepository.FetchState | src/lib/application/statestored-aggregate.ts:95 | returns the stored state, or nothing when none was saved |
| Repositories.InMemoryStateRepository.Save | src/lib/application/statestored-aggregate.ts:103 | stores the state and returns it |
| EventSourcing.ReplayStateAppend | src/lib/application/eventsourcing-aggregate.ts:103-106 | replaying a concatenated history continues from the first part's state |
| EventSourcing.NewEventsEmptyHistory | src/lib/application/eventsourcing-aggregate.ts:103-106 | with no history the command is decided against the initial state |
| EventSourcing.EventSourcingAggregate.Handle | src/lib/application/eventsourcing-aggregate.ts:114-117 | returns the events decided against the replayed stored history, and the stream grows by exactly them |
| EventSourcing.EventSourcingOrchestratingAggregate.ComputeNewEvents | src/lib/application/eventsourcing-aggregate.ts:162-176 | the loop with its recursive calls computes `OrchestratedEvents`: the plain decision, then the events of each follow-up command in order, each decided against the history extended by everything so far |
| EventSourcing.EventSourcingOrchestratingAggregate.Handle | src/lib/application/eventsourcing-aggregate.ts:114-117 | saves and returns the orchestrated events; when the fuel runs out nothing is saved |
| EventSourcing.OrchestratedExtendsBase | src/lib/application/eventsourcing-aggregate.ts:162-176 | the orchestrated result starts with the plain decision's events |
| EventSourcing.AppendFollowUpsExtends | src/lib/application/eventsourcing-aggregate.ts:168-173 | handling follow-ups only appends to what was accumulated |
| EventSourcing.OrchestratedWithoutReactions | src/lib/application/eventsourcing-aggregate.ts:162-176 | when the saga reacts to none of the new events, the result is the plain decision, whatever the fuel |
| EventSourcing.AppendFollowUpsSplit | src/lib/application/eventsourcing-aggregate.ts:166-173 | handling two lists of follow-ups is handling the first, then the second from where it ended |
| EventSourcing.OrchestratedFuelMonotone | src/lib/application/eventsourcing-aggregate.ts:162-176 | a result obtained with some fuel is obtained unchanged with more |
| EventSourcing.AppendFollowUpsFuelMonotone | src/lib/application/eventsourcing-aggregate.ts:166-173 | the same for a list of follow-up commands |
| StateStored.StateStoredAggregate.CalculateNewState | src/lib/application/statestored-aggregate.ts:46-58 | the loop with its recursive calls computes `CalculatedState`: evolve by the decided events, then, with a saga, handle each command it reacts with from the state so far |
| StateStored.StateStoredAggregate.Handle | src/lib/application/statestored-aggregate.ts:66-74 | calculates from the fetched state (the initial state when none or a falsy one is stored), saves and returns it; nothing is saved when the fuel runs out |
| StateStored.CalculatedWithoutSaga | src/lib/application/statestored-aggregate.ts:46-50 | without a saga the new state is the state evolved by the decided events, whatever the fuel |
| StateStored.CalculatedWithoutReactions | src/lib/application/statestored-aggregate.ts:51-56 | a saga that reacts to none of the decided events changes nothing |
| StateStored.ApplyFollowUpsSplit | src/lib/application/statestored-aggregate.ts:53-55 | handling two lists of follow-ups is handling the first, then the second from the state it reached |
| StateStored.CalculatedFuelMonotone | src/lib/application/statestored-aggregate.ts:46-58 | a state obtained with some fuel is obtained unchanged with more |
| StateStored.ApplyFollowUpsFuelMonotone | src/lib/application/statestored-aggregate.ts:53-55 | the same for a list of follow-up commands |
| Consistency.PlainAggregatesAgree | src/lib/application/statestored-aggregate.ts:46-50 | without a saga, the state-stored result from the replayed state is the replay of the history followed by the event-sourced new events |
| Consistency.OrchestratedAggregatesAgree | src/lib/application/eventsourcing-aggregate.ts:162-176 | with a saga, the state-stored calculation from the replayed state is the replay of the history followed by the orchestrated events, and both run out of fuel together |
| Consistency.FollowUpsAgree | src/lib/application/statestored-aggregate.ts:53-55 | the same agreement for a list of follow-up commands and the events accumulated so far |
| Consistency.FreshAggregatesAgree | src/lib/application/statestored-aggregate.ts:66-74 | from an empty history and the initial state, the two aggregates agree |
| MaterializedViews.MaterializedView.Handle | src/lib/application/materialized-view.ts:77-84 | evolves the fetched state (the initial state when none or a falsy one is stored) by the event, saves and returns it |
| MaterializedViews.StoredAfterIsReplay | src/lib/application/materialized-view.ts:77-84 | when every falsy state is the initial state, handling events one at a time stores their replay |
| MaterializedViews.StoredAfterFromEmpty | src/lib/application/materialized-view.ts:77-84 | under the same condition, starting from empty storage the projection is the replay from the initial state |
| SagaManagers.HandleIgnoresPublish | src/lib/application/saga-manager.ts:47-49 | the result depends only on `publishAll` |
| SagaManagers.HandleWithEchoPublisher | src/lib/application/saga-manager.ts:47-49 | with a publisher echoing its input, the manager returns the saga's reaction |
| SagaManagers.CombinedHandle | src/lib/application/saga-manager.ts:47-49 | a manager over a combined saga returns the first saga's actions followed by the second's |
| Fixtures.CombinedDeciderEvolve | src/lib/domain/decider.spec.ts:107-116 | the combined test decider evolves `(0, 'Yin')` by `'Yang'` to `(0, 'YinYang')` and by `1` to `(1, 'Yin')` |
| Fixtures.CombinedDeciderDecide | src/lib/domain/decider.spec.ts:122-153 | an even command decides nothing on the widened number decider; the combined decider decides `[1]` for `AddOddNumberCmd(1)` |
| Fixtures.CombinedViewEvolve | src/lib/domain/view.spec.ts:51-57 | the combined test view evolves `(0, 'Yin')` to `(0, 'YinYang')` and `(1, 'Yin')` |
| Fixtures.CombinedSagaReact | src/lib/domain/saga.spec.ts:51-57 | the combined test saga reacts to `'Yang'` with `['Yang']` and to `0` with `[0]` |
| Fixtures.EventSourcedHandleScenario | src/lib/application/eventsourcing-aggregate.spec.ts:159-165 | over empty streams the aggregates return `[1]` and `[2]` |
| Fixtures.StateStoredHandleScenario | src/lib/application/statestored-aggregate.spec.ts:143-149 | over empty storage the aggregates save and return `1` and `2` |
| Fixtures.MaterializedViewHandleScenario | src/lib/application/materialized-view.spec.ts:91-97 | over empty storage the views save and return `1` and `'Yin'` |
| Fixtures.FixtureViewsStoreReplay | src/lib/application/materialized-view.spec.ts:34-52 | the number and string test views store the replay of any non-empty event stream |
| Fixtures.SagaManagerHandle | src/lib/application/saga-manager.spec.ts:98-112 | the test managers return `[1]`, `['Yin']`, and the same through the combined saga |
| Fixtures.OrchestrationScenario | src/lib/application/eventsourcing-aggregate.ts:162-176 | with a saga following each number with an even command, `AddOdd(1)` orchestrates to two events and a state `(1, '01')` with one level of fuel; with none, both aggregates run out |

## Left out

- Promises and `async`: every repository call returns its value directly, in
  program order.
- Real persistence: the repositories are in-memory classes holding a single
  stream or a single state. `fetchEvents` and `fetchState` ignore the command
  or event they are given, as the test stubs do.
- Real publishing: `ActionPublisher` is a pair of functions passed in, and
  `publish` is never called by the saga manager.
- `console.log` in the test views and the `never` branches of the tests are
  not modelled. The tests' `number | string` unions become the sum types
  `Val` and `Cmd`, and `isNumber`, `isString` and `instanceof` become
  pattern matches.
- EventSourcing.EventSourcingOrchestratingAggregate.ComputeNewEvents: the
  source's recursion has no bound and diverges when a saga keeps reacting.
  The model bounds the nesting depth of follow-up commands by `fuel` and
  returns no result when the bound is reached. Fuel is consulted only when
  there are follow-ups, and more fuel never changes a result already
  obtained. A computation that does not terminate in the source is one that
  runs out for every fuel.
- StateStored.StateStoredAggregate.CalculateNewState: bounded by `fuel` in
  the same way.
- The type-level union of `combine` (`C | C2`, `Ei | Ei2`, `Eo | Eo2`,
  `AR | AR2`, `A | A2`): both components must already share the union types.
  The `as` casts are erased at run time, so they are identity functions here.
- The `Decider`, `View` and `_Decider`/`_View` class split: `SimpleDecider`
  and `SimpleView` are type synonyms of the general datatypes. The
  `IDecider`/`I_View`/`ISaga` interfaces are not separate entities.
- `currentState ? currentState : initialState` tests JavaScript truthiness,
  not only `null`. A stored `0`, `''` or `false` is therefore also replaced
  by the initial state. The model keeps this through a `truthy` function
  that the aggregate and the view are given (`NumberTruthy`, `StringTruthy`).
  `MaterializedViews.StoredAfterIsReplay` states when it makes no
  difference.
- The event-sourced test stubs call `storage.concat(...)` and discard the
  result, so their stream never grows. The model's repository appends, as
  the `saveAll` contract describes.
- The test `decider2` in `eventsourcing-aggregate.spec.ts` evolves only
  string events, although its events are numbers. `EvenNumberDecider` adds
  them. The test only decides against an empty history, so it never calls
  that evolve.
- That test also passes a third constructor argument `undefined`, which the
  constructor does not take. It is omitted.
- The orchestrating aggregate's `react` field is read through `saga.react`;
  the fields that the constructors copy from the decider and the repository
  are read through them in the same way.
- `src/index.ts`, `src/pages` and the documentation site are not part of
  this model.
