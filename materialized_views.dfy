/**
 * The materialized view: the query side. Each event is applied to the stored
 * projection state (or to the view's initial state when nothing usable is
 * stored), and the result is saved.
 */
module MaterializedViews {
  import opened Seqs
  import opened Options
  import opened Views
  import opened Repositories

  /** The state a materialized view evolves an event from, given what is stored. */
  function StartState<S(!new), E(!new)>(v: SimpleView<S, E>, truthy: S -> bool, stored: Option<S>): S
  {
    FetchedOrInitial(stored, truthy, v.initialState)
  }

  /**
   * The storage after handling `events` one at a time, starting from
   * `stored`: each event is evolved from the state fetched at that moment.
   */
  function StoredAfter<S(!new), E(!new)>(v: SimpleView<S, E>, truthy: S -> bool, stored: Option<S>, events: seq<E>): Option<S>
    decreases |events|
  {
    if events == [] then stored
    else StoredAfter(v, truthy, Some(v.evolve(StartState(v, truthy, stored), events[0])), events[1..])
  }

  /**
   * When every falsy state is the initial state (as for the number view
   * starting at `0` and the string view starting at `''`), handling events
   * one at a time stores their replay from the fetched start state.
   */
  lemma {:induction false} StoredAfterIsReplay<S(!new), E(!new)>(
    v: SimpleView<S, E>, truthy: S -> bool, stored: Option<S>, events: seq<E>)
    requires forall s :: !truthy(s) ==> s == v.initialState
    ensures events != [] ==>
              StoredAfter(v, truthy, stored, events) == Some(FoldLeft(v.evolve, StartState(v, truthy, stored), events))
    decreases |events|
  {
    if events != [] {
      var next := v.evolve(StartState(v, truthy, stored), events[0]);
      assert StartState(v, truthy, Some(next)) == next;
      if events[1..] != [] {
        StoredAfterIsReplay(v, truthy, Some(next), events[1..]);
      }
    }
  }

  /** From empty storage, the projection ends up as the replay of the events from the initial state. */
  lemma StoredAfterFromEmpty<S(!new), E(!new)>(v: SimpleView<S, E>, truthy: S -> bool, events: seq<E>)
    requires forall s :: !truthy(s) ==> s == v.initialState
    requires events != []
    ensures StoredAfter(v, truthy, None, events) == Some(FoldLeft(v.evolve, v.initialState, events))
  {
    StoredAfterIsReplay(v, truthy, None, events);
  }

  /** `MaterializedView`: a view and the repository its projection is stored in. */
  class MaterializedView<S(!new), E(!new)> {
    const view: SimpleView<S, E>
    const viewStateRepository: InMemoryStateRepository<S>
    /** JavaScript truthiness on the state type, consulted on the fetched state. */
    const truthy: S -> bool

    constructor (view: SimpleView<S, E>, viewStateRepository: InMemoryStateRepository<S>, truthy: S -> bool)
      ensures this.view == view && this.viewStateRepository == viewStateRepository && this.truthy == truthy
    {
      this.view := view;
      this.viewStateRepository := viewStateRepository;
      this.truthy := truthy;
    }

    /** Fetch, evolve by the event, save; returns the saved state. */
    method Handle(event: E) returns (saved: S)
      modifies viewStateRepository
      ensures saved == view.evolve(StartState(view, truthy, old(viewStateRepository.storage)), event)
      ensures viewStateRepository.storage == Some(saved)
      ensures viewStateRepository.storage == StoredAfter(view, truthy, old(viewStateRepository.storage), [event])
    {
      var currentState := viewStateRepository.FetchState(event);
      var newState := view.evolve(FetchedOrInitial(currentState, truthy, view.initialState), event);
      saved := viewStateRepository.Save(newState);
    }
  }
}
