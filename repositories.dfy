/**
 * In-memory stand-ins for the injected persistence collaborators, shaped like
 * the test stubs: a single event stream, and a single stored state that is
 * `null` until the first save.
 */
module Repositories {
  import opened Options

  /** An event repository holding one stream; `fetchEvents` ignores the command, as the stubs do. */
  class InMemoryEventRepository<E> {
    var events: seq<E>

    constructor (initial: seq<E>)
      ensures events == initial
    {
      events := initial;
    }

    method FetchEvents<C>(command: C) returns (es: seq<E>)
      ensures es == events
    {
      es := events;
    }

    /** Appends one event and returns it. */
    method Save(e: E) returns (saved: E)
      modifies this
      ensures events == old(events) + [e]
      ensures saved == e
    {
      events := events + [e];
      saved := e;
    }

    /** Appends the events in order and returns them. */
    method SaveAll(es: seq<E>) returns (saved: seq<E>)
      modifies this
      ensures events == old(events) + es
      ensures saved == es
    {
      events := events + es;
      saved := es;
    }
  }

  /** A state (or view-state) repository; `fetchState` ignores its key, as the stubs do. */
  class InMemoryStateRepository<S> {
    var storage: Option<S>

    constructor (initial: Option<S>)
      ensures storage == initial
    {
      storage := initial;
    }

    method FetchState<K>(key: K) returns (s: Option<S>)
      ensures s == storage
    {
      s := storage;
    }

    /** Stores the state and returns it. */
    method Save(s: S) returns (saved: S)
      modifies this
      ensures storage == Some(s)
      ensures saved == s
    {
      storage := Some(s);
      saved := s;
    }
  }

  /**
   * `currentState ? currentState : initialState`: a fetched state is used only
   * when it is present and truthy; `truthy` is JavaScript truthiness on the
   * state type, so a stored `0` or `''` is replaced by the initial state too.
   */
  function FetchedOrInitial<S>(fetched: Option<S>, truthy: S -> bool, initialState: S): (s: S)
    ensures fetched.Some? && truthy(fetched.value) ==> s == fetched.value
    ensures !(fetched.Some? && truthy(fetched.value)) ==> s == initialState
  {
    if fetched.Some? && truthy(fetched.value) then fetched.value else initialState
  }

  /** JavaScript truthiness of a number: every number but `0` is truthy. */
  function NumberTruthy(n: int): bool { n != 0 }

  /** JavaScript truthiness of a string: every string but `''` is truthy. */
  function StringTruthy(s: string): bool { s != "" }

  /** JavaScript truthiness of a pair (an array): always truthy. */
  function PairTruthy<A, B>(p: (A, B)): bool { true }
}
