/**
 * The event-sourced aggregate: the current state is the replay of the stored
 * history, the decider decides the new events against it, and they are saved.
 * The orchestrating variant also lets a saga react to the new events with
 * follow-up commands, each handled recursively against the history extended
 * by everything produced so far.
 *
 * The source's recursion has no bound and diverges when the saga keeps
 * reacting. Here it takes `fuel`, the permitted nesting depth of follow-ups:
 * `None` means the computation would nest deeper than that (possibly without
 * end). Fuel is consulted only when there are follow-up commands to handle,
 * and more fuel never changes a result already obtained (`OrchestratedFuelMonotone`).
 */
module EventSourcing {
  import opened Seqs
  import opened Options
  import opened Deciders
  import opened Sagas
  import opened Repositories

  /** `events.reduce(evolve, initialState)`: the state a history replays to. */
  function ReplayState<C(!new), S(!new), E(!new)>(d: SimpleDecider<C, S, E>, events: seq<E>): S
  {
    FoldLeft(d.evolve, d.initialState, events)
  }

  /** The plain aggregate's `computeNewEvents`: decide against the replayed history. */
  function NewEvents<C(!new), S(!new), E(!new)>(d: SimpleDecider<C, S, E>, events: seq<E>, command: C): seq<E>
  {
    d.decide(command, ReplayState(d, events))
  }

  /**
   * The orchestrating aggregate's `computeNewEvents`: the plain decision,
   * followed by the events of every command the saga reacts with to the
   * plain decision's events, in order.
   */
  function OrchestratedEvents<C(!new), S(!new), E(!new)>(
    d: SimpleDecider<C, S, E>, sg: Saga<E, C>, fuel: nat, events: seq<E>, command: C): Option<seq<E>>
    decreases fuel, 0
  {
    var base := NewEvents(d, events, command);
    var commands := FlatMap(sg.react, base);
    if commands == [] then Some(base)
    else if fuel == 0 then None
    else AppendFollowUps(d, sg, fuel - 1, events, base, commands)
  }

  /**
   * Handles `commands` one after another: each is orchestrated against
   * `events + acc`, where `acc` holds everything produced so far, and its
   * events are appended to `acc`.
   */
  function AppendFollowUps<C(!new), S(!new), E(!new)>(
    d: SimpleDecider<C, S, E>, sg: Saga<E, C>, fuel: nat, events: seq<E>, acc: seq<E>, commands: seq<C>): Option<seq<E>>
    decreases fuel, |commands|
  {
    if commands == [] then Some(acc)
    else match OrchestratedEvents(d, sg, fuel, events + acc, commands[0])
      case None => None
      case Some(more) => AppendFollowUps(d, sg, fuel, events, acc + more, commands[1..])
  }

  /** Replaying a longer history continues from where the shorter one ended. */
  lemma ReplayStateAppend<C(!new), S(!new), E(!new)>(d: SimpleDecider<C, S, E>, h1: seq<E>, h2: seq<E>)
    ensures ReplayState(d, h1 + h2) == FoldLeft(d.evolve, ReplayState(d, h1), h2)
  {
    FoldLeftAppend(d.evolve, d.initialState, h1, h2);
  }

  /** With an empty history the command is decided against the initial state. */
  lemma NewEventsEmptyHistory<C(!new), S(!new), E(!new)>(d: SimpleDecider<C, S, E>, command: C)
    ensures NewEvents(d, [], command) == d.decide(command, d.initialState)
  {
  }

  /** Follow-ups only ever append: what was accumulated stays a prefix of the result. */
  lemma {:induction false} AppendFollowUpsExtends<C(!new), S(!new), E(!new)>(
    d: SimpleDecider<C, S, E>, sg: Saga<E, C>, fuel: nat, events: seq<E>, acc: seq<E>, commands: seq<C>)
    ensures AppendFollowUps(d, sg, fuel, events, acc, commands).Some? ==>
              acc <= AppendFollowUps(d, sg, fuel, events, acc, commands).value
    decreases |commands|
  {
    if commands != [] {
      match OrchestratedEvents(d, sg, fuel, events + acc, commands[0])
      case None =>
      case Some(more) =>
        AppendFollowUpsExtends(d, sg, fuel, events, acc + more, commands[1..]);
    }
  }

  /** The orchestrated result always starts with the plain decision's events. */
  lemma OrchestratedExtendsBase<C(!new), S(!new), E(!new)>(
    d: SimpleDecider<C, S, E>, sg: Saga<E, C>, fuel: nat, events: seq<E>, command: C)
    ensures OrchestratedEvents(d, sg, fuel, events, command).Some? ==>
              NewEvents(d, events, command) <= OrchestratedEvents(d, sg, fuel, events, command).value
  {
    var base := NewEvents(d, events, command);
    if FlatMap(sg.react, base) != [] && fuel > 0 {
      AppendFollowUpsExtends(d, sg, fuel - 1, events, base, FlatMap(sg.react, base));
    }
  }

  /**
   * When the saga reacts to none of the plain decision's events, the
   * orchestrated result is the plain result, whatever the fuel.
   */
  lemma OrchestratedWithoutReactions<C(!new), S(!new), E(!new)>(
    d: SimpleDecider<C, S, E>, sg: Saga<E, C>, fuel: nat, events: seq<E>, command: C)
    requires forall i :: 0 <= i < |NewEvents(d, events, command)| ==> sg.react(NewEvents(d, events, command)[i]) == []
    ensures OrchestratedEvents(d, sg, fuel, events, command) == Some(NewEvents(d, events, command))
  {
    FlatMapEmpty(sg.react, NewEvents(d, events, command));
  }

  /**
   * Handling `c1 + c2` is handling `c1`, then handling `c2` starting from
   * what `c1` accumulated: left to right, each against the history so far.
   */
  lemma {:induction false} AppendFollowUpsSplit<C(!new), S(!new), E(!new)>(
    d: SimpleDecider<C, S, E>, sg: Saga<E, C>, fuel: nat, events: seq<E>, acc: seq<E>, c1: seq<C>, c2: seq<C>)
    ensures AppendFollowUps(d, sg, fuel, events, acc, c1 + c2)
         == match AppendFollowUps(d, sg, fuel, events, acc, c1)
            case None => None
            case Some(acc1) => AppendFollowUps(d, sg, fuel, events, acc1, c2)
    decreases |c1|
  {
    if c1 == [] {
      assert c1 + c2 == c2;
    } else {
      assert (c1 + c2)[0] == c1[0];
      assert (c1 + c2)[1..] == c1[1..] + c2;
      match OrchestratedEvents(d, sg, fuel, events + acc, c1[0])
      case None =>
      case Some(more) =>
        AppendFollowUpsSplit(d, sg, fuel, events, acc + more, c1[1..], c2);
    }
  }

  /** A result obtained with some fuel is obtained, unchanged, with more. */
  lemma {:induction false} OrchestratedFuelMonotone<C(!new), S(!new), E(!new)>(
    d: SimpleDecider<C, S, E>, sg: Saga<E, C>, fuel: nat, events: seq<E>, command: C)
    requires OrchestratedEvents(d, sg, fuel, events, command).Some?
    ensures OrchestratedEvents(d, sg, fuel + 1, events, command) == OrchestratedEvents(d, sg, fuel, events, command)
    decreases fuel, 0
  {
    var base := NewEvents(d, events, command);
    var commands := FlatMap(sg.react, base);
    if commands != [] {
      AppendFollowUpsFuelMonotone(d, sg, fuel - 1, events, base, commands);
    }
  }

  /** `AppendFollowUps` counterpart of `OrchestratedFuelMonotone`. */
  lemma {:induction false} AppendFollowUpsFuelMonotone<C(!new), S(!new), E(!new)>(
    d: SimpleDecider<C, S, E>, sg: Saga<E, C>, fuel: nat, events: seq<E>, acc: seq<E>, commands: seq<C>)
    requires AppendFollowUps(d, sg, fuel, events, acc, commands).Some?
    ensures AppendFollowUps(d, sg, fuel + 1, events, acc, commands) == AppendFollowUps(d, sg, fuel, events, acc, commands)
    decreases fuel, |commands|
  {
    if commands != [] {
      var first := OrchestratedEvents(d, sg, fuel, events + acc, commands[0]);
      assert first.Some?;
      OrchestratedFuelMonotone(d, sg, fuel, events + acc, commands[0]);
      AppendFollowUpsFuelMonotone(d, sg, fuel, events, acc + first.value, commands[1..]);
    }
  }

  /** `EventSourcingAggregate`: fetch the history, decide, save everything decided with `saveAll`. */
  class EventSourcingAggregate<C(!new), S(!new), E(!new)> {
    const decider: SimpleDecider<C, S, E>
    const eventRepository: InMemoryEventRepository<E>

    constructor (decider: SimpleDecider<C, S, E>, eventRepository: InMemoryEventRepository<E>)
      ensures this.decider == decider && this.eventRepository == eventRepository
    {
      this.decider := decider;
      this.eventRepository := eventRepository;
    }

    /** Returns exactly what `saveAll` returns for the newly decided events. */
    method Handle(command: C) returns (saved: seq<E>)
      modifies eventRepository
      ensures saved == NewEvents(decider, old(eventRepository.events), command)
      ensures eventRepository.events == old(eventRepository.events) + saved
    {
      var currentEvents := eventRepository.FetchEvents(command);
      saved := eventRepository.SaveAll(NewEvents(decider, currentEvents, command));
    }
  }

  /** `EventSourcingOrchestratingAggregate`: the aggregate with a saga driving follow-up commands. */
  class EventSourcingOrchestratingAggregate<C(!new), S(!new), E(!new)> {
    const decider: SimpleDecider<C, S, E>
    const eventRepository: InMemoryEventRepository<E>
    const saga: Saga<E, C>

    constructor (decider: SimpleDecider<C, S, E>, eventRepository: InMemoryEventRepository<E>, saga: Saga<E, C>)
      ensures this.decider == decider && this.eventRepository == eventRepository && this.saga == saga
    {
      this.decider := decider;
      this.eventRepository := eventRepository;
      this.saga := saga;
    }

    /**
     * The follow-up commands are computed once, from the plain decision's
     * events; each is then orchestrated against the history extended by the
     * events accumulated so far, and its events are appended.
     */
    method ComputeNewEvents(events: seq<E>, command: C, fuel: nat) returns (r: Option<seq<E>>)
      ensures r == OrchestratedEvents(decider, saga, fuel, events, command)
      decreases fuel
    {
      var resultingEvents := NewEvents(decider, events, command);
      var commands := FlatMap(saga.react, resultingEvents);
      if |commands| == 0 {
        return Some(resultingEvents);
      }
      if fuel == 0 {
        return None;
      }
      var i := 0;
      while i < |commands|
        invariant 0 <= i <= |commands|
        invariant OrchestratedEvents(decider, saga, fuel, events, command)
               == AppendFollowUps(decider, saga, fuel - 1, events, resultingEvents, commands[i..])
      {
        assert commands[i..][1..] == commands[i + 1..];
        var more := ComputeNewEvents(events + resultingEvents, commands[i], fuel - 1);
        if more.None? {
          return None;
        }
        resultingEvents := resultingEvents + more.value;
        i := i + 1;
      }
      return Some(resultingEvents);
    }

    /** Fetch, orchestrate, and save what was computed; nothing is saved when the fuel runs out. */
    method Handle(command: C, fuel: nat) returns (saved: Option<seq<E>>)
      modifies eventRepository
      ensures saved == OrchestratedEvents(decider, saga, fuel, old(eventRepository.events), command)
      ensures eventRepository.events == old(eventRepository.events) + (if saved.Some? then saved.value else [])
    {
      var currentEvents := eventRepository.FetchEvents(command);
      var computed := ComputeNewEvents(currentEvents, command, fuel);
      if computed.None? {
        return None;
      }
      var s := eventRepository.SaveAll(computed.value);
      return Some(s);
    }
  }
}
