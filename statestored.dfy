/**
 * The state-stored aggregate: the current state is fetched, the decider
 * decides events against it, and the state evolved by those events is saved
 * (the events themselves are not kept). With an optional saga, every command
 * the saga reacts with to those events is handled in turn, recursively,
 * starting from the state reached so far.
 *
 * As in the event-sourced model, the recursion takes `fuel`, the permitted
 * nesting depth of follow-ups; `None` means it would nest deeper. Without a
 * saga, or when the saga reacts with nothing, fuel is never consulted.
 */
module StateStored {
  import opened Seqs
  import opened Options
  import opened Deciders
  import opened Sagas
  import opened Repositories

  /** One decision: decide against `state`, then evolve `state` by the decided events. */
  function StepState<C(!new), S(!new), E(!new)>(d: SimpleDecider<C, S, E>, state: S, command: C): S
  {
    FoldLeft(d.evolve, state, d.decide(command, state))
  }

  /** `calculateNewState`: one decision, then the saga's follow-up commands, left to right. */
  function CalculatedState<C(!new), S(!new), E(!new)>(
    d: SimpleDecider<C, S, E>, saga: Option<Saga<E, C>>, fuel: nat, state: S, command: C): Option<S>
    decreases fuel, 0
  {
    var next := StepState(d, state, command);
    if saga.None? then Some(next)
    else
      var commands := FlatMap(saga.value.react, d.decide(command, state));
      if commands == [] then Some(next)
      else if fuel == 0 then None
      else ApplyFollowUps(d, saga.value, fuel - 1, next, commands)
  }

  /** Handles `commands` one after another, each from the state the previous one reached. */
  function ApplyFollowUps<C(!new), S(!new), E(!new)>(
    d: SimpleDecider<C, S, E>, sg: Saga<E, C>, fuel: nat, state: S, commands: seq<C>): Option<S>
    decreases fuel, |commands|
  {
    if commands == [] then Some(state)
    else match CalculatedState(d, Some(sg), fuel, state, commands[0])
      case None => None
      case Some(s) => ApplyFollowUps(d, sg, fuel, s, commands[1..])
  }

  /** Without a saga the new state is one decision's evolution, whatever the fuel. */
  lemma CalculatedWithoutSaga<C(!new), S(!new), E(!new)>(d: SimpleDecider<C, S, E>, fuel: nat, state: S, command: C)
    ensures CalculatedState(d, None, fuel, state, command)
         == Some(FoldLeft(d.evolve, state, d.decide(command, state)))
  {
  }

  /** When the saga reacts to none of the decided events, the saga changes nothing. */
  lemma CalculatedWithoutReactions<C(!new), S(!new), E(!new)>(
    d: SimpleDecider<C, S, E>, sg: Saga<E, C>, fuel: nat, state: S, command: C)
    requires forall i :: 0 <= i < |d.decide(command, state)| ==> sg.react(d.decide(command, state)[i]) == []
    ensures CalculatedState(d, Some(sg), fuel, state, command) == CalculatedState(d, None, fuel, state, command)
  {
    FlatMapEmpty(sg.react, d.decide(command, state));
  }

  /** Handling `c1 + c2` is handling `c1`, then `c2` from the state `c1` reached. */
  lemma {:induction false} ApplyFollowUpsSplit<C(!new), S(!new), E(!new)>(
    d: SimpleDecider<C, S, E>, sg: Saga<E, C>, fuel: nat, state: S, c1: seq<C>, c2: seq<C>)
    ensures ApplyFollowUps(d, sg, fuel, state, c1 + c2)
         == match ApplyFollowUps(d, sg, fuel, state, c1)
            case None => None
            case Some(s1) => ApplyFollowUps(d, sg, fuel, s1, c2)
    decreases |c1|
  {
    if c1 == [] {
      assert c1 + c2 == c2;
    } else {
      assert (c1 + c2)[0] == c1[0];
      assert (c1 + c2)[1..] == c1[1..] + c2;
      match CalculatedState(d, Some(sg), fuel, state, c1[0])
      case None =>
      case Some(s) =>
        ApplyFollowUpsSplit(d, sg, fuel, s, c1[1..], c2);
    }
  }

  /** A state obtained with some fuel is obtained, unchanged, with more. */
  lemma {:induction false} CalculatedFuelMonotone<C(!new), S(!new), E(!new)>(
    d: SimpleDecider<C, S, E>, saga: Option<Saga<E, C>>, fuel: nat, state: S, command: C)
    requires CalculatedState(d, saga, fuel, state, command).Some?
    ensures CalculatedState(d, saga, fuel + 1, state, command) == CalculatedState(d, saga, fuel, state, command)
    decreases fuel, 0
  {
    if saga.Some? {
      var commands := FlatMap(saga.value.react, d.decide(command, state));
      if commands != [] {
        ApplyFollowUpsFuelMonotone(d, saga.value, fuel - 1, StepState(d, state, command), commands);
      }
    }
  }

  /** `ApplyFollowUps` counterpart of `CalculatedFuelMonotone`. */
  lemma {:induction false} ApplyFollowUpsFuelMonotone<C(!new), S(!new), E(!new)>(
    d: SimpleDecider<C, S, E>, sg: Saga<E, C>, fuel: nat, state: S, commands: seq<C>)
    requires ApplyFollowUps(d, sg, fuel, state, commands).Some?
    ensures ApplyFollowUps(d, sg, fuel + 1, state, commands) == ApplyFollowUps(d, sg, fuel, state, commands)
    decreases fuel, |commands|
  {
    if commands != [] {
      var first := CalculatedState(d, Some(sg), fuel, state, commands[0]);
      assert first.Some?;
      CalculatedFuelMonotone(d, Some(sg), fuel, state, commands[0]);
      ApplyFollowUpsFuelMonotone(d, sg, fuel, first.value, commands[1..]);
    }
  }

  /** `StateStoredAggregate`: a decider, a state repository and an optional saga. */
  class StateStoredAggregate<C(!new), S(!new), E(!new)> {
    const decider: SimpleDecider<C, S, E>
    const stateRepository: InMemoryStateRepository<S>
    const saga: Option<Saga<E, C>>
    /** JavaScript truthiness on the state type, consulted on the fetched state. */
    const truthy: S -> bool

    constructor (decider: SimpleDecider<C, S, E>, stateRepository: InMemoryStateRepository<S>,
                 saga: Option<Saga<E, C>>, truthy: S -> bool)
      ensures this.decider == decider && this.stateRepository == stateRepository
      ensures this.saga == saga && this.truthy == truthy
    {
      this.decider := decider;
      this.stateRepository := stateRepository;
      this.saga := saga;
      this.truthy := truthy;
    }

    /**
     * The events are decided once; the state is evolved by them; then, with
     * a saga, each command it reacts with is handled from the state so far.
     */
    method CalculateNewState(state: S, command: C, fuel: nat) returns (r: Option<S>)
      ensures r == CalculatedState(decider, saga, fuel, state, command)
      decreases fuel
    {
      var events := decider.decide(command, state);
      var newState := FoldLeft(decider.evolve, state, events);
      if saga.None? {
        return Some(newState);
      }
      var commands := FlatMap(saga.value.react, events);
      if |commands| == 0 {
        return Some(newState);
      }
      if fuel == 0 {
        return None;
      }
      var i := 0;
      while i < |commands|
        invariant 0 <= i <= |commands|
        invariant CalculatedState(decider, saga, fuel, state, command)
               == ApplyFollowUps(decider, saga.value, fuel - 1, newState, commands[i..])
      {
        assert commands[i..][1..] == commands[i + 1..];
        var next := CalculateNewState(newState, commands[i], fuel - 1);
        if next.None? {
          return None;
        }
        newState := next.value;
        i := i + 1;
      }
      return Some(newState);
    }

    /**
     * Fetch the state (a missing or falsy state is replaced by the initial
     * state), calculate, and save; nothing is saved when the fuel runs out.
     */
    method Handle(command: C, fuel: nat) returns (saved: Option<S>)
      modifies stateRepository
      ensures saved == CalculatedState(decider, saga, fuel,
                         FetchedOrInitial(old(stateRepository.storage), truthy, decider.initialState), command)
      ensures saved.Some? ==> stateRepository.storage == saved
      ensures saved.None? ==> stateRepository.storage == old(stateRepository.storage)
    {
      var currentState := stateRepository.FetchState(command);
      var computed := CalculateNewState(FetchedOrInitial(currentState, truthy, decider.initialState), command, fuel);
      if computed.None? {
        return None;
      }
      var s := stateRepository.Save(computed.value);
      return Some(s);
    }
  }
}
