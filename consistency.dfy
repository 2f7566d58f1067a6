/**
 * The two aggregate flavours agree: storing the state and storing the events
 * are two persistences of the same decision logic. Evolving the state
 * replayed from a history by the state-stored aggregate reaches the state
 * that the history extended by the event-sourced aggregate's new events
 * replays to, with and without a saga, and both run out of fuel together.
 */
module Consistency {
  import opened Seqs
  import opened Options
  import opened Deciders
  import opened Sagas
  import opened EventSourcing
  import opened StateStored

  /** The state an optional event list leads to after `history`. */
  function ReplayedAfter<C(!new), S(!new), E(!new)>(d: SimpleDecider<C, S, E>, history: seq<E>, newEvents: Option<seq<E>>): Option<S>
  {
    match newEvents
    case None => None
    case Some(es) => Some(ReplayState(d, history + es))
  }

  /** Without a saga: one decision, seen as new events or as a new state. */
  lemma PlainAggregatesAgree<C(!new), S(!new), E(!new)>(d: SimpleDecider<C, S, E>, fuel: nat, history: seq<E>, command: C)
    ensures CalculatedState(d, None, fuel, ReplayState(d, history), command)
         == Some(ReplayState(d, history + NewEvents(d, history, command)))
  {
    ReplayStateAppend(d, history, NewEvents(d, history, command));
  }

  /**
   * With a saga: the state-stored calculation from the replayed state is the
   * replay of the history followed by the orchestrated events.
   */
  lemma {:induction false} OrchestratedAggregatesAgree<C(!new), S(!new), E(!new)>(
    d: SimpleDecider<C, S, E>, sg: Saga<E, C>, fuel: nat, history: seq<E>, command: C)
    ensures CalculatedState(d, Some(sg), fuel, ReplayState(d, history), command)
         == ReplayedAfter(d, history, OrchestratedEvents(d, sg, fuel, history, command))
    decreases fuel, 0
  {
    var base := NewEvents(d, history, command);
    ReplayStateAppend(d, history, base);
    var commands := FlatMap(sg.react, base);
    if commands != [] && fuel > 0 {
      FollowUpsAgree(d, sg, fuel - 1, history, base, commands);
    }
  }

  /** `OrchestratedAggregatesAgree` for a list of follow-up commands and an accumulator. */
  lemma {:induction false} FollowUpsAgree<C(!new), S(!new), E(!new)>(
    d: SimpleDecider<C, S, E>, sg: Saga<E, C>, fuel: nat, history: seq<E>, acc: seq<E>, commands: seq<C>)
    ensures ApplyFollowUps(d, sg, fuel, ReplayState(d, history + acc), commands)
         == ReplayedAfter(d, history, AppendFollowUps(d, sg, fuel, history, acc, commands))
    decreases fuel, |commands|
  {
    if commands != [] {
      OrchestratedAggregatesAgree(d, sg, fuel, history + acc, commands[0]);
      match OrchestratedEvents(d, sg, fuel, history + acc, commands[0])
      case None =>
      case Some(more) =>
        assert (history + acc) + more == history + (acc + more);
        FollowUpsAgree(d, sg, fuel, history, acc + more, commands[1..]);
    }
  }

  /** From an empty history and the initial state, the two aggregates agree on a first command. */
  lemma FreshAggregatesAgree<C(!new), S(!new), E(!new)>(d: SimpleDecider<C, S, E>, sg: Saga<E, C>, fuel: nat, command: C)
    ensures CalculatedState(d, Some(sg), fuel, d.initialState, command)
         == ReplayedAfter(d, [], OrchestratedEvents(d, sg, fuel, [], command))
  {
    OrchestratedAggregatesAgree(d, sg, fuel, [], command);
  }
}
