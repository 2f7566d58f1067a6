/**
 * The saga manager: a stateless process orchestrator that reacts to an action
 * result and hands the resulting actions to an action publisher.
 */
module SagaManagers {
  import opened Seqs
  import opened Sagas

  /**
   * The injected publisher of actions downstream. Publishing is outside the
   * model; what is kept is what each call returns.
   */
  datatype ActionPublisher<!A> = ActionPublisher(publish: A -> A, publishAll: seq<A> -> seq<A>)

  /** A publisher that returns what it is given, as the test publishers do. */
  function EchoPublisher<A(!new)>(): (p: ActionPublisher<A>)
    ensures forall a :: p.publish(a) == a
    ensures forall actions :: p.publishAll(actions) == actions
  {
    ActionPublisher((a: A) => a, (actions: seq<A>) => actions)
  }

  datatype SagaManager<-AR(!new), !A(!new)> = SagaManager(saga: Saga<AR, A>, actionPublisher: ActionPublisher<A>)
  {
    /** `handle`: what `publishAll` returns for the saga's reaction. */
    function Handle(actionResult: AR): seq<A>
    {
      actionPublisher.publishAll(saga.react(actionResult))
    }
  }

  /** The manager never publishes one action at a time: `publish` has no influence on `Handle`. */
  lemma HandleIgnoresPublish<AR(!new), A(!new)>(m: SagaManager<AR, A>, publish: A -> A, ar: AR)
    ensures SagaManager(m.saga, ActionPublisher(publish, m.actionPublisher.publishAll)).Handle(ar) == m.Handle(ar)
  {
  }

  /** With a publisher that echoes its input, the manager returns the saga's reaction. */
  lemma HandleWithEchoPublisher<AR(!new), A(!new)>(sg: Saga<AR, A>, ar: AR)
    ensures SagaManager(sg, EchoPublisher()).Handle(ar) == sg.react(ar)
  {
  }

  /**
   * A manager over a combined saga with an echoing publisher returns the
   * first saga's actions followed by the second's.
   */
  lemma CombinedHandle<AR(!new), A(!new)>(x: Saga<AR, A>, y: Saga<AR, A>, ar: AR)
    ensures SagaManager(x.Combine(y), EchoPublisher()).Handle(ar)
         == SagaManager(x, EchoPublisher()).Handle(ar) + SagaManager(y, EchoPublisher()).Handle(ar)
  {
  }
}
