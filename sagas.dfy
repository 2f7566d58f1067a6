/**
 * The reaction algebra: a saga maps an action result (typically an event) to
 * the actions (typically commands) to run next. It has no state.
 */
module Sagas {
  import opened Seqs

  datatype Saga<-AR(!new), A(!new)> = Saga(react: AR -> seq<A>)
  {
    /**
     * Contravariant on the action result: a wider result is narrowed by `f`
     * before reacting. (The older revision names it `mapLeftOnActionResult`.)
     */
    function MapContraOnActionResult<ARn(!new)>(f: ARn -> AR): (r: Saga<ARn, A>)
      ensures forall arn :: r.react(arn) == react(f(arn))
    {
      Saga((arn: ARn) => react(f(arn)))
    }

    /** Covariant on the action: every action is widened by `f`, same length, same order. */
    function MapOnAction<An(!new)>(f: A -> An): (r: Saga<AR, An>)
      ensures forall ar :: |r.react(ar)| == |react(ar)|
      ensures forall ar, i :: 0 <= i < |react(ar)| ==> r.react(ar)[i] == f(react(ar)[i])
    {
      Saga((ar: AR) => Map(f, react(ar)))
    }

    /**
     * Combines two sagas over the same action-result and action union. Both
     * react to the same input (the source's casts are erased at run time),
     * and this saga's actions come first.
     */
    function Combine(y: Saga<AR, A>): (r: Saga<AR, A>)
      ensures forall ar :: r.react(ar) == react(ar) + y.react(ar)
    {
      var sagaX := this.MapContraOnActionResult((en: AR) => en).MapOnAction((a: A) => a);
      var sagaY := y.MapContraOnActionResult((en: AR) => en).MapOnAction((a: A) => a);
      assert forall ar :: sagaX.react(ar) == react(ar) by {
        forall ar ensures sagaX.react(ar) == react(ar) {
          MapIdentity(react(ar));
        }
      }
      assert forall ar :: sagaY.react(ar) == y.react(ar) by {
        forall ar ensures sagaY.react(ar) == y.react(ar) {
          MapIdentity(y.react(ar));
        }
      }
      Saga((ar: AR) => sagaX.react(ar) + sagaY.react(ar))
    }
  }

  /** Mapping the identity over the actions leaves `react` unchanged. */
  lemma MapOnActionIdentity<AR(!new), A(!new)>(sg: Saga<AR, A>, ar: AR)
    ensures sg.MapOnAction((a: A) => a).react(ar) == sg.react(ar)
  {
    MapIdentity(sg.react(ar));
  }

  /** Two action maps in a row are one map with the composed function. */
  lemma MapOnActionCompose<AR(!new), A(!new), An(!new), An2(!new)>(sg: Saga<AR, A>, f: A -> An, g: An -> An2, ar: AR)
    ensures sg.MapOnAction(f).MapOnAction(g).react(ar) == sg.MapOnAction((a: A) => g(f(a))).react(ar)
  {
    var l, r := sg.MapOnAction(f).MapOnAction(g).react(ar), sg.MapOnAction((a: A) => g(f(a))).react(ar);
    assert forall i :: 0 <= i < |l| ==> l[i] == r[i];
  }

  /**
   * The combined saga's reaction is as long as both reactions together, and
   * it is empty exactly when both sub-sagas react with nothing.
   */
  lemma CombineEmpty<AR(!new), A(!new)>(x: Saga<AR, A>, y: Saga<AR, A>, ar: AR)
    ensures |x.Combine(y).react(ar)| == |x.react(ar)| + |y.react(ar)|
    ensures x.Combine(y).react(ar) == [] <==> x.react(ar) == [] && y.react(ar) == []
  {
  }
}
