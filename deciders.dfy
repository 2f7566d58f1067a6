/**
 * The decision-making algebra: a decider holds a `decide` function from a
 * command and an input state to the events it produces, an `evolve` function
 * from an input state and an input event to the output state, and the initial
 * state. Every combinator builds a new decider out of the old one's functions;
 * nothing is ever updated in place.
 *
 * The five type parameters are those of `_Decider`: command `C`, input and
 * output state `Si`/`So`, input and output event `Ei`/`Eo`.
 */
module Deciders {
  import opened Seqs

  datatype Decider<-C(!new), -Si(!new), So(!new), -Ei(!new), Eo(!new)> = Decider(
    decide: (C, Si) -> seq<Eo>,
    evolve: (Si, Ei) -> So,
    initialState: So)
  {
    /** Contravariant on the command: a wider command is narrowed by `f` before deciding. */
    function MapLeftOnCommand<Cn(!new)>(f: Cn -> C): (r: Decider<Cn, Si, So, Ei, Eo>)
      ensures forall cn, s :: r.decide(cn, s) == decide(f(cn), s)
      ensures forall s, e :: r.evolve(s, e) == evolve(s, e)
      ensures r.initialState == initialState
    {
      Decider((cn: Cn, s: Si) => decide(f(cn), s), (s: Si, e: Ei) => evolve(s, e), initialState)
    }

    /**
     * Profunctor on the event: incoming events are narrowed by `fl` before
     * evolving, outgoing events are widened one by one by `fr` after deciding.
     */
    function DimapOnEvent<Ein(!new), Eon(!new)>(fl: Ein -> Ei, fr: Eo -> Eon): (r: Decider<C, Si, So, Ein, Eon>)
      ensures forall c, s :: |r.decide(c, s)| == |decide(c, s)|
      ensures forall c, s, i :: 0 <= i < |decide(c, s)| ==> r.decide(c, s)[i] == fr(decide(c, s)[i])
      ensures forall s, ein :: r.evolve(s, ein) == evolve(s, fl(ein))
      ensures r.initialState == initialState
    {
      Decider((c: C, s: Si) => Map(fr, decide(c, s)), (s: Si, ein: Ein) => evolve(s, fl(ein)), initialState)
    }

    /** `DimapOnEvent` with the identity on the output side. */
    function MapLeftOnEvent<Ein(!new)>(f: Ein -> Ei): (r: Decider<C, Si, So, Ein, Eo>)
      ensures forall c, s :: r.decide(c, s) == decide(c, s)
      ensures forall s, ein :: r.evolve(s, ein) == evolve(s, f(ein))
      ensures r.initialState == initialState
    {
      var d := DimapOnEvent(f, (eo: Eo) => eo);
      assert forall c, s :: d.decide(c, s) == decide(c, s) by {
        forall c, s ensures d.decide(c, s) == decide(c, s) {
          MapIdentity(decide(c, s));
        }
      }
      d
    }

    /** `DimapOnEvent` with the identity on the input side. */
    function MapOnEvent<Eon(!new)>(f: Eo -> Eon): (r: Decider<C, Si, So, Ei, Eon>)
      ensures forall c, s :: |r.decide(c, s)| == |decide(c, s)|
      ensures forall c, s, i :: 0 <= i < |decide(c, s)| ==> r.decide(c, s)[i] == f(decide(c, s)[i])
      ensures forall s, e :: r.evolve(s, e) == evolve(s, e)
      ensures r.initialState == initialState
    {
      DimapOnEvent((ei: Ei) => ei, f)
    }

    /**
     * Profunctor on the state: the new input state is narrowed by `fl` on the
     * way in, the output state widened by `fr` on the way out, the initial
     * state included.
     */
    function DimapOnState<Sin(!new), Son(!new)>(fl: Sin -> Si, fr: So -> Son): (r: Decider<C, Sin, Son, Ei, Eo>)
      ensures forall c, sin :: r.decide(c, sin) == decide(c, fl(sin))
      ensures forall sin, e :: r.evolve(sin, e) == fr(evolve(fl(sin), e))
      ensures r.initialState == fr(initialState)
    {
      Decider((c: C, sin: Sin) => decide(c, fl(sin)), (sin: Sin, e: Ei) => fr(evolve(fl(sin), e)), fr(initialState))
    }

    /** `DimapOnState` with the identity on the output side. */
    function MapLeftOnState<Sin(!new)>(f: Sin -> Si): (r: Decider<C, Sin, So, Ei, Eo>)
      ensures forall c, sin :: r.decide(c, sin) == decide(c, f(sin))
      ensures forall sin, e :: r.evolve(sin, e) == evolve(f(sin), e)
      ensures r.initialState == initialState
    {
      DimapOnState(f, (so: So) => so)
    }

    /** `DimapOnState` with the identity on the input side. */
    function MapOnState<Son(!new)>(f: So -> Son): (r: Decider<C, Si, Son, Ei, Eo>)
      ensures forall c, s :: r.decide(c, s) == decide(c, s)
      ensures forall s, e :: r.evolve(s, e) == f(evolve(s, e))
      ensures r.initialState == f(initialState)
    {
      DimapOnState((si: Si) => si, f)
    }

    /**
     * Applicative on the state: `ff` evolves to a function that is applied to
     * this decider's evolved state; `ff`'s events come before this decider's.
     */
    function ApplyOnState<Son(!new)>(ff: Decider<C, Si, So -> Son, Ei, Eo>): (r: Decider<C, Si, Son, Ei, Eo>)
      ensures forall c, s :: r.decide(c, s) == ff.decide(c, s) + decide(c, s)
      ensures forall s, e :: r.evolve(s, e) == ff.evolve(s, e)(evolve(s, e))
      ensures r.initialState == ff.initialState(initialState)
    {
      Decider(
        (c: C, s: Si) => ff.decide(c, s) + decide(c, s),
        (s: Si, e: Ei) => ff.evolve(s, e)(evolve(s, e)),
        ff.initialState(initialState))
    }

    /**
     * Product on the state: both deciders see the same command, state and
     * event; the output state is the pair, and `fb`'s events come first.
     */
    function ProductOnState<Son(!new)>(fb: Decider<C, Si, Son, Ei, Eo>): (r: Decider<C, Si, (So, Son), Ei, Eo>)
      ensures forall c, s :: r.decide(c, s) == fb.decide(c, s) + decide(c, s)
      ensures forall s, e :: r.evolve(s, e) == (evolve(s, e), fb.evolve(s, e))
      ensures r.initialState == (initialState, fb.initialState)
    {
      ApplyOnState(fb.MapOnState((b: Son) => (a: So) => (a, b)))
    }

    /**
     * Combines two deciders over the same command and event union. The state
     * is the pair of the two states; both sub-deciders get the same command
     * and event, each on its own component, and `y`'s events come first.
     * The source's casts into the union are erased at run time, so they are
     * identities here.
     */
    function Combine<Si2(!new), So2(!new)>(y: Decider<C, Si2, So2, Ei, Eo>): (r: Decider<C, (Si, Si2), (So, So2), Ei, Eo>)
      ensures forall c, s1, s2 :: r.decide(c, (s1, s2)) == y.decide(c, s2) + decide(c, s1)
      ensures forall s1, s2, e :: r.evolve((s1, s2), e) == (evolve(s1, e), y.evolve(s2, e))
      ensures r.initialState == (initialState, y.initialState)
    {
      var deciderX := this.MapLeftOnCommand((c: C) => c)
                          .MapLeftOnState((sin: (Si, Si2)) => sin.0)
                          .DimapOnEvent((ein: Ei) => ein, (eo: Eo) => eo);
      var deciderY := y.MapLeftOnCommand((c: C) => c)
                       .MapLeftOnState((sin: (Si, Si2)) => sin.1)
                       .DimapOnEvent((ein: Ei) => ein, (eo: Eo) => eo);
      assert forall c, s1, s2 :: deciderX.decide(c, (s1, s2)) == decide(c, s1) by {
        forall c, s1, s2 ensures deciderX.decide(c, (s1, s2)) == decide(c, s1) {
          MapIdentity(decide(c, s1));
        }
      }
      assert forall c, s1, s2 :: deciderY.decide(c, (s1, s2)) == y.decide(c, s2) by {
        forall c, s1, s2 ensures deciderY.decide(c, (s1, s2)) == y.decide(c, s2) {
          MapIdentity(y.decide(c, s2));
        }
      }
      deciderX.ProductOnState(deciderY)
    }
  }

  /** `Decider<C, S, E>`: the same type for input and output state and event. */
  type SimpleDecider<-C(!new), !S(!new), !E(!new)> = Decider<C, S, S, E, E>

  /** Two deciders that behave the same on every command, state and event. */
  ghost predicate Equivalent<C(!new), Si(!new), So(!new), Ei(!new), Eo(!new)>(a: Decider<C, Si, So, Ei, Eo>, b: Decider<C, Si, So, Ei, Eo>)
  {
    && (forall c, s :: a.decide(c, s) == b.decide(c, s))
    && (forall s, e :: a.evolve(s, e) == b.evolve(s, e))
    && a.initialState == b.initialState
  }

  /** Dimapping the identities on the events gives back the original decider. */
  lemma DimapOnEventIdentity<C(!new), Si(!new), So(!new), Ei(!new), Eo(!new)>(d: Decider<C, Si, So, Ei, Eo>)
    ensures Equivalent(d.DimapOnEvent((e: Ei) => e, (e: Eo) => e), d)
  {
    var r := d.DimapOnEvent((e: Ei) => e, (e: Eo) => e);
    forall c, s ensures r.decide(c, s) == d.decide(c, s) {
      MapIdentity(d.decide(c, s));
    }
  }

  /** Dimapping the identities on the state gives back the original decider. */
  lemma DimapOnStateIdentity<C(!new), Si(!new), So(!new), Ei(!new), Eo(!new)>(d: Decider<C, Si, So, Ei, Eo>)
    ensures Equivalent(d.DimapOnState((s: Si) => s, (s: So) => s), d)
  {
  }

  /** Two event dimaps in a row are one dimap with the composed functions. */
  lemma DimapOnEventCompose<C(!new), Si(!new), So(!new), Ei(!new), Eo(!new), Ein(!new), Eon(!new), Ein2(!new), Eon2(!new)>(
    d: Decider<C, Si, So, Ei, Eo>, fl: Ein -> Ei, fr: Eo -> Eon, gl: Ein2 -> Ein, gr: Eon -> Eon2)
    ensures Equivalent(d.DimapOnEvent(fl, fr).DimapOnEvent(gl, gr),
                       d.DimapOnEvent((e: Ein2) => fl(gl(e)), (e: Eo) => gr(fr(e))))
  {
    var l := d.DimapOnEvent(fl, fr).DimapOnEvent(gl, gr);
    var r := d.DimapOnEvent((e: Ein2) => fl(gl(e)), (e: Eo) => gr(fr(e)));
    forall c, s ensures l.decide(c, s) == r.decide(c, s) {
      assert forall i :: 0 <= i < |l.decide(c, s)| ==> l.decide(c, s)[i] == r.decide(c, s)[i];
    }
  }

  /** Two state dimaps in a row are one dimap with the composed functions. */
  lemma DimapOnStateCompose<C(!new), Si(!new), So(!new), Ei(!new), Eo(!new), Sin(!new), Son(!new), Sin2(!new), Son2(!new)>(
    d: Decider<C, Si, So, Ei, Eo>, fl: Sin -> Si, fr: So -> Son, gl: Sin2 -> Sin, gr: Son -> Son2)
    ensures Equivalent(d.DimapOnState(fl, fr).DimapOnState(gl, gr),
                       d.DimapOnState((s: Sin2) => fl(gl(s)), (s: So) => gr(fr(s))))
  {
  }

  /**
   * Folding events through a combined decider's `evolve` is folding them
   * through each sub-decider's `evolve` separately, componentwise.
   */
  lemma {:induction false} CombineFold<C(!new), S(!new), S2(!new), E(!new)>(
    x: SimpleDecider<C, S, E>, y: SimpleDecider<C, S2, E>, s1: S, s2: S2, es: seq<E>)
    ensures FoldLeft(x.Combine(y).evolve, (s1, s2), es)
         == (FoldLeft(x.evolve, s1, es), FoldLeft(y.evolve, s2, es))
  {
    if es != [] {
      CombineFold(x, y, x.evolve(s1, es[0]), y.evolve(s2, es[0]), es[1..]);
    }
  }

  /**
   * A command the second decider does not recognise (it decides nothing)
   * yields exactly the first decider's events, and vice versa.
   */
  lemma CombineDecideDispatch<C(!new), Si(!new), So(!new), Si2(!new), So2(!new), Ei(!new), Eo(!new)>(
    x: Decider<C, Si, So, Ei, Eo>, y: Decider<C, Si2, So2, Ei, Eo>, c: C, s1: Si, s2: Si2)
    ensures y.decide(c, s2) == [] ==> x.Combine(y).decide(c, (s1, s2)) == x.decide(c, s1)
    ensures x.decide(c, s1) == [] ==> x.Combine(y).decide(c, (s1, s2)) == y.decide(c, s2)
  {
  }

  /**
   * An event one sub-decider ignores (its `evolve` returns the state it was
   * given) leaves that component of the combined state unchanged.
   */
  lemma CombineEvolveDispatch<C(!new), S(!new), S2(!new), E(!new)>(
    x: SimpleDecider<C, S, E>, y: SimpleDecider<C, S2, E>, s1: S, s2: S2, e: E)
    ensures y.evolve(s2, e) == s2 ==> x.Combine(y).evolve((s1, s2), e) == (x.evolve(s1, e), s2)
    ensures x.evolve(s1, e) == s1 ==> x.Combine(y).evolve((s1, s2), e) == (s1, y.evolve(s2, e))
  {
  }
}
