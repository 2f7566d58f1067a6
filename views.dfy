/**
 * The event-handling algebra: a view holds an `evolve` function from an input
 * state and an event to the output state, and the initial state. It is the
 * state-and-event half of a decider, with the same combinators; the
 * combinators that the newer revision keeps private (`mapLeftOnState`,
 * `mapOnState`, `applyOnState`, `productOnState`) are public in the older one
 * and are modelled here once for both.
 */
module Views {
  import opened Seqs

  datatype View<-Si(!new), So(!new), -E(!new)> = View(
    evolve: (Si, E) -> So,
    initialState: So)
  {
    /** Contravariant on the event: a wider event is narrowed by `f` before evolving. */
    function MapLeftOnEvent<En(!new)>(f: En -> E): (r: View<Si, So, En>)
      ensures forall s, en :: r.evolve(s, en) == evolve(s, f(en))
      ensures r.initialState == initialState
    {
      View((s: Si, en: En) => evolve(s, f(en)), initialState)
    }

    /** Profunctor on the state: narrowed by `fl` on the way in, widened by `fr` on the way out. */
    function DimapOnState<Sin(!new), Son(!new)>(fl: Sin -> Si, fr: So -> Son): (r: View<Sin, Son, E>)
      ensures forall s, e :: r.evolve(s, e) == fr(evolve(fl(s), e))
      ensures r.initialState == fr(initialState)
    {
      View((s: Sin, e: E) => fr(evolve(fl(s), e)), fr(initialState))
    }

    /** `DimapOnState` with the identity on the output side. */
    function MapLeftOnState<Sin(!new)>(f: Sin -> Si): (r: View<Sin, So, E>)
      ensures forall s, e :: r.evolve(s, e) == evolve(f(s), e)
      ensures r.initialState == initialState
    {
      DimapOnState(f, (so: So) => so)
    }

    /** `DimapOnState` with the identity on the input side. */
    function MapOnState<Son(!new)>(f: So -> Son): (r: View<Si, Son, E>)
      ensures forall s, e :: r.evolve(s, e) == f(evolve(s, e))
      ensures r.initialState == f(initialState)
    {
      DimapOnState((si: Si) => si, f)
    }

    /** Applicative on the state: `ff` evolves to a function applied to this view's evolved state. */
    function ApplyOnState<Son(!new)>(ff: View<Si, So -> Son, E>): (r: View<Si, Son, E>)
      ensures forall s, e :: r.evolve(s, e) == ff.evolve(s, e)(evolve(s, e))
      ensures r.initialState == ff.initialState(initialState)
    {
      View((s: Si, e: E) => ff.evolve(s, e)(evolve(s, e)), ff.initialState(initialState))
    }

    /** Product on the state: both views see the same state and event; the result is the pair. */
    function ProductOnState<Son(!new)>(fb: View<Si, Son, E>): (r: View<Si, (So, Son), E>)
      ensures forall s, e :: r.evolve(s, e) == (evolve(s, e), fb.evolve(s, e))
      ensures r.initialState == (initialState, fb.initialState)
    {
      ApplyOnState(fb.MapOnState((b: Son) => (a: So) => (a, b)))
    }

    /**
     * Combines two views over the same event union. The state is the pair of
     * the two states, and each component is evolved by its own view on the
     * same event; the source's casts are erased at run time, so they are
     * identities here.
     */
    function Combine<Si2(!new), So2(!new)>(y: View<Si2, So2, E>): (r: View<(Si, Si2), (So, So2), E>)
      ensures forall s1, s2, e :: r.evolve((s1, s2), e) == (evolve(s1, e), y.evolve(s2, e))
      ensures r.initialState == (initialState, y.initialState)
    {
      var viewX := this.MapLeftOnEvent((en: E) => en).MapLeftOnState((sin: (Si, Si2)) => sin.0);
      var viewY := y.MapLeftOnEvent((en: E) => en).MapLeftOnState((sin: (Si, Si2)) => sin.1);
      viewX.ProductOnState(viewY)
    }
  }

  /** `View<S, E>`: the same type for input and output state. */
  type SimpleView<!S(!new), -E(!new)> = View<S, S, E>

  /** Two views that behave the same on every state and event. */
  ghost predicate Equivalent<Si(!new), So(!new), E(!new)>(a: View<Si, So, E>, b: View<Si, So, E>)
  {
    && (forall s, e :: a.evolve(s, e) == b.evolve(s, e))
    && a.initialState == b.initialState
  }

  /** Dimapping the identities gives back the original view. */
  lemma DimapOnStateIdentity<Si(!new), So(!new), E(!new)>(v: View<Si, So, E>)
    ensures Equivalent(v.DimapOnState((s: Si) => s, (s: So) => s), v)
  {
  }

  /** Two state dimaps in a row are one dimap with the composed functions. */
  lemma DimapOnStateCompose<Si(!new), So(!new), E(!new), Sin(!new), Son(!new), Sin2(!new), Son2(!new)>(
    v: View<Si, So, E>, fl: Sin -> Si, fr: So -> Son, gl: Sin2 -> Sin, gr: Son -> Son2)
    ensures Equivalent(v.DimapOnState(fl, fr).DimapOnState(gl, gr),
                       v.DimapOnState((s: Sin2) => fl(gl(s)), (s: So) => gr(fr(s))))
  {
  }

  /**
   * Folding events through a view narrowed by `f` is folding the narrowed
   * events through the original view.
   */
  lemma {:induction false} MapLeftOnEventFold<S(!new), E(!new), En(!new)>(
    v: SimpleView<S, E>, f: En -> E, s: S, es: seq<En>)
    ensures FoldLeft(v.MapLeftOnEvent(f).evolve, s, es) == FoldLeft(v.evolve, s, Map(f, es))
  {
    if es != [] {
      assert Map(f, es)[1..] == Map(f, es[1..]);
      MapLeftOnEventFold(v, f, v.evolve(s, f(es[0])), es[1..]);
    }
  }

  /**
   * Folding events through a combined view is folding them through each view
   * separately, componentwise.
   */
  lemma {:induction false} CombineFold<S(!new), S2(!new), E(!new)>(
    x: SimpleView<S, E>, y: SimpleView<S2, E>, s1: S, s2: S2, es: seq<E>)
    ensures FoldLeft(x.Combine(y).evolve, (s1, s2), es)
         == (FoldLeft(x.evolve, s1, es), FoldLeft(y.evolve, s2, es))
  {
    if es != [] {
      CombineFold(x, y, x.evolve(s1, es[0]), y.evolve(s2, es[0]), es[1..]);
    }
  }

  /**
   * Replaying a history through a combined view from its initial state gives
   * each view's own replay as the components.
   */
  lemma CombineReplay<S(!new), S2(!new), E(!new)>(x: SimpleView<S, E>, y: SimpleView<S2, E>, es: seq<E>)
    ensures FoldLeft(x.Combine(y).evolve, x.Combine(y).initialState, es)
         == (FoldLeft(x.evolve, x.initialState, es), FoldLeft(y.evolve, y.initialState, es))
  {
    CombineFold(x, y, x.initialState, y.initialState, es);
  }
}
