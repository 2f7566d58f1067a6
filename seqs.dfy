/**
 * The array operations the library composes its functions from:
 * `Array.prototype.map`, `flatMap`, `reduce` (a left fold) and `concat`
 * (written `+` on Dafny sequences).
 */
module Seqs {

  /** `xs.map(f)`: same length, same order, each element transformed. */
  function Map<A, B>(f: A -> B, xs: seq<A>): (r: seq<B>)
    ensures |r| == |xs|
    ensures forall i :: 0 <= i < |xs| ==> r[i] == f(xs[i])
  {
    if xs == [] then [] else [f(xs[0])] + Map(f, xs[1..])
  }

  /** `xs.flatMap(f)`: the results of `f` concatenated in order. */
  function FlatMap<A, B>(f: A -> seq<B>, xs: seq<A>): seq<B>
  {
    if xs == [] then [] else f(xs[0]) + FlatMap(f, xs[1..])
  }

  /** `xs.reduce(f, init)`: folds from the left, first element first. */
  function FoldLeft<S, E>(f: (S, E) -> S, init: S, xs: seq<E>): S
  {
    if xs == [] then init else FoldLeft(f, f(init, xs[0]), xs[1..])
  }

  /** Mapping the identity function changes nothing. */
  lemma MapIdentity<A>(xs: seq<A>)
    ensures Map((x: A) => x, xs) == xs
  {
    var r := Map((x: A) => x, xs);
    assert forall i :: 0 <= i < |xs| ==> r[i] == xs[i];
  }

  /** Mapping twice is mapping the composition once. */
  lemma MapCompose<A, B, D>(f: A -> B, g: B -> D, xs: seq<A>)
    ensures Map(g, Map(f, xs)) == Map((x: A) => g(f(x)), xs)
  {
    var l, r := Map(g, Map(f, xs)), Map((x: A) => g(f(x)), xs);
    assert forall i :: 0 <= i < |xs| ==> l[i] == r[i];
  }

  /** Folding a concatenation is folding the second part from where the first part ended. */
  lemma {:induction false} FoldLeftAppend<S, E>(f: (S, E) -> S, init: S, a: seq<E>, b: seq<E>)
    ensures FoldLeft(f, init, a + b) == FoldLeft(f, FoldLeft(f, init, a), b)
  {
    if a == [] {
      assert a + b == b;
    } else {
      assert (a + b)[1..] == a[1..] + b;
      FoldLeftAppend(f, f(init, a[0]), a[1..], b);
    }
  }

  /** Folding a single element is one step. */
  lemma FoldLeftSingle<S, E>(f: (S, E) -> S, init: S, e: E)
    ensures FoldLeft(f, init, [e]) == f(init, e)
  {
    assert [e][1..] == [];
  }

  /** `flatMap` distributes over concatenation. */
  lemma {:induction false} FlatMapAppend<A, B>(f: A -> seq<B>, a: seq<A>, b: seq<A>)
    ensures FlatMap(f, a + b) == FlatMap(f, a) + FlatMap(f, b)
  {
    if a == [] {
      assert a + b == b;
    } else {
      assert (a + b)[1..] == a[1..] + b;
      FlatMapAppend(f, a[1..], b);
    }
  }

  /** `flatMap` yields nothing exactly when every element yields nothing. */
  lemma {:induction false} FlatMapEmpty<A, B>(f: A -> seq<B>, xs: seq<A>)
    ensures FlatMap(f, xs) == [] <==> forall i :: 0 <= i < |xs| ==> f(xs[i]) == []
  {
    if xs != [] {
      FlatMapEmpty(f, xs[1..]);
      assert forall i :: 1 <= i < |xs| ==> xs[i] == xs[1..][i - 1];
    }
  }
}
