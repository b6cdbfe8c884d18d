/** Mapping and concatenating along a sequence, last element last. */
module Sequences {
  import opened Wrappers

  /** std::find_if: the first position where p holds. */
  function IndexWhere<T>(xs: seq<T>, p: T -> bool): (r: Option<nat>)
    ensures r.Some? ==> r.value < |xs| && p(xs[r.value]) && forall j :: 0 <= j < r.value ==> !p(xs[j])
    ensures r.None? ==> forall j :: 0 <= j < |xs| ==> !p(xs[j])
  {
    if xs == [] then None
    else
      var front := IndexWhere(xs[..|xs| - 1], p);
      if front.Some? then front else if p(xs[|xs| - 1]) then Some(|xs| - 1) else None
  }

  function Map<T, U>(f: T -> U, xs: seq<T>): seq<U> {
    if xs == [] then [] else Map(f, xs[..|xs| - 1]) + [f(xs[|xs| - 1])]
  }

  function FlatMap<T, U>(f: T -> seq<U>, xs: seq<T>): seq<U> {
    if xs == [] then [] else FlatMap(f, xs[..|xs| - 1]) + f(xs[|xs| - 1])
  }

  lemma {:induction false} FlatMapSnoc<T, U>(f: T -> seq<U>, xs: seq<T>, x: T)
    ensures FlatMap(f, xs + [x]) == FlatMap(f, xs) + f(x)
  {
    assert (xs + [x])[..|xs|] == xs;
  }

  lemma {:induction false} FlatMapAppend<T, U>(f: T -> seq<U>, a: seq<T>, b: seq<T>)
    ensures FlatMap(f, a + b) == FlatMap(f, a) + FlatMap(f, b)
  {
    if b == [] {
      assert a + b == a;
    } else {
      FlatMapAppend(f, a, b[..|b| - 1]);
      assert (a + b)[..|a + b| - 1] == a + b[..|b| - 1];
    }
  }

  /** A sequence of pieces put together again. */
  function Glue<T>(pieces: seq<seq<T>>): seq<T> {
    if pieces == [] then [] else Glue(pieces[..|pieces| - 1]) + pieces[|pieces| - 1]
  }

  /** Steps taken in order, each with its own outside input. */
  function Fold<S, P, O>(step: (S, P, O) -> S, s: S, ps: seq<P>, os: seq<O>): S
    requires |os| == |ps|
    decreases |ps|
  {
    if ps == [] then s else Fold(step, step(s, ps[0], os[0]), ps[1..], os[1..])
  }

  /** What the steps of a fold put out along the way. */
  function Trace<S, P, O, E>(step: (S, P, O) -> S, output: (S, P, O) -> seq<E>, s: S, ps: seq<P>, os: seq<O>): seq<E>
    requires |os| == |ps|
    decreases |ps|
  {
    if ps == [] then [] else output(s, ps[0], os[0]) + Trace(step, output, step(s, ps[0], os[0]), ps[1..], os[1..])
  }

  lemma {:induction false} FoldOne<S, P, O>(step: (S, P, O) -> S, s: S, p: P, o: O)
    ensures Fold(step, s, [p], [o]) == step(s, p, o)
  {
    assert [p][1..] == [] && [o][1..] == [];
  }

  lemma {:induction false} TraceOne<S, P, O, E>(step: (S, P, O) -> S, output: (S, P, O) -> seq<E>, s: S, p: P, o: O)
    ensures Trace(step, output, s, [p], [o]) == output(s, p, o)
  {
    assert [p][1..] == [] && [o][1..] == [];
    assert output(s, p, o) + [] == output(s, p, o);
  }

  lemma {:induction false} FoldAppend<S, P, O>(step: (S, P, O) -> S, s: S, ps: seq<P>, qs: seq<P>, os: seq<O>, rs: seq<O>)
    requires |os| == |ps| && |rs| == |qs|
    ensures Fold(step, s, ps + qs, os + rs) == Fold(step, Fold(step, s, ps, os), qs, rs)
    decreases |ps|
  {
    if ps == [] {
      assert ps + qs == qs && os + rs == rs;
    } else {
      assert (ps + qs)[1..] == ps[1..] + qs && (os + rs)[1..] == os[1..] + rs;
      FoldAppend(step, step(s, ps[0], os[0]), ps[1..], qs, os[1..], rs);
    }
  }

  /** Partial steps taken in order, None as soon as one is not possible. */
  function Chain<S, P>(next: (S, P) -> Option<S>, s: S, ps: seq<P>): Option<S> {
    if ps == [] then Some(s)
    else
      match Chain(next, s, ps[..|ps| - 1])
      case None => None
      case Some(before) => next(before, ps[|ps| - 1])
  }

  lemma {:induction false} ChainSnoc<S, P>(next: (S, P) -> Option<S>, s: S, ps: seq<P>, p: P)
    ensures Chain(next, s, ps + [p]) == match Chain(next, s, ps) { case None => None case Some(mid) => next(mid, p) }
    ensures Chain(next, s, [p]) == next(s, p)
  {
    assert (ps + [p])[..|ps|] == ps;
    assert [p][..0] == [];
    assert Chain(next, s, []) == Some(s);
  }

  lemma {:induction false} ChainAppend<S, P>(next: (S, P) -> Option<S>, s: S, ps: seq<P>, qs: seq<P>)
    ensures Chain(next, s, ps + qs)
         == match Chain(next, s, ps) { case None => None case Some(mid) => Chain(next, mid, qs) }
  {
    if qs == [] {
      assert ps + qs == ps;
    } else {
      ChainAppend(next, s, ps, qs[..|qs| - 1]);
      assert (ps + qs)[..|ps + qs| - 1] == ps + qs[..|qs| - 1];
    }
  }

  /** Replacing one element changes only its own stretch of the flattened sequence. */
  lemma {:induction false} FlatMapUpdate<T, U>(f: T -> seq<U>, xs: seq<T>, i: nat, x: T)
    requires i < |xs|
    ensures FlatMap(f, xs) == FlatMap(f, xs[..i]) + f(xs[i]) + FlatMap(f, xs[i + 1..])
    ensures FlatMap(f, xs[i := x]) == FlatMap(f, xs[..i]) + f(x) + FlatMap(f, xs[i + 1..])
  {
    FlatMapAppend(f, xs[..i] + [xs[i]], xs[i + 1..]);
    FlatMapSnoc(f, xs[..i], xs[i]);
    assert xs == xs[..i] + [xs[i]] + xs[i + 1..];
    FlatMapAppend(f, xs[..i] + [x], xs[i + 1..]);
    FlatMapSnoc(f, xs[..i], x);
    assert xs[i := x] == xs[..i] + [x] + xs[i + 1..];
  }
}
