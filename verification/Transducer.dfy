/** Machines that turn each input into a new state and some outputs, run over a list of inputs. */
module Transducer {
  import opened Wire

  function After<S, P, E>(f: (S, P) -> (S, seq<E>), s: S, ps: seq<P>): S {
    if ps == [] then s else f(After(f, s, Front(ps)), Last(ps)).0
  }

  function Sent<S, P, E>(f: (S, P) -> (S, seq<E>), s: S, ps: seq<P>): seq<E> {
    if ps == [] then [] else Sent(f, s, Front(ps)) + f(After(f, s, Front(ps)), Last(ps)).1
  }

  lemma Snoc<S, P, E>(f: (S, P) -> (S, seq<E>), s: S, ps: seq<P>, p: P)
    ensures After(f, s, ps + [p]) == f(After(f, s, ps), p).0
    ensures Sent(f, s, ps + [p]) == Sent(f, s, ps) + f(After(f, s, ps), p).1
  {
    assert Front(ps + [p]) == ps;
  }

  lemma Single<S, P, E>(f: (S, P) -> (S, seq<E>), s: S, p: P)
    ensures After(f, s, [p]) == f(s, p).0 && Sent(f, s, [p]) == f(s, p).1
  {
    Snoc(f, s, [], p);
    assert [] + [p] == [p];
  }

  lemma ConcatSnoc<S, P, E>(f: (S, P) -> (S, seq<E>), s: S, a: seq<P>, b: seq<P>, p: P)
    requires After(f, s, a + b) == After(f, After(f, s, a), b)
    requires Sent(f, s, a + b) == Sent(f, s, a) + Sent(f, After(f, s, a), b)
    ensures After(f, s, a + (b + [p])) == After(f, After(f, s, a), b + [p])
    ensures Sent(f, s, a + (b + [p])) == Sent(f, s, a) + Sent(f, After(f, s, a), b + [p])
  {
    var t := After(f, s, a);
    Snoc(f, s, a + b, p);
    Snoc(f, t, b, p);
    assert a + (b + [p]) == (a + b) + [p];
  }

  /** Running on two lists in turn is running on their concatenation. */
  lemma {:induction false} Concat<S, P, E>(f: (S, P) -> (S, seq<E>), s: S, a: seq<P>, b: seq<P>)
    ensures After(f, s, a + b) == After(f, After(f, s, a), b)
    ensures Sent(f, s, a + b) == Sent(f, s, a) + Sent(f, After(f, s, a), b)
    decreases |b|
  {
    if b == [] {
      assert a + b == a;
    } else {
      Concat(f, s, a, Front(b));
      ConcatSnoc(f, s, a, Front(b), Last(b));
      assert b == Front(b) + [Last(b)];
    }
  }

  function FlatMap<A, B>(f: A -> seq<B>, s: seq<A>): seq<B> {
    if s == [] then [] else FlatMap(f, Front(s)) + f(Last(s))
  }

  lemma FlatMapSnoc<A, B>(f: A -> seq<B>, s: seq<A>, a: A)
    ensures FlatMap(f, s + [a]) == FlatMap(f, s) + f(a)
  {
    assert Front(s + [a]) == s;
  }

  lemma FlatMapOne<A, B>(f: A -> seq<B>, a: A)
    ensures FlatMap(f, [a]) == f(a)
  {
    FlatMapSnoc(f, [], a);
    assert [] + [a] == [a];
  }

  lemma FlatMapTwo<A, B>(f: A -> seq<B>, a: A, b: A)
    ensures FlatMap(f, [a, b]) == f(a) + f(b)
  {
    FlatMapOne(f, a);
    FlatMapSnoc(f, [a], b);
    assert [a] + [b] == [a, b];
  }

  lemma FlatMapConcatSnoc<A, B>(f: A -> seq<B>, s: seq<A>, t: seq<A>, a: A)
    requires FlatMap(f, s + t) == FlatMap(f, s) + FlatMap(f, t)
    ensures FlatMap(f, s + (t + [a])) == FlatMap(f, s) + FlatMap(f, t + [a])
  {
    FlatMapSnoc(f, s + t, a);
    FlatMapSnoc(f, t, a);
    assert s + (t + [a]) == (s + t) + [a];
    assert FlatMap(f, s) + FlatMap(f, t) + f(a) == FlatMap(f, s) + (FlatMap(f, t) + f(a));
  }

  lemma {:induction false} FlatMapConcat<A, B>(f: A -> seq<B>, s: seq<A>, t: seq<A>)
    ensures FlatMap(f, s + t) == FlatMap(f, s) + FlatMap(f, t)
    decreases |t|
  {
    if t == [] {
      assert s + t == s;
    } else {
      FlatMapConcat(f, s, Front(t));
      FlatMapConcatSnoc(f, s, Front(t), Last(t));
      assert t == Front(t) + [Last(t)];
    }
  }

  /** Two flat maps in a row are one. */
  lemma {:induction false} FlatMapCompose<A, B, C>(f: A -> seq<B>, g: B -> seq<C>, h: A -> seq<C>, s: seq<A>)
    requires forall a :: FlatMap(g, f(a)) == h(a)
    ensures FlatMap(g, FlatMap(f, s)) == FlatMap(h, s)
  {
    if s != [] {
      FlatMapCompose(f, g, h, Front(s));
      FlatMapConcat(g, FlatMap(f, Front(s)), f(Last(s)));
    }
  }
}
