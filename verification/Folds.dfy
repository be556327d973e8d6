/** Running a sequence of events through a step function. */
module Folds {

  ghost function Fold<S(!new), E(!new)>(step: (S, E) -> S, s: S, es: seq<E>): S
    decreases |es|
  {
    if es == [] then s else Fold(step, step(s, es[0]), es[1..])
  }

  lemma FoldFirst<S(!new), E(!new)>(step: (S, E) -> S, s: S, e: E, es: seq<E>)
    ensures Fold(step, s, [e] + es) == Fold(step, step(s, e), es)
  {
    assert ([e] + es)[1..] == es;
  }

  lemma FoldOne<S(!new), E(!new)>(step: (S, E) -> S, s: S, e: E)
    ensures Fold(step, s, [e]) == step(s, e)
  {
    FoldFirst(step, s, e, []);
    assert [e] + [] == [e];
  }

  lemma {:induction false} FoldConcat<S(!new), E(!new)>(step: (S, E) -> S, s: S, a: seq<E>, b: seq<E>)
    ensures Fold(step, s, a + b) == Fold(step, Fold(step, s, a), b)
    decreases |a|
  {
    if a == [] {
      assert a + b == b;
    } else {
      FoldConcat(step, step(s, a[0]), a[1..], b);
      assert (a + b)[1..] == a[1..] + b;
    }
  }

  lemma FoldLast<S(!new), E(!new)>(step: (S, E) -> S, s: S, es: seq<E>, e: E)
    ensures Fold(step, s, es + [e]) == step(Fold(step, s, es), e)
  {
    FoldConcat(step, s, es, [e]);
    FoldOne(step, Fold(step, s, es), e);
  }
}
