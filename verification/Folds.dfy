/** Folding a step function over a sequence of events. */
module Folds {
  function Fold<S, E>(f: (S, E) -> S, s: S, es: seq<E>): S {
    if es == [] then s else f(Fold(f, s, es[..|es| - 1]), es[|es| - 1])
  }

  lemma FoldNext<S, E>(f: (S, E) -> S, s: S, es: seq<E>, e: E)
    ensures Fold(f, s, es + [e]) == f(Fold(f, s, es), e)
  {
    assert (es + [e])[..|es + [e]| - 1] == es;
  }

  lemma {:induction false} FoldAppend<S, E>(f: (S, E) -> S, s: S, es: seq<E>, fs: seq<E>)
    ensures Fold(f, s, es + fs) == Fold(f, Fold(f, s, es), fs)
  {
    if fs == [] {
      assert es + fs == es;
    } else {
      var n := |fs| - 1;
      FoldAppend(f, s, es, fs[..n]);
      assert es + fs == es + fs[..n] + [fs[n]];
      FoldNext(f, s, es + fs[..n], fs[n]);
    }
  }

  lemma FoldFirst<S, E>(f: (S, E) -> S, s: S, e: E, es: seq<E>)
    ensures Fold(f, s, [e] + es) == Fold(f, f(s, e), es)
  {
    FoldNext(f, s, [], e);
    assert [] + [e] == [e];
    FoldAppend(f, s, [e], es);
  }
}
