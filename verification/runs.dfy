/** Runs of a state machine whose every event is a total step, and induction over them. */
module Runs {

  /** The state after the events `es`, in order. */
  function Run<S, E>(step: (S, E) -> S, init: S, es: seq<E>): S
    decreases |es|
  {
    if es == [] then init else step(Run(step, init, es[..|es| - 1]), es[|es| - 1])
  }

  /** What holds initially and survives every step holds after every run. */
  lemma {:induction false} Invariant<S(!new), E(!new)>(step: (S, E) -> S, init: S, inv: S -> bool, es: seq<E>)
    requires inv(init)
    requires forall s, e :: inv(s) ==> inv(step(s, e))
    ensures inv(Run(step, init, es))
    decreases |es|
  {
    if es != [] {
      Invariant(step, init, inv, es[..|es| - 1]);
    }
  }

  /** A relation that every step of a good state extends connects a run to all its continuations. */
  lemma {:induction false} Connected<S(!new), E(!new)>(
      step: (S, E) -> S, init: S, inv: S -> bool, rel: (S, S) -> bool, es: seq<E>, more: seq<E>)
    requires inv(init)
    requires forall s, e :: inv(s) ==> inv(step(s, e))
    requires forall s :: rel(s, s)
    requires forall s, t, e :: inv(t) && rel(s, t) ==> rel(s, step(t, e))
    ensures rel(Run(step, init, es), Run(step, init, es + more))
    decreases |more|
  {
    if more == [] {
      assert es + more == es;
    } else {
      var shorter := more[..|more| - 1];
      assert (es + more)[..|es + more| - 1] == es + shorter;
      Connected(step, init, inv, rel, es, shorter);
      Invariant(step, init, inv, es + shorter);
    }
  }

  /** One event more is one step more. */
  lemma Append<S, E>(step: (S, E) -> S, init: S, es: seq<E>, e: E)
    ensures Run(step, init, es + [e]) == step(Run(step, init, es), e)
  {
    assert (es + [e])[..|es + [e]| - 1] == es;
  }
}
