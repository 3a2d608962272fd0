/** Runs of a transition system, and the two ways the other modules reason about them. */
module TransitionSystems {

  /** A finite run: it starts in an initial state and every event is a step. */
  ghost predicate IsRun<S(!new), E(!new)>(init: S -> bool, next: (S, E, S) -> bool, states: seq<S>, events: seq<E>) {
    && |states| == |events| + 1
    && init(states[0])
    && forall k {:trigger events[k]} | 0 <= k < |events| :: next(states[k], events[k], states[k + 1])
  }

  /** What holds initially and is kept by every step holds in every state of every run. */
  lemma {:induction false} Invariant<S(!new), E(!new)>(
    init: S -> bool, next: (S, E, S) -> bool, inv: S -> bool, states: seq<S>, events: seq<E>, n: nat)
    requires IsRun(init, next, states, events) && n < |states|
    requires forall s | init(s) :: inv(s)
    requires forall s, e, t | inv(s) && next(s, e, t) :: inv(t)
    ensures inv(states[n])
  {
    if n > 0 {
      Invariant(init, next, inv, states, events, n - 1);
      assert next(states[n - 1], events[n - 1], states[n]);
    }
  }

  /** A preorder that every step from an invariant state respects relates earlier to later states. */
  lemma {:induction false} Ordered<S(!new), E(!new)>(
    init: S -> bool, next: (S, E, S) -> bool, inv: S -> bool, rel: (S, S) -> bool,
    states: seq<S>, events: seq<E>, m: nat, n: nat)
    requires IsRun(init, next, states, events) && m <= n < |states|
    requires forall s | init(s) :: inv(s)
    requires forall s, e, t | inv(s) && next(s, e, t) :: inv(t) && rel(s, t)
    requires forall s :: rel(s, s)
    requires forall s, t, u | rel(s, t) && rel(t, u) :: rel(s, u)
    ensures rel(states[m], states[n])
  {
    if m < n {
      Ordered(init, next, inv, rel, states, events, m, n - 1);
      Invariant(init, next, inv, states, events, n - 1);
      assert next(states[n - 1], events[n - 1], states[n]);
    }
  }

  /** A run can be continued by one more step. */
  lemma Extend<S(!new), E(!new)>(
    init: S -> bool, next: (S, E, S) -> bool, states: seq<S>, events: seq<E>, e: E, s: S)
    requires IsRun(init, next, states, events) && next(states[|states| - 1], e, s)
    ensures IsRun(init, next, states + [s], events + [e])
  {
    var more, done := states + [s], events + [e];
    forall k | 0 <= k < |done| ensures next(more[k], done[k], more[k + 1]) {
      if k < |events| {
        assert done[k] == events[k];
      }
    }
  }
}
