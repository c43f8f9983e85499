/**
 * A solver's `for _ in range(n_iter)` loop, seen as a function: `n` applications
 * of one iteration map to an initial state.
 */
module Iteration {

  function Iterate<S>(step: S -> S, s: S, n: nat): S
    decreases n
  {
    if n == 0 then s else step(Iterate(step, s, n - 1))
  }

  /** A fixed point of the iteration map is left where it is by any number of iterations. */
  lemma {:induction false} IterateFixedPoint<S>(step: S -> S, s: S, n: nat)
    requires step(s) == s
    ensures Iterate(step, s, n) == s
    decreases n
  {
    if n > 0 {
      IterateFixedPoint(step, s, n - 1);
    }
  }
}
