/** Repeating a step that may get stuck. */
module Iteration {
  import opened Values

  function Iterate<S>(step: S -> Option<S>, s: S, n: nat): Option<S> {
    if n == 0 then Some(s)
    else
      match Iterate(step, s, n - 1)
      case None => None
      case Some(t) => step(t)
  }

  lemma {:induction false} IterateEarlier<S>(step: S -> Option<S>, s: S, m: nat, n: nat)
    requires m <= n && Iterate(step, s, n).Some?
    ensures Iterate(step, s, m).Some?
    ensures m < n ==> step(Iterate(step, s, m).value).Some?
    decreases n - m
  {
    if m < n {
      IterateEarlier(step, s, m, n - 1);
    }
  }

  /** A state without a successor is reached after at most one number of steps. */
  lemma StuckOnce<S>(step: S -> Option<S>, s: S, m: nat, n: nat)
    requires Iterate(step, s, m).Some? && step(Iterate(step, s, m).value).None?
    requires Iterate(step, s, n).Some? && step(Iterate(step, s, n).value).None?
    ensures m == n
  {
    if m < n {
      IterateEarlier(step, s, m, n);
    } else if n < m {
      IterateEarlier(step, s, n, m);
    }
  }
}
