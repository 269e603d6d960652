/** Runs of a partial step function over a log of actions, and the induction that carries an invariant along them. */
module Runs {
  import opened Strings

  /** The state after the whole log; None when some action cannot happen. */
  function Run<S, A>(step: (S, A) -> Option<S>, start: S, log: seq<A>): Option<S> {
    if |log| == 0 then Some(start)
    else
      var before :- Run(step, start, log[..|log| - 1]);
      step(before, log[|log| - 1])
  }

  lemma {:induction false} RunPrefix<S, A>(step: (S, A) -> Option<S>, start: S, log: seq<A>, k: nat)
    requires Run(step, start, log).Some? && k <= |log|
    ensures Run(step, start, log[..k]).Some?
    decreases |log|
  {
    if k < |log| {
      assert log[..|log| - 1][..k] == log[..k];
      RunPrefix(step, start, log[..|log| - 1], k);
    } else {
      assert log[..k] == log;
    }
  }

  lemma RunStep<S, A>(step: (S, A) -> Option<S>, start: S, log: seq<A>, k: nat)
    requires Run(step, start, log).Some? && k < |log|
    ensures Run(step, start, log[..k]).Some? && Run(step, start, log[..k + 1]).Some?
    ensures step(Run(step, start, log[..k]).value, log[k]) == Run(step, start, log[..k + 1])
  {
    RunPrefix(step, start, log, k);
    RunPrefix(step, start, log, k + 1);
    assert log[..k + 1][..k] == log[..k];
  }

  lemma RunSnoc<S, A>(step: (S, A) -> Option<S>, start: S, log: seq<A>, a: A)
    ensures Run(step, start, log).None? ==> Run(step, start, log + [a]).None?
    ensures Run(step, start, log).Some? ==>
              Run(step, start, log + [a]) == step(Run(step, start, log).value, a)
  {
    assert (log + [a])[..|log|] == log;
  }

  ghost predicate Kept<S(!new), A(!new)>(step: (S, A) -> Option<S>, good: S -> bool, allowed: A -> bool) {
    forall x, a :: good(x) && allowed(a) && step(x, a).Some? ==> good(step(x, a).value)
  }

  /** What holds after k actions and is kept by the allowed actions still holds at the end. */
  lemma {:induction false} KeptAlong<S(!new), A(!new)>(
      step: (S, A) -> Option<S>, start: S, log: seq<A>, k: nat, good: S -> bool, allowed: A -> bool)
    requires Run(step, start, log).Some? && k <= |log|
    requires Run(step, start, log[..k]).Some? && good(Run(step, start, log[..k]).value)
    requires forall i :: k <= i < |log| ==> allowed(log[i])
    requires Kept(step, good, allowed)
    ensures good(Run(step, start, log).value)
    decreases |log|
  {
    if k < |log| {
      var shorter := log[..|log| - 1];
      assert shorter[..k] == log[..k];
      KeptAlong(step, start, shorter, k, good, allowed);
      assert allowed(log[|log| - 1]);
    } else {
      assert log[..k] == log;
    }
  }
}
