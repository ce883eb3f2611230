/** Runs of any step relation, and the induction every invariant of a run rests on. */
module Runs {

  /** `states[k + 1]` is reached from `states[k]` by `actions[k]`. */
  ghost predicate IsRun<S(!new), A(!new)>(step: (S, A, S) -> bool, states: seq<S>, actions: seq<A>) {
    |states| == |actions| + 1 && forall k :: 0 <= k < |actions| ==> step(states[k], actions[k], states[k + 1])
  }

  ghost predicate Preserves<S(!new), A(!new)>(step: (S, A, S) -> bool, inv: S -> bool) {
    forall s, a, s' :: step(s, a, s') && inv(s) ==> inv(s')
  }

  lemma {:induction false} InvariantHolds<S(!new), A(!new)>(
    step: (S, A, S) -> bool, inv: S -> bool, states: seq<S>, actions: seq<A>, k: nat)
    requires IsRun(step, states, actions) && k < |states|
    requires Preserves(step, inv) && inv(states[0])
    ensures inv(states[k])
  {
    if k > 0 {
      InvariantHolds(step, inv, states, actions, k - 1);
      assert step(states[k - 1], actions[k - 1], states[k]);
    }
  }

  /** What every step only appends to, a run only appends to. */
  lemma {:induction false} HistoryGrows<S(!new), A(!new), T>(
    step: (S, A, S) -> bool, history: S -> seq<T>, states: seq<S>, actions: seq<A>, m: nat, n: nat)
    requires IsRun(step, states, actions) && m <= n < |states|
    requires forall s, a, s' :: step(s, a, s') ==> history(s) <= history(s')
    ensures history(states[m]) <= history(states[n])
    decreases n
  {
    if m < n {
      HistoryGrows(step, history, states, actions, m, n - 1);
      assert step(states[n - 1], actions[n - 1], states[n]);
    }
  }
}
