/** Induction along runs of a state machine. */
module Traces {

  ghost predicate Linked<S>(trace: seq<S>, next: (S, S) -> bool) {
    forall i | 0 <= i < |trace| - 1 :: next(trace[i], trace[i + 1])
  }

  ghost predicate Preserves<S(!new)>(next: (S, S) -> bool, good: S -> bool) {
    forall s, t | good(s) && next(s, t) :: good(t)
  }

  lemma LinkedMore<S(!new)>(trace: seq<S>, next: (S, S) -> bool, t: S)
    requires trace != [] && Linked(trace, next) && next(trace[|trace| - 1], t)
    ensures Linked(trace + [t], next)
  {
    var all := trace + [t];
    forall i | 0 <= i < |all| - 1 ensures next(all[i], all[i + 1]) {
      if i < |trace| - 1 {
        assert next(trace[i], trace[i + 1]);
      }
    }
  }

  /** What holds at one point and is preserved by every step holds ever after. */
  lemma {:induction false} EverAfter<S(!new)>(trace: seq<S>, next: (S, S) -> bool, good: S -> bool, i: nat, j: nat)
    requires Linked(trace, next) && Preserves(next, good)
    requires i <= j < |trace| && good(trace[i])
    ensures good(trace[j])
    decreases j
  {
    if i < j {
      EverAfter(trace, next, good, i, j - 1);
      assert next(trace[j - 1], trace[j - 1 + 1]);
    }
  }
}
