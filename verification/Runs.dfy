/** A run of a state machine: the state after a list of operations. */
module Runs {
  function Fold<S, O>(step: (S, O) -> S, s: S, ops: seq<O>): S {
    if ops == [] then s else step(Fold(step, s, ops[..|ops| - 1]), ops[|ops| - 1])
  }

  function Without<O>(ops: seq<O>, skip: O -> bool): seq<O> {
    if ops == [] then []
    else
      var rest := Without(ops[..|ops| - 1], skip);
      if skip(ops[|ops| - 1]) then rest else rest + [ops[|ops| - 1]]
  }

  ghost predicate NoEffect<S, O>(step: (S, O) -> S, s: S, ops: seq<O>, k: nat)
    requires k < |ops|
  {
    step(Fold(step, s, ops[..k]), ops[k]) == Fold(step, s, ops[..k])
  }

  /** Operations that had no effect where they stood can be left out of the run. */
  lemma {:induction false} SkipIdle<S, O>(step: (S, O) -> S, s: S, ops: seq<O>, skip: O -> bool)
    requires forall k :: 0 <= k < |ops| && skip(ops[k]) ==> NoEffect(step, s, ops, k)
    ensures Fold(step, s, ops) == Fold(step, s, Without(ops, skip))
  {
    if ops != [] {
      var rest, op := ops[..|ops| - 1], ops[|ops| - 1];
      forall k | 0 <= k < |rest| && skip(rest[k]) ensures NoEffect(step, s, rest, k) {
        assert rest[..k] == ops[..k] && rest[k] == ops[k];
        assert NoEffect(step, s, ops, k);
      }
      SkipIdle(step, s, rest, skip);
      if skip(op) {
        assert NoEffect(step, s, ops, |rest|);
      } else {
        var kept := Without(rest, skip);
        assert (kept + [op])[..|kept|] == kept;
      }
    }
  }
}
