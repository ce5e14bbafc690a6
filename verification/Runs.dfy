/** Runs of any machine, step by step: what one step does, told of whole runs. */
module Runs {

  ghost predicate Steps<S(!new), O(!new)>(next: (S, O, S) -> bool, states: seq<S>, ops: seq<O>) {
    && |states| == |ops| + 1
    && (forall i {:trigger ops[i]} :: 0 <= i < |ops| ==> next(states[i], ops[i], states[i + 1]))
  }

  ghost predicate Always<S(!new), O(!new)>(ok: (S, O) -> bool, states: seq<S>, ops: seq<O>, i: nat, j: nat)
    requires i <= j <= |ops| < |states|
  {
    forall n {:trigger ops[n]} :: i <= n < j ==> ok(states[n], ops[n])
  }

  /** What every step that is `ok` keeps, a run of such steps keeps. */
  lemma {:induction false} Kept<S(!new), O(!new)>(next: (S, O, S) -> bool, ok: (S, O) -> bool, keeps: S -> bool,
                                                  states: seq<S>, ops: seq<O>, i: nat, j: nat)
    requires Steps(next, states, ops) && i <= j <= |ops| && Always(ok, states, ops, i, j) && keeps(states[i])
    requires forall a, op, b :: next(a, op, b) && ok(a, op) && keeps(a) ==> keeps(b)
    ensures keeps(states[j])
    decreases j
  {
    if i < j {
      Kept(next, ok, keeps, states, ops, i, j - 1);
      var op := ops[j - 1];
      assert next(states[j - 1], op, states[j]) && ok(states[j - 1], op);
    }
  }

  ghost function Accumulated<S(!new), O(!new)>(change: (S, O) -> int, states: seq<S>, ops: seq<O>, i: nat): int
    requires i <= |ops| < |states|
  {
    if i == 0 then 0 else Accumulated(change, states, ops, i - 1) + change(states[i - 1], ops[i - 1])
  }

  /** A figure that each step shifts by a known change. */
  lemma {:induction false} Summed<S(!new), O(!new)>(next: (S, O, S) -> bool, keeps: S -> bool, value: S -> int,
                                                    change: (S, O) -> int, states: seq<S>, ops: seq<O>, i: nat)
    requires Steps(next, states, ops) && i <= |ops| && keeps(states[0])
    requires forall a, op, b :: next(a, op, b) && keeps(a) ==> keeps(b) && value(b) == value(a) + change(a, op)
    ensures keeps(states[i]) && value(states[i]) == value(states[0]) + Accumulated(change, states, ops, i)
  {
    if i > 0 {
      Summed(next, keeps, value, change, states, ops, i - 1);
      var op := ops[i - 1];
      assert next(states[i - 1], op, states[i]);
    }
  }

  /** Two machines that take the same steps go through the same states. */
  lemma {:induction false} Agree<S(!new), O(!new)>(next: (S, O, S) -> bool, other: (S, O, S) -> bool,
                                   ok: (S, O) -> bool,
                                                   states: seq<S>, others: seq<S>, ops: seq<O>, i: nat)
    requires Steps(next, states, ops) && Steps(other, others, ops) && i <= |ops| && states[0] == others[0]
    requires Always(ok, states, ops, 0, i)
    requires forall a, op, b, c :: next(a, op, b) && other(a, op, c) && ok(a, op) ==> b == c
    ensures states[i] == others[i]
  {
    if i > 0 {
      Agree(next, other, ok, states, others, ops, i - 1);
      var op := ops[i - 1];
      assert next(states[i - 1], op, states[i]) && other(states[i - 1], op, others[i]) && ok(states[i - 1], op);
    }
  }
}
