/** Maximum drawdown: the one-pass figure is the largest fall between any two points. */
module Drawdowns {

  /** The fall from one equity to a later one, in percent; none is measured from nothing. */
  function Fall(from: real, to: real): real {
    if from <= 0.0 then 0.0 else (from - to) / from * 100.0
  }

  ghost predicate AtLeastEveryFall(equity: seq<real>, worst: real) {
    forall i, j :: 0 <= i <= j < |equity| ==> Fall(equity[i], equity[j]) <= worst
  }

  ghost predicate SomeFall(equity: seq<real>, worst: real) {
    worst == 0.0 || exists i, j :: 0 <= i <= j < |equity| && equity[i] > 0.0 && Fall(equity[i], equity[j]) == worst
  }

  predicate NeverBelow(equity: seq<real>, b: real) {
    forall i :: 0 <= i < |equity| ==> equity[i] >= b
  }

  /** From a higher start the fall to the same non-negative point is larger. */
  lemma HigherFallsFurther(low: real, high: real, to: real)
    requires 0.0 < low <= high && to >= 0.0
    ensures Fall(low, to) <= Fall(high, to)
  {
    ShareShrinks(low, high, to);
    Rewritten(low, to);
    Rewritten(high, to);
  }

  lemma ShareShrinks(low: real, high: real, to: real)
    requires 0.0 < low <= high && to >= 0.0
    ensures to / high <= to / low
  {
    var a, b := to / low, to / high;
    assert a * low == to && b * high == to;
    assert a >= 0.0;
    assert (high - low) * a >= 0.0;
    assert (b - a) * high <= 0.0;
  }

  lemma Rewritten(from: real, to: real)
    requires from > 0.0
    ensures Fall(from, to) == (1.0 - to / from) * 100.0
  {
    var a, q := to / from, (from - to) / from;
    assert a * from == to && q * from == from - to;
    var x := q - (1.0 - a);
    assert x * from == 0.0;
    assert x > 0.0 ==> x * from > 0.0;
    assert x < 0.0 ==> x * from < 0.0;
  }

  function Peak(equity: seq<real>): real {
    if equity == [] then 0.0
    else
      var before, last := Peak(equity[..|equity| - 1]), equity[|equity| - 1];
      if last > before then last else before
  }

  /** The figure as it is computed, in one pass. */
  function Worst(equity: seq<real>): real {
    if equity == [] then 0.0
    else
      var before, fall := Worst(equity[..|equity| - 1]), Fall(Peak(equity), equity[|equity| - 1]);
      if fall > before then fall else before
  }

  method Drawdown(equity: seq<real>) returns (worst: real)
    ensures worst == Worst(equity)
  {
    var peak := 0.0;
    worst := 0.0;
    for n := 0 to |equity|
      invariant peak == Peak(equity[..n]) && worst == Worst(equity[..n])
    {
      assert equity[..n + 1][..n] == equity[..n];
      var value := equity[n];
      peak := if value > peak then value else peak;
      if peak > 0.0 {
        var fall := (peak - value) / peak * 100.0;
        worst := if fall > worst then fall else worst;
      } else {
        WorstIsFall(equity[..n]);
      }
    }
    assert equity[..|equity|] == equity;
  }

  lemma {:induction false} PeakIsHighest(equity: seq<real>)
    ensures Peak(equity) >= 0.0 && forall i :: 0 <= i < |equity| ==> equity[i] <= Peak(equity)
    ensures Peak(equity) == 0.0 || exists i :: 0 <= i < |equity| && equity[i] == Peak(equity)
  {
    if equity != [] {
      var front := equity[..|equity| - 1];
      PeakIsHighest(front);
      if i :| 0 <= i < |front| && front[i] == Peak(front) {
        assert equity[i] == front[i];
      }
      assert equity[|equity| - 1] <= Peak(equity);
    }
  }

  lemma {:induction false} WorstIsFall(equity: seq<real>)
    ensures Worst(equity) >= 0.0 && SomeFall(equity, Worst(equity))
  {
    if equity != [] {
      WorstIsFall(equity[..|equity| - 1]);
      PeakIsHighest(equity);
      OneMoreFall(equity, Peak(equity), Worst(equity[..|equity| - 1]));
    }
  }

  lemma OneMoreFall(equity: seq<real>, peak: real, before: real)
    requires equity != [] && (peak == 0.0 || exists i :: 0 <= i < |equity| && equity[i] == peak)
    requires before >= 0.0 && SomeFall(equity[..|equity| - 1], before)
    ensures SomeFall(equity, before)
    ensures Fall(peak, equity[|equity| - 1]) > before ==> SomeFall(equity, Fall(peak, equity[|equity| - 1]))
  {
    var front := equity[..|equity| - 1];
    if i, j :| 0 <= i <= j < |front| && front[i] > 0.0 && Fall(front[i], front[j]) == before {
      assert equity[i] == front[i] && equity[j] == front[j];
    }
  }

  /** The quadratic definition: the largest fall between any two points, and zero where nothing falls. */
  lemma {:induction false} WorstIsLargestFall(equity: seq<real>)
    requires NeverBelow(equity, 0.0)
    ensures AtLeastEveryFall(equity, Worst(equity)) && SomeFall(equity, Worst(equity))
  {
    WorstIsFall(equity);
    if equity != [] {
      var front := equity[..|equity| - 1];
      WorstIsLargestFall(front);
      PeakIsHighest(equity);
      forall i, j | 0 <= i <= j < |equity| ensures Fall(equity[i], equity[j]) <= Worst(equity) {
        if j < |front| {
          assert front[i] == equity[i] && front[j] == equity[j];
        } else if equity[i] > 0.0 {
          HigherFallsFurther(equity[i], Peak(equity), equity[j]);
        }
      }
    }
  }

  /** With debt the one pass is not the largest fall: the smaller the start, the further it falls below
      zero. */
  lemma DebtFallsFurtherFromLess(debt: real) returns (equity: seq<real>)
    requires debt > 0.0
    ensures NeverBelow(equity, -debt) && !AtLeastEveryFall(equity, Worst(equity))
  {
    equity := [debt, 2.0 * debt, -debt];
    assert equity[..2] == [debt, 2.0 * debt] && [debt, 2.0 * debt][..1] == [debt] && [debt][..0] == [];
    assert Peak([debt]) == debt && Peak([debt, 2.0 * debt]) == 2.0 * debt && Peak(equity) == 2.0 * debt;
    FallIs(debt, debt, 0.0);
    FallIs(2.0 * debt, 2.0 * debt, 0.0);
    FallIs(2.0 * debt, -debt, 1.5);
    FallIs(debt, -debt, 2.0);
    assert Worst([debt]) == 0.0 && Worst([debt, 2.0 * debt]) == 0.0 && Worst(equity) == 150.0;
    assert Fall(equity[0], equity[2]) == 200.0;
  }

  lemma FallIs(from: real, to: real, share: real)
    requires from > 0.0 && from - to == share * from
    ensures Fall(from, to) == share * 100.0
  {
    var q := (from - to) / from;
    assert (q - share) * from == 0.0;
    assert q > share ==> (q - share) * from > 0.0;
    assert q < share ==> (share - q) * from > 0.0;
  }

  /** The one pass measures the largest fall of every series that stays above a bound, if and only if the
      bound rules out debt. */
  lemma LargestFallIffNoDebt(b: real)
    ensures (forall equity :: NeverBelow(equity, b) ==> AtLeastEveryFall(equity, Worst(equity))) <==> b >= 0.0
  {
    if b >= 0.0 {
      forall equity | NeverBelow(equity, b) ensures AtLeastEveryFall(equity, Worst(equity)) {
        WorstIsLargestFall(equity);
      }
    } else {
      var equity := DebtFallsFurtherFromLess(-b);
    }
  }
}
