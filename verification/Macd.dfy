/** The MACD crossing, from seeded exponential averages. */
module Macd {

  const FAST := 12
  const SLOW := 26
  const SIGNAL := 9
  const LOOKBACK := 35

  function Sum(values: seq<real>): real {
    if values == [] then 0.0 else Sum(values[..|values| - 1]) + values[|values| - 1]
  }

  function Seed(values: seq<real>, period: nat): real
    requires period > 0
  {
    Sum(values[..if |values| < period then |values| else period]) / period as real
  }

  /** Two parts in `period + 1` of the way from the last average to the new value. */
  function Next(last: real, value: real, factor: real): real {
    var gap := value - last;
    gap * factor + last
  }

  function Factor(period: nat): real {
    2.0 / (period + 1) as real
  }

  /** The averages, one for each value from the `period`-th on. */
  function Ema(values: seq<real>, period: nat): (out: seq<real>)
    requires period > 0
    ensures |out| == if |values| <= period then 1 else |values| - period + 1
  {
    if |values| <= period then [Seed(values, period)]
    else
      var before := Ema(values[..|values| - 1], period);
      before + [Next(before[|before| - 1], values[|values| - 1], Factor(period))]
  }

  method Average(values: seq<real>, period: nat) returns (out: seq<real>)
    requires period > 0
    ensures out == Ema(values, period)
  {
    out := [Seed(values, period)];
    var factor := Factor(period);
    if |values| > period {
      assert Seed(values[..period], period) == Seed(values, period) by {
        assert values[..period][..period] == values[..period];
      }
      for i := period to |values|
        invariant out == Ema(values[..i], period)
      {
        assert values[..i + 1][..i] == values[..i];
        out := out + [Next(out[|out| - 1], values[i], factor)];
      }
      assert values[..|values|] == values;
    }
  }

  // ------------------------------------------------------------------ what an average is

  lemma {:induction false} SumConcat(a: seq<real>, b: seq<real>)
    ensures Sum(a + b) == Sum(a) + Sum(b)
    ensures forall x :: Sum([x]) == x
  {
    if b == [] {
      assert a + b == a;
    } else {
      assert (a + b)[..|a + b| - 1] == a + b[..|b| - 1];
      SumConcat(a, b[..|b| - 1]);
    }
  }

  /** A series of averages: the first is the mean of the first `period` values, and each next one moves two
      parts in `period + 1` of the way to the next value. */
  ghost predicate Averages(out: seq<real>, values: seq<real>, period: nat) {
    && 0 < period <= |values| && |out| == |values| - period + 1
    && out[0] * period as real == Sum(values[..period])
    && forall i :: 0 < i < |out| ==> Follows(out[i - 1], out[i], values[period + i - 1], period)
  }

  predicate Follows(last: real, next: real, value: real, period: nat) {
    (next - last) * (period + 1) as real == 2.0 * (value - last)
  }

  lemma FollowsIff(last: real, next: real, value: real, period: nat)
    ensures Follows(last, next, value, period) <==> next == Next(last, value, Factor(period))
  {
    var n, gap := (period + 1) as real, value - last;
    var f := Factor(period);
    assert f * n == 2.0;
    assert (gap * f) * n == gap * (f * n) == 2.0 * gap;
    assert Next(last, value, f) - last == gap * f;
    if (next - last) * n == 2.0 * gap {
      assert (next - last - gap * f) * n == 0.0;
    }
  }

  lemma MeanIff(mean: real, total: real, n: nat)
    requires n > 0
    ensures mean * n as real == total <==> mean == total / n as real
  {
    var m, q := n as real, total / n as real;
    assert q * m == total;
    if mean * m == total {
      assert (mean - q) * m == 0.0;
    }
  }

  /** The computed series is the one series of averages there is. */
  lemma {:induction false} AveragesIff(out: seq<real>, values: seq<real>, period: nat)
    requires 0 < period <= |values|
    ensures Averages(out, values, period) <==> out == Ema(values, period)
  {
    if |values| == period {
      assert values[..period] == values;
      if |out| == 1 {
        MeanIff(out[0], Sum(values), period);
        assert out == [out[0]];
      }
    } else if |out| == |values| - period + 1 {
      var front, before := values[..|values| - 1], out[..|out| - 1];
      AveragesIff(before, front, period);
      AveragesExtend(out, values, period);
      FollowsIff(out[|out| - 2], out[|out| - 1], values[|values| - 1], period);
      assert out == before + [out[|out| - 1]];
    }
  }

  lemma AveragesExtend(out: seq<real>, values: seq<real>, period: nat)
    requires 0 < period < |values| && |out| == |values| - period + 1
    ensures Averages(out, values, period) <==>
              && Averages(out[..|out| - 1], values[..|values| - 1], period)
              && Follows(out[|out| - 2], out[|out| - 1], values[|values| - 1], period)
  {
    var front, before := values[..|values| - 1], out[..|out| - 1];
    assert front[..period] == values[..period];
    if Averages(before, front, period) && Follows(out[|out| - 2], out[|out| - 1], values[|values| - 1], period) {
      forall i | 0 < i < |out| ensures Follows(out[i - 1], out[i], values[period + i - 1], period) {
        if i < |out| - 1 {
          assert before[i - 1] == out[i - 1] && before[i] == out[i] && front[period + i - 1] == values[period + i - 1];
        }
      }
    }
    if Averages(out, values, period) {
      forall i | 0 < i < |before| ensures Follows(before[i - 1], before[i], front[period + i - 1], period) {
        assert before[i - 1] == out[i - 1] && before[i] == out[i] && front[period + i - 1] == values[period + i - 1];
      }
    }
  }

  // ------------------------------------------------------------------ bounds

  lemma {:induction false} SumWithin(values: seq<real>, low: real, high: real)
    requires forall i :: 0 <= i < |values| ==> low <= values[i] <= high
    ensures |values| as real * low <= Sum(values) <= |values| as real * high
  {
    if values != [] {
      SumWithin(values[..|values| - 1], low, high);
      Grows(|values| - 1, low);
      Grows(|values| - 1, high);
    }
  }

  lemma Grows(n: nat, x: real)
    ensures (n + 1) as real * x == n as real * x + x
  {
  }

  lemma ShareWithin(total: real, n: nat, low: real, high: real)
    requires n > 0 && n as real * low <= total <= n as real * high
    ensures low <= total / n as real <= high
  {
    var q, m := total / n as real, n as real;
    assert q * m == total;
    assert q < low ==> (low - q) * m > 0.0;
    assert q > high ==> (q - high) * m > 0.0;
  }

  lemma PartWithin(x: real, share: real)
    requires 0.0 <= share <= 1.0
    ensures if x >= 0.0 then 0.0 <= x * share <= x else x <= x * share <= 0.0
  {
    assert x >= 0.0 ==> x * (1.0 - share) >= 0.0;
    assert x < 0.0 ==> x * (1.0 - share) <= 0.0;
    assert x * (1.0 - share) == x - x * share;
  }

  lemma NextWithin(last: real, value: real, factor: real, low: real, high: real)
    requires low <= last <= high && low <= value <= high && 0.0 <= factor <= 1.0
    ensures low <= Next(last, value, factor) <= high
  {
    var gap := value - last;
    PartWithin(gap, factor);
    MoveWithin(last, gap, gap * factor, low, high);
  }

  lemma MoveWithin(last: real, gap: real, move: real, low: real, high: real)
    requires low <= last <= high && low <= last + gap <= high
    requires if gap >= 0.0 then 0.0 <= move <= gap else gap <= move <= 0.0
    ensures low <= move + last <= high
  {
  }

  lemma FactorIsShare(period: nat)
    requires period > 0
    ensures 0.0 < Factor(period) <= 1.0
  {
  }

  /** No average leaves the range of the values it was taken over. */
  lemma {:induction false} EmaWithin(values: seq<real>, period: nat, low: real, high: real)
    requires 0 < period <= |values| && forall i :: 0 <= i < |values| ==> low <= values[i] <= high
    ensures forall i :: 0 <= i < |Ema(values, period)| ==> low <= Ema(values, period)[i] <= high
  {
    if |values| == period {
      assert values[..period] == values;
      SumWithin(values, low, high);
      ShareWithin(Sum(values), period, low, high);
    } else {
      var before := Ema(values[..|values| - 1], period);
      EmaWithin(values[..|values| - 1], period, low, high);
      FactorIsShare(period);
      NextWithin(before[|before| - 1], values[|values| - 1], Factor(period), low, high);
    }
  }

  // ------------------------------------------------------------------ change of units

  function Affine(value: real, k: real, d: real): real {
    k * value + d
  }

  function Mapped(values: seq<real>, k: real, d: real): (mapped: seq<real>)
    ensures |mapped| == |values| && forall i :: 0 <= i < |values| ==> mapped[i] == Affine(values[i], k, d)
  {
    seq(|values|, i requires 0 <= i < |values| => Affine(values[i], k, d))
  }

  lemma MappedPrefix(values: seq<real>, n: nat, k: real, d: real)
    requires n <= |values|
    ensures Mapped(values, k, d)[..n] == Mapped(values[..n], k, d)
  {
  }

  lemma {:induction false} SumMapped(values: seq<real>, k: real, d: real)
    ensures Sum(Mapped(values, k, d)) == k * Sum(values) + |values| as real * d
  {
    if values != [] {
      var front := values[..|values| - 1];
      SumMapped(front, k, d);
      MappedPrefix(values, |values| - 1, k, d);
      Grows(|front|, d);
    }
  }

  lemma SeedMapped(values: seq<real>, period: nat, k: real, d: real)
    requires 0 < period <= |values|
    ensures Seed(Mapped(values, k, d), period) == Affine(Seed(values, period), k, d)
  {
    var first := values[..period];
    SumMapped(first, k, d);
    MappedPrefix(values, period, k, d);
    ShareMapped(Sum(Mapped(first, k, d)), Sum(first), period as real, k, d);
  }

  lemma ShareMapped(mapped: real, total: real, n: real, k: real, d: real)
    requires n > 0.0 && mapped == k * total + n * d
    ensures mapped / n == Affine(total / n, k, d)
  {
    var q := total / n;
    assert total == q * n;
    assert mapped == (k * q + d) * n;
    assert ((k * q + d) * n) / n == k * q + d;
  }

  lemma NextMapped(last: real, value: real, factor: real, k: real, d: real)
    ensures Next(Affine(last, k, d), Affine(value, k, d), factor) == Affine(Next(last, value, factor), k, d)
  {
  }

  /** The averages follow any change of price units and zero. */
  lemma {:induction false} EmaMapped(values: seq<real>, period: nat, k: real, d: real)
    requires 0 < period <= |values|
    ensures Ema(Mapped(values, k, d), period) == Mapped(Ema(values, period), k, d)
  {
    if |values| == period {
      SeedMapped(values, period, k, d);
    } else {
      var front := values[..|values| - 1];
      var before := Ema(front, period);
      EmaMapped(front, period, k, d);
      MappedPrefix(values, |values| - 1, k, d);
      NextMapped(before[|before| - 1], values[|values| - 1], Factor(period), k, d);
    }
  }

  // ------------------------------------------------------------------ the decision

  /** The fast average starts earlier, so it is read `SLOW - FAST` further on. */
  function Line(closes: seq<real>): (macd: seq<real>)
    requires |closes| >= SLOW
    ensures |macd| == |closes| - SLOW + 1
  {
    var fast, slow := Ema(closes, FAST), Ema(closes, SLOW);
    seq(|slow|, i requires 0 <= i < |slow| => fast[i + SLOW - FAST] - slow[i])
  }

  predicate AllSame(closes: seq<real>) {
    forall i, j :: 0 <= i < |closes| && 0 <= j < |closes| ==> closes[i] == closes[j]
  }

  /** The line and its signal end together, with two values at least to read a crossing from. */
  lemma SeriesAlign(closes: seq<real>)
    requires |closes| >= LOOKBACK
    ensures |Ema(Line(closes), SIGNAL)| == |Line(closes)[SIGNAL - 1..]| == |closes| - LOOKBACK + 2
  {
  }

  predicate CrossesUp(line: seq<real>, signal: seq<real>)
    requires |line| == |signal| >= 2
  {
    line[|line| - 2] <= signal[|signal| - 2] && line[|line| - 1] > signal[|signal| - 1]
  }

  /** Whether the closes call for a purchase. */
  predicate Buys(closes: seq<real>) {
    && |closes| >= LOOKBACK && !AllSame(closes)
    && CrossesUp(Line(closes)[SIGNAL - 1..], Ema(Line(closes), SIGNAL))
  }

  method Evaluate(closes: seq<real>) returns (buy: bool)
    ensures buy <==> Buys(closes)
  {
    if |closes| < LOOKBACK {
      return false;
    }
    if AllSame(closes) {
      return false;
    }
    var fast := Average(closes, FAST);
    var slow := Average(closes, SLOW);
    var offset := SLOW - FAST;
    var macd := seq(|slow|, i requires 0 <= i < |slow| && i + offset < |fast| => fast[i + offset] - slow[i]);
    assert macd == Line(closes);
    var signal := Average(macd, SIGNAL);
    var aligned := macd[SIGNAL - 1..];
    buy := aligned[|aligned| - 2] <= signal[|signal| - 2] && aligned[|aligned| - 1] > signal[|signal| - 1];
  }

  /** A purchase is called for exactly where the difference of the 12 and the 26 average, at or below its own
      9 average a bar ago, is above it now, on at least 35 closes that are not all the same. */
  lemma BuysOnCrossing(closes: seq<real>, fast: seq<real>, slow: seq<real>, line: seq<real>, signal: seq<real>)
    requires |closes| >= 35 ==>
               && Averages(fast, closes, 12) && Averages(slow, closes, 26)
               && |line| == |slow| && (forall i :: 0 <= i < |line| ==> line[i] == fast[i + 14] - slow[i])
               && Averages(signal, line, 9)
    ensures Buys(closes) <==>
              && |closes| >= 35 && (exists x, y :: x in closes && y in closes && x != y)
              && line[|line| - 2] <= signal[|signal| - 2] && line[|line| - 1] > signal[|signal| - 1]
  {
    if |closes| >= 35 {
      AveragesIff(fast, closes, 12);
      AveragesIff(slow, closes, 26);
      assert line == Line(closes);
      AveragesIff(signal, line, 9);
      var aligned := line[SIGNAL - 1..];
      assert |aligned| == |signal| && aligned[|aligned| - 2] == line[|line| - 2];
      assert aligned[|aligned| - 1] == line[|line| - 1];
      SameIff(closes);
    }
  }

  lemma SameIff(closes: seq<real>)
    ensures AllSame(closes) <==> !exists x, y :: x in closes && y in closes && x != y
  {
    if i, j :| 0 <= i < |closes| && 0 <= j < |closes| && closes[i] != closes[j] {
      assert closes[i] in closes && closes[j] in closes;
    }
  }

  lemma AffineOrder(a: real, b: real, k: real, d: real)
    requires k > 0.0
    ensures a <= b <==> Affine(a, k, d) <= Affine(b, k, d)
    ensures a == b <==> Affine(a, k, d) == Affine(b, k, d)
  {
    assert a < b ==> (b - a) * k > 0.0;
    assert a > b ==> (a - b) * k > 0.0;
  }

  lemma AffineDifference(a: real, b: real, k: real, d: real)
    ensures Affine(a, k, d) - Affine(b, k, d) == Affine(a - b, k, 0.0)
  {
  }

  lemma LineMapped(closes: seq<real>, k: real, d: real)
    requires |closes| >= SLOW
    ensures Line(Mapped(closes, k, d)) == Mapped(Line(closes), k, 0.0)
  {
    var fast, slow := Ema(closes, FAST), Ema(closes, SLOW);
    EmaMapped(closes, FAST, k, d);
    EmaMapped(closes, SLOW, k, d);
    forall i | 0 <= i < |slow|
      ensures Line(Mapped(closes, k, d))[i] == Mapped(Line(closes), k, 0.0)[i]
    {
      AffineDifference(fast[i + SLOW - FAST], slow[i], k, d);
    }
  }

  lemma CrossingMapped(line: seq<real>, signal: seq<real>, k: real)
    requires |line| == |signal| >= 2 && k > 0.0
    ensures CrossesUp(Mapped(line, k, 0.0), Mapped(signal, k, 0.0)) <==> CrossesUp(line, signal)
  {
    AffineOrder(line[|line| - 2], signal[|signal| - 2], k, 0.0);
    AffineOrder(line[|line| - 1], signal[|signal| - 1], k, 0.0);
  }

  lemma SameMapped(closes: seq<real>, k: real, d: real)
    requires k > 0.0
    ensures AllSame(Mapped(closes, k, d)) <==> AllSame(closes)
  {
    forall i, j | 0 <= i < |closes| && 0 <= j < |closes|
      ensures closes[i] == closes[j] <==> Mapped(closes, k, d)[i] == Mapped(closes, k, d)[j]
    {
      AffineOrder(closes[i], closes[j], k, d);
    }
  }

  /** The decision does not depend on the currency prices are quoted in, nor on where zero is. */
  lemma DecisionInvariant(closes: seq<real>, k: real, d: real)
    requires k > 0.0
    ensures Buys(Mapped(closes, k, d)) <==> Buys(closes)
  {
    SameMapped(closes, k, d);
    if |closes| >= LOOKBACK {
      var line := Line(closes);
      LineMapped(closes, k, d);
      EmaMapped(line, SIGNAL, k, 0.0);
      assert Mapped(line, k, 0.0)[SIGNAL - 1..] == Mapped(line[SIGNAL - 1..], k, 0.0);
      CrossingMapped(line[SIGNAL - 1..], Ema(line, SIGNAL), k);
    }
  }
}
