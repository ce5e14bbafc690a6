/** Sums of a weight over the values of a finite map. */
module MapSums {

  ghost function Sum<K, V>(m: map<K, V>, weight: V -> int): int
    decreases |m|
  {
    if m == map[] then 0
    else
      var k :| k in m;
      weight(m[k]) + Sum(m - {k}, weight)
  }

  /** Any key, not just the chosen one, can be taken out of a sum. */
  lemma {:induction false} SumTakeOut<K, V>(m: map<K, V>, weight: V -> int, k: K)
    requires k in m
    ensures Sum(m, weight) == weight(m[k]) + Sum(m - {k}, weight)
    decreases |m|
  {
    var c :| c in m && Sum(m, weight) == weight(m[c]) + Sum(m - {c}, weight);
    if c != k {
      var rest := m - {c};
      SumTakeOut(rest, weight, k);
      SumTakeOut(m - {k}, weight, c);
      assert rest - {k} == m - {k} - {c};
    }
  }

  /** Writing one entry shifts the sum by the difference of the two weights. */
  lemma SumUpdate<K, V>(m: map<K, V>, weight: V -> int, k: K, v: V)
    ensures Sum(m[k := v], weight) == Sum(m, weight) + weight(v) - (if k in m then weight(m[k]) else 0)
  {
    SumTakeOut(m[k := v], weight, k);
    assert m[k := v] - {k} == m - {k};
    if k in m {
      SumTakeOut(m, weight, k);
    } else {
      assert m - {k} == m;
    }
  }

  lemma {:induction false} SumZero<K, V>(m: map<K, V>, weight: V -> int)
    requires forall k :: k in m ==> weight(m[k]) == 0
    ensures Sum(m, weight) == 0
    decreases |m|
  {
    if k :| k in m {
      SumTakeOut(m, weight, k);
      SumZero(m - {k}, weight);
    }
  }

  /** A weight in two parts. */
  lemma {:induction false} SumAdds<K, V>(m: map<K, V>, whole: V -> int, part: V -> int, rest: V -> int)
    requires forall k :: k in m ==> whole(m[k]) == part(m[k]) + rest(m[k])
    ensures Sum(m, whole) == Sum(m, part) + Sum(m, rest)
    decreases |m|
  {
    if k :| k in m {
      SumTakeOut(m, whole, k);
      SumTakeOut(m, part, k);
      SumTakeOut(m, rest, k);
      SumAdds(m - {k}, whole, part, rest);
    }
  }

  /** A map in two parts. */
  lemma {:induction false} SumJoins<K, V>(m: map<K, V>, n: map<K, V>, weight: V -> int)
    requires m.Keys !! n.Keys
    ensures Sum(m + n, weight) == Sum(m, weight) + Sum(n, weight)
    decreases |n|
  {
    if n == map[] {
      assert m + n == m;
    } else {
      var k :| k in n;
      SumJoins(m, n - {k}, weight);
      SumTakeOut(n, weight, k);
      SumUpdate(m + (n - {k}), weight, k, n[k]);
      JoinOneMore(m, n, k);
    }
  }

  lemma JoinOneMore<K, V>(m: map<K, V>, n: map<K, V>, k: K)
    requires k in n
    ensures m + n == (m + (n - {k}))[k := n[k]]
  {
  }

  /** The same for money. */
  ghost function Total<K, V>(m: map<K, V>, worth: V -> real): real
    decreases |m|
  {
    if m == map[] then 0.0
    else
      var k :| k in m;
      worth(m[k]) + Total(m - {k}, worth)
  }

  lemma {:induction false} TotalTakeOut<K, V>(m: map<K, V>, worth: V -> real, k: K)
    requires k in m
    ensures Total(m, worth) == worth(m[k]) + Total(m - {k}, worth)
    decreases |m|
  {
    var c :| c in m && Total(m, worth) == worth(m[c]) + Total(m - {c}, worth);
    if c != k {
      var rest := m - {c};
      TotalTakeOut(rest, worth, k);
      TotalTakeOut(m - {k}, worth, c);
      assert rest - {k} == m - {k} - {c};
    }
  }

  lemma TotalUpdate<K, V>(m: map<K, V>, worth: V -> real, k: K, v: V)
    ensures Total(m[k := v], worth) == Total(m, worth) + worth(v) - (if k in m then worth(m[k]) else 0.0)
  {
    TotalTakeOut(m[k := v], worth, k);
    assert m[k := v] - {k} == m - {k};
    if k in m {
      TotalTakeOut(m, worth, k);
    } else {
      assert m - {k} == m;
    }
  }

  lemma {:induction false} TotalSplits<K, V>(m: map<K, V>, whole: V -> real, gain: V -> real, loss: V -> real,
                                             fees: V -> real)
    requires forall k :: k in m ==> whole(m[k]) == gain(m[k]) - loss(m[k]) - fees(m[k])
    ensures Total(m, whole) == Total(m, gain) - Total(m, loss) - Total(m, fees)
    decreases |m|
  {
    if k :| k in m {
      TotalTakeOut(m, whole, k);
      TotalTakeOut(m, gain, k);
      TotalTakeOut(m, loss, k);
      TotalTakeOut(m, fees, k);
      TotalSplits(m - {k}, whole, gain, loss, fees);
    }
  }
}
