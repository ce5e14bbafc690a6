/** The candle cache of a backtest: a file that is extended on a miss, and must never answer
    differently from its source.
 */
module CandleCaches {
  import Collections
  import opened Models

  datatype Candle = Candle(at: int, close: real)

  /** What the file holds: its candles and the interval they cover. */
  datatype CacheFile = CacheFile(candles: seq<Candle>, start: int, end: int)

  ghost predicate Ascending(cs: seq<Candle>) {
    forall i, j :: 0 <= i < j < |cs| ==> cs[i].at < cs[j].at
  }

  function InRange(cs: seq<Candle>, start: int, end: int): (kept: seq<Candle>)
    ensures forall c :: c in kept <==> c in cs && start <= c.at <= end
  {
    if cs == [] then []
    else (if start <= cs[0].at <= end then [cs[0]] else []) + InRange(cs[1..], start, end)
  }

  lemma {:induction false} InRangeAscending(cs: seq<Candle>, start: int, end: int)
    requires Ascending(cs)
    ensures Ascending(InRange(cs, start, end))
  {
    if cs != [] {
      var rest := InRange(cs[1..], start, end);
      InRangeAscending(cs[1..], start, end);
      forall i | 0 <= i < |rest| ensures rest[i].at > cs[0].at {
        assert rest[i] in rest;
      }
    }
  }

  lemma TailMembers(a: seq<Candle>)
    requires Ascending(a) && a != []
    ensures forall c :: c in a[1..] <==> c in a && c != a[0]
  {
    forall c | c in a && c != a[0] ensures c in a[1..] {
      var i :| 0 <= i < |a| && a[i] == c;
      assert a[1..][i - 1] == c;
    }
  }

  lemma SomeMember(a: seq<Candle>)
    requires a != []
    ensures exists c :: c in a
  {
    assert a[0] in a;
  }

  /** An ascending list is determined by its members. */
  lemma {:induction false} AscendingUnique(a: seq<Candle>, b: seq<Candle>)
    requires Ascending(a) && Ascending(b) && forall c :: c in a <==> c in b
    ensures a == b
  {
    if a == [] {
      if b != [] {
        SomeMember(b);
      }
    } else {
      assert a[0] in b && b[0] in a;
      var i :| 0 <= i < |b| && b[i] == a[0];
      var j :| 0 <= j < |a| && a[j] == b[0];
      assert a[0] == b[0];
      TailMembers(a);
      TailMembers(b);
      AscendingUnique(a[1..], b[1..]);
    }
  }

  /** Later entries win. */
  function ByTime(cs: seq<Candle>): (m: map<int, Candle>)
    ensures forall t :: t in m ==> m[t].at == t && m[t] in cs
    ensures forall c :: c in cs ==> c.at in m
  {
    if cs == [] then map[]
    else
      var last := cs[|cs| - 1];
      ByTime(cs[..|cs| - 1])[last.at := last]
  }

  /** The values of the table, oldest first. */
  method SortedValues(m: map<int, Candle>) returns (cs: seq<Candle>)
    requires forall t :: t in m ==> m[t].at == t
    ensures Ascending(cs) && forall c :: c in cs <==> c.at in m && m[c.at] == c
  {
    var times := Collections.Ascending(m.Keys);
    assert forall i :: 0 <= i < |times| ==> times[i] in times;
    cs := seq(|times|, i requires 0 <= i < |times| && times[i] in m => m[times[i]]);
    forall c: Candle | c.at in m && m[c.at] == c ensures c in cs {
      var i :| 0 <= i < |times| && times[i] == c.at;
      assert cs[i] == c;
    }
  }

  method Merge(existing: seq<Candle>, incoming: seq<Candle>) returns (merged: seq<Candle>)
    ensures Ascending(merged)
    ensures forall c :: c in merged <==> c.at in ByTime(existing + incoming) && ByTime(existing + incoming)[c.at] == c
  {
    var byTime: map<int, Candle> := map[];
    var all := existing + incoming;
    for i := 0 to |all|
      invariant byTime == ByTime(all[..i])
    {
      assert all[..i + 1][..i] == all[..i];
      byTime := byTime[all[i].at := all[i]];
    }
    assert all[..|all|] == all;
    merged := SortedValues(byTime);
  }

  /** Where every candle comes from one source, the merge is their union. */
  lemma MergedFromSource(source: seq<Candle>, cs: seq<Candle>, c: Candle)
    requires Ascending(source) && forall d :: d in cs ==> d in source
    ensures c.at in ByTime(cs) && ByTime(cs)[c.at] == c <==> c in cs
  {
    if c in cs {
      var d := ByTime(cs)[c.at];
      var i :| 0 <= i < |source| && source[i] == c;
      var j :| 0 <= j < |source| && source[j] == d;
    }
  }

  predicate InSome(fetches: seq<(int, int)>, t: int) {
    exists i :: 0 <= i < |fetches| && fetches[i].0 <= t <= fetches[i].1
  }

  class CandleCache {
    /** What the broker would answer: its candles are never revised. */
    const source: seq<Candle>
    var file: Option<CacheFile>
    /** How many times the broker was asked. */
    var requests: nat

    /** The cache is the source, restricted to the interval it covers. */
    ghost predicate Valid()
      reads this
    {
      && Ascending(source)
      && (file.Some? ==> file.value.start <= file.value.end
                         && file.value.candles == InRange(source, file.value.start, file.value.end))
    }

    constructor (source: seq<Candle>)
      requires Ascending(source)
      ensures Valid() && this.source == source && file == None
    {
      this.source := source;
      file, requests := None, 0;
    }

    /** The broker's answer, oldest first, unless it fails. */
    method GetCandles(since: int, until: int) returns (reply: Option<seq<Candle>>)
      modifies `requests
      ensures requests == old(requests) + 1
      ensures reply.Some? ==> reply.value == InRange(source, since, until)
    {
      requests := requests + 1;
      var fails: bool := *;
      reply := if fails then None else Some(InRange(source, since, until));
    }

    method FetchAll(fetches: seq<(int, int)>) returns (incoming: Option<seq<Candle>>)
      modifies `requests
      ensures requests <= old(requests) + |fetches|
      ensures incoming.Some? ==> forall c ::
                c in incoming.value <==> c in source && InSome(fetches, c.at)
    {
      var all: seq<Candle> := [];
      for i := 0 to |fetches|
        invariant requests <= old(requests) + i
        invariant forall c :: c in all <==> c in source && InSome(fetches[..i], c.at)
      {
        var reply := GetCandles(fetches[i].0, fetches[i].1);
        if reply.None? {
          return None;
        }
        all := all + reply.value;
        assert fetches[..i + 1] == fetches[..i] + [fetches[i]];
        OneMore(fetches[..i], fetches[i]);
      }
      assert fetches[..|fetches|] == fetches;
      return Some(all);
    }

    /** The interval after a load, and the gaps to fetch for it. */
    method Extend(start: int, end: int) returns (covered: (int, int), fetches: seq<(int, int)>)
      requires Valid() && start <= end
      ensures covered.0 <= start <= end <= covered.1
      ensures file.None? ==> covered == (start, end) && fetches == [(start, end)]
                             && forall t :: InSome(fetches, t) <==> start <= t <= end
      ensures file.Some? ==>
                && covered.0 == (if start < file.value.start then start else file.value.start)
                && covered.1 == (if end > file.value.end then end else file.value.end)
                && (forall t :: file.value.start <= t <= file.value.end || InSome(fetches, t)
                                <==> covered.0 <= t <= covered.1)
                && (fetches == [] <==> file.value.start <= start && end <= file.value.end)
    {
      if file.None? {
        OneMore([], (start, end));
        assert [] + [(start, end)] == [(start, end)];
        return (start, end), [(start, end)];
      }
      fetches, covered := [], (file.value.start, file.value.end);
      if start < covered.0 {
        fetches := fetches + [(start, covered.0)];
        covered := (start, covered.1);
      }
      if end > covered.1 {
        fetches := fetches + [(covered.1, end)];
        covered := (covered.0, end);
      }
      Gaps(file.value, start, end, covered, fetches);
    }

    /** Answers exactly what the source would, from any earlier sequence of loads: disjoint, nested, or
        to either side. A failed fetch changes nothing; a covered request asks nobody. */
    method Load(start: int, end: int) returns (reply: Option<seq<Candle>>)
      requires Valid() && start <= end
      modifies this
      ensures Valid()
      ensures reply.None? ==> file == old(file)
      ensures reply.Some? ==>
                && reply.value == InRange(source, start, end) && Ascending(reply.value)
                && file.Some? && file.value.start <= start && end <= file.value.end
                && (old(file).Some? ==>
                      file.value.start <= old(file).value.start && old(file).value.end <= file.value.end)
      ensures old(file.Some? && file.value.start <= start && end <= file.value.end) ==>
                reply.Some? && file == old(file) && requests == old(requests)
    {
      var covered, fetches := Extend(start, end);
      var cached := if file.Some? then file.value.candles else [];
      if fetches != [] {
        var incoming := FetchAll(fetches);
        if incoming.None? {
          return None;
        }
        cached := Stored(cached, incoming.value, covered);
        file := Some(CacheFile(cached, covered.0, covered.1));
      }
      InRangeAscending(source, start, end);
      InRangeAscending(source, covered.0, covered.1);
      InRangeAscending(cached, start, end);
      AscendingUnique(InRange(cached, start, end), InRange(source, start, end));
      return Some(InRange(cached, start, end));
    }

    /** What is written back: the source over the wider interval. */
    method Stored(cached: seq<Candle>, incoming: seq<Candle>, covered: (int, int)) returns (merged: seq<Candle>)
      requires Ascending(source)
      requires forall c :: c in cached || c in incoming <==> c in source && covered.0 <= c.at <= covered.1
      ensures merged == InRange(source, covered.0, covered.1)
    {
      merged := Merge(cached, incoming);
      var all := cached + incoming;
      forall c ensures c in merged <==> c in all {
        MergedFromSource(source, all, c);
      }
      InRangeAscending(source, covered.0, covered.1);
      AscendingUnique(merged, InRange(source, covered.0, covered.1));
    }
  }

  lemma OneMore(fetches: seq<(int, int)>, f: (int, int))
    ensures forall t :: InSome(fetches + [f], t) <==> InSome(fetches, t) || f.0 <= t <= f.1
  {
    var more := fetches + [f];
    forall t | f.0 <= t <= f.1 ensures InSome(more, t) {
      assert more[|fetches|] == f;
    }
    forall t | InSome(fetches, t) ensures InSome(more, t) {
      var i :| 0 <= i < |fetches| && fetches[i].0 <= t <= fetches[i].1;
      assert more[i] == fetches[i];
    }
  }

  /** The file and the gaps cover the wider interval without a hole. */
  lemma Gaps(file: CacheFile, start: int, end: int, covered: (int, int), fetches: seq<(int, int)>)
    requires file.start <= file.end && start <= end
    requires covered == (if start < file.start then start else file.start, if end > file.end then end else file.end)
    requires fetches == (if start < file.start then [(start, file.start)] else [])
                        + (if end > file.end then [(file.end, end)] else [])
    ensures forall t :: file.start <= t <= file.end || InSome(fetches, t) <==> covered.0 <= t <= covered.1
  {
    var low := if start < file.start then [(start, file.start)] else [];
    OneMore([], (start, file.start));
    assert [] + [(start, file.start)] == [(start, file.start)];
    if end > file.end {
      OneMore(low, (file.end, end));
    } else {
      assert fetches == low;
    }
  }
}
