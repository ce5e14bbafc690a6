/** Trading days: the calendar put together from what was recorded and what is live, and the count of
    days over it. Dates are day numbers; the Moscow date of an instant is a function of it.
 */
module Calendars {
  import Collections
  import opened Models

  /** One day as observed. `start` is the session's first instant, where there is one. */
  datatype Session = Session(date: int, start: Option<int>, trading: bool)

  /** The latest observation of each date. */
  function Latest(observed: seq<Session>): (known: map<int, Session>)
    ensures forall d :: d in known ==> known[d].date == d && known[d] in observed
    ensures forall s :: s in observed ==> s.date in known
  {
    if observed == [] then map[]
    else
      var last := observed[|observed| - 1];
      Latest(observed[..|observed| - 1])[last.date := last]
  }

  /** History first, then the live window: the newer observation wins. */
  lemma {:induction false} LiveWins(history: seq<Session>, live: seq<Session>, d: int)
    ensures d in Latest(history + live) <==> d in Latest(history) || d in Latest(live)
    ensures d in Latest(live) ==> Latest(history + live)[d] == Latest(live)[d]
    ensures d in Latest(history) && d !in Latest(live) ==> Latest(history + live)[d] == Latest(history)[d]
  {
    if live == [] {
      assert history + live == history;
    } else {
      assert (history + live)[..|history + live| - 1] == history + live[..|live| - 1];
      LiveWins(history, live[..|live| - 1], d);
    }
  }

  /** One entry for each known date, closed days included, oldest first. */
  method Calendar(history: seq<Session>, live: seq<Session>) returns (sessions: seq<Session>)
    ensures forall i, j :: 0 <= i < j < |sessions| ==> sessions[i].date < sessions[j].date
    ensures forall s :: s in sessions <==> s.date in Latest(history + live) && Latest(history + live)[s.date] == s
  {
    var byDay: map<int, Session> := map[];
    var observed := history + live;
    for i := 0 to |observed|
      invariant byDay == Latest(observed[..i])
    {
      assert observed[..i + 1][..i] == observed[..i];
      byDay := byDay[observed[i].date := observed[i]];
    }
    assert observed[..|observed|] == observed;
    sessions := InOrder(byDay);
  }

  method InOrder(byDay: map<int, Session>) returns (sessions: seq<Session>)
    requires forall d :: d in byDay ==> byDay[d].date == d
    ensures forall i, j :: 0 <= i < j < |sessions| ==> sessions[i].date < sessions[j].date
    ensures forall s :: s in sessions <==> s.date in byDay && byDay[s.date] == s
  {
    var days := Collections.Ascending(byDay.Keys);
    assert forall i :: 0 <= i < |days| ==> days[i] in days;
    sessions := seq(|days|, i requires 0 <= i < |days| && days[i] in byDay => byDay[days[i]]);
    forall s: Session | s.date in byDay && byDay[s.date] == s ensures s in sessions {
      var i :| 0 <= i < |days| && days[i] == s.date;
      assert sessions[i] == s;
    }
  }

  // ------------------------------------------------------------------ counting

  /** The dates sessions start on. */
  function TradingDates(sessions: seq<Session>, dateOf: int -> int): set<int> {
    set s | s in sessions && s.trading && s.start.Some? :: dateOf(s.start.value)
  }

  function Within(dates: set<int>, after: int, until: int): set<int> {
    set d | d in dates && after < d <= until
  }

  /** Stepping day by day counts the trading dates after the first day, up to the last. */
  method TradingDaysBetween(start: int, end: int, sessions: seq<Session>, dateOf: int -> int)
    returns (days: Option<nat>)
    ensures days.None? <==> end < start
    ensures days.Some? ==> days.value == |Within(TradingDates(sessions, dateOf), dateOf(start), dateOf(end))|
  {
    if end < start {
      return None;
    }
    var dates := TradingDates(sessions, dateOf);
    var first, last := dateOf(start), dateOf(end);
    var elapsed: nat := 0;
    var cursor := first + 1;
    assert Within(dates, first, first) == {};
    while cursor <= last
      invariant first < cursor && (first <= last ==> cursor <= last + 1)
      invariant cursor == first + 1 || cursor <= last + 1
      invariant elapsed == |Within(dates, first, cursor - 1)|
      decreases last - cursor
    {
      OneMoreDay(dates, first, cursor);
      if cursor in dates {
        elapsed := elapsed + 1;
      }
      cursor := cursor + 1;
    }
    assert Within(dates, first, cursor - 1) == Within(dates, first, last);
    return Some(elapsed);
  }

  lemma OneMoreDay(dates: set<int>, after: int, day: int)
    requires after < day
    ensures |Within(dates, after, day)| == |Within(dates, after, day - 1)| + if day in dates then 1 else 0
  {
    var before := Within(dates, after, day - 1);
    if day in dates {
      assert Within(dates, after, day) == before + {day} && day !in before;
    } else {
      assert Within(dates, after, day) == before;
    }
  }

  /** The age of a position adds up over any instant in between. */
  lemma DaysAddUp(dates: set<int>, a: int, b: int, c: int)
    requires a <= b <= c
    ensures |Within(dates, a, c)| == |Within(dates, a, b)| + |Within(dates, b, c)|
  {
    assert Within(dates, a, c) == Within(dates, a, b) + Within(dates, b, c);
    assert Within(dates, a, b) !! Within(dates, b, c);
  }

  /** Each entry of a trading day is filed under the date its session starts on. */
  predicate FiledUnderStart(observed: seq<Session>, dateOf: int -> int) {
    forall s :: s in observed && s.trading && s.start.Some? ==> dateOf(s.start.value) == s.date
  }

  /** Over the calendar, exactly the dates whose latest observation is a trading day are counted, each
      once however often it was observed. */
  lemma CountsLatestTradingDates(history: seq<Session>, live: seq<Session>, sessions: seq<Session>, dateOf: int -> int,
                                 d: int)
    requires FiledUnderStart(history + live, dateOf)
    requires forall s :: s in sessions <==> s.date in Latest(history + live) && Latest(history + live)[s.date] == s
    ensures d in TradingDates(sessions, dateOf) <==>
            var known := Latest(history + live);
            d in known && known[d].trading && known[d].start.Some?
  {
    var known := Latest(history + live);
    if d in known && known[d].trading && known[d].start.Some? {
      assert known[d] in sessions;
    }
  }

  /** Days before the earliest recorded one are not counted: a position older than the calendar looks
      young, which is what `covers` lets a caller detect. */
  lemma UncoveredDaysUncounted(dates: set<int>, earliest: int, after: int, until: int)
    requires (forall d :: d in dates ==> d >= earliest) && after < earliest <= until + 1
    ensures |Within(dates, after, until)| == |Within(dates, earliest - 1, until)|
  {
    assert Within(dates, after, until) == Within(dates, earliest - 1, until);
  }
}
