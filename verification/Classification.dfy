/** How reconciliation names the faults of every stop the broker lists. */
module Classification {
  import opened Models
  import opened Bots

  /** A live stop as the broker lists it. */
  datatype LiveStop = LiveStop(sid: nat, key: Id, ticker: string, lots: nat, price: real, created: int)

  /** An open position with its row number. */
  datatype Numbered = Numbered(pid: nat, row: Position)

  datatype Adjustment =
    | ClosedExternally(ticker: string, pid: nat)
    | ExitUnresolved(ticker: string, pid: nat)
    | LotsAdjusted(ticker: string, pid: nat, was: nat, lots: nat)
    | Adopted(ticker: string, lots: nat)
    | ForeignHolding(ticker: string, lots: nat)
    | StopDuplicate(ticker: string, pid: nat, keep: nat, cancel: seq<nat>)
    | StopMispriced(ticker: string, pid: nat)
    | StopMissized(ticker: string, pid: nat)
    | StopAdoptable(ticker: string, pid: nat, sid: nat)
    | StopMissing(ticker: string, pid: nat)
    | StopOrphan(ticker: string, sid: nat, key: Id)
  {
    /** At most one of these is due to a position: two would unprotect it twice for one fault. */
    predicate Judgement() { StopMispriced? || StopMissized? || StopAdoptable? || StopMissing? }
    predicate Replaces() { StopMispriced? || StopMissized? }
    predicate AboutStops() { Judgement() || StopDuplicate? || StopOrphan? }
  }

  // ------------------------------------------------------------------ which stop is kept

  /** The position's protection column names this stop. */
  predicate Named(p: Position, s: LiveStop) {
    p.protection.Exchange? && (s.key == p.protection.key || Theirs(s.sid) == p.protection.key)
  }

  function FirstNamed(p: Position, stops: seq<LiveStop>): (found: Option<nat>)
    ensures found.Some? ==> found.value < |stops| && Named(p, stops[found.value])
    ensures found.None? ==> forall i :: 0 <= i < |stops| ==> !Named(p, stops[i])
  {
    if stops == [] then None
    else if Named(p, stops[0]) then Some(0)
    else
      var later := FirstNamed(p, stops[1..]);
      if later.Some? then Some(later.value + 1) else None
  }

  function Oldest(stops: seq<LiveStop>): (k: nat)
    requires stops != []
    ensures k < |stops| && forall i :: 0 <= i < |stops| ==> stops[k].created <= stops[i].created
  {
    if |stops| == 1 then 0
    else
      var later := Oldest(stops[1..]) + 1;
      if stops[0].created <= stops[later].created then 0 else later
  }

  /** The stop that survives: the one the position names, else the oldest. */
  function KeepStop(p: Position, stops: seq<LiveStop>): (k: nat)
    requires stops != []
    ensures k < |stops|
    ensures (exists i :: 0 <= i < |stops| && Named(p, stops[i])) ==> Named(p, stops[k])
    ensures (forall i :: 0 <= i < |stops| ==> !Named(p, stops[i])) ==>
              forall i :: 0 <= i < |stops| ==> stops[k].created <= stops[i].created
  {
    var named := FirstNamed(p, stops);
    if named.Some? then named.value else Oldest(stops)
  }

  /** A whole tick away, rather than merely rounded by the broker. */
  predicate IsMispriced(held: real, asked: real, increment: Tick) {
    held - asked >= increment || asked - held >= increment
  }

  // ------------------------------------------------------------------ findings

  function OnTicker(stops: seq<LiveStop>, ticker: string): (mine: seq<LiveStop>)
    ensures forall s :: s in mine <==> s in stops && s.ticker == ticker
  {
    if stops == [] then []
    else
      var last := stops[|stops| - 1];
      OnTicker(stops[..|stops| - 1], ticker) + if last.ticker == ticker then [last] else []
  }

  function SidsExcept(stops: seq<LiveStop>, k: nat): (sids: seq<nat>)
    requires k < |stops|
  {
    Sids(stops[..k]) + Sids(stops[k + 1..])
  }

  function Sids(stops: seq<LiveStop>): (sids: seq<nat>)
    ensures |sids| == |stops| && forall i :: 0 <= i < |stops| ==> sids[i] == stops[i].sid
  {
    seq(|stops|, i requires 0 <= i < |stops| => stops[i].sid)
  }

  predicate Mispriced(p: Position, kept: LiveStop, increments: map<string, Tick>) {
    p.ticker in increments && IsMispriced(kept.price, p.stop, increments[p.ticker])
  }

  /** What the price or the size of the kept stop calls for. Without a tick the price is not judged,
      and neither is adoption. */
  function KeptFinding(n: Numbered, kept: LiveStop, increments: map<string, Tick>): seq<Adjustment> {
    if Mispriced(n.row, kept, increments) then [StopMispriced(n.row.ticker, n.pid)]
    else if kept.lots != n.row.lots then [StopMissized(n.row.ticker, n.pid)]
    else if n.row.ticker in increments && n.row.protection.Local? then [StopAdoptable(n.row.ticker, n.pid, kept.sid)]
    else []
  }

  function FindingsFor(n: Numbered, mine: seq<LiveStop>, increments: map<string, Tick>): seq<Adjustment> {
    if mine == [] then
      if n.row.protection.Exchange? then [StopMissing(n.row.ticker, n.pid)] else []
    else
      var k := KeepStop(n.row, mine);
      (if |mine| > 1 then [StopDuplicate(n.row.ticker, n.pid, mine[k].sid, SidsExcept(mine, k))] else [])
      + KeptFinding(n, mine[k], increments)
  }

  function Due(stops: seq<LiveStop>, increments: map<string, Tick>): Numbered -> seq<Adjustment> {
    (n: Numbered) => FindingsFor(n, OnTicker(stops, n.row.ticker), increments)
  }

  function ForEach(rows: seq<Numbered>, due: Numbered -> seq<Adjustment>): seq<Adjustment> {
    if rows == [] then [] else ForEach(rows[..|rows| - 1], due) + due(rows[|rows| - 1])
  }

  predicate OpenOn(rows: seq<Numbered>, ticker: string) {
    exists i :: 0 <= i < |rows| && rows[i].row.ticker == ticker
  }

  /** Some listed stop of an open position carries this identifier. */
  predicate Claimed(rows: seq<Numbered>, stops: seq<LiveStop>, sid: nat) {
    exists i :: 0 <= i < |stops| && stops[i].sid == sid && OpenOn(rows, stops[i].ticker)
  }

  predicate IsOrphan(rows: seq<Numbered>, stops: seq<LiveStop>, s: LiveStop) {
    !Claimed(rows, stops, s.sid) && !OpenOn(rows, s.ticker)
  }

  function Orphans(rows: seq<Numbered>, stops: seq<LiveStop>, n: nat): seq<Adjustment>
    requires n <= |stops|
  {
    if n == 0 then []
    else
      var s := stops[n - 1];
      Orphans(rows, stops, n - 1) + if IsOrphan(rows, stops, s) then [StopOrphan(s.ticker, s.sid, s.key)] else []
  }

  function Findings(rows: seq<Numbered>, stops: seq<LiveStop>, increments: map<string, Tick>): seq<Adjustment> {
    ForEach(rows, Due(stops, increments)) + Orphans(rows, stops, |stops|)
  }

  /** The two loops of the classification, with their growing set of claimed identifiers. */
  method StopAdjustments(rows: seq<Numbered>, stops: seq<LiveStop>, increments: map<string, Tick>)
    returns (found: seq<Adjustment>)
    ensures found == Findings(rows, stops, increments)
  {
    found := [];
    var claimed: set<nat> := {};
    for i := 0 to |rows|
      invariant found == ForEach(rows[..i], Due(stops, increments))
      invariant forall sid :: sid in claimed <==> Claimed(rows[..i], stops, sid)
    {
      assert rows[..i + 1][..i] == rows[..i];
      var mine := OnTicker(stops, rows[i].row.ticker);
      var more := PositionAdjustments(rows[i], mine, increments);
      found := found + more;
      ClaimedOneMore(rows, stops, i);
      claimed := Claim(claimed, mine);
    }
    assert rows[..|rows|] == rows;
    var orphans := OrphanAdjustments(rows, stops, claimed);
    found := found + orphans;
  }

  method PositionAdjustments(n: Numbered, mine: seq<LiveStop>, increments: map<string, Tick>)
    returns (found: seq<Adjustment>)
    ensures found == FindingsFor(n, mine, increments)
  {
    found := [];
    if mine != [] {
      var k := KeepStop(n.row, mine);
      if |mine| > 1 {
        found := found + [StopDuplicate(n.row.ticker, n.pid, mine[k].sid, SidsExcept(mine, k))];
      }
      found := found + KeptFinding(n, mine[k], increments);
    } else if n.row.protection.Exchange? {
      found := found + [StopMissing(n.row.ticker, n.pid)];
    }
  }

  method Claim(before: set<nat>, mine: seq<LiveStop>) returns (claimed: set<nat>)
    ensures forall sid :: sid in claimed <==> sid in before || sid in Sids(mine)
  {
    claimed := before;
    for j := 0 to |mine|
      invariant forall sid :: sid in claimed <==> sid in before || sid in Sids(mine)[..j]
    {
      claimed := claimed + {mine[j].sid};
    }
  }

  method OrphanAdjustments(rows: seq<Numbered>, stops: seq<LiveStop>, claimed: set<nat>)
    returns (found: seq<Adjustment>)
    requires forall sid :: sid in claimed <==> Claimed(rows, stops, sid)
    ensures found == Orphans(rows, stops, |stops|)
  {
    found := [];
    for j := 0 to |stops|
      invariant found == Orphans(rows, stops, j)
    {
      var s := stops[j];
      if s.sid !in claimed && !OpenOn(rows, s.ticker) {
        found := found + [StopOrphan(s.ticker, s.sid, s.key)];
      }
    }
  }

  lemma ClaimedOneMore(rows: seq<Numbered>, stops: seq<LiveStop>, i: nat)
    requires i < |rows|
    ensures forall sid :: Claimed(rows[..i + 1], stops, sid)
                          <==> Claimed(rows[..i], stops, sid) || sid in Sids(OnTicker(stops, rows[i].row.ticker))
  {
    var mine := OnTicker(stops, rows[i].row.ticker);
    assert rows[..i + 1] == rows[..i] + [rows[i]];
    forall t: string
      ensures OpenOn(rows[..i + 1], t) <==> OpenOn(rows[..i], t) || t == rows[i].row.ticker
    {
      assert rows[..i + 1][i].row.ticker == rows[i].row.ticker;
      if j :| 0 <= j < |rows[..i]| && rows[..i][j].row.ticker == t {
        assert rows[..i + 1][j].row.ticker == t;
      }
    }
    forall sid | sid in Sids(mine) ensures Claimed(rows[..i + 1], stops, sid) {
      var j :| 0 <= j < |mine| && mine[j].sid == sid;
      assert mine[j] in stops;
      var m :| 0 <= m < |stops| && stops[m] == mine[j];
    }
    forall sid | Claimed(rows[..i + 1], stops, sid)
      ensures Claimed(rows[..i], stops, sid) || sid in Sids(mine)
    {
      var m :| 0 <= m < |stops| && stops[m].sid == sid && OpenOn(rows[..i + 1], stops[m].ticker);
      if !OpenOn(rows[..i], stops[m].ticker) {
        assert stops[m] in mine;
        var j :| 0 <= j < |mine| && mine[j] == stops[m];
        assert Sids(mine)[j] == sid;
      }
    }
  }

  // ------------------------------------------------------------------ what a finding means

  ghost predicate DistinctStops(stops: seq<LiveStop>) {
    forall i, j :: 0 <= i < j < |stops| ==> stops[i].sid != stops[j].sid
  }

  ghost predicate DistinctRows(rows: seq<Numbered>) {
    forall i, j :: 0 <= i < j < |rows| ==> rows[i].pid != rows[j].pid && rows[i].row.ticker != rows[j].row.ticker
  }

  lemma {:induction false} ForEachHas(rows: seq<Numbered>, due: Numbered -> seq<Adjustment>, f: Adjustment)
    ensures f in ForEach(rows, due) <==> exists i :: 0 <= i < |rows| && f in due(rows[i])
  {
    if rows != [] {
      var front, last := rows[..|rows| - 1], rows[|rows| - 1];
      ForEachHas(front, due, f);
      assert rows == front + [last];
      assert f in ForEach(rows, due) <==> f in ForEach(front, due) || f in due(last);
    }
  }

  lemma {:induction false} OrphansHas(rows: seq<Numbered>, stops: seq<LiveStop>, n: nat, f: Adjustment)
    requires n <= |stops|
    ensures f in Orphans(rows, stops, n) <==>
            exists i :: 0 <= i < n && IsOrphan(rows, stops, stops[i])
                        && f == StopOrphan(stops[i].ticker, stops[i].sid, stops[i].key)
  {
    if n > 0 {
      OrphansHas(rows, stops, n - 1, f);
    }
  }

  /** Every finding is due to one open position and its listed stops, or to one orphan; and all of
      those are found. */
  lemma FindingsHas(rows: seq<Numbered>, stops: seq<LiveStop>, increments: map<string, Tick>, f: Adjustment)
    ensures f in Findings(rows, stops, increments) <==>
            || (exists i :: 0 <= i < |rows| && f in Due(stops, increments)(rows[i]))
            || (exists j :: 0 <= j < |stops| && IsOrphan(rows, stops, stops[j])
                            && f == StopOrphan(stops[j].ticker, stops[j].sid, stops[j].key))
  {
    ForEachHas(rows, Due(stops, increments), f);
    OrphansHas(rows, stops, |stops|, f);
  }

  // ------------------------------------------------------------------ the findings partition the stops

  lemma {:induction false} OnTickerDistinct(stops: seq<LiveStop>, ticker: string)
    requires DistinctStops(stops)
    ensures DistinctStops(OnTicker(stops, ticker))
  {
    if stops != [] {
      OnTickerDistinct(stops[..|stops| - 1], ticker);
    }
  }

  /** The stop listed at its identifier, when identifiers are distinct. */
  lemma SameStop(stops: seq<LiveStop>, s: LiveStop, r: LiveStop)
    requires DistinctStops(stops) && s in stops && r in stops && s.sid == r.sid
    ensures s == r
  {
    var i :| 0 <= i < |stops| && stops[i] == s;
    var j :| 0 <= j < |stops| && stops[j] == r;
  }

  lemma ExceptHas(stops: seq<LiveStop>, k: nat, s: LiveStop)
    requires DistinctStops(stops) && k < |stops| && s in stops
    ensures s.sid in SidsExcept(stops, k) <==> s != stops[k]
  {
    var j :| 0 <= j < |stops| && stops[j] == s;
    if j < k {
      assert Sids(stops[..k])[j] == s.sid;
    } else if j > k {
      assert Sids(stops[k + 1..])[j - k - 1] == s.sid;
    }
  }

  predicate IsKept(rows: seq<Numbered>, stops: seq<LiveStop>, s: LiveStop) {
    exists i :: 0 <= i < |rows| && KeptBy(rows[i], stops, s)
  }

  predicate KeptBy(n: Numbered, stops: seq<LiveStop>, s: LiveStop) {
    var mine := OnTicker(stops, n.row.ticker);
    mine != [] && mine[KeepStop(n.row, mine)] == s
  }

  predicate IsCancelled(found: seq<Adjustment>, s: LiveStop) {
    exists i :: 0 <= i < |found| && found[i].StopDuplicate? && s.sid in found[i].cancel
  }

  predicate IsOrphaned(found: seq<Adjustment>, s: LiveStop) {
    exists i :: 0 <= i < |found| && found[i].StopOrphan? && found[i].sid == s.sid
  }

  /** What is cancelled is everything but the kept stop. */
  lemma CancelsTheRest(n: Numbered, mine: seq<LiveStop>, increments: map<string, Tick>, s: LiveStop)
    requires DistinctStops(mine) && s in mine
    ensures IsCancelled(FindingsFor(n, mine, increments), s) <==> s != mine[KeepStop(n.row, mine)]
  {
    var k, found := KeepStop(n.row, mine), FindingsFor(n, mine, increments);
    ExceptHas(mine, k, s);
    if s != mine[k] {
      assert found[0] == StopDuplicate(n.row.ticker, n.pid, mine[k].sid, SidsExcept(mine, k));
    }
  }

  /** A stop on an open ticker is kept, or cancelled as a duplicate, and not both. */
  lemma KeptOrCancelled(n: Numbered, stops: seq<LiveStop>, increments: map<string, Tick>, s: LiveStop)
    requires DistinctStops(stops) && s in stops && s.ticker == n.row.ticker
    ensures KeptBy(n, stops, s) <==> !IsCancelled(Due(stops, increments)(n), s)
  {
    OnTickerDistinct(stops, n.row.ticker);
    CancelsTheRest(n, OnTicker(stops, n.row.ticker), increments, s);
  }

  lemma CancelledByIts(rows: seq<Numbered>, stops: seq<LiveStop>, increments: map<string, Tick>, s: LiveStop)
    requires DistinctStops(stops) && s in stops
    ensures IsCancelled(Findings(rows, stops, increments), s) <==>
            exists i ::
              0 <= i < |rows| && rows[i].row.ticker == s.ticker && IsCancelled(Due(stops, increments)(rows[i]), s)
  {
    var found := Findings(rows, stops, increments);
    if m :| 0 <= m < |found| && found[m].StopDuplicate? && s.sid in found[m].cancel {
      FindingsHas(rows, stops, increments, found[m]);
      var i :| 0 <= i < |rows| && found[m] in Due(stops, increments)(rows[i]);
      CancelsItsOwn(rows[i], stops, increments, s);
    }
    if i :| 0 <= i < |rows| && rows[i].row.ticker == s.ticker && IsCancelled(Due(stops, increments)(rows[i]), s) {
      var due := Due(stops, increments)(rows[i]);
      var m :| 0 <= m < |due| && due[m].StopDuplicate? && s.sid in due[m].cancel;
      FindingsHas(rows, stops, increments, due[m]);
    }
  }

  lemma ExceptFrom(stops: seq<LiveStop>, k: nat, sid: nat)
    requires k < |stops| && sid in SidsExcept(stops, k)
    ensures exists r :: r in stops && r.sid == sid
  {
    if m :| 0 <= m < k && Sids(stops[..k])[m] == sid {
      assert stops[m] in stops;
    } else {
      var m :| 0 <= m < |stops| - k - 1 && Sids(stops[k + 1..])[m] == sid;
      assert stops[k + 1 + m] in stops;
    }
  }

  /** What can be found about one position. */
  lemma DueKinds(n: Numbered, mine: seq<LiveStop>, increments: map<string, Tick>, f: Adjustment)
    requires f in FindingsFor(n, mine, increments)
    ensures (f.Judgement() || f.StopDuplicate?) && f.pid == n.pid && f.ticker == n.row.ticker
    ensures f.StopDuplicate? ==>
              && |mine| > 1
              && f == StopDuplicate(n.row.ticker, n.pid, mine[KeepStop(n.row, mine)].sid,
                                    SidsExcept(mine, KeepStop(n.row, mine)))
  {
  }

  /** Only stops on the position's own ticker are ever in its cancel list. */
  lemma CancelsItsOwn(n: Numbered, stops: seq<LiveStop>, increments: map<string, Tick>, s: LiveStop)
    requires DistinctStops(stops) && s in stops && IsCancelled(Due(stops, increments)(n), s)
    ensures s.ticker == n.row.ticker
  {
    var mine := OnTicker(stops, n.row.ticker);
    var due := FindingsFor(n, mine, increments);
    var f :| f in due && f.StopDuplicate? && s.sid in f.cancel;
    DueKinds(n, mine, increments, f);
    ExceptFrom(mine, KeepStop(n.row, mine), s.sid);
    var r :| r in mine && r.sid == s.sid;
    SameStop(stops, s, r);
  }

  lemma OrphanIsUnopened(rows: seq<Numbered>, stops: seq<LiveStop>, s: LiveStop)
    requires DistinctStops(stops) && s in stops
    ensures IsOrphan(rows, stops, s) <==> !OpenOn(rows, s.ticker)
  {
    forall m | 0 <= m < |stops| && stops[m].sid == s.sid ensures stops[m] == s {
      SameStop(stops, s, stops[m]);
    }
  }

  lemma OrphanedIff(rows: seq<Numbered>, stops: seq<LiveStop>, increments: map<string, Tick>, s: LiveStop)
    requires DistinctStops(stops) && s in stops
    ensures IsOrphaned(Findings(rows, stops, increments), s) <==> !OpenOn(rows, s.ticker)
  {
    var found := Findings(rows, stops, increments);
    OrphanIsUnopened(rows, stops, s);
    if m :| 0 <= m < |found| && found[m].StopOrphan? && found[m].sid == s.sid {
      FindingsHas(rows, stops, increments, found[m]);
      if i :| 0 <= i < |rows| && found[m] in Due(stops, increments)(rows[i]) {
        DueKinds(rows[i], OnTicker(stops, rows[i].row.ticker), increments, found[m]);
      }
      var r :| r in stops && IsOrphan(rows, stops, r) && r.sid == s.sid;
      SameStop(stops, s, r);
    }
    if !OpenOn(rows, s.ticker) {
      FindingsHas(rows, stops, increments, StopOrphan(s.ticker, s.sid, s.key));
    }
  }

  lemma OpenIsKeptOrCancelled(rows: seq<Numbered>, stops: seq<LiveStop>, increments: map<string, Tick>, s: LiveStop,
                              i: nat)
    requires DistinctStops(stops) && DistinctRows(rows) && s in stops && i < |rows| && rows[i].row.ticker == s.ticker
    ensures IsKept(rows, stops, s) <==> !IsCancelled(Findings(rows, stops, increments), s)
  {
    KeptOrCancelled(rows[i], stops, increments, s);
    CancelledByIts(rows, stops, increments, s);
    KeptByIts(rows, stops, s);
  }

  lemma KeptByIts(rows: seq<Numbered>, stops: seq<LiveStop>, s: LiveStop)
    requires DistinctStops(stops)
    ensures IsKept(rows, stops, s) <==>
              exists i :: 0 <= i < |rows| && rows[i].row.ticker == s.ticker && KeptBy(rows[i], stops, s)
  {
    forall i | 0 <= i < |rows| && KeptBy(rows[i], stops, s) ensures rows[i].row.ticker == s.ticker {
      OnTickerDistinct(stops, rows[i].row.ticker);
    }
  }

  /** Every listed stop is exactly one of kept, duplicate to cancel, or orphan. */
  lemma StopsArePartitioned(rows: seq<Numbered>, stops: seq<LiveStop>, increments: map<string, Tick>, s: LiveStop)
    requires DistinctStops(stops) && DistinctRows(rows) && s in stops
    ensures var found := Findings(rows, stops, increments);
            && (IsKept(rows, stops, s) || IsCancelled(found, s) || IsOrphaned(found, s))
            && !(IsKept(rows, stops, s) && IsCancelled(found, s))
            && !(IsKept(rows, stops, s) && IsOrphaned(found, s))
            && !(IsCancelled(found, s) && IsOrphaned(found, s))
  {
    OrphanedIff(rows, stops, increments, s);
    if i :| 0 <= i < |rows| && rows[i].row.ticker == s.ticker {
      OpenIsKeptOrCancelled(rows, stops, increments, s, i);
    } else {
      KeptByIts(rows, stops, s);
      CancelledByIts(rows, stops, increments, s);
    }
  }

  /** Nothing about a position follows its judgement: it is judged at most once, and told to drop its
      duplicates before that. */
  ghost predicate JudgedLast(found: seq<Adjustment>) {
    forall a, b :: 0 <= a < b < |found| && found[a].Judgement() && (found[b].Judgement() || found[b].StopDuplicate?) ==>
                     found[a].pid != found[b].pid
  }

  lemma JudgedLastConcat(a: seq<Adjustment>, b: seq<Adjustment>)
    requires JudgedLast(a) && JudgedLast(b)
    requires forall f, g :: f in a && g in b && f.Judgement() && (g.Judgement() || g.StopDuplicate?) ==> f.pid != g.pid
    ensures JudgedLast(a + b)
  {
  }

  lemma DueJudgedLast(n: Numbered, mine: seq<LiveStop>, increments: map<string, Tick>)
    ensures JudgedLast(FindingsFor(n, mine, increments))
  {
    if mine != [] {
      var k := KeepStop(n.row, mine);
      var duplicate := if |mine| > 1 then [StopDuplicate(n.row.ticker, n.pid, mine[k].sid,
                                                         SidsExcept(mine, k))] else [];
      JudgedLastConcat(duplicate, KeptFinding(n, mine[k], increments));
    }
  }

  lemma {:induction false} ForEachJudgedLast(rows: seq<Numbered>, stops: seq<LiveStop>, increments: map<string, Tick>)
    requires DistinctRows(rows)
    ensures JudgedLast(ForEach(rows, Due(stops, increments)))
  {
    if rows != [] {
      var front, last := rows[..|rows| - 1], rows[|rows| - 1];
      ForEachJudgedLast(front, stops, increments);
      var mine := OnTicker(stops, last.row.ticker);
      DueJudgedLast(last, mine, increments);
      forall f, g | f in ForEach(front, Due(stops, increments)) && g in FindingsFor(last, mine, increments)
        ensures f.Judgement() && (g.Judgement() || g.StopDuplicate?) ==> f.pid != g.pid
      {
        ForEachHas(front, Due(stops, increments), f);
        var i :| 0 <= i < |front| && f in Due(stops, increments)(front[i]);
        DueKinds(front[i], OnTicker(stops, front[i].row.ticker), increments, f);
        DueKinds(last, mine, increments, g);
      }
      JudgedLastConcat(ForEach(front, Due(stops, increments)), Due(stops, increments)(last));
    }
  }

  /** No position is told twice to be unprotected, whatever the stops. */
  lemma JudgedAtMostOnce(rows: seq<Numbered>, stops: seq<LiveStop>, increments: map<string, Tick>)
    requires DistinctRows(rows)
    ensures JudgedLast(Findings(rows, stops, increments))
  {
    ForEachJudgedLast(rows, stops, increments);
    var orphans := Orphans(rows, stops, |stops|);
    forall a | 0 <= a < |orphans| ensures orphans[a].StopOrphan? {
      OrphansHas(rows, stops, |stops|, orphans[a]);
    }
    JudgedLastConcat(ForEach(rows, Due(stops, increments)), orphans);
  }
}
