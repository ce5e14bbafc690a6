/** The startup sequence, from any state a crash can leave. */
module Startup {
  import opened Models
  import opened Protocol
  import opened Bots
  import opened Executor
  import opened Sessions
  import opened Classification
  import opened Reconciliation
  import opened Remedies
  import opened Repair

  datatype Stage = Recovery | Reconciling | ForeignHoldings

  datatype Ending = Ready | Aborted(stage: Stage)

  /** The feed holds no sale of the position, and that was reported. */
  ghost predicate Unexplained(n: Numbered, feed: Feed, report: seq<Adjustment>) {
    SaleFor(n, feed).None? && ExitUnresolved(n.row.ticker, n.pid) in report
  }

  /** Every holding has its open row, and every other open row is unexplained. */
  ghost predicate Matches(positions: map<nat, Position>, holdings: seq<Holding>, feed: Feed, report: seq<Adjustment>) {
    && OneOpen(positions)
    && (forall h :: h in holdings && h.ticker != "" ==> HeldOpen(positions, h.ticker, h.lots))
    && (forall pid :: pid in positions && positions[pid].Open() && positions[pid].ticker != "" ==>
          || (exists h :: h in holdings && h.ticker == positions[pid].ticker && h.lots == positions[pid].lots)
          || Unexplained(Numbered(pid, positions[pid]), feed, report))
  }

  /** The same against the account itself: each lot it holds is in exactly one open position. */
  ghost predicate MatchesAccount(positions: map<nat, Position>, lots: map<string, int>, feed: Feed,
                                 report: seq<Adjustment>) {
    && OneOpen(positions)
    && (forall t :: t in lots && lots[t] > 0 && t != "" ==> HeldOpen(positions, t, lots[t]))
    && (forall pid :: pid in positions && positions[pid].Open() && positions[pid].ticker != "" ==>
          || (positions[pid].ticker in lots && lots[positions[pid].ticker] == positions[pid].lots)
          || Unexplained(Numbered(pid, positions[pid]), feed, report))
  }

  /** What a completed reconciliation leaves, whatever the portfolio said: each of its holdings is open with
      its lots, or reported foreign and not the bot's own; every other open row is unexplained. */
  ghost predicate Reconciled(w: World, portfolio: Portfolio, feed: Feed, report: seq<Adjustment>) {
    && OneOpen(w.positions) && Mirrors(w.positions, ByTicker(portfolio), report)
    && Steady(w.positions, w.orders, LotsOf(ByTicker(portfolio)), feed)
  }

  /** A truthful reply for an account that has not moved since carries the match over to the account. */
  lemma ReconciledAccount(w: World, portfolio: Portfolio, feed: Feed, lots: map<string, int>, report: seq<Adjustment>)
    requires Reconciled(w, portfolio, feed, report) && Truthful(portfolio, lots)
    requires forall i :: 0 <= i < |report| ==> !report[i].ForeignHolding?
    ensures MatchesAccount(w.positions, lots, feed, report)
  {
    RestUnexplained(w, portfolio, feed, report);
  }

  /** An open row no holding accounts for has no sale in the feed. */
  lemma RestUnexplained(w: World, portfolio: Portfolio, feed: Feed, report: seq<Adjustment>)
    requires Reconciled(w, portfolio, feed, report)
    ensures forall pid :: pid in w.positions && w.positions[pid].Open() && w.positions[pid].ticker != ""
                          && w.positions[pid].ticker !in ByTicker(portfolio) ==>
              Unexplained(Numbered(pid, w.positions[pid]), feed, report)
  {
  }

  ghost predicate Distinct(holdings: seq<Holding>) {
    forall i, j :: 0 <= i < j < |holdings| ==> holdings[i].ticker != holdings[j].ticker
  }

  lemma MirrorsMore(positions: map<nat, Position>, index: map<string, Holding>, found: seq<Adjustment>,
                    more: seq<Adjustment>)
    requires Mirrors(positions, index, found) && NoneForeign(more)
    ensures Mirrors(positions, index, found + more)
  {
    hide HeldOpen, OneOpenOn;
    forall t | t in index ensures Accounted(positions, index[t], found + more) {
      assert Accounted(positions, index[t], found);
    }
  }

  /** Remedies leave the match alone: they touch protection only. */
  lemma MirrorsProtected(before: map<nat, Position>, after: map<nat, Position>, index: map<string, Holding>,
                         found: seq<Adjustment>)
    requires Mirrors(before, index, found) && ProtectionsOnly(before, after)
    ensures Mirrors(after, index, found)
  {
    forall t | OneOpenOn(after, t) ensures OneOpenOn(before, t) {
      var pid :| pid in after && after[pid].Open() && after[pid].ticker == t;
      assert pid in before;
    }
    forall t | t in index && HeldOpen(before, index[t].ticker, index[t].lots)
      ensures HeldOpen(after, index[t].ticker, index[t].lots)
    {
      HeldProtected(before, after, index[t].ticker, index[t].lots);
    }
  }

  lemma HeldProtected(before: map<nat, Position>, after: map<nat, Position>, t: string, lots: nat)
    requires HeldOpen(before, t, lots) && ProtectionsOnly(before, after)
    ensures HeldOpen(after, t, lots)
  {
    var pid :| pid in before && before[pid].Open() && before[pid].ticker == t && before[pid].lots == lots;
    assert pid in after && after[pid].Open() && after[pid].ticker == t && after[pid].lots == lots;
  }

  lemma ReconciledMatches(w: World, portfolio: Portfolio, feed: Feed, report: seq<Adjustment>)
    requires Reconciled(w, portfolio, feed, report) && Distinct(portfolio)
    requires forall i :: 0 <= i < |report| ==> !report[i].ForeignHolding?
    ensures Matches(w.positions, portfolio, feed, report)
  {
    RestUnexplained(w, portfolio, feed, report);
    forall h | h in portfolio && h.ticker != "" ensures HeldOpen(w.positions, h.ticker, h.lots) {
      IndexIsListing(portfolio, h);
    }
  }

  /** What a reading without foreign holdings means, against the reply and against the account. */
  lemma ForeignFree(w: World, portfolio: Portfolio, feed: Feed, lots: map<string, int>, report: seq<Adjustment>)
    requires Reconciled(w, portfolio, feed, report)
    requires forall i :: 0 <= i < |report| ==> !report[i].ForeignHolding?
    ensures Distinct(portfolio) ==> Matches(w.positions, portfolio, feed, report)
    ensures Truthful(portfolio, lots) ==> MatchesAccount(w.positions, lots, feed, report)
  {
    if Distinct(portfolio) {
      ReconciledMatches(w, portfolio, feed, report);
    }
    if Truthful(portfolio, lots) {
      ReconciledAccount(w, portfolio, feed, lots, report);
    }
  }

  // ------------------------------------------------------------------ convergence

  /** The lots of every holding, by ticker. */
  function Held(lots: map<string, int>): (held: map<string, nat>) {
    map t | t in lots && lots[t] > 0 && t != "" :: lots[t]
  }

  lemma TruthfulHeld(holdings: Portfolio, lots: map<string, int>)
    requires Truthful(holdings, lots)
    ensures LotsOf(ByTicker(holdings)) == Held(lots)
  {
    var held := LotsOf(ByTicker(holdings));
    forall t ensures t in held <==> t in Held(lots) {
      if t in Held(lots) {
        var h :| h in holdings && h.ticker == t;
      }
    }
  }

  /** Another reconciliation of the same account would find the holdings as they are recorded. */
  ghost predicate SteadyWorld(w: World, feed: Feed) {
    Steady(w.positions, w.orders, Held(w.broker.lots), feed)
  }

  lemma SteadyProtected(before: map<nat, Position>, after: map<nat, Position>, orders: map<Id, Order>,
                        held: map<string, nat>, feed: Feed)
    requires Steady(before, orders, held, feed) && ProtectionsOnly(before, after)
    ensures Steady(after, orders, held, feed)
  {
    forall pid | pid in after && after[pid].Open()
      ensures LevelRow(Numbered(pid, after[pid]), held, feed, orders) == after[pid]
    {
      assert LevelRow(Numbered(pid, before[pid]), held, feed, orders) == before[pid];
    }
    forall t | OneOpenOn(before, t) ensures OneOpenOn(after, t) {
      var pid :| pid in before && before[pid].Open() && before[pid].ticker == t;
      assert pid in after && after[pid].Open();
    }
  }

  lemma LevelledIsSane(v: World, w: World, held: map<string, nat>, feed: Feed)
    requires TickersAgree(v.stopRows, v.broker.stops) && Levels(v, w, held, feed) && w.broker == v.broker
    ensures TickersAgree(w.stopRows, w.broker.stops)
  {
  }

  /** However the stops are listed, none of an EXCHANGE position is missing and no stop found
      adoptable has a local row. */
  ghost predicate Repairable(v: World, increments: map<string, Tick>) {
    forall rows, stops :: Reads(v, rows, stops) ==> Adoptive(v, Findings(rows, stops, increments))
  }

  /** However the stops are listed, only duplicates of these positions are found. */
  ghost predicate OnlyDuplicates(v: World, increments: map<string, Tick>, found: seq<Adjustment>) {
    forall rows, stops :: Reads(v, rows, stops) ==>
      forall f :: f in Findings(rows, stops, increments) ==> f.StopDuplicate? && ReplacedIn(found, f.pid)
  }

  /** What reconciliation makes of `v` can be repaired, whichever way it adopts what it recognises. */
  ghost predicate RepairableOnceLevel(v: World, feed: Feed, increments: map<string, Tick>) {
    forall w :: Levels(v, w, Held(v.broker.lots), feed) && w.broker == v.broker ==> Repairable(w, increments)
  }

  // ------------------------------------------------------------------ when that is so

  predicate LiveOn(stops: map<nat, BrokerStop>, ticker: string) {
    exists sid :: sid in stops && LiveAt(stops, sid) && stops[sid].ticker == ticker
  }

  predicate KeptOnRecord(w: World, sid: nat) {
    LiveAt(w.broker.stops, sid) && w.broker.stops[sid].key in w.stopRows
  }

  /** Every protected position has some live stop on its ticker, and no unprotected one has a stop there
      whose key is on record. */
  ghost predicate Covered(w: World) {
    && (forall pid :: pid in w.positions && w.positions[pid].Open() && w.positions[pid].protection.Exchange? ==>
          LiveOn(w.broker.stops, w.positions[pid].ticker))
    && (forall sid, pid :: KeptOnRecord(w, sid) && pid in w.positions && w.positions[pid].Open()
                           && w.positions[pid].ticker == w.broker.stops[sid].ticker ==>
          w.positions[pid].protection.Exchange?)
  }

  /** The same, as it can be seen before reconciliation: it matters only for positions it will not close,
      and for holdings it may adopt. */
  ghost predicate Amenable(v: World, feed: Feed) {
    var held := Held(v.broker.lots);
    && (forall pid :: pid in v.positions && v.positions[pid].Open() && v.positions[pid].protection.Exchange?
                      && LevelledRow(pid, v.positions[pid], held, feed, v.orders).Open() ==>
          LiveOn(v.broker.stops, v.positions[pid].ticker))
    && (forall sid, pid :: KeptOnRecord(v, sid) && pid in v.positions && v.positions[pid].Open()
                           && v.positions[pid].ticker == v.broker.stops[sid].ticker ==>
          v.positions[pid].protection.Exchange?)
    && (forall sid :: KeptOnRecord(v, sid) ==>
          var t := v.broker.stops[sid].ticker;
          OneOpenOn(v.positions, t) || t !in held || !Recognised(v.orders, t))
  }

  lemma AmenableIsCovered(v: World, w: World, feed: Feed)
    requires Amenable(v, feed) && Levels(v, w, Held(v.broker.lots), feed) && w.broker == v.broker
    requires OneOpen(w.positions)
    ensures Covered(w)
  {
    forall sid, pid | KeptOnRecord(w, sid) && pid in w.positions && w.positions[pid].Open()
                      && w.positions[pid].ticker == w.broker.stops[sid].ticker
      ensures w.positions[pid].protection.Exchange?
    {
      assert KeptOnRecord(v, sid);
      if pid !in v.positions {
        AdoptedStandsAlone(v, w, feed, pid);
      }
    }
  }

  /** An adopted row is on a ticker that had none open. */
  lemma AdoptedStandsAlone(v: World, w: World, feed: Feed, pid: nat)
    requires Levels(v, w, Held(v.broker.lots), feed) && OneOpen(w.positions) && pid in w.positions
    requires pid !in v.positions
    ensures !OneOpenOn(v.positions, w.positions[pid].ticker)
    ensures w.positions[pid].ticker in Held(v.broker.lots) && Recognised(v.orders, w.positions[pid].ticker)
  {
    forall q | q in v.positions && v.positions[q].Open() ensures v.positions[q].ticker != w.positions[pid].ticker {
      assert w.positions[q] == LevelledRow(q, v.positions[q], Held(v.broker.lots), feed, v.orders);
    }
  }

  lemma CoveredIsAdoptive(w: World, rows: seq<Numbered>, stops: seq<LiveStop>, increments: map<string, Tick>)
    requires Covered(w) && Reads(w, rows, stops)
    ensures Adoptive(w, Findings(rows, stops, increments))
  {
    forall f | f in Findings(rows, stops, increments)
      ensures !f.StopMissing?
      ensures (f.StopAdoptable? ==> f.sid in w.broker.stops && w.broker.stops[f.sid].key !in w.stopRows)
    {
      FindingsHas(rows, stops, increments, f);
      if i :| 0 <= i < |rows| && f in Due(stops, increments)(rows[i]) {
        DueIsAdoptive(w, rows, stops, increments, rows[i], f);
      }
    }
  }

  lemma DueIsAdoptive(w: World, rows: seq<Numbered>, stops: seq<LiveStop>, increments: map<string, Tick>, n: Numbered,
                      f: Adjustment)
    requires Covered(w) && Reads(w, rows, stops) && n in rows
    requires f in FindingsFor(n, OnTicker(stops, n.row.ticker), increments)
    ensures !f.StopMissing?
    ensures (f.StopAdoptable? ==> f.sid in w.broker.stops && w.broker.stops[f.sid].key !in w.stopRows)
  {
    var mine := OnTicker(stops, n.row.ticker);
    if n.row.protection.Exchange? {
      NoneMissing(w, rows, stops, n);
    }
    if f.StopAdoptable? {
      AdoptableIs(n, mine, increments, f);
      AdoptableOffRecord(w, rows, stops, n);
    } else if f.StopMissing? {
      MissingIs(n, mine, increments, f);
    }
  }

  lemma NoneMissingThere(w: World, rows: seq<Numbered>, stops: seq<LiveStop>, n: Numbered)
    requires Reads(w, rows, stops) && n in rows && LiveOn(w.broker.stops, n.row.ticker)
    ensures OnTicker(stops, n.row.ticker) != []
  {
    var sid :| sid in w.broker.stops && LiveAt(w.broker.stops, sid) && w.broker.stops[sid].ticker == n.row.ticker;
    assert Listed(sid, w.broker.stops[sid]) in OnTicker(stops, n.row.ticker);
  }

  lemma NoneMissing(w: World, rows: seq<Numbered>, stops: seq<LiveStop>, n: Numbered)
    requires Covered(w) && Reads(w, rows, stops) && n in rows && n.row.protection.Exchange?
    ensures OnTicker(stops, n.row.ticker) != []
  {
    assert w.positions[n.pid] == n.row;
    NoneMissingThere(w, rows, stops, n);
  }

  lemma AdoptableOffRecord(w: World, rows: seq<Numbered>, stops: seq<LiveStop>, n: Numbered)
    requires Covered(w) && Reads(w, rows, stops) && n in rows && n.row.protection.Local?
    requires OnTicker(stops, n.row.ticker) != []
    ensures var mine := OnTicker(stops, n.row.ticker);
            var sid := mine[KeepStop(n.row, mine)].sid;
            sid in w.broker.stops && w.broker.stops[sid].key !in w.stopRows
  {
    var mine := OnTicker(stops, n.row.ticker);
    var kept := mine[KeepStop(n.row, mine)];
    assert w.positions[n.pid] == n.row && kept in mine;
    ReadStop(w, rows, stops, kept);
    assert !KeptOnRecord(w, kept.sid);
  }

  /** A state that looks amenable before reconciliation is repairable after it. */
  lemma AmenableIsRepairable(v: World, feed: Feed, increments: map<string, Tick>)
    requires Amenable(v, feed)
    ensures RepairableOnceLevel(v, feed, increments)
  {
    forall w, rows, stops | Levels(v, w, Held(v.broker.lots), feed) && w.broker == v.broker && Reads(w, rows, stops)
      ensures Adoptive(w, Findings(rows, stops, increments))
    {
      AmenableIsCovered(v, w, feed);
      CoveredIsAdoptive(w, rows, stops, increments);
    }
  }

  // ------------------------------------------------------------------ passes

  /** Where the broker obliges and the portfolio is its holdings, what reconciliation leaves is level with
      the account, and its findings make a plan if they can be carried out at all. */
  lemma LevelMakesPlan(bot: Bot, v: World, portfolio: Portfolio, feed: Feed, corrections: seq<Adjustment>,
                       seen: Reading)
    requires bot.Valid() && Sane(v) && Truthful(portfolio, v.broker.lots) && bot.broker == v.broker
    requires Levels(v, bot.View(), LotsOf(ByTicker(portfolio)), feed) && Coherent(bot.positions, bot.stopRows)
    requires Current(seen, bot) && NoneAboutStops(corrections)
    ensures Levels(v, bot.View(), Held(v.broker.lots), feed) && Sane(bot.View())
    ensures Reads(bot.View(), seen.rows, seen.stops)
    ensures Adoptive(bot.View(), Findings(seen.rows, seen.stops, bot.increments)) ==>
              Plan(bot.View(), corrections + Findings(seen.rows, seen.stops, bot.increments))
  {
    TruthfulHeld(portfolio, v.broker.lots);
    LevelledIsSane(v, bot.View(), Held(v.broker.lots), feed);
    assert Inv(bot.trace[|bot.log|]);
    if Adoptive(bot.View(), Findings(seen.rows, seen.stops, bot.increments)) {
      FindingsMakePlan(bot.View(), seen.rows, seen.stops, bot.increments, corrections);
    }
  }

  /** Reconcile, then act on every finding. With an obliging broker, and nothing to repair that cannot be,
      it is done, and nothing is left to be found but duplicates of what was replaced. */
  method ReconcileAndRemedy(bot: Bot, portfolio: Option<Portfolio>, feed: Feed, stopPct: real)
    returns (done: bool, report: seq<Adjustment>)
    requires bot.Valid()
    modifies bot
    ensures bot.Valid() && bot.Later() && bot.orders == old(bot.orders)
    ensures done ==> portfolio.Some? && Reconciled(bot.View(), portfolio.value, feed, report)
    ensures bot.obliging && portfolio.Some? && old(Remediable(bot.View(), portfolio.value, feed, bot.increments)) ==>
              done && Sane(bot.View()) && OnlyDuplicates(bot.View(), bot.increments, report)
  {
    ghost var v := bot.View();
    var reconciled, corrections, seen := Reconcile(bot, portfolio, feed, stopPct);
    if reconciled.None? {
      return false, [];
    }
    report := reconciled.value;
    ghost var level := bot.View();
    FindingsNotForeign(seen.rows, seen.stops, seen.increments);
    MirrorsMore(level.positions, ByTicker(portfolio.value), corrections,
                Findings(seen.rows, seen.stops, seen.increments));
    if bot.obliging && Remediable(v, portfolio.value, feed, bot.increments) {
      LevelMakesPlan(bot, v, portfolio.value, feed, corrections, seen);
      AdoptiveOnceLevel(v, level, feed, bot.increments, seen);
    }
    var fault := ApplyRemedies(bot, report);
    MirrorsProtected(level.positions, bot.positions, ByTicker(portfolio.value), report);
    SteadyProtected(level.positions, bot.positions, level.orders, LotsOf(ByTicker(portfolio.value)), feed);
    if bot.obliging && Remediable(v, portfolio.value, feed, bot.increments) {
      LeftAfter(bot, level, seen, corrections, report);
    }
    assert Inv(bot.trace[|bot.log|]);
    done := fault.None?;
  }

  /** The portfolio is the account's holdings, and what reconciliation makes of the rows can be repaired. */
  ghost predicate Remediable(w: World, portfolio: Portfolio, feed: Feed, increments: map<string, Tick>) {
    Sane(w) && Truthful(portfolio, w.broker.lots) && RepairableOnceLevel(w, feed, increments)
  }

  /** Nothing found of a stop is about a holding. */
  lemma FindingsNotForeign(rows: seq<Numbered>, stops: seq<LiveStop>, increments: map<string, Tick>)
    ensures NoneForeign(Findings(rows, stops, increments))
  {
    forall f | f in Findings(rows, stops, increments) ensures !f.ForeignHolding? {
      FindingsHas(rows, stops, increments, f);
      if i :| 0 <= i < |rows| && f in Due(stops, increments)(rows[i]) {
        DueKinds(rows[i], OnTicker(stops, rows[i].row.ticker), increments, f);
      }
    }
  }

  /** Every unfinished order the broker had finished, or never seen, is on file with its record. */
  ghost predicate AllRecorded(v: World, orders: map<Id, Order>) {
    forall k :: InFlight(v.orders, k) && OverAt(v.broker, k) ==>
      k in orders && Recorded(orders[k], v.orders[k], v.broker, k)
  }

  lemma SettledAreRecorded(v: World, w: World, lotSizes: string -> nat, stopPct: real)
    requires RecoveredAll(v, w, lotSizes, stopPct)
    ensures AllRecorded(v, w.orders)
  {
    forall k | InFlight(v.orders, k) && OverAt(v.broker, k)
      ensures k in w.orders && Recorded(w.orders[k], v.orders[k], v.broker, k)
    {
      assert Settles(v, w, k, lotSizes, stopPct);
    }
  }

  /** Recover, reconcile, remedy, and refuse on a holding the bot does not know. `portfolio` is what the
      broker answers when reconciliation asks. After `recovered` steps of the log recovery was over. */
  method Start(bot: Bot, portfolio: Option<Portfolio>, feed: Feed, stopPct: real, allowForeign: bool)
    returns (ending: Ending, report: seq<Adjustment>, ghost recovered: nat)
    requires bot.Valid()
    modifies bot
    ensures bot.Valid() && bot.Later() && |old(bot.log)| <= recovered <= |bot.log|
    ensures ending.Ready? ==> portfolio.Some? && Reconciled(bot.View(), portfolio.value, feed, report)
    ensures ending.Ready? && !allowForeign && Distinct(portfolio.value) ==>
              Matches(bot.positions, portfolio.value, feed, report)
    ensures ending.Ready? && !allowForeign && Truthful(portfolio.value, bot.broker.lots) ==>
              MatchesAccount(bot.positions, bot.broker.lots, feed, report)
    ensures ending == Aborted(ForeignHoldings) ==>
              !allowForeign && portfolio.Some?
              && exists h :: h in portfolio.value && !OneOpenOn(bot.positions, h.ticker)
    ensures old(Settled(bot.orders)) ==> bot.trace[recovered] == old(bot.View())
    ensures bot.obliging ==>
              && ending != Aborted(Recovery) && AllRecorded(old(bot.View()), bot.orders)
              && RecoveredAll(old(bot.View()), bot.trace[recovered], bot.lotSizes, stopPct)
    ensures bot.obliging && portfolio.Some?
            && Remediable(bot.trace[recovered], portfolio.value, feed, bot.increments) ==>
              && (ending.Ready? || ending == Aborted(ForeignHoldings))
              && Sane(bot.View()) && OnlyDuplicates(bot.View(), bot.increments, report)
  {
    hide RecoveredAll, RecoveredSoFar, AllRecorded, Remediable, Sane, OnlyDuplicates, Reconciled;
    ghost var v := bot.View();
    report := [];
    var pending := ListUnresolved(bot);
    NothingPending(bot.orders, pending);
    var fault := ResolveUnfinished(bot, pending, stopPct, Alone);
    recovered := |bot.log|;
    if bot.obliging {
      AllSettled(v, bot.View(), pending, bot.lotSizes, stopPct);
      SettledAreRecorded(v, bot.View(), bot.lotSizes, stopPct);
    }
    if fault.Some? {
      return Aborted(Recovery), report, recovered;
    }
    var pass;
    pass, report := ReconcileAndRemedy(bot, portfolio, feed, stopPct);
    if !pass {
      return Aborted(Reconciling), report, recovered;
    }
    ending := Judge(bot, portfolio.value, feed, allowForeign, report);
  }

  /** The last step: what the report says of holdings nobody knows. */
  method Judge(bot: Bot, portfolio: Portfolio, feed: Feed, allowForeign: bool, report: seq<Adjustment>)
    returns (ending: Ending)
    requires Reconciled(bot.View(), portfolio, feed, report)
    ensures ending == Ready || ending == Aborted(ForeignHoldings)
    ensures ending.Ready? && !allowForeign && Distinct(portfolio) ==> Matches(bot.positions, portfolio, feed, report)
    ensures ending.Ready? && !allowForeign && Truthful(portfolio, bot.broker.lots) ==>
              MatchesAccount(bot.positions, bot.broker.lots, feed, report)
    ensures ending.Aborted? ==> !allowForeign && exists h :: h in portfolio && !OneOpenOn(bot.positions, h.ticker)
  {
    if !allowForeign && exists i :: 0 <= i < |report| && report[i].ForeignHolding? {
      ForeignIsUnopened(bot.View(), portfolio, feed, report);
      return Aborted(ForeignHoldings);
    }
    if !allowForeign {
      ForeignFree(bot.View(), portfolio, feed, bot.broker.lots, report);
    }
    return Ready;
  }

  ghost predicate Settled(orders: map<Id, Order>) {
    forall k :: k in orders ==> orders[k].status.Terminal()
  }

  lemma NothingPending(orders: map<Id, Order>, pending: seq<(Id, Order)>)
    requires forall i :: 0 <= i < |pending| ==> InFlight(orders, pending[i].0)
    ensures Settled(orders) ==> pending == []
  {
    if pending != [] {
      assert InFlight(orders, pending[0].0);
    }
  }

  lemma ForeignIsUnopened(w: World, portfolio: Portfolio, feed: Feed, report: seq<Adjustment>)
    requires Reconciled(w, portfolio, feed, report) && exists i :: 0 <= i < |report| && report[i].ForeignHolding?
    ensures exists h :: h in portfolio && !OneOpenOn(w.positions, h.ticker)
  {
    var i :| 0 <= i < |report| && report[i].ForeignHolding?;
    assert report[i] in report;
    var h := ByTicker(portfolio)[report[i].ticker];
    assert h in portfolio && h.ticker == report[i].ticker;
  }

  /** A restart from the world any step of an earlier process may have left behind. */
  method Restart(ghost before: seq<World>, ghost done: seq<Action>, ghost i: nat, world: World,
                 increments: map<string, Tick>, lotSizes: string -> nat, obliging: bool, depth: nat,
                 portfolio: Option<Portfolio>, feed: Feed, stopPct: real, allowForeign: bool)
    returns (bot: Bot, ending: Ending, report: seq<Adjustment>, ghost recovered: nat)
    requires IsRun(before, done) && Inv(before[0]) && i <= |done| && before[i] == world
    ensures fresh(bot) && bot.Valid() && IsRun(before[..i] + bot.trace, done[..i] + bot.log) && recovered <= |bot.log|
    ensures ending.Ready? ==> portfolio.Some? && Reconciled(bot.View(), portfolio.value, feed, report)
    ensures ending.Ready? && !allowForeign && Distinct(portfolio.value) ==>
              Matches(bot.positions, portfolio.value, feed, report)
    ensures ending.Ready? && !allowForeign && Truthful(portfolio.value, bot.broker.lots) ==>
              MatchesAccount(bot.positions, bot.broker.lots, feed, report)
    ensures obliging ==>
              && ending != Aborted(Recovery) && AllRecorded(world, bot.orders)
              && RecoveredAll(world, bot.trace[recovered], lotSizes, stopPct)
    ensures obliging && portfolio.Some? && Remediable(bot.trace[recovered], portfolio.value, feed, increments) ==>
              && (ending.Ready? || ending == Aborted(ForeignHoldings))
              && Sane(bot.View()) && OnlyDuplicates(bot.View(), increments, report)
  {
    hide RecoveredAll, AllRecorded, Remediable, Sane, OnlyDuplicates, Reconciled, Matches, MatchesAccount;
    RunKeepsInv(before, done, i);
    bot := new Bot(world, increments, lotSizes, obliging, depth);
    ending, report, recovered := Start(bot, portfolio, feed, stopPct, allowForeign);
    CrashJoinsRuns(before, done, i, bot.trace, bot.log);
  }

  /** A reconciliation: it levels the rows with the holdings, and classifies the stops. */
  method Observe(bot: Bot, portfolio: Portfolio, feed: Feed, stopPct: real)
    returns (report: seq<Adjustment>, ghost corrections: seq<Adjustment>, ghost seen: Reading)
    requires bot.Valid() && bot.obliging && Sane(bot.View()) && Truthful(portfolio, bot.broker.lots)
    modifies bot
    ensures bot.Valid() && bot.Later() && bot.broker == old(bot.broker) && bot.requests == old(bot.requests)
    ensures Sane(bot.View()) && SteadyWorld(bot.View(), feed)
    ensures Levels(old(bot.View()), bot.View(), Held(bot.broker.lots), feed)
    ensures old(SteadyWorld(bot.View(), feed)) ==> bot.View() == old(bot.View())
    ensures Reads(bot.View(), seen.rows, seen.stops) && NoneAboutStops(corrections)
    ensures report == corrections + Findings(seen.rows, seen.stops, bot.increments)
    ensures Adoptive(bot.View(), Findings(seen.rows, seen.stops, bot.increments)) ==> Plan(bot.View(), report)
  {
    ghost var v := bot.View();
    TruthfulHeld(portfolio, bot.broker.lots);
    var reconciled, found, read := Reconcile(bot, Some(portfolio), feed, stopPct);
    LevelMakesPlan(bot, v, portfolio, feed, found, read);
    report, corrections, seen := reconciled.value, found, read;
  }

  /** One reconciliation and its remedies: `level` is the world reconciliation left. */
  method Pass(bot: Bot, portfolio: Portfolio, feed: Feed, stopPct: real)
    returns (report: seq<Adjustment>, ghost level: World, ghost corrections: seq<Adjustment>, ghost seen: Reading)
    requires bot.Valid() && bot.obliging && Sane(bot.View()) && Truthful(portfolio, bot.broker.lots)
    modifies bot
    ensures bot.Valid() && bot.Later() && SteadyWorld(bot.View(), feed) && bot.broker.lots == old(bot.broker).lots
    ensures Levels(old(bot.View()), level, Held(old(bot.broker).lots), feed) && level.broker == old(bot.broker)
    ensures old(SteadyWorld(bot.View(), feed)) ==> level == old(bot.View())
    ensures Reads(level, seen.rows, seen.stops) && NoneAboutStops(corrections)
    ensures report == corrections + Findings(seen.rows, seen.stops, bot.increments)
    ensures Adoptive(level, Findings(seen.rows, seen.stops, bot.increments)) ==>
              Sane(bot.View()) && OnlyDuplicates(bot.View(), bot.increments, report)
  {
    report, corrections, seen := Observe(bot, portfolio, feed, stopPct);
    level := bot.View();
    var fault := ApplyRemedies(bot, report);
    SteadyProtected(level.positions, bot.positions, level.orders, Held(level.broker.lots), feed);
    if Adoptive(level, Findings(seen.rows, seen.stops, bot.increments)) {
      LeftAfter(bot, level, seen, corrections, report);
    }
  }

  lemma LeftAfter(bot: Bot, level: World, seen: Reading, corrections: seq<Adjustment>, report: seq<Adjustment>)
    requires bot.Valid() && Passed(level, bot.View(), seen.rows, seen.stops, bot.increments, corrections)
    requires report == corrections + Findings(seen.rows, seen.stops, bot.increments)
    ensures OnlyDuplicates(bot.View(), bot.increments, report)
  {
    assert Inv(bot.trace[|bot.log|]);
    forall rows, stops | Reads(bot.View(), rows, stops)
      ensures forall f :: f in Findings(rows, stops, bot.increments) ==> f.StopDuplicate? && ReplacedIn(report, f.pid)
    {
      NextFindings(level, bot.View(), seen.rows, seen.stops, bot.increments, corrections, rows, stops);
    }
  }

  /** At most one stop stands on a ticker, and none where nothing is open. */
  ghost predicate OneStopEach(w: World) {
    && (forall r, s :: (LiveAt(w.broker.stops, r) && LiveAt(w.broker.stops, s)
                        && w.broker.stops[r].ticker == w.broker.stops[s].ticker) ==> r == s)
    && (forall s :: LiveAt(w.broker.stops, s) ==> OneOpenOn(w.positions, w.broker.stops[s].ticker))
  }

  lemma CleanMeansOne(w: World, rows: seq<Numbered>, stops: seq<LiveStop>, increments: map<string, Tick>)
    requires Reads(w, rows, stops) && Findings(rows, stops, increments) == []
    ensures OneStopEach(w)
  {
    forall s | LiveAt(w.broker.stops, s)
      ensures OneOpenOn(w.positions, w.broker.stops[s].ticker)
      ensures exists n :: n in rows && KeptBy(n, stops, Listed(s, w.broker.stops[s]))
                          && n.row.ticker == w.broker.stops[s].ticker
    {
      var listed := Listed(s, w.broker.stops[s]);
      UnopenedInTable(w, rows, stops, listed.ticker);
      if !OpenOn(rows, listed.ticker) {
        UnopenedIsCancelled(w, rows, stops, increments, [], s);
      }
      var i :| 0 <= i < |rows| && rows[i].row.ticker == listed.ticker;
      KeptOrCancelled(rows[i], stops, increments, listed);
      NothingDue(rows, stops, increments, i);
    }
  }

  lemma NothingDue(rows: seq<Numbered>, stops: seq<LiveStop>, increments: map<string, Tick>, i: nat)
    requires i < |rows| && Findings(rows, stops, increments) == []
    ensures Due(stops, increments)(rows[i]) == []
  {
    var due := Due(stops, increments)(rows[i]);
    if due != [] {
      FindingsHas(rows, stops, increments, due[0]);
    }
  }

  /** Every live stop on the ticker of an open position is for the position's lots, and where the tick is known it is
      priced within one tick of what was asked, and the position's row says it is there. What the row says is there
      is. */
  ghost predicate StopsCover(w: World, increments: map<string, Tick>) {
    && (forall s, p :: LiveAt(w.broker.stops, s) && p in w.positions && w.positions[p].Open()
                       && w.positions[p].ticker == w.broker.stops[s].ticker ==>
          Covers(w.broker.stops[s], w.positions[p], increments))
    && (forall p :: p in w.positions && w.positions[p].Open() && w.positions[p].protection.Exchange? ==>
          LiveOn(w.broker.stops, w.positions[p].ticker))
  }

  predicate Covers(s: BrokerStop, p: Position, increments: map<string, Tick>) {
    && s.lots == p.lots
    && (p.ticker in increments ==>
          p.protection.Exchange? && -increments[p.ticker] < s.price - p.stop < increments[p.ticker])
  }

  /** Nothing is due to a position exactly where it is LOCAL without a stop, or has one that covers it. */
  lemma NothingDueIff(n: Numbered, stops: seq<LiveStop>, increments: map<string, Tick>, held: BrokerStop)
    requires var mine := OnTicker(stops, n.row.ticker);
             mine != [] ==> mine[0] == Listed(mine[0].sid, held)
    ensures Due(stops, increments)(n) == [] <==>
              var mine := OnTicker(stops, n.row.ticker);
              if mine == [] then n.row.protection.Local? else |mine| == 1 && Covers(held, n.row, increments)
  {
  }

  /** A reading finds nothing exactly when each stop is the only one of its ticker and covers the open position
      there, and none is missing. */
  lemma CleanIff(w: World, rows: seq<Numbered>, stops: seq<LiveStop>, increments: map<string, Tick>)
    requires Reads(w, rows, stops)
    ensures Findings(rows, stops, increments) == [] <==> OneStopEach(w) && StopsCover(w, increments)
  {
    if Findings(rows, stops, increments) == [] {
      CleanMeansOne(w, rows, stops, increments);
      CleanMeansCovered(w, rows, stops, increments);
    }
    if OneStopEach(w) && StopsCover(w, increments) && Findings(rows, stops, increments) != [] {
      var f := Findings(rows, stops, increments)[0];
      FindingsHas(rows, stops, increments, f);
      if i :| 0 <= i < |rows| && f in Due(stops, increments)(rows[i]) {
        CoveredHasNothingDue(w, rows, stops, increments, i);
      } else {
        var j :| 0 <= j < |stops| && IsOrphan(rows, stops, stops[j]);
        assert stops[j] in stops;
        ReadStop(w, rows, stops, stops[j]);
        UnopenedInTable(w, rows, stops, stops[j].ticker);
      }
    }
  }

  lemma CleanMeansCovered(w: World, rows: seq<Numbered>, stops: seq<LiveStop>, increments: map<string, Tick>)
    requires Reads(w, rows, stops) && Findings(rows, stops, increments) == []
    ensures StopsCover(w, increments)
  {
    forall s, p | LiveAt(w.broker.stops, s) && p in w.positions && w.positions[p].Open()
                  && w.positions[p].ticker == w.broker.stops[s].ticker
      ensures Covers(w.broker.stops[s], w.positions[p], increments)
    {
      CleanIsCovered(w, rows, stops, increments, s, p);
    }
    forall p | p in w.positions && w.positions[p].Open() && w.positions[p].protection.Exchange?
      ensures LiveOn(w.broker.stops, w.positions[p].ticker)
    {
      var i :| 0 <= i < |rows| && rows[i] == Numbered(p, w.positions[p]);
      NothingDue(rows, stops, increments, i);
      assert OnTicker(stops, rows[i].row.ticker) != [];
      ReadFirst(w, rows, stops, rows[i].row.ticker);
    }
  }

  lemma CleanIsCovered(w: World, rows: seq<Numbered>, stops: seq<LiveStop>, increments: map<string, Tick>, s: nat,
                       p: nat)
    requires Reads(w, rows, stops) && Findings(rows, stops, increments) == []
    requires LiveAt(w.broker.stops, s) && p in w.positions && w.positions[p].Open()
    requires w.positions[p].ticker == w.broker.stops[s].ticker
    ensures Covers(w.broker.stops[s], w.positions[p], increments)
  {
    hide Findings, Covers, FindingsFor, OnTicker;
    var n := Numbered(p, w.positions[p]);
    var i :| 0 <= i < |rows| && rows[i] == n;
    NothingDue(rows, stops, increments, i);
    DueIsSingle(n, stops, increments);
    assert Listed(s, w.broker.stops[s]) in OnTicker(stops, n.row.ticker);
    NothingDueIff(n, stops, increments, w.broker.stops[s]);
  }

  lemma DueIsSingle(n: Numbered, stops: seq<LiveStop>, increments: map<string, Tick>)
    requires Due(stops, increments)(n) == []
    ensures |OnTicker(stops, n.row.ticker)| <= 1
  {
  }

  /** The first stop listed on a ticker, if there is one, is as the exchange holds it. */
  lemma ReadFirst(w: World, rows: seq<Numbered>, stops: seq<LiveStop>, ticker: string)
    requires Reads(w, rows, stops) && OnTicker(stops, ticker) != []
    ensures var s := OnTicker(stops, ticker)[0];
            LiveAt(w.broker.stops, s.sid) && s == Listed(s.sid, w.broker.stops[s.sid]) && s.ticker == ticker
  {
    assert OnTicker(stops, ticker)[0] in OnTicker(stops, ticker);
  }

  lemma CoveredHasNothingDue(w: World, rows: seq<Numbered>, stops: seq<LiveStop>, increments: map<string, Tick>, i: nat)
    requires Reads(w, rows, stops) && OneStopEach(w) && StopsCover(w, increments) && i < |rows|
    ensures Due(stops, increments)(rows[i]) == []
  {
    var n := rows[i];
    var mine := OnTicker(stops, n.row.ticker);
    assert n in rows;
    if mine == [] {
      if n.row.protection.Exchange? {
        NoneMissingThere(w, rows, stops, n);
      }
    } else {
      ReadFirst(w, rows, stops, n.row.ticker);
      if |mine| > 1 {
        assert mine[1] in mine && LiveAt(w.broker.stops, mine[1].sid);
        OnTickerDistinct(stops, n.row.ticker);
      }
      assert Covers(w.broker.stops[mine[0].sid], n.row, increments);
      NothingDueIff(n, stops, increments, w.broker.stops[mine[0].sid]);
    }
  }

  /** Two reconciliations and their remedies, however the holdings are listed each time. */
  method TwoPasses(bot: Bot, portfolios: nat -> Portfolio, feed: Feed, stopPct: real)
    requires bot.Valid() && bot.obliging && Sane(bot.View())
    requires forall n :: Truthful(portfolios(n), bot.broker.lots)
    requires RepairableOnceLevel(bot.View(), feed, bot.increments)
    modifies bot
    ensures bot.Valid() && bot.Later() && Sane(bot.View()) && SteadyWorld(bot.View(), feed)
    ensures NothingFound(bot.View(), bot.increments) && bot.broker.lots == old(bot.broker).lots
  {
    ghost var v := bot.View();
    ghost var level, between, corrections, seen;
    var first, second;
    assert Truthful(portfolios(0), bot.broker.lots) && Truthful(portfolios(1), bot.broker.lots);
    first, level, corrections, seen := Pass(bot, portfolios(0), feed, stopPct);
    AdoptiveOnceLevel(v, level, feed, bot.increments, seen);
    between := bot.View();
    second, level, corrections, seen := Pass(bot, portfolios(1), feed, stopPct);
    DuplicatesAreAdoptive(between, bot.increments, first, seen);
    NothingEverLeft(between, bot.View(), bot.increments, first, seen, corrections);
  }

  /** Two passes are enough, whatever the rows and the holdings were, and however the holdings are listed
      each time: the next reconciliation changes nothing and no reading finds anything wrong with any stop,
      so every stop is its position's only one, and covers it. */
  method RepairInTwoPasses(bot: Bot, portfolios: nat -> Portfolio, feed: Feed, stopPct: real)
    returns (left: seq<Adjustment>)
    requires bot.Valid() && bot.obliging && Sane(bot.View())
    requires forall n :: Truthful(portfolios(n), bot.broker.lots)
    requires RepairableOnceLevel(bot.View(), feed, bot.increments)
    modifies bot
    ensures bot.Valid() && bot.Later() && Sane(bot.View()) && SteadyWorld(bot.View(), feed)
    ensures NothingFound(bot.View(), bot.increments) && NoneAboutStops(left)
    ensures OneStopEach(bot.View()) && StopsCover(bot.View(), bot.increments)
  {
    TwoPasses(bot, portfolios, feed, stopPct);
    assert Truthful(portfolios(2), bot.broker.lots);
    left := LookAgain(bot, portfolios(2), feed, stopPct);
  }

  /** However the stops are listed, nothing is found wrong with any. */
  ghost predicate NothingFound(w: World, increments: map<string, Tick>) {
    forall rows, stops :: Reads(w, rows, stops) ==> Findings(rows, stops, increments) == []
  }

  method LookAgain(bot: Bot, portfolio: Portfolio, feed: Feed, stopPct: real) returns (left: seq<Adjustment>)
    requires bot.Valid() && bot.obliging && Sane(bot.View()) && Truthful(portfolio, bot.broker.lots)
    requires SteadyWorld(bot.View(), feed) && NothingFound(bot.View(), bot.increments)
    modifies bot
    ensures bot.Valid() && bot.Later() && bot.View() == old(bot.View())
    ensures NoneAboutStops(left) && OneStopEach(bot.View()) && StopsCover(bot.View(), bot.increments)
  {
    ghost var corrections, seen;
    left, corrections, seen := Observe(bot, portfolio, feed, stopPct);
    CleanIff(bot.View(), seen.rows, seen.stops, bot.increments);
  }

  lemma NothingEverLeft(v: World, w: World, increments: map<string, Tick>, first: seq<Adjustment>, seen: Reading,
                        corrections: seq<Adjustment>)
    requires OnlyDuplicates(v, increments, first) && Reads(v, seen.rows, seen.stops) && NoneAboutStops(corrections)
    requires OnlyDuplicates(w, increments, corrections + Findings(seen.rows, seen.stops, increments))
    ensures NothingFound(w, increments)
  {
    forall rows, stops | Reads(w, rows, stops) ensures Findings(rows, stops, increments) == [] {
      NothingLeft(v, w, increments, first, seen, corrections + Findings(seen.rows, seen.stops, increments), rows,
                  stops);
    }
  }

  lemma AdoptiveOnceLevel(v: World, level: World, feed: Feed, increments: map<string, Tick>, seen: Reading)
    requires RepairableOnceLevel(v, feed, increments) && Levels(v, level, Held(v.broker.lots), feed)
    requires level.broker == v.broker
    requires Reads(level, seen.rows, seen.stops)
    ensures Adoptive(level, Findings(seen.rows, seen.stops, increments))
  {
  }

  lemma DuplicatesAreAdoptive(v: World, increments: map<string, Tick>, found: seq<Adjustment>, seen: Reading)
    requires OnlyDuplicates(v, increments, found) && Reads(v, seen.rows, seen.stops)
    ensures Adoptive(v, Findings(seen.rows, seen.stops, increments))
  {
  }

  /** A pass that replaced nothing leaves nothing. */
  lemma NothingLeft(v: World, w: World, increments: map<string, Tick>, first: seq<Adjustment>, seen: Reading,
                    second: seq<Adjustment>, rows: seq<Numbered>, stops: seq<LiveStop>)
    requires OnlyDuplicates(v, increments, first) && Reads(v, seen.rows, seen.stops)
    requires forall f :: f in second ==> !f.AboutStops() || f in Findings(seen.rows, seen.stops, increments)
    requires OnlyDuplicates(w, increments, second) && Reads(w, rows, stops)
    ensures Findings(rows, stops, increments) == []
  {
    var left := Findings(rows, stops, increments);
    if left != [] {
      SomethingIn(left);
    }
  }

  lemma SomethingIn(found: seq<Adjustment>)
    requires found != []
    ensures exists f :: f in found
  {
    assert found[0] in found;
  }
}
