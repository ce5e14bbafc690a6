/** Reconciliation: local rows are corrected to the broker's holdings, and every stop is classified.
    It observes and records; it never trades.
 */
module Reconciliation {
  import opened Collections
  import opened Models
  import opened Protocol
  import opened Bots
  import opened Executor
  import opened Classification
  import opened Sales

  /** A position of the portfolio reply; the broker's client drops those without lots. */
  datatype Holding = Holding(ticker: string, lots: nat, average: real)

  type Portfolio = holdings: seq<Holding> | forall h :: h in holdings ==> h.lots > 0

  // ------------------------------------------------------------------ readings

  /** The open rows of the table, each once. */
  ghost predicate ListsOpen(rows: seq<Numbered>, positions: map<nat, Position>) {
    && DistinctRows(rows)
    && (forall n :: n in rows ==> n.pid in positions && positions[n.pid] == n.row && n.row.Open())
    && (forall pid :: pid in positions && positions[pid].Open() ==> Numbered(pid, positions[pid]) in rows)
  }

  method ListOpen(bot: Bot) returns (rows: seq<Numbered>)
    requires bot.Valid()
    ensures ListsOpen(rows, bot.positions)
  {
    assert Inv(bot.trace[|bot.log|]);
    var positions := bot.positions;
    var pids := Enumerate(set pid | pid in positions && positions[pid].Open());
    assert forall i :: 0 <= i < |pids| ==> pids[i] in pids;
    rows := seq(|pids|, i requires 0 <= i < |pids| && pids[i] in positions => Numbered(pids[i], positions[pids[i]]));
    OpenRowsListed(pids, positions, rows);
  }

  lemma OpenRowsListed(pids: seq<nat>, positions: map<nat, Position>, rows: seq<Numbered>)
    requires OneOpen(positions) && |rows| == |pids|
    requires forall i, j :: 0 <= i < j < |pids| ==> pids[i] != pids[j]
    requires forall pid :: pid in pids <==> pid in positions && positions[pid].Open()
    requires forall i :: 0 <= i < |pids| ==> pids[i] in positions && rows[i] == Numbered(pids[i], positions[pids[i]])
    ensures ListsOpen(rows, positions)
  {
    forall pid | pid in positions && positions[pid].Open() ensures Numbered(pid, positions[pid]) in rows {
      var i :| 0 <= i < |pids| && pids[i] == pid;
      assert rows[i] in rows;
    }
    forall i | 0 <= i < |pids| ensures pids[i] in pids {}
  }

  function Listed(sid: nat, s: BrokerStop): LiveStop {
    LiveStop(sid, s.key, s.ticker, s.lots, s.price, s.created)
  }

  predicate LiveAt(stops: map<nat, BrokerStop>, sid: nat) {
    sid in stops && stops[sid].state.Armed? && stops[sid].lots > 0
  }

  /** The live stops of the account, each once. */
  ghost predicate ListsStops(stops: seq<LiveStop>, held: map<nat, BrokerStop>) {
    && DistinctStops(stops)
    && (forall s :: s in stops ==> LiveAt(held, s.sid) && s == Listed(s.sid, held[s.sid]))
    && (forall sid :: LiveAt(held, sid) ==> Listed(sid, held[sid]) in stops)
  }

  method ListStopOrders(bot: Bot) returns (reply: Option<seq<LiveStop>>)
    requires bot.Valid()
    modifies bot
    ensures bot.Valid() && bot.Onward() && bot.TablesKept() && bot.even == old(bot.even)
    ensures bot.requests == old(bot.requests)
    ensures reply.Some? ==> ListsStops(reply.value, bot.broker.stops)
    ensures bot.obliging ==> reply.Some? && bot.broker == old(bot.broker)
  {
    bot.Exchange();
    var lost: bool := *;
    if lost && !bot.obliging {
      return None;
    }
    var held := bot.broker.stops;
    var stops: seq<LiveStop> := [];
    var sids: seq<nat> := Enumerate(set sid | sid in held && LiveAt(held, sid));
    assert forall i :: 0 <= i < |sids| ==> sids[i] in sids;
    stops := seq(|sids|, i requires 0 <= i < |sids| && sids[i] in held => Listed(sids[i], held[sids[i]]));
    forall sid | LiveAt(held, sid) ensures Listed(sid, held[sid]) in stops {
      assert sid in sids;
      var i :| 0 <= i < |sids| && sids[i] == sid;
      assert stops[i] in stops;
    }
    return Some(stops);
  }

  /** The portfolio names every holding the account has, with its lots. */
  ghost predicate Truthful(holdings: seq<Holding>, lots: map<string, int>) {
    && (forall h :: h in holdings && h.ticker != "" ==> h.ticker in lots && lots[h.ticker] == h.lots)
    && (forall t :: t in lots && lots[t] > 0 && t != "" ==> exists h :: h in holdings && h.ticker == t)
  }

  /** `reply` is what the broker answers, if it does. */
  method GetPortfolio(bot: Bot, reply: Option<Portfolio>) returns (portfolio: Option<Portfolio>)
    requires bot.Valid()
    modifies bot
    ensures bot.Valid() && bot.Onward() && bot.TablesKept() && bot.even == old(bot.even)
    ensures bot.requests == old(bot.requests) && portfolio == reply
    ensures bot.obliging ==> bot.broker == old(bot.broker)
  {
    bot.Exchange();
    return reply;
  }

  /** `_by_ticker`: later entries win, unnamed ones are dropped. */
  function ByTicker(holdings: seq<Holding>): (index: map<string, Holding>)
    ensures forall t :: t in index ==> t != "" && index[t] in holdings && index[t].ticker == t
    ensures forall h :: h in holdings && h.ticker != "" ==> h.ticker in index
  {
    if holdings == [] then map[]
    else
      var last := holdings[|holdings| - 1];
      var index := ByTicker(holdings[..|holdings| - 1]);
      if last.ticker == "" then index else index[last.ticker := last]
  }

  method IndexByTicker(holdings: seq<Holding>) returns (index: map<string, Holding>)
    ensures index == ByTicker(holdings)
  {
    index := map[];
    for i := 0 to |holdings|
      invariant index == ByTicker(holdings[..i])
    {
      assert holdings[..i + 1][..i] == holdings[..i];
      if holdings[i].ticker != "" {
        index := index[holdings[i].ticker := holdings[i]];
      }
    }
    assert holdings[..|holdings|] == holdings;
  }

  /** With distinct tickers the index loses nothing. */
  lemma IndexIsListing(holdings: seq<Holding>, h: Holding)
    requires forall i, j :: 0 <= i < j < |holdings| ==> holdings[i].ticker != holdings[j].ticker
    requires h in holdings && h.ticker != ""
    ensures h.ticker in ByTicker(holdings) && ByTicker(holdings)[h.ticker] == h
  {
    var kept := ByTicker(holdings)[h.ticker];
    var i :| 0 <= i < |holdings| && holdings[i] == kept;
    var j :| 0 <= j < |holdings| && holdings[j] == h;
  }

  // ------------------------------------------------------------------ holdings

  /** What the operations feed answers for each position's own window, where it answers. */
  type Feed = nat -> Option<seq<Operation>>

  /** The sale the feed gives for a position. */
  function SaleFor(n: Numbered, feed: Feed): Option<Sale> {
    if feed(n.pid).Some? then ResolveSale(n.row.ticker, feed(n.pid).value) else None
  }

  /** A row closed at the price and the fee of a sale the broker recorded. */
  function SoldOutside(orders: map<Id, Order>, row: Position, sale: Sale): Position {
    row.(exit := Some(ExitOf(orders, row, External, sale.price, None, Some(sale.fee))), protection := Local)
  }

  /** What the holdings make of an open row. `held` is the lots of every holding. */
  function LevelRow(n: Numbered, held: map<string, nat>, feed: Feed, orders: map<Id, Order>): Position {
    if n.row.ticker == "" then n.row
    else if n.row.ticker in held then n.row.(lots := held[n.row.ticker])
    else if SaleFor(n, feed).Some? then SoldOutside(orders, n.row, SaleFor(n, feed).value)
    else n.row
  }

  /** Stop rows after a pass over the holdings: at most their statuses differ. */
  ghost predicate StatusOnly(before: map<Id, StopRow>, after: map<Id, StopRow>) {
    after.Keys == before.Keys && forall k :: k in before ==> after[k] == before[k].(status := after[k].status)
  }

  /** Books the sale the broker recorded, or reports that it could not be found. */
  method CloseExternally(bot: Bot, n: Numbered, feed: Feed) returns (f: Adjustment)
    requires bot.Valid() && n.pid in bot.positions && bot.positions[n.pid] == n.row && n.row.Open()
    modifies bot
    ensures bot.Valid() && bot.Later() && bot.broker.market.Keys == old(bot.broker.market.Keys)
    ensures bot.requests == old(bot.requests)
    ensures bot.orders == old(bot.orders) && (bot.obliging ==> bot.broker == old(bot.broker))
    ensures f == if SaleFor(n, feed).Some? then ClosedExternally(n.row.ticker, n.pid)
              else ExitUnresolved(n.row.ticker, n.pid)
    ensures f.ExitUnresolved? ==> bot.TablesKept()
    ensures f.ClosedExternally? ==>
              && bot.positions == old(bot.positions)[n.pid := SoldOutside(bot.orders, n.row, SaleFor(n, feed).value)]
              && Balances(bot.positions[n.pid], bot.orders)
              && bot.stopRows == (if n.row.protection.Exchange? then EndedFor(old(bot.stopRows), n.pid, Executed)
                                  else old(bot.stopRows))
    ensures old(Coherent(bot.positions, bot.stopRows)) ==> Coherent(bot.positions, bot.stopRows)
  {
    var sale := SaleFor(n, feed);
    if sale.None? {
      return ExitUnresolved(n.row.ticker, n.pid);
    }
    var closed := bot.CloseRow(n.pid, External, sale.value.price, ByOwner, Some(sale.value.fee));
    if n.row.protection.Exchange? {
      EndExecuted(bot, n.pid);
    }
    if old(Coherent(bot.positions, bot.stopRows)) {
      assert Owned(n.row, n.pid, old(bot.stopRows));
      EndedFacts(old(bot.stopRows), n.pid, Executed);
      EndingKeepsCoherent(old(bot.positions), old(bot.stopRows), n.pid, bot.positions[n.pid], Executed);
    }
    return ClosedExternally(n.row.ticker, n.pid);
  }

  /** The row of a stop that no longer exists anywhere. */
  method EndExecuted(bot: Bot, pid: nat)
    requires bot.Valid()
    modifies bot
    ensures bot.Valid() && bot.Onward() && bot.orders == old(bot.orders) && bot.positions == old(bot.positions)
    ensures bot.stopRows == EndedFor(old(bot.stopRows), pid, Executed) && bot.requests == old(bot.requests)
    ensures bot.obliging ==> bot.broker == old(bot.broker)
  {
    var standing := bot.ActiveForPosition(pid);
    if standing.Some? {
      EndedIsOneRow(bot.stopRows, pid, standing.value, Executed);
      var settled := bot.SettleStop(standing.value, Executed);
    } else {
      EndedFacts(bot.stopRows, pid, Executed);
    }
  }

  /** What is then reported of the row. */
  ghost predicate RowReported(n: Numbered, held: map<string, nat>, feed: Feed, found: seq<Adjustment>) {
    var t := n.row.ticker;
    if t == "" then true
    else if t in held then held[t] != n.row.lots ==> LotsAdjusted(t, n.pid, n.row.lots, held[t]) in found
    else if SaleFor(n, feed).Some? then ClosedExternally(t, n.pid) in found
    else ExitUnresolved(t, n.pid) in found
  }

  ghost predicate NoneAboutStops(found: seq<Adjustment>) {
    forall f :: f in found ==> !f.AboutStops()
  }

  ghost predicate NoneForeign(found: seq<Adjustment>) {
    forall f :: f in found ==> !f.ForeignHolding?
  }

  /** What is reported foreign is a holding of one of these tickers, and nothing is open on it. */
  ghost predicate ForeignUnopened(found: seq<Adjustment>, positions: map<nat, Position>, tickers: seq<string>) {
    forall f :: f in found && f.ForeignHolding? ==> f.ticker in tickers && !OneOpenOn(positions, f.ticker)
  }

  /** One open row against the portfolio. */
  method CorrectRow(bot: Bot, n: Numbered, held: map<string, nat>, feed: Feed) returns (found: seq<Adjustment>)
    requires bot.Valid() && n.pid in bot.positions && bot.positions[n.pid] == n.row && n.row.Open()
    requires forall t :: t in held ==> held[t] > 0
    modifies bot
    ensures bot.Valid() && bot.Later() && bot.broker.market.Keys == old(bot.broker.market.Keys)
    ensures bot.requests == old(bot.requests)
    ensures bot.orders == old(bot.orders) && (bot.obliging ==> bot.broker == old(bot.broker))
    ensures bot.positions == old(bot.positions)[n.pid := LevelRow(n, held, feed, bot.orders)]
    ensures StatusOnly(old(bot.stopRows), bot.stopRows) && RowReported(n, held, feed, found)
    ensures NoneAboutStops(found) && NoneForeign(found)
    ensures LevelRow(n, held, feed, bot.orders) == n.row ==> bot.TablesKept()
    ensures old(Coherent(bot.positions, bot.stopRows)) ==> Coherent(bot.positions, bot.stopRows)
  {
    found := [];
    if n.row.ticker == "" {
      return;
    }
    if n.row.ticker !in held {
      var f := CloseExternally(bot, n, feed);
      found := [f];
    } else if held[n.row.ticker] != n.row.lots {
      bot.AdjustRow(n.pid, held[n.row.ticker]);
      found := [LotsAdjusted(n.row.ticker, n.pid, n.row.lots, held[n.row.ticker])];
      if old(Coherent(bot.positions, bot.stopRows)) {
        KeepsCoherent(old(bot.positions), bot.stopRows, bot.positions, bot.stopRows, n.pid);
      }
    }
  }

  ghost predicate AllCorrected(rows: seq<Numbered>, held: map<string, nat>, feed: Feed, orders: map<Id, Order>,
                               after: map<nat, Position>, found: seq<Adjustment>) {
    && NoneAboutStops(found) && NoneForeign(found)
    && forall i :: 0 <= i < |rows| ==>
         && rows[i].pid in after && after[rows[i].pid] == LevelRow(rows[i], held, feed, orders)
         && RowReported(rows[i], held, feed, found)
  }

  lemma OneMoreCorrected(rows: seq<Numbered>, i: nat, held: map<string, nat>, feed: Feed, orders: map<Id, Order>,
                         before: map<nat, Position>, after: map<nat, Position>, found: seq<Adjustment>,
                           more: seq<Adjustment>)
    requires i < |rows| && after == before[rows[i].pid := LevelRow(rows[i], held, feed, orders)] && DistinctRows(rows)
    requires AllCorrected(rows[..i], held, feed, orders, before, found)
    requires RowReported(rows[i], held, feed, more) && NoneAboutStops(more) && NoneForeign(more)
    ensures AllCorrected(rows[..i + 1], held, feed, orders, after, found + more)
  {
    forall j | 0 <= j <= i
      ensures rows[j].pid in after && after[rows[j].pid] == LevelRow(rows[j], held, feed, orders)
              && RowReported(rows[j], held, feed, found + more)
    {
      if j < i {
        assert rows[..i][j] == rows[j];
      }
    }
  }

  /** The listed rows a pass has not reached are in the table as they were listed, and open. */
  ghost predicate Untouched(rows: seq<Numbered>, from: nat, positions: map<nat, Position>) {
    forall j :: from <= j < |rows| ==>
      rows[j].pid in positions && positions[rows[j].pid] == rows[j].row && rows[j].row.Open()
  }

  lemma UntouchedButOne(rows: seq<Numbered>, i: nat, first: map<nat, Position>, before: map<nat, Position>,
                        after: map<nat, Position>)
    requires DistinctRows(rows) && i < |rows| && Untouched(rows, i, before) && Untouched(rows, 0, first)
    requires ClosedKept(first, before)
    requires rows[i].pid in after && after == before[rows[i].pid := after[rows[i].pid]]
    ensures Untouched(rows, i + 1, after) && ClosedKept(first, after)
  {
  }

  /** Nothing to correct in the listed rows. */
  ghost predicate AllLevel(rows: seq<Numbered>, held: map<string, nat>, feed: Feed, orders: map<Id, Order>) {
    forall n :: n in rows ==> LevelRow(n, held, feed, orders) == n.row
  }

  ghost predicate ClosedKept(before: map<nat, Position>, after: map<nat, Position>) {
    after.Keys == before.Keys && forall pid :: pid in before && !before[pid].Open() ==> after[pid] == before[pid]
  }

  /** Every row that was open, in turn. */
  method CorrectRows(bot: Bot, rows: seq<Numbered>, held: map<string, nat>, feed: Feed) returns (found: seq<Adjustment>)
    requires bot.Valid() && ListsOpen(rows, bot.positions)
    requires forall t :: t in held ==> held[t] > 0
    modifies bot
    ensures bot.Valid() && bot.Later() && bot.broker.market.Keys == old(bot.broker.market.Keys)
    ensures bot.requests == old(bot.requests)
    ensures bot.orders == old(bot.orders) && (bot.obliging ==> bot.broker == old(bot.broker))
    ensures ClosedKept(old(bot.positions), bot.positions) && StatusOnly(old(bot.stopRows), bot.stopRows)
    ensures AllCorrected(rows, held, feed, bot.orders, bot.positions, found)
    ensures AllLevel(rows, held, feed, bot.orders) ==> bot.TablesKept()
    ensures old(Coherent(bot.positions, bot.stopRows)) ==> Coherent(bot.positions, bot.stopRows)
  {
    ghost var first := bot.positions;
    assert forall j :: 0 <= j < |rows| ==> rows[j] in rows;
    found := [];
    for i := 0 to |rows|
      invariant bot.Valid() && bot.Later() && bot.broker.market.Keys == old(bot.broker.market.Keys)
      invariant bot.requests == old(bot.requests)
      invariant bot.orders == old(bot.orders) && (bot.obliging ==> bot.broker == old(bot.broker))
      invariant ClosedKept(old(bot.positions), bot.positions) && StatusOnly(old(bot.stopRows), bot.stopRows)
      invariant Untouched(rows, i, bot.positions)
      invariant AllCorrected(rows[..i], held, feed, bot.orders, bot.positions, found)
      invariant AllLevel(rows, held, feed, bot.orders) ==> bot.TablesKept()
      invariant old(Coherent(bot.positions, bot.stopRows)) ==> Coherent(bot.positions, bot.stopRows)
    {
      ghost var before := bot.positions;
      var more := CorrectRow(bot, rows[i], held, feed);
      UntouchedButOne(rows, i, first, before, bot.positions);
      OneMoreCorrected(rows, i, held, feed, bot.orders, before, bot.positions, found, more);
      found := found + more;
    }
    assert rows[..|rows|] == rows;
  }

  /** Some unfinished entry of the bot's own accounts for a holding of the ticker. */
  predicate Recognised(orders: map<Id, Order>, ticker: string) {
    exists k :: k in orders && Unfinished(orders, k, ticker)
  }

  predicate Earlier(listed: seq<Id>, orders: map<Id, Order>, ticker: string, i: nat)
    requires i <= |listed|
  {
    exists j :: 0 <= j < i && Unfinished(orders, listed[j], ticker)
  }

  /** The unresolved orders, in any order. */
  method ListUnresolvedKeys(bot: Bot) returns (unresolved: seq<Id>)
    ensures forall k :: k in unresolved <==> k in bot.orders && !bot.orders[k].status.Terminal()
  {
    var orders := bot.orders;
    unresolved := Enumerate(set k | k in orders && !orders[k].status.Terminal());
  }

  /** Ticker to the bot's own unfinished entry for it: of several the first listed wins. */
  method RecognisingOrders(orders: map<Id, Order>, unresolved: seq<Id>) returns (recognised: map<string, Id>)
    requires forall k :: k in unresolved ==> k in orders && !orders[k].status.Terminal()
    ensures forall t :: t in recognised <==> Earlier(unresolved, orders, t, |unresolved|)
    ensures forall t :: t in recognised ==>
              exists i :: 0 <= i < |unresolved| && recognised[t] == unresolved[i]
                          && Unfinished(orders, unresolved[i], t)
                          && !Earlier(unresolved, orders, t, i)
  {
    assert forall j :: 0 <= j < |unresolved| ==> unresolved[j] in unresolved;
    recognised := map[];
    for i := 0 to |unresolved|
      invariant forall t :: t in recognised <==> Earlier(unresolved, orders, t, i)
      invariant forall t :: t in recognised ==>
                  exists j :: 0 <= j < i && recognised[t] == unresolved[j] && Unfinished(orders, unresolved[j], t)
                              && !Earlier(unresolved, orders, t, j)
    {
      var k := unresolved[i];
      if orders[k].intent.Entry? && orders[k].ticker !in recognised {
        recognised := recognised[orders[k].ticker := k];
      }
    }
  }

  lemma EarlierIsRecognised(orders: map<Id, Order>, unresolved: seq<Id>, t: string)
    requires forall k :: k in unresolved <==> k in orders && !orders[k].status.Terminal()
    ensures Earlier(unresolved, orders, t, |unresolved|) <==> Recognised(orders, t)
  {
    if k :| k in orders && Unfinished(orders, k, t) {
      assert k in unresolved;
      var j :| 0 <= j < |unresolved| && unresolved[j] == k;
    }
  }

  /** A holding written down as a LOCAL position on the bot's own unfinished entry. */
  ghost predicate AdoptedRow(p: Position, h: Holding, orders: map<Id, Order>, lotSizes: string -> nat, stopPct: real) {
    && Unfinished(orders, p.openKey, h.ticker)
    && StopAt(p, stopPct)
    && p == Position(h.ticker, h.lots, lotSizes(h.ticker), h.average, p.stop, p.openKey, true, None, Local)
  }

  /** Nothing but adopted rows is added. */
  ghost predicate OnlyAdopted(before: map<nat, Position>, after: map<nat, Position>, index: map<string, Holding>,
                              orders: map<Id, Order>, lotSizes: string -> nat, stopPct: real) {
    && (forall pid :: pid in before ==> pid in after && after[pid] == before[pid])
    && (forall pid :: pid in after && pid !in before ==>
          after[pid].ticker in index && AdoptedRow(after[pid], index[after[pid].ticker], orders, lotSizes, stopPct))
  }

  predicate HeldOpen(positions: map<nat, Position>, t: string, lots: nat) {
    exists pid :: pid in positions && positions[pid].Open() && positions[pid].ticker == t && positions[pid].lots == lots
  }

  /** What becomes of a holding without an open row: it is adopted exactly when an unfinished entry of the
      bot's own accounts for it, and otherwise reported as foreign. */
  ghost predicate Dealt(positions: map<nat, Position>, orders: map<Id, Order>, h: Holding, found: seq<Adjustment>) {
    if Recognised(orders, h.ticker)
    then HeldOpen(positions, h.ticker, h.lots) && Adopted(h.ticker, h.lots) in found
    else !OneOpenOn(positions, h.ticker) && ForeignHolding(h.ticker, h.lots) in found
  }

  method RecogniseHolding(bot: Bot, h: Holding, recognised: map<string, Id>, stopPct: real)
    returns (f: Option<Adjustment>)
    requires bot.Valid() && h.lots > 0 && !OneOpenOn(bot.positions, h.ticker)
    requires h.ticker in recognised <==> Recognised(bot.orders, h.ticker)
    requires h.ticker in recognised ==> Unfinished(bot.orders, recognised[h.ticker], h.ticker)
    modifies bot
    ensures bot.Valid() && bot.Onward() && bot.orders == old(bot.orders) && bot.stopRows == old(bot.stopRows)
    ensures bot.requests == old(bot.requests)
    ensures bot.obliging ==> bot.broker == old(bot.broker) && f.Some?
    ensures f.None? || !Recognised(bot.orders, h.ticker) ==> bot.positions == old(bot.positions)
    ensures f.Some? ==> !f.value.AboutStops() && Dealt(bot.positions, bot.orders, h, [f.value])
                        && ForeignUnopened([f.value], bot.positions, [h.ticker])
    ensures OnlyAdopted(old(bot.positions), bot.positions, map[h.ticker := h], bot.orders, bot.lotSizes, stopPct)
    ensures old(Coherent(bot.positions, bot.stopRows)) ==> Coherent(bot.positions, bot.stopRows)
  {
    if h.ticker !in recognised {
      return Some(ForeignHolding(h.ticker, h.lots));
    }
    f := AdoptHolding(bot, h, recognised[h.ticker], stopPct);
  }

  lemma RowIsAdopted(positions: map<nat, Position>, pid: nat, row: Position, h: Holding, orders: map<Id, Order>,
                     lotSizes: string -> nat, stopPct: real)
    requires pid in positions && positions[pid] == row && Unfinished(orders, row.openKey, h.ticker)
    requires row == Position(h.ticker, h.lots, lotSizes(h.ticker), h.average, StopPrice(h.average, stopPct),
                             row.openKey, true, None, Local)
    ensures AdoptedRow(row, h, orders, lotSizes, stopPct) && HeldOpen(positions, h.ticker, h.lots)
  {
    StopPriceIsAt(h.average, stopPct);
    assert positions[pid].Open();
  }

  method AdoptHolding(bot: Bot, h: Holding, key: Id, stopPct: real) returns (f: Option<Adjustment>)
    requires bot.Valid() && h.lots > 0 && !OneOpenOn(bot.positions, h.ticker) && Unfinished(bot.orders, key, h.ticker)
    modifies bot
    ensures bot.Valid() && bot.Onward() && bot.orders == old(bot.orders) && bot.stopRows == old(bot.stopRows)
    ensures bot.requests == old(bot.requests)
    ensures bot.obliging ==> bot.broker == old(bot.broker) && f.Some?
    ensures f.None? ==> bot.positions == old(bot.positions)
    ensures f.Some? ==> f.value == Adopted(h.ticker, h.lots) && HeldOpen(bot.positions, h.ticker, h.lots)
    ensures OnlyAdopted(old(bot.positions), bot.positions, map[h.ticker := h], bot.orders, bot.lotSizes, stopPct)
    ensures old(Coherent(bot.positions, bot.stopRows)) ==> Coherent(bot.positions, bot.stopRows)
  {
    hide AdoptedRow, HeldOpen, Coherent;
    var lot := bot.GetInstrument(h.ticker);
    if lot.None? {
      return None;
    }
    var row := Position(h.ticker, h.lots, lot.value, h.average, StopPrice(h.average, stopPct), key, true, None, Local);
    var pid := bot.AdoptRow(row);
    RowIsAdopted(bot.positions, pid, row, h, bot.orders, bot.lotSizes, stopPct);
    if old(Coherent(bot.positions, bot.stopRows)) {
      KeepsCoherent(old(bot.positions), old(bot.stopRows), bot.positions, bot.stopRows, pid);
    }
    return Some(Adopted(h.ticker, h.lots));
  }

  ghost predicate Accounted(positions: map<nat, Position>, h: Holding, found: seq<Adjustment>) {
    HeldOpen(positions, h.ticker, h.lots) || ForeignHolding(h.ticker, h.lots) in found
  }

  lemma HeldStays(before: map<nat, Position>, after: map<nat, Position>, t: string, lots: nat)
    requires HeldOpen(before, t, lots) && forall pid :: pid in before ==> pid in after && after[pid] == before[pid]
    ensures HeldOpen(after, t, lots)
  {
    var pid :| pid in before && before[pid].Open() && before[pid].ticker == t && before[pid].lots == lots;
    assert pid in after;
  }

  ghost predicate AllDealt(positions: map<nat, Position>, orders: map<Id, Order>, tickers: seq<string>,
                           index: map<string, Holding>, found: seq<Adjustment>) {
    && NoneAboutStops(found) && ForeignUnopened(found, positions, tickers)
    && forall t :: t in tickers && t in index ==> Dealt(positions, orders, index[t], found)
  }

  lemma StillDealt(before: map<nat, Position>, after: map<nat, Position>, orders: map<Id, Order>, h: Holding,
                   found: seq<Adjustment>, more: seq<Adjustment>)
    requires Dealt(before, orders, h, found) && forall pid :: pid in before ==>
               pid in after && after[pid] == before[pid]
    requires OneOpenOn(after, h.ticker) ==> OneOpenOn(before, h.ticker)
    ensures Dealt(after, orders, h, found + more)
  {
    if Recognised(orders, h.ticker) {
      HeldStays(before, after, h.ticker, h.lots);
    }
  }

  lemma OneMoreDealt(before: map<nat, Position>, after: map<nat, Position>, orders: map<Id, Order>,
                     tickers: seq<string>, t: string, index: map<string, Holding>, found: seq<Adjustment>,
                     more: seq<Adjustment>, lotSizes: string -> nat, stopPct: real)
    requires AllDealt(before, orders, tickers, index, found) && t in index && t !in tickers
    requires NoneAboutStops(more) && ForeignUnopened(more, after, [t])
    requires forall u :: u in index ==> index[u].ticker == u
    requires OnlyAdopted(before, after, map[t := index[t]], orders, lotSizes, stopPct)
    requires Dealt(after, orders, index[t], more)
    ensures AllDealt(after, orders, tickers + [t], index, found + more)
  {
    forall u | u in tickers && u in index ensures Dealt(after, orders, index[u], found + more) {
      StillDealt(before, after, orders, index[u], found, more);
    }
    forall u | u in tickers && OneOpenOn(after, u) ensures OneOpenOn(before, u) {}
  }

  lemma AdoptedOneMore(first: map<nat, Position>, before: map<nat, Position>, after: map<nat, Position>, t: string,
                       index: map<string, Holding>, orders: map<Id, Order>, lotSizes: string -> nat, stopPct: real)
    requires t in index && OnlyAdopted(first, before, index, orders, lotSizes, stopPct)
    requires OnlyAdopted(before, after, map[t := index[t]], orders, lotSizes, stopPct)
    ensures OnlyAdopted(first, after, index, orders, lotSizes, stopPct)
  {
  }

  ghost predicate NoneOpen(positions: map<nat, Position>, tickers: seq<string>) {
    forall t :: t in tickers ==> !OneOpenOn(positions, t)
  }

  lemma NoneOpenLeft(before: map<nat, Position>, after: map<nat, Position>, tickers: seq<string>, i: nat,
                     index: map<string, Holding>, orders: map<Id, Order>, lotSizes: string -> nat, stopPct: real)
    requires forall i, j :: 0 <= i < j < |tickers| ==> tickers[i] != tickers[j]
    requires i < |tickers| && NoneOpen(before, tickers[i..]) && tickers[i] in index
    requires OnlyAdopted(before, after, map[tickers[i] := index[tickers[i]]], orders, lotSizes, stopPct)
    ensures NoneOpen(after, tickers[i + 1..])
  {
    forall t | t in tickers[i + 1..] ensures !OneOpenOn(after, t) {
      assert t in tickers[i..] && t != tickers[i];
    }
  }

  method RecogniseHoldings(bot: Bot, unknown: seq<string>, index: map<string, Holding>, stopPct: real)
    returns (found: Option<seq<Adjustment>>)
    requires bot.Valid() && forall i, j :: 0 <= i < j < |unknown| ==> unknown[i] != unknown[j]
    requires forall t :: t in index ==> index[t].lots > 0 && index[t].ticker == t
    requires NoneOpen(bot.positions, unknown) && forall t :: t in unknown ==> t in index
    modifies bot
    ensures bot.Valid() && bot.Later() && bot.broker.market.Keys == old(bot.broker.market.Keys)
    ensures bot.requests == old(bot.requests)
    ensures bot.orders == old(bot.orders) && bot.stopRows == old(bot.stopRows)
    ensures bot.obliging ==> bot.broker == old(bot.broker) && found.Some?
    ensures (forall t :: t in unknown ==> !Recognised(bot.orders, t)) ==> bot.positions == old(bot.positions)
    ensures OnlyAdopted(old(bot.positions), bot.positions, index, bot.orders, bot.lotSizes, stopPct)
    ensures found.Some? ==> AllDealt(bot.positions, bot.orders, unknown, index, found.value)
    ensures old(Coherent(bot.positions, bot.stopRows)) ==> Coherent(bot.positions, bot.stopRows)
  {
    hide Dealt, Coherent;
    if unknown == [] {
      return Some([]);
    }
    ghost var first := bot.positions;
    var unresolved := ListUnresolvedKeys(bot);
    var recognised := RecognisingOrders(bot.orders, unresolved);
    forall t ensures t in recognised <==> Recognised(bot.orders, t) {
      EarlierIsRecognised(bot.orders, unresolved, t);
    }
    var all: seq<Adjustment> := [];
    assert forall j :: 0 <= j < |unknown| ==> unknown[j] in unknown;
    for i := 0 to |unknown|
      invariant bot.Valid() && bot.Later() && bot.broker.market.Keys == old(bot.broker.market.Keys)
      invariant bot.requests == old(bot.requests)
      invariant bot.orders == old(bot.orders) && bot.stopRows == old(bot.stopRows)
      invariant bot.obliging ==> bot.broker == old(bot.broker)
      invariant OnlyAdopted(old(bot.positions), bot.positions, index, bot.orders, bot.lotSizes, stopPct)
      invariant AllDealt(bot.positions, bot.orders, unknown[..i], index, all) && NoneOpen(bot.positions, unknown[i..])
      invariant (forall t :: t in unknown ==> !Recognised(bot.orders, t)) ==> bot.positions == old(bot.positions)
      invariant old(Coherent(bot.positions, bot.stopRows)) ==> Coherent(bot.positions, bot.stopRows)
    {
      ghost var before := bot.positions;
      assert unknown[i] in unknown[i..] && unknown[i] in index;
      var f := RecogniseHolding(bot, index[unknown[i]], recognised, stopPct);
      if f.None? {
        return None;
      }
      OneMoreDealt(before, bot.positions, bot.orders, unknown[..i], unknown[i], index, all, [f.value], bot.lotSizes,
                   stopPct);
      AdoptedOneMore(first, before, bot.positions, unknown[i], index, bot.orders, bot.lotSizes, stopPct);
      NoneOpenLeft(before, bot.positions, unknown, i, index, bot.orders, bot.lotSizes, stopPct);
      assert unknown[..i + 1] == unknown[..i] + [unknown[i]];
      all := all + [f.value];
    }
    assert unknown[..|unknown|] == unknown;
    return Some(all);
  }

  /** The rows as reconciliation leaves them: each holding is an open row with its lots or is
      reported foreign, and each open row has its holding's lots or is reported unresolved. */
  ghost predicate Mirrors(positions: map<nat, Position>, index: map<string, Holding>, found: seq<Adjustment>) {
    && (forall f :: f in found && f.ForeignHolding? ==> f.ticker in index && !OneOpenOn(positions, f.ticker))
    && (forall t :: t in index ==> Accounted(positions, index[t], found))
    && (forall pid :: pid in positions && positions[pid].Open() && positions[pid].ticker != "" ==>
          if positions[pid].ticker in index then positions[pid].lots == index[positions[pid].ticker].lots
          else ExitUnresolved(positions[pid].ticker, pid) in found)
  }

  lemma CorrectedMirrors(rows: seq<Numbered>, index: map<string, Holding>, feed: Feed, orders: map<Id, Order>,
                         lotSizes: string -> nat, stopPct: real, before: map<nat, Position>,
                         between: map<nat, Position>, after: map<nat, Position>, corrections: seq<Adjustment>,
                         recognised: seq<Adjustment>)
    requires ListsOpen(rows, before) && ClosedKept(before, between)
    requires forall t :: t in index ==> t != "" && index[t].ticker == t
    requires AllCorrected(rows, LotsOf(index), feed, orders, between, corrections)
    requires OnlyAdopted(between, after, index, orders, lotSizes, stopPct)
    requires forall t :: t in index && !OpenOn(rows, t) ==> Dealt(after, orders, index[t], recognised)
    requires forall f :: f in recognised && f.ForeignHolding? ==> f.ticker in index && !OneOpenOn(after, f.ticker)
    ensures Mirrors(after, index, corrections + recognised)
  {
    forall t | t in index ensures Accounted(after, index[t], corrections + recognised) {
      if i :| 0 <= i < |rows| && rows[i].row.ticker == t {
        assert rows[i] in rows && after[rows[i].pid] == between[rows[i].pid];
      }
    }
    forall pid | pid in after && after[pid].Open() && after[pid].ticker != ""
      ensures if after[pid].ticker in index then after[pid].lots == index[after[pid].ticker].lots
              else ExitUnresolved(after[pid].ticker, pid) in corrections + recognised
    {
      if pid in before {
        CorrectedRow(rows, LotsOf(index), feed, orders, before, between, corrections, pid);
      }
    }
  }

  lemma CorrectedRow(rows: seq<Numbered>, held: map<string, nat>, feed: Feed, orders: map<Id, Order>,
                     before: map<nat, Position>, between: map<nat, Position>, corrections: seq<Adjustment>, pid: nat)
    requires ListsOpen(rows, before) && ClosedKept(before, between)
    requires AllCorrected(rows, held, feed, orders, between, corrections)
    requires pid in before && between[pid].Open() && between[pid].ticker != ""
    ensures if between[pid].ticker in held then between[pid].lots == held[between[pid].ticker]
            else ExitUnresolved(between[pid].ticker, pid) in corrections
  {
    assert before[pid].Open();
    var i :| 0 <= i < |rows| && rows[i] == Numbered(pid, before[pid]);
  }

  function LotsOf(index: map<string, Holding>): (held: map<string, nat>)
    ensures held.Keys == index.Keys && forall t :: t in held ==> held[t] == index[t].lots
  {
    map t | t in index :: index[t].lots
  }

  /** Another pass over the same holdings would change nothing: every open row is level with them or has
      no sale to be closed on, and every holding without a row is foreign. */
  ghost predicate Steady(positions: map<nat, Position>, orders: map<Id, Order>, held: map<string, nat>, feed: Feed) {
    && (forall pid :: pid in positions && positions[pid].Open() ==>
          LevelRow(Numbered(pid, positions[pid]), held, feed, orders) == positions[pid])
    && (forall t :: t in held ==> OneOpenOn(positions, t) || !Recognised(orders, t))
  }

  function LevelledRow(pid: nat, row: Position, held: map<string, nat>, feed: Feed, orders: map<Id, Order>): Position {
    if row.Open() then LevelRow(Numbered(pid, row), held, feed, orders) else row
  }

  /** What a pass over the holdings makes of the tables: every open row is levelled with them, adopted
      rows are added for holdings an unfinished entry accounts for, and of stop rows only statuses change. */
  ghost predicate Levels(v: World, w: World, held: map<string, nat>, feed: Feed) {
    && w.orders == v.orders && StatusOnly(v.stopRows, w.stopRows) && v.positions.Keys <= w.positions.Keys
    && (forall pid :: pid in v.positions ==>
          w.positions[pid] == LevelledRow(pid, v.positions[pid], held, feed, v.orders))
    && (forall pid :: pid in w.positions && pid !in v.positions ==>
          && w.positions[pid].Open() && w.positions[pid].protection.Local? && w.positions[pid].adopted
          && w.positions[pid].ticker in held && w.positions[pid].lots == held[w.positions[pid].ticker]
          && Unfinished(w.orders, w.positions[pid].openKey, w.positions[pid].ticker))
  }

  lemma CorrectedLevels(v: World, w: World, rows: seq<Numbered>, index: map<string, Holding>, feed: Feed,
                        lotSizes: string -> nat, stopPct: real, between: map<nat, Position>,
                        corrections: seq<Adjustment>)
    requires ListsOpen(rows, v.positions) && ClosedKept(v.positions, between) && w.orders == v.orders
    requires AllCorrected(rows, LotsOf(index), feed, w.orders, between, corrections)
    requires OnlyAdopted(between, w.positions, index, w.orders, lotSizes, stopPct) && StatusOnly(v.stopRows, w.stopRows)
    ensures Levels(v, w, LotsOf(index), feed)
  {
    forall pid | pid in v.positions && v.positions[pid].Open()
      ensures between[pid] == LevelRow(Numbered(pid, v.positions[pid]), LotsOf(index), feed, v.orders)
    {
      var i :| 0 <= i < |rows| && rows[i] == Numbered(pid, v.positions[pid]);
    }
  }

  lemma LevelledRowStays(v: World, w: World, held: map<string, nat>, feed: Feed, pid: nat)
    requires Levels(v, w, held, feed) && pid in w.positions && w.positions[pid].Open()
    ensures LevelRow(Numbered(pid, w.positions[pid]), held, feed, w.orders) == w.positions[pid]
  {
  }

  lemma LevelledIsSteady(v: World, w: World, rows: seq<Numbered>, index: map<string, Holding>, feed: Feed,
                         recognised: seq<Adjustment>)
    requires ListsOpen(rows, v.positions) && Levels(v, w, LotsOf(index), feed)
    requires forall t :: t in index ==> index[t].ticker == t
    requires forall t :: t in index && !OpenOn(rows, t) ==> Dealt(w.positions, w.orders, index[t], recognised)
    ensures Steady(w.positions, w.orders, LotsOf(index), feed)
  {
    forall t | t in index && Recognised(w.orders, t) ensures OneOpenOn(w.positions, t) {
      LevelledStaysOpen(v, w, rows, index, feed, t, recognised);
    }
    forall pid | pid in w.positions && w.positions[pid].Open()
      ensures LevelRow(Numbered(pid, w.positions[pid]), LotsOf(index), feed, w.orders) == w.positions[pid]
    {
      LevelledRowStays(v, w, LotsOf(index), feed, pid);
    }
  }

  lemma LevelledStaysOpen(v: World, w: World, rows: seq<Numbered>, index: map<string, Holding>, feed: Feed, t: string,
                          recognised: seq<Adjustment>)
    requires ListsOpen(rows, v.positions) && Levels(v, w, LotsOf(index), feed) && t in index && Recognised(w.orders, t)
    requires index[t].ticker == t && (!OpenOn(rows, t) ==> Dealt(w.positions, w.orders, index[t], recognised))
    ensures OneOpenOn(w.positions, t)
  {
    if i :| 0 <= i < |rows| && rows[i].row.ticker == t {
      assert rows[i] in rows && w.positions[rows[i].pid].Open();
    }
  }

  /** The holdings no listed row accounts for. */
  method RecogniseUnknown(bot: Bot, rows: seq<Numbered>, index: map<string, Holding>, stopPct: real)
    returns (found: Option<seq<Adjustment>>)
    requires bot.Valid() && forall t :: t in index ==> index[t].lots > 0 && index[t].ticker == t
    requires forall t :: t in index && !OpenOn(rows, t) ==> !OneOpenOn(bot.positions, t)
    modifies bot
    ensures bot.Valid() && bot.Later() && bot.broker.market.Keys == old(bot.broker.market.Keys)
    ensures bot.requests == old(bot.requests)
    ensures bot.orders == old(bot.orders) && bot.stopRows == old(bot.stopRows)
    ensures bot.obliging ==> bot.broker == old(bot.broker) && found.Some?
    ensures (forall t :: t in index ==> OpenOn(rows, t) || !Recognised(bot.orders, t)) ==>
              bot.positions == old(bot.positions)
    ensures OnlyAdopted(old(bot.positions), bot.positions, index, bot.orders, bot.lotSizes, stopPct)
    ensures found.Some? ==>
              && NoneAboutStops(found.value)
              && (forall t :: t in index && !OpenOn(rows, t) ==>
                    Dealt(bot.positions, bot.orders, index[t], found.value))
              && (forall f :: f in found.value && f.ForeignHolding? ==>
                    f.ticker in index && !OneOpenOn(bot.positions, f.ticker))
    ensures old(Coherent(bot.positions, bot.stopRows)) ==> Coherent(bot.positions, bot.stopRows)
  {
    var unknown := Enumerate(set t | t in index && !OpenOn(rows, t));
    found := RecogniseHoldings(bot, unknown, index, stopPct);
  }

  method ReconcileHoldings(bot: Bot, index: map<string, Holding>, feed: Feed, stopPct: real)
    returns (found: Option<seq<Adjustment>>)
    requires bot.Valid() && forall t :: t in index ==> t != "" && index[t].lots > 0 && index[t].ticker == t
    modifies bot
    ensures bot.Valid() && bot.Later() && bot.broker.market.Keys == old(bot.broker.market.Keys)
    ensures bot.requests == old(bot.requests)
    ensures bot.orders == old(bot.orders)
    ensures bot.obliging ==> bot.broker == old(bot.broker) && found.Some?
    ensures found.Some? ==> Mirrors(bot.positions, index, found.value) && NoneAboutStops(found.value)
    ensures found.Some? ==> Levels(old(bot.View()), bot.View(), LotsOf(index), feed)
                            && Steady(bot.positions, bot.orders, LotsOf(index), feed)
    ensures old(Steady(bot.positions, bot.orders, LotsOf(index), feed)) ==> bot.TablesKept()
    ensures old(Coherent(bot.positions, bot.stopRows)) ==> Coherent(bot.positions, bot.stopRows)
  {
    ghost var v := bot.View();
    var rows := ListOpen(bot);
    SteadyListed(rows, v.positions, v.orders, index, feed);
    var corrections := CorrectRows(bot, rows, LotsOf(index), feed);
    ghost var between := bot.positions;
    NotReopened(rows, LotsOf(index), feed, bot.orders, v.positions, between, corrections);
    var recognised := RecogniseUnknown(bot, rows, index, stopPct);
    if recognised.None? {
      return None;
    }
    CorrectedMirrors(rows, index, feed, bot.orders, bot.lotSizes, stopPct, v.positions, between, bot.positions,
                     corrections,
                     recognised.value);
    CorrectedLevels(v, bot.View(), rows, index, feed, bot.lotSizes, stopPct, between, corrections);
    LevelledIsSteady(v, bot.View(), rows, index, feed, recognised.value);
    found := Some(corrections + recognised.value);
  }

  lemma SteadyListed(rows: seq<Numbered>, positions: map<nat, Position>, orders: map<Id, Order>,
                     index: map<string, Holding>, feed: Feed)
    requires ListsOpen(rows, positions)
    ensures Steady(positions, orders, LotsOf(index), feed) ==>
              && AllLevel(rows, LotsOf(index), feed, orders)
              && (forall t :: t in index ==> OpenOn(rows, t) || !Recognised(orders, t))
  {
    forall t | OneOpenOn(positions, t) ensures OpenOn(rows, t) {
      var pid :| pid in positions && positions[pid].Open() && positions[pid].ticker == t;
      var i :| 0 <= i < |rows| && rows[i] == Numbered(pid, positions[pid]);
    }
  }

  lemma NotReopened(rows: seq<Numbered>, held: map<string, nat>, feed: Feed, orders: map<Id, Order>, before: map<nat,
                    Position>, after: map<nat, Position>, found: seq<Adjustment>)
    requires ListsOpen(rows, before) && ClosedKept(before, after)
    requires AllCorrected(rows, held, feed, orders, after, found)
    ensures forall t :: !OpenOn(rows, t) ==> !OneOpenOn(after, t)
  {
    forall pid | pid in after && after[pid].Open() ensures OpenOn(rows, after[pid].ticker) {
      assert before[pid].Open();
      var i :| 0 <= i < |rows| && rows[i] == Numbered(pid, before[pid]);
    }
  }

  // ------------------------------------------------------------------ stops

  /** A tick size, where the broker answers and the tick is positive. */
  method GetIncrement(bot: Bot, ticker: string) returns (tick: Option<Tick>)
    requires bot.Valid()
    modifies bot
    ensures bot.Valid() && bot.Onward() && bot.TablesKept() && bot.even == old(bot.even)
    ensures bot.requests == old(bot.requests)
    ensures tick.Some? ==> ticker in bot.increments && tick.value == bot.increments[ticker]
    ensures bot.obliging ==> (tick.Some? <==> ticker in bot.increments) && bot.broker == old(bot.broker)
  {
    bot.Exchange();
    var answered: bool := *;
    tick := if ticker in bot.increments && (answered || bot.obliging) then Some(bot.increments[ticker]) else None;
  }

  method PriceIncrements(bot: Bot, tickers: set<string>) returns (ticks: map<string, Tick>)
    requires bot.Valid()
    modifies bot
    ensures bot.Valid() && bot.Onward() && bot.TablesKept() && bot.even == old(bot.even)
    ensures bot.requests == old(bot.requests)
    ensures forall t :: t in ticks ==> t in tickers && t in bot.increments && ticks[t] == bot.increments[t]
    ensures bot.obliging ==> bot.broker == old(bot.broker) && forall t :: t in tickers && t in bot.increments ==>
              t in ticks
  {
    var listed := Enumerate(tickers);
    assert forall j :: 0 <= j < |listed| ==> listed[j] in listed;
    ticks := map[];
    for i := 0 to |listed|
      invariant bot.Valid() && bot.Onward() && bot.TablesKept() && bot.even == old(bot.even)
      invariant bot.requests == old(bot.requests)
      invariant forall t :: t in ticks ==> t in tickers && t in bot.increments && ticks[t] == bot.increments[t]
      invariant bot.obliging ==>
                  bot.broker == old(bot.broker) && forall j :: 0 <= j < i && listed[j] in bot.increments ==>
                    listed[j] in ticks
    {
      var tick := GetIncrement(bot, listed[i]);
      if tick.Some? {
        ticks := ticks[listed[i] := tick.value];
      }
    }
  }

  lemma {:induction false} SameDue(rows: seq<Numbered>, due: Numbered -> seq<Adjustment>,
                                   due': Numbered -> seq<Adjustment>)
    requires forall n :: n in rows ==> due(n) == due'(n)
    ensures ForEach(rows, due) == ForEach(rows, due')
  {
    if rows != [] {
      SameDue(rows[..|rows| - 1], due, due');
    }
  }

  /** Ticks of tickers without a listed stop are never looked at. */
  lemma UnstoppedTicksIrrelevant(rows: seq<Numbered>, stops: seq<LiveStop>, a: map<string, Tick>, b: map<string, Tick>)
    requires forall n, s :: n in rows && s in stops && s.ticker == n.row.ticker ==>
                             (s.ticker in a <==> s.ticker in b) && (s.ticker in a ==> a[s.ticker] == b[s.ticker])
    ensures Findings(rows, stops, a) == Findings(rows, stops, b)
  {
    forall n | n in rows ensures Due(stops, a)(n) == Due(stops, b)(n) {
      var mine := OnTicker(stops, n.row.ticker);
      if mine != [] {
        assert mine[0] in mine;
      }
    }
    SameDue(rows, Due(stops, a), Due(stops, b));
  }

  /** What a classification looked at; the stops, when the log was `at` steps long. */
  datatype Reading = Reading(rows: seq<Numbered>, stops: seq<LiveStop>, increments: map<string, Tick>, at: nat)

  /** The reading is of this very state. */
  ghost predicate Current(seen: Reading, bot: Bot)
    reads bot
  {
    && ListsOpen(seen.rows, bot.positions) && ListsStops(seen.stops, bot.broker.stops)
    && seen.increments == bot.increments
  }

  /** The stops were listed since the log was `from` steps long, and the ticks are the instruments' own. */
  ghost predicate Taken(seen: Reading, bot: Bot, from: nat)
    reads bot
  {
    && from <= seen.at < |bot.trace| && ListsStops(seen.stops, bot.trace[seen.at].broker.stops)
    && (forall t :: t in seen.increments ==> t in bot.increments && seen.increments[t] == bot.increments[t])
  }

  method ClassifyStops(bot: Bot) returns (found: Option<seq<Adjustment>>, ghost seen: Reading)
    requires bot.Valid()
    modifies bot
    ensures bot.Valid() && bot.Onward() && bot.TablesKept() && bot.even == old(bot.even)
    ensures bot.requests == old(bot.requests)
    ensures bot.obliging ==> found.Some? && bot.broker == old(bot.broker)
    ensures found.Some? ==> ListsOpen(seen.rows, bot.positions) && Taken(seen, bot, |old(bot.log)|)
                            && found.value == Findings(seen.rows, seen.stops, seen.increments)
    ensures found.Some? && bot.obliging ==> Current(seen, bot)
  {
    hide Findings, OneOpen;
    var rows := ListOpen(bot);
    var stops := ListStopOrders(bot);
    ghost var at := |bot.log|;
    seen := Reading(rows, [], map[], at);
    if stops.None? {
      return None, seen;
    }
    var ticks := PriceIncrements(bot, set s | s in stops.value && OpenOn(rows, s.ticker) :: s.ticker);
    var adjustments := StopAdjustments(rows, stops.value, ticks);
    found := Some(adjustments);
    if bot.obliging {
      seen := Reading(rows, stops.value, bot.increments, at);
      forall n, s | n in rows && s in stops.value && s.ticker == n.row.ticker
        ensures (s.ticker in ticks <==> s.ticker in bot.increments)
      {
        assert OpenOn(rows, s.ticker);
      }
      UnstoppedTicksIrrelevant(rows, stops.value, ticks, bot.increments);
    } else {
      seen := Reading(rows, stops.value, ticks, at);
    }
  }

  // ------------------------------------------------------------------ the whole of it

  /** `portfolio` is what the broker answers when it is asked for the holdings; `corrections` are the
      findings about them, before those about stops. */
  method Reconcile(bot: Bot, portfolio: Option<Portfolio>, feed: Feed, stopPct: real)
    returns (report: Option<seq<Adjustment>>, ghost corrections: seq<Adjustment>, ghost seen: Reading)
    requires bot.Valid()
    modifies bot
    ensures bot.Valid() && bot.Later() && bot.requests == old(bot.requests) && bot.orders == old(bot.orders)
    ensures bot.broker.market.Keys == old(bot.broker.market.Keys)
    ensures bot.obliging ==> bot.broker == old(bot.broker)
    ensures portfolio.None? ==> report.None? && bot.TablesKept()
    ensures portfolio.Some? && bot.obliging ==> report.Some? && Current(seen, bot)
    ensures report.Some? ==>
              && Mirrors(bot.positions, ByTicker(portfolio.value), corrections) && NoneAboutStops(corrections)
              && report.value == corrections + Findings(seen.rows, seen.stops, seen.increments)
              && ListsOpen(seen.rows, bot.positions) && Taken(seen, bot, |old(bot.log)|)
    ensures report.Some? ==>
              && Levels(old(bot.View()), bot.View(), LotsOf(ByTicker(portfolio.value)), feed)
              && Steady(bot.positions, bot.orders, LotsOf(ByTicker(portfolio.value)), feed)
    ensures report.Some? && old(Steady(bot.positions, bot.orders, LotsOf(ByTicker(portfolio.value)), feed)) ==>
              bot.TablesKept()
    ensures old(Coherent(bot.positions, bot.stopRows)) ==> Coherent(bot.positions, bot.stopRows)
  {
    corrections, seen := [], Reading([], [], map[], 0);
    var reply := GetPortfolio(bot, portfolio);
    if reply.None? {
      return None, corrections, seen;
    }
    var index := IndexByTicker(reply.value);
    var held := ReconcileHoldings(bot, index, feed, stopPct);
    if held.None? {
      return None, corrections, seen;
    }
    corrections := held.value;
    var found, read := ClassifyStops(bot);
    if found.None? {
      return None, corrections, seen;
    }
    return Some(held.value + found.value), corrections, read;
  }
}
