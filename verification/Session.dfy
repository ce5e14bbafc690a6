/** A trading session: the executor's sections in the order the cycle takes them, with the shutdown
    drain's in between, and the lot ledger they keep while at most one order is in flight on a ticker.
 */
module Sessions {
  import opened Collections
  import opened Models
  import opened Protocol
  import opened Bots
  import opened Executor
  import opened Classification
  import opened Reconciliation

  predicate InFlight(orders: map<Id, Order>, k: Id) {
    k in orders && !orders[k].status.Terminal()
  }

  ghost predicate OneInFlight(orders: map<Id, Order>) {
    forall j, k :: InFlight(orders, j) && InFlight(orders, k) && orders[j].ticker == orders[k].ticker ==> j == k
  }

  predicate NoneInFlight(orders: map<Id, Order>, ticker: string) {
    forall k :: k in orders && InFlight(orders, k) ==> orders[k].ticker != ticker
  }

  /** An exit in flight is for the whole open position, which nothing else protects meanwhile. */
  ghost predicate ExitsMatch(orders: map<Id, Order>, positions: map<nat, Position>) {
    forall k, p :: (InFlight(orders, k) && orders[k].side.Sell? && p in positions && positions[p].Open()
                    && positions[p].ticker == orders[k].ticker) ==>
                     positions[p].lots == orders[k].lots && positions[p].protection.Local?
  }

  /** An exit in flight has its position. */
  ghost predicate ExitsOpen(orders: map<Id, Order>, positions: map<nat, Position>) {
    forall k :: InFlight(orders, k) && orders[k].side.Sell? ==> OneOpenOn(positions, orders[k].ticker)
  }

  /** A standing stop row is for its open position's lots. */
  ghost predicate RowsMatch(rows: map<Id, StopRow>, positions: map<nat, Position>) {
    forall k :: (k in rows && rows[k].status.Standing() && rows[k].position in positions
                 && positions[rows[k].position].Open()) ==>
                  rows[k].lots == positions[rows[k].position].lots
  }

  /** The broker's stop is for the lots and the ticker of the standing row that names it. */
  ghost predicate StopsMatch(rows: map<Id, StopRow>, stops: map<nat, BrokerStop>) {
    forall k :: (k in rows && rows[k].status.Standing() && rows[k].sid.Some? && rows[k].sid.value in stops) ==>
                  stops[rows[k].sid.value].lots == rows[k].lots && stops[rows[k].sid.value].ticker == rows[k].ticker
  }

  ghost predicate Matched(w: World) {
    && Coherent(w.positions, w.stopRows) && OneInFlight(w.orders)
    && ExitsMatch(w.orders, w.positions) && ExitsOpen(w.orders, w.positions) && SalesPending(w)
    && RowsMatch(w.stopRows, w.positions) && StopsMatch(w.stopRows, w.broker.stops)
  }

  lemma NothingIsMatched()
    ensures Matched(NOTHING)
  {
  }

  predicate ExitInFlight(orders: map<Id, Order>, ticker: string) {
    exists k :: k in orders && InFlight(orders, k) && orders[k].side.Sell? && orders[k].ticker == ticker
  }

  /** A position no exit in flight is for may come and go. */
  lemma ExitsStayOpen(v: World, w: World)
    requires ExitsOpen(v.orders, v.positions)
    requires forall k :: InFlight(w.orders, k) && w.orders[k].side.Sell? ==>
               || (InFlight(v.orders, k) && v.orders[k].side.Sell? && v.orders[k].ticker == w.orders[k].ticker)
               || OneOpenOn(w.positions, w.orders[k].ticker)
    requires forall p :: p in v.positions && v.positions[p].Open() && ExitInFlight(w.orders, v.positions[p].ticker) ==>
               p in w.positions && w.positions[p].Open() && w.positions[p].ticker == v.positions[p].ticker
    ensures ExitsOpen(w.orders, w.positions)
  {
    forall k | InFlight(w.orders, k) && w.orders[k].side.Sell? ensures OneOpenOn(w.positions, w.orders[k].ticker) {
      var t := w.orders[k].ticker;
      assert ExitInFlight(w.orders, t);
      if InFlight(v.orders, k) && v.orders[k].side.Sell? && v.orders[k].ticker == t {
        var p :| p in v.positions && v.positions[p].Open() && v.positions[p].ticker == t;
        assert p in w.positions;
      }
    }
  }

  /** What every world after `v` owes to the table invariants and to persistence. */
  ghost predicate Follows(v: World, w: World) {
    && RowsLinked(v.stopRows, v.positions) && RowsNamed(v.stopRows, v.broker.stops)
    && StopsWritten(w.stopRows, w.broker.stops) && RowsNamed(w.stopRows, w.broker.stops)
    && StopsPersist(v.broker, w.broker) && OneOpen(v.positions) && OneOpen(w.positions)
  }

  /** Every row that is new or changed accounts for what it sold. */
  ghost predicate NewSalesPending(v: World, w: World) {
    forall k :: k in w.orders && !(k in v.orders && w.orders[k] == v.orders[k]) ==> PendingSale(w, k)
  }

  /** A row that did not change was unresolved, or its order had finished and sold nothing unbooked. */
  lemma SalesStillPending(v: World, w: World)
    requires SalesPending(v) && SettledIsDone(v.orders, v.broker.market) && OrdersWritten(w.orders, w.broker.market)
    requires UnpostedPersist(v, w) && MarketPersists(v.broker, w.broker) && NewSalesPending(v, w)
    ensures SalesPending(w)
  {
    forall k | k in w.broker.market && w.orders[k].status.Terminal() ensures !SoldUnbooked(w.broker.market[k]) {
      if k in v.orders && w.orders[k] == v.orders[k] {
        assert k in v.broker.market && Becomes(v.broker.market[k], w.broker.market[k]);
      } else {
        assert PendingSale(w, k);
      }
    }
  }

  /** So sales stay pending across any stretch of a run whose new rows account for theirs. */
  twostate lemma LaterSalesPending(bot: Bot)
    requires old(bot.Valid()) && bot.Valid() && bot.Later() && old(SalesPending(bot.View()))
    requires NewSalesPending(old(bot.View()), bot.View())
    ensures SalesPending(bot.View())
  {
    bot.LaterPersists();
    assert Inv(bot.trace[|bot.log|]) && Inv(old(bot.trace)[|old(bot.log)|]);
    SalesStillPending(old(bot.View()), bot.View());
  }

  twostate lemma KeptMatched(bot: Bot)
    requires old(bot.Valid()) && bot.Valid() && bot.Later() && bot.TablesKept() && old(Matched(bot.View()))
    ensures Matched(bot.View())
  {
    LaterSalesPending(bot);
    LaterFollows(bot);
    StopsStillMatch(old(bot.View()), bot.View());
  }

  lemma BuysArePending(bot: Bot, k: Id)
    requires bot.Valid() && k in bot.orders && bot.orders[k].side.Buy?
    ensures PendingSale(bot.View(), k)
  {
    assert Inv(bot.trace[|bot.log|]);
  }

  /** Rows under the broker's own identifiers were not touched, except to end them. */
  ghost predicate TheirsKept(rows: map<Id, StopRow>, rows': map<Id, StopRow>) {
    forall k :: k in rows' && k.Theirs? && rows'[k].status.Standing() ==> k in rows && rows'[k] == rows[k]
  }

  lemma StopsStillMatch(v: World, w: World)
    requires Follows(v, w) && StopsMatch(v.stopRows, v.broker.stops) && TheirsKept(v.stopRows, w.stopRows)
    ensures StopsMatch(w.stopRows, w.broker.stops)
  {
  }

  twostate lemma LaterFollows(bot: Bot)
    requires old(bot.Valid()) && bot.Valid() && bot.Later()
    ensures Follows(old(bot.View()), bot.View()) && OrdersPersist(old(bot.View()), bot.View())
  {
    bot.LaterPersists();
    assert Inv(bot.trace[|bot.log|]) && Inv(old(bot.trace)[|old(bot.log)|]);
  }

  // ------------------------------------------------------------------ contested submissions

  /** An order is written down on a ticker where one is in flight already, or an exit where nothing is open. */
  ghost predicate Contested(w: World, a: Action) {
    && a.RecordSubmitting?
    && (!NoneInFlight(w.orders, a.row.ticker) || (a.row.side.Sell? && !OneOpenOn(w.positions, a.row.ticker)))
  }

  ghost predicate Uncontested(trace: seq<World>, log: seq<Action>, from: nat, to: nat)
    requires to <= |log| < |trace|
  {
    forall i {:trigger log[i]} :: from <= i < to ==> !Contested(trace[i], log[i])
  }

  /** A key that appeared was recorded on the way. */
  lemma {:induction false} RecordedBetween(trace: seq<World>, log: seq<Action>, a: nat, b: nat, k: Id) returns (i: nat)
    requires IsRun(trace, log) && a <= b <= |log| && k !in trace[a].orders && k in trace[b].orders
    ensures a <= i < b && log[i].RecordSubmitting? && log[i].key == k && SameRequest(log[i].row, trace[b].orders[k])
  {
    assert IsStep(trace[b - 1], log[b - 1], trace[b]);
    if k in trace[b - 1].orders {
      i := RecordedBetween(trace, log, a, b - 1, k);
      RunPersists(trace, log, b - 1, b);
    } else {
      i := b - 1;
      KeyRecorded(trace[b - 1], log[b - 1], k);
    }
  }

  lemma KeyRecorded(w: World, a: Action, k: Id)
    requires Enabled(w, a) && k !in w.orders && k in Apply(w, a).orders
    ensures a.RecordSubmitting? && a.key == k && Apply(w, a).orders[k] == a.row
  {
    if !TouchesOrders(a) {
      StepTouches(w, a);
    }
  }

  /** What else was in flight when the only new order was recorded was in flight before and after. */
  lemma SameInFlight(u: World, v: World, w: World, k: Id, ticker: string)
    requires OrdersPersist(u, v) && OrdersPersist(v, w)
    requires k !in u.orders && k in w.orders && w.orders == u.orders[k := w.orders[k]]
    ensures NoneInFlight(v.orders, ticker) ==> NoneInFlight(u.orders, ticker)
  {
    forall j | j in u.orders && InFlight(u.orders, j) && u.orders[j].ticker == ticker
      ensures InFlight(v.orders, j) && v.orders[j].ticker == ticker
    {
      assert w.orders[j] == u.orders[j];
    }
  }

  /** An uncontested stretch that recorded one order found none in flight on its ticker, and for an exit
      something open there. */
  lemma UncontestedFound(trace: seq<World>, log: seq<Action>, a: nat, b: nat, k: Id)
    requires IsRun(trace, log) && a <= b <= |log| && Uncontested(trace, log, a, b)
    requires k !in trace[a].orders && k in trace[b].orders
    requires trace[b].orders == trace[a].orders[k := trace[b].orders[k]]
    ensures NoneInFlight(trace[a].orders, trace[b].orders[k].ticker)
    ensures trace[b].orders[k].side.Sell? && trace[b].positions.Keys == trace[a].positions.Keys ==>
              OneOpenOn(trace[a].positions, trace[b].orders[k].ticker)
  {
    var i := RecordedBetween(trace, log, a, b, k);
    RunPersists(trace, log, a, i);
    RunPersists(trace, log, i, b);
    assert !Contested(trace[i], log[i]);
    SameInFlight(trace[a], trace[i], trace[b], k, trace[b].orders[k].ticker);
    if trace[b].orders[k].side.Sell? && trace[b].positions.Keys == trace[a].positions.Keys {
      OpenBefore(trace[a], trace[i], trace[b], trace[b].orders[k].ticker);
    }
  }

  lemma OpenBefore(u: World, v: World, w: World, ticker: string)
    requires PositionsPersist(u, v) && PositionsPersist(v, w) && w.positions.Keys == u.positions.Keys
    requires OneOpenOn(v.positions, ticker)
    ensures OneOpenOn(u.positions, ticker)
  {
    var p :| p in v.positions && v.positions[p].Open() && v.positions[p].ticker == ticker;
    assert p in w.positions && p in u.positions;
  }

  // ------------------------------------------------------------------ entries

  lemma EntryOrders(v: World, w: World, ticker: string)
    requires OneInFlight(v.orders) && NoneInFlight(v.orders, ticker) && AddsOrder(v.orders, w.orders, ticker, Buy)
    ensures OneInFlight(w.orders)
    ensures forall k :: InFlight(w.orders, k) && w.orders[k].side.Sell? ==>
                          InFlight(v.orders, k) && w.orders[k] == v.orders[k] && w.orders[k].ticker != ticker
  {
  }

  lemma OpenedRows(v: World, w: World, pid: nat, row: Position)
    requires RowsLinked(v.stopRows, v.positions) && RowsMatch(v.stopRows, v.positions)
    requires OpenedFrom(v.positions, w.positions, v.stopRows, w.stopRows, pid, row)
    ensures RowsMatch(w.stopRows, w.positions) && TheirsKept(v.stopRows, w.stopRows)
  {
  }

  /** A new position where no order is in flight. */
  lemma OpenedMatched(v: World, w: World, pid: nat, row: Position)
    requires Matched(v) && Follows(v, w) && Coherent(w.positions, w.stopRows) && row.Open() && SalesPending(w)
    requires OpenedFrom(v.positions, w.positions, v.stopRows, w.stopRows, pid, row) && OneInFlight(w.orders)
    requires forall k :: InFlight(w.orders, k) && w.orders[k].side.Sell? ==>
                           InFlight(v.orders, k) && w.orders[k] == v.orders[k] && w.orders[k].ticker != row.ticker
    ensures Matched(w)
  {
    OpenedRows(v, w, pid, row);
    OpenedExits(v, w, pid, row);
    StopsStillMatch(v, w);
  }

  lemma OpenedExits(v: World, w: World, pid: nat, row: Position)
    requires ExitsMatch(v.orders, v.positions) && ExitsOpen(v.orders, v.positions)
    requires OpenedFrom(v.positions, w.positions, v.stopRows, w.stopRows, pid, row)
    requires forall k :: InFlight(w.orders, k) && w.orders[k].side.Sell? ==>
                           InFlight(v.orders, k) && w.orders[k] == v.orders[k] && w.orders[k].ticker != row.ticker
    ensures ExitsMatch(w.orders, w.positions) && ExitsOpen(w.orders, w.positions)
  {
    ExitsStayOpen(v, w);
  }

  /** How an entry ended: a new position from a new FILLED order, or no position at all. */
  ghost predicate EntryTaken(v: World, w: World, r: Outcome, ticker: string, lotSize: nat, stopPct: real) {
    && AddsOrder(v.orders, w.orders, ticker, Buy)
    && (r.Raised? ==> w.positions == v.positions && w.stopRows == v.stopRows)
    && (r.Fine? ==>
          && r.pid in w.positions
          && var key := w.positions[r.pid].openKey;
          && key !in v.orders && key in w.orders && w.orders[key].ticker == ticker && w.orders[key].price.Some?
          && OpenedFrom(v.positions, w.positions, v.stopRows, w.stopRows, r.pid,
                        OpenedPosition(w.orders[key], key, lotSize, StopPrice(w.orders[key].price.value, stopPct))))
  }

  lemma EntryMatched(v: World, w: World, r: Outcome, ticker: string, lotSize: nat, stopPct: real)
    requires Matched(v) && Follows(v, w) && Coherent(w.positions, w.stopRows) && SalesPending(w)
    requires EntryTaken(v, w, r, ticker, lotSize, stopPct) && (w.orders == v.orders || NoneInFlight(v.orders, ticker))
    ensures Matched(w)
  {
    if w.orders != v.orders {
      EntryOrders(v, w, ticker);
    }
    if r.Fine? {
      var key := w.positions[r.pid].openKey;
      OpenedMatched(v, w, r.pid,
                    OpenedPosition(w.orders[key], key, lotSize, StopPrice(w.orders[key].price.value, stopPct)));
    } else {
      ExitsStayOpen(v, w);
      StopsStillMatch(v, w);
    }
  }

  /** An approved signal: what to buy, how many lots, the instrument's lot size, and what the broker will answer
      when asked how many lots the account can pay for. */
  datatype Approved = Approved(ticker: string, lots: nat, lotSize: nat, allowed: Option<nat>)

  /** How an entry went, on its own section's evidence: a new FILLED order, for what the account could pay for,
      and the position it opened, or what its failure leaves on record. */
  ghost predicate EntryWent(v: World, w: World, signal: Approved, r: Outcome) {
    match r
    case Fine(pid) =>
      && pid !in v.positions && pid in w.positions && w.positions[pid].Open()
      && w.positions[pid].ticker == signal.ticker && w.positions[pid].lotSize == signal.lotSize
      && var key := w.positions[pid].openKey;
      && key !in v.orders && key in w.orders && w.orders[key].status.Filled?
      && w.positions[pid].lots == w.orders[key].filled
      && signal.allowed.Some? && w.orders[key].lots == LeastOf(signal.allowed.value, signal.lots)
    case Raised(fault) =>
      && w.positions == v.positions
      && EntryFailure(v.orders, w.orders, signal.ticker, OneOpenOn(v.positions, signal.ticker), fault)
  }

  /** The whole entry. `alone`: no order was submitted, or none was in flight on the ticker before. */
  method TryEntry(bot: Bot, signal: Approved, stopPct: real)
    returns (r: Outcome, alone: bool)
    requires bot.Valid()
    modifies bot
    ensures bot.Valid() && bot.Later() && bot.even == old(bot.even)
    ensures alone <==> bot.orders == old(bot.orders) || NoneInFlight(old(bot.orders), signal.ticker)
    ensures Uncontested(bot.trace, bot.log, |old(bot.log)|, |bot.log|) ==> alone
    ensures alone && old(Matched(bot.View())) ==> Matched(bot.View())
    ensures forall q :: q in old(bot.positions) ==> q in bot.positions && bot.positions[q] == old(bot.positions)[q]
    ensures EntryWent(old(bot.View()), bot.View(), signal, r)
  {
    ghost var v, n := bot.View(), |bot.log|;
    var before := bot.orders;
    r := OpenPosition(bot, signal.ticker, signal.lots, signal.allowed, signal.lotSize, stopPct);
    alone := bot.orders == before || NoneInFlight(before, signal.ticker);
    EntryUncontested(bot, n, signal.ticker);
    LaterFollows(bot);
    if alone && Matched(v) {
      EntrySalesPending(bot, v, signal.ticker);
      LaterSalesPending(bot);
      EntryMatched(v, bot.View(), r, signal.ticker, signal.lotSize, stopPct);
    }
  }

  lemma EntryUncontested(bot: Bot, n: nat, ticker: string)
    requires bot.Valid() && n <= |bot.log| && AddsOrder(bot.trace[n].orders, bot.orders, ticker, Buy)
    ensures Uncontested(bot.trace, bot.log, n, |bot.log|) ==>
              bot.orders == bot.trace[n].orders || NoneInFlight(bot.trace[n].orders, ticker)
  {
    var v := bot.trace[n];
    if Uncontested(bot.trace, bot.log, n, |bot.log|) && bot.orders != v.orders {
      var k :| k !in v.orders && k in bot.orders && bot.orders[k].ticker == ticker
        && bot.orders == v.orders[k := bot.orders[k]];
      UncontestedFound(bot.trace, bot.log, n, |bot.log|, k);
    }
  }

  lemma EntrySalesPending(bot: Bot, v: World, ticker: string)
    requires bot.Valid() && AddsOrder(v.orders, bot.orders, ticker, Buy)
    ensures NewSalesPending(v, bot.View())
  {
    forall k | k in bot.orders && !(k in v.orders && bot.orders[k] == v.orders[k]) ensures PendingSale(bot.View(), k) {
      BuysArePending(bot, k);
    }
  }

  // ------------------------------------------------------------------ exits

  lemma ExitOrders(v: World, w: World, p: Position)
    requires OneInFlight(v.orders) && NoneInFlight(v.orders, p.ticker) && AddsExit(v.orders, w.orders, p)
    ensures OneInFlight(w.orders)
    ensures forall k :: InFlight(w.orders, k) ==>
              || (InFlight(v.orders, k) && w.orders[k] == v.orders[k] && w.orders[k].ticker != p.ticker)
              || (w.orders[k].ticker == p.ticker && w.orders[k].lots == p.lots)
  {
  }

  /** A position whose protection column, and perhaps its exit, changed while an exit was asked for. */
  ghost predicate ExitTaken(v: World, w: World, pid: nat) {
    && pid in v.positions && pid in w.positions && w.positions == v.positions[pid := w.positions[pid]]
    && (w.positions[pid].Open() ==>
          && w.positions[pid].protection in {v.positions[pid].protection, Local}
          && w.positions[pid] == v.positions[pid].(protection := w.positions[pid].protection))
    && (w.stopRows == v.stopRows || w.stopRows == EndedFor(v.stopRows, pid, Withdrawn))
    && (v.positions[pid].Open() && !w.positions[pid].Open() ==> NoneInFlight(w.orders, v.positions[pid].ticker))
    && (w.positions[pid].Open() ==> v.positions[pid].Open())
  }

  lemma ExitRows(v: World, w: World, pid: nat)
    requires RowsMatch(v.stopRows, v.positions) && ExitTaken(v, w, pid)
    ensures RowsMatch(w.stopRows, w.positions) && TheirsKept(v.stopRows, w.stopRows)
  {
  }

  lemma ExitPositions(v: World, w: World, pid: nat)
    requires ExitsMatch(v.orders, v.positions) && ExitsOpen(v.orders, v.positions) && ExitTaken(v, w, pid)
    requires w.orders == v.orders || (OneInFlight(v.orders) && NoneInFlight(v.orders, v.positions[pid].ticker)
             && AddsExit(v.orders, w.orders, v.positions[pid]) && v.positions[pid].Open()
             && w.positions[pid].protection.Local?)
    requires OneOpen(v.positions)
    ensures ExitsMatch(w.orders, w.positions) && ExitsOpen(w.orders, w.positions)
  {
    if w.orders != v.orders {
      ExitOrders(v, w, v.positions[pid]);
    }
    assert w.positions[pid].Open() ==> OneOpenOn(w.positions, v.positions[pid].ticker);
    ExitsStayOpen(v, w);
  }

  lemma ExitMatched(v: World, w: World, pid: nat)
    requires Matched(v) && Follows(v, w) && Coherent(w.positions, w.stopRows) && ExitTaken(v, w, pid)
    requires w.orders == v.orders || (AddsExit(v.orders, w.orders, v.positions[pid])
             && NoneInFlight(v.orders, v.positions[pid].ticker) && v.positions[pid].Open()
             && w.positions[pid].protection.Local?)
    requires SalesPending(w)
    ensures Matched(w)
  {
    if w.orders != v.orders {
      ExitOrders(v, w, v.positions[pid]);
    }
    ExitPositions(v, w, pid);
    ExitRows(v, w, pid);
    StopsStillMatch(v, w);
  }

  /** A section about one position leaves the others, and submits on its ticker only. */
  ghost predicate OnlyAbout(v: World, w: World, pid: nat) {
    && pid in v.positions && w.positions.Keys == v.positions.Keys && w.positions[pid].ticker == v.positions[pid].ticker
    && (forall q :: q != pid && q in v.positions ==> w.positions[q] == v.positions[q])
    && (forall k :: InFlight(w.orders, k) ==> InFlight(v.orders, k) || w.orders[k].ticker == v.positions[pid].ticker)
  }

  /** How an exit went, on its own section's evidence: the position closed and one new sell for it, or what
      its failure leaves on record. */
  ghost predicate ExitWent(v: World, w: World, pid: nat, trigger: Trigger, r: Outcome) {
    && pid in v.positions && pid in w.positions
    && match r
       case Fine(sold) =>
         sold == pid && v.positions[pid].Open() && !w.positions[pid].Open()
         && AddsExit(v.orders, w.orders, v.positions[pid])
       case Raised(fault) =>
         OnlyProtection(v.positions, w.positions, pid)
         && ExitFailure(v.orders, w.orders, v.positions[pid], trigger, fault)
  }

  /** The exit itself, and what it can change. */
  method Exit(bot: Bot, pid: nat, trigger: Trigger) returns (r: Outcome)
    requires bot.Valid() && pid in bot.positions
    modifies bot
    ensures bot.Valid() && bot.Later() && bot.even == old(bot.even)
    ensures OnlyAbout(old(bot.View()), bot.View(), pid) && ExitWent(old(bot.View()), bot.View(), pid, trigger, r)
    ensures old(bot.positions)[pid].Open() ==> NewSalesPending(old(bot.View()), bot.View())
    ensures old(Coherent(bot.positions, bot.stopRows)) ==> Coherent(bot.positions, bot.stopRows)
    ensures old(NoneInFlight(bot.orders, bot.positions[pid].ticker)) || bot.orders == old(bot.orders) ==>
              ExitTaken(old(bot.View()), bot.View(), pid)
    ensures bot.orders == old(bot.orders)
            || (AddsExit(old(bot.orders), bot.orders, old(bot.positions)[pid]) && bot.positions[pid].protection.Local?)
  {
    hide Coherent;
    r := ClosePosition(bot, pid, trigger);
  }

  /** The whole exit. `alone`: no order was submitted, or none was in flight on the ticker before and the
      position was still open; the program does not look again. */
  method TryExit(bot: Bot, pid: nat, trigger: Trigger) returns (r: Outcome, alone: bool)
    requires bot.Valid() && pid in bot.positions
    modifies bot
    ensures bot.Valid() && bot.Later() && bot.even == old(bot.even)
    ensures OnlyAbout(old(bot.View()), bot.View(), pid) && ExitWent(old(bot.View()), bot.View(), pid, trigger, r)
    ensures alone <==> bot.orders == old(bot.orders)
                       || (NoneInFlight(old(bot.orders), old(bot.positions)[pid].ticker)
                           && old(bot.positions)[pid].Open())
    ensures (Uncontested(bot.trace, bot.log, |old(bot.log)|, |bot.log|)
             && (old(bot.positions)[pid].Open()
                 || !OneOpenOn(old(bot.positions), old(bot.positions)[pid].ticker))) ==> alone
    ensures alone && old(Matched(bot.View())) ==> Matched(bot.View())
  {
    hide ExitWent, ExitTaken, Uncontested, NewSalesPending;
    ghost var v, n := bot.View(), |bot.log|;
    var before, was := bot.orders, bot.positions[pid];
    r := Exit(bot, pid, trigger);
    alone := bot.orders == before || (NoneInFlight(before, was.ticker) && was.Open());
    ExitUncontested(bot, n, was);
    LaterFollows(bot);
    if alone && Matched(v) {
      NothingNew(v, bot.View());
      LaterSalesPending(bot);
      ExitMatched(v, bot.View(), pid);
    }
  }

  lemma NothingNew(v: World, w: World)
    ensures w.orders == v.orders ==> NewSalesPending(v, w)
  {
  }

  lemma ExitUncontested(bot: Bot, n: nat, was: Position)
    requires bot.Valid() && n <= |bot.log| && bot.positions.Keys == bot.trace[n].positions.Keys
    requires bot.orders == bot.trace[n].orders || AddsExit(bot.trace[n].orders, bot.orders, was)
    ensures Uncontested(bot.trace, bot.log, n, |bot.log|) ==>
              || bot.orders == bot.trace[n].orders
              || (NoneInFlight(bot.trace[n].orders, was.ticker) && OneOpenOn(bot.trace[n].positions, was.ticker))
  {
    var v := bot.trace[n];
    if Uncontested(bot.trace, bot.log, n, |bot.log|) && bot.orders != v.orders {
      var k :| k !in v.orders && k in bot.orders && bot.orders[k].ticker == was.ticker && bot.orders[k].side.Sell?
               && bot.orders == v.orders[k := bot.orders[k]];
      UncontestedFound(bot.trace, bot.log, n, |bot.log|, k);
    }
  }

  // ------------------------------------------------------------------ recovery

  method ListUnresolved(bot: Bot) returns (pending: seq<(Id, Order)>)
    ensures forall i :: 0 <= i < |pending| ==>
              InFlight(bot.orders, pending[i].0) && pending[i].1 == bot.orders[pending[i].0]
    ensures forall i, j :: 0 <= i < j < |pending| ==> pending[i].0 != pending[j].0
    ensures forall k :: InFlight(bot.orders, k) ==> (k, bot.orders[k]) in pending
  {
    var orders := bot.orders;
    var keys := Enumerate(set k | k in orders && !orders[k].status.Terminal());
    assert forall i :: 0 <= i < |keys| ==> keys[i] in keys;
    pending := seq(|keys|, i requires 0 <= i < |keys| && keys[i] in orders => (keys[i], orders[keys[i]]));
    forall k | InFlight(orders, k) ensures (k, orders[k]) in pending {
      assert k in keys;
      var i :| 0 <= i < |keys| && keys[i] == k;
      assert pending[i] in pending;
    }
  }

  lemma SettledOrders(v: World, w: World, key: Id)
    requires OneInFlight(v.orders) && InFlight(v.orders, key) && OrdersPersist(v, w)
    requires key in w.orders && w.orders == v.orders[key := w.orders[key]]
    ensures OneInFlight(w.orders)
    ensures forall k :: InFlight(w.orders, k) ==> InFlight(v.orders, k) && SameRequest(v.orders[k], w.orders[k])
    ensures w.orders[key].status.Terminal() ==> NoneInFlight(w.orders, v.orders[key].ticker)
  {
  }

  lemma UnappliedMatched(v: World, w: World, key: Id, pid: nat, stopPct: real)
    requires Matched(v) && Follows(v, w) && Coherent(w.positions, w.stopRows) && InFlight(v.orders, key)
    requires OrdersPersist(v, w)
    requires key in w.orders && w.orders == v.orders[key := w.orders[key]] && w.orders[key].status.Terminal()
    requires Moved(v, w, key, pid, stopPct) && !Applied(v, w, key, pid, stopPct)
    requires SalesPending(w)
    ensures Matched(w)
  {
    SettledOrders(v, w, key);
    assert v.positions[pid].protection.Local?;
    assert Owned(v.positions[pid], pid, v.stopRows);
    ExitsStayOpen(v, w);
    StopsStillMatch(v, w);
  }

  lemma BoughtMatched(v: World, w: World, key: Id, pid: nat, stopPct: real)
    requires Matched(v) && Follows(v, w) && Coherent(w.positions, w.stopRows) && InFlight(v.orders, key)
    requires OrdersPersist(v, w)
    requires key in w.orders && w.orders == v.orders[key := w.orders[key]] && w.orders[key].status.Terminal()
    requires Moved(v, w, key, pid, stopPct) && Applied(v, w, key, pid, stopPct) && w.orders[key].side.Buy?
    requires SalesPending(w)
    ensures Matched(w)
  {
    SettledOrders(v, w, key);
    OpenedMatched(v, w, pid,
                  OpenedPosition(w.orders[key], key, w.positions[pid].lotSize,
                                 StopPrice(w.orders[key].price.value, stopPct)));
  }

  /** Stop rows that ended, and no other change. */
  ghost predicate OnlyEnded(before: map<Id, StopRow>, after: map<Id, StopRow>) {
    after.Keys == before.Keys && forall k :: k in after ==> after[k] == before[k] || !after[k].status.Standing()
  }

  ghost predicate OthersInFlight(v: World, w: World, ticker: string) {
    forall k :: InFlight(w.orders, k) ==> InFlight(v.orders, k) && SameRequest(v.orders[k], w.orders[k])
                                          && (w.orders[k].side.Sell? ==> w.orders[k].ticker != ticker)
  }

  lemma ClosedExits(v: World, w: World, pid: nat)
    requires ExitsMatch(v.orders, v.positions) && ExitsOpen(v.orders, v.positions)
    requires pid in v.positions && pid in w.positions && w.positions == v.positions[pid := w.positions[pid]]
    requires !w.positions[pid].Open()
    requires OthersInFlight(v, w, v.positions[pid].ticker)
    ensures ExitsMatch(w.orders, w.positions) && ExitsOpen(w.orders, w.positions)
  {
    ExitsStayOpen(v, w);
  }

  lemma ClosedRows(v: World, w: World, pid: nat)
    requires RowsMatch(v.stopRows, v.positions) && OnlyEnded(v.stopRows, w.stopRows)
    requires pid in v.positions && pid in w.positions && w.positions == v.positions[pid := w.positions[pid]]
    requires !w.positions[pid].Open()
    ensures RowsMatch(w.stopRows, w.positions) && TheirsKept(v.stopRows, w.stopRows)
  {
  }

  /** A position that closed, with its stop rows ended and no exit in flight for it. */
  lemma ClosedMatched(v: World, w: World, pid: nat)
    requires Matched(v) && Follows(v, w) && Coherent(w.positions, w.stopRows) && SalesPending(w)
    requires OneInFlight(w.orders)
    requires pid in v.positions && pid in w.positions && w.positions == v.positions[pid := w.positions[pid]]
    requires !w.positions[pid].Open()
    requires OnlyEnded(v.stopRows, w.stopRows) && OthersInFlight(v, w, v.positions[pid].ticker)
    ensures Matched(w)
  {
    ClosedExits(v, w, pid);
    ClosedRows(v, w, pid);
    StopsStillMatch(v, w);
  }

  lemma SoldMatched(v: World, w: World, key: Id, pid: nat, stopPct: real)
    requires Matched(v) && Follows(v, w) && Coherent(w.positions, w.stopRows) && InFlight(v.orders, key)
    requires OrdersPersist(v, w)
    requires key in w.orders && w.orders == v.orders[key := w.orders[key]] && w.orders[key].status.Terminal()
    requires Applied(v, w, key, pid, stopPct) && w.orders[key].side.Sell?
    requires SalesPending(w)
    ensures Matched(w)
  {
    SettledOrders(v, w, key);
    ClosedMatched(v, w, pid);
  }

  lemma MovedMatched(v: World, w: World, key: Id, pid: nat, stopPct: real)
    requires Matched(v) && Follows(v, w) && Coherent(w.positions, w.stopRows) && InFlight(v.orders, key)
    requires OrdersPersist(v, w)
    requires key in w.orders && w.orders == v.orders[key := w.orders[key]] && w.orders[key].status.Terminal()
    requires Moved(v, w, key, pid, stopPct)
    requires SalesPending(w)
    ensures Matched(w)
  {
    if !Applied(v, w, key, pid, stopPct) {
      UnappliedMatched(v, w, key, pid, stopPct);
    } else if w.orders[key].side.Buy? {
      BoughtMatched(v, w, key, pid, stopPct);
    } else {
      SoldMatched(v, w, key, pid, stopPct);
    }
  }

  /** An exit that sold out an open position sold exactly its lots. */
  lemma SoldItsLots(v: World, w: World, key: Id, pid: nat, stopPct: real)
    requires Matched(v) && InFlight(v.orders, key) && OrdersPersist(v, w) && Moved(v, w, key, pid, stopPct)
    requires ClosedBy(v.positions, w.positions, Some(pid)) && SoldOut(w.orders[key], v.positions[pid])
    ensures v.positions[pid].lots == w.orders[key].filled
  {
  }

  /** Nothing is open on the ticker and nothing is on its way. */
  ghost predicate Spent(w: World, ticker: string) {
    !OneOpenOn(w.positions, ticker) && NoneInFlight(w.orders, ticker)
  }

  /** A position that closes leaves its ticker spent, and a spent ticker stays so. */
  ghost predicate NoneReplaced(v: World, w: World) {
    forall p :: p in v.positions && (v.positions[p].Open() || Spent(v, v.positions[p].ticker)) ==>
      && p in w.positions && w.positions[p].ticker == v.positions[p].ticker
      && (w.positions[p].Open() || Spent(w, v.positions[p].ticker))
  }

  /** Stop rows stay as they are, but for those of positions that are new. */
  ghost predicate RowsGrow(v: World, w: World) {
    && (forall k :: k in v.stopRows ==> k in w.stopRows && w.stopRows[k] == v.stopRows[k])
    && (forall k :: k in w.stopRows && k !in v.stopRows ==> w.stopRows[k].position !in v.positions)
  }

  /** What resolving orders leaves alone: no new order, nothing in flight again, and every position the
      exchange protects. */
  ghost predicate OnlyResolved(v: World, w: World) {
    && (forall k :: k in w.orders ==> k in v.orders) && (forall k :: InFlight(w.orders, k) ==> InFlight(v.orders, k))
    && v.positions.Keys <= w.positions.Keys
    && (forall p :: p in v.positions && v.positions[p].protection.Exchange? ==> w.positions[p] == v.positions[p])
    && NoneReplaced(v, w) && RowsGrow(v, w)
  }

  lemma ResolvedInTurn(u: World, v: World, w: World)
    requires OnlyResolved(u, v) && OnlyResolved(v, w)
    ensures OnlyResolved(u, w)
  {
    forall p | p in u.positions && (u.positions[p].Open() || Spent(u, u.positions[p].ticker))
      ensures p in w.positions && w.positions[p].ticker == u.positions[p].ticker
              && (w.positions[p].Open() || Spent(w, u.positions[p].ticker))
    {
      assert p in v.positions && (v.positions[p].Open() || Spent(v, v.positions[p].ticker));
    }
  }

  /** A ticker with nothing open stays spent when what was in flight elsewhere settles. */
  lemma SpentStays(v: World, w: World, ticker: string)
    requires Spent(v, ticker) && OrdersPersist(v, w) && (forall k :: InFlight(w.orders, k) ==> InFlight(v.orders, k))
    requires forall p :: p in w.positions && w.positions[p].Open() && w.positions[p].ticker == ticker ==>
                           p in v.positions && v.positions[p].Open() && v.positions[p].ticker == ticker
    ensures Spent(w, ticker)
  {
  }

  lemma BoughtLeaves(v: World, w: World, key: Id, pid: nat, stopPct: real)
    requires InFlight(v.orders, key) && OrdersPersist(v, w) && Applied(v, w, key, pid, stopPct)
    requires w.orders[key].side.Buy?
    requires key in w.orders && w.orders == v.orders[key := w.orders[key]] && w.orders[key].status.Terminal()
    ensures OnlyResolved(v, w)
  {
    forall p | p in v.positions && !v.positions[p].Open() && Spent(v, v.positions[p].ticker)
      ensures Spent(w, v.positions[p].ticker)
    {
      SpentStays(v, w, v.positions[p].ticker);
    }
  }

  lemma SoldLeaves(v: World, w: World, key: Id, pid: nat, stopPct: real)
    requires Matched(v) && OneOpen(v.positions) && InFlight(v.orders, key) && OrdersPersist(v, w)
    requires Applied(v, w, key, pid, stopPct) && w.orders[key].side.Sell?
    requires key in w.orders && w.orders == v.orders[key := w.orders[key]] && w.orders[key].status.Terminal()
    ensures OnlyResolved(v, w)
  {
    SettledOrders(v, w, key);
    NoneStanding(v, pid);
    forall p | p in v.positions && !w.positions[p].Open() && (v.positions[p].Open() || Spent(v, v.positions[p].ticker))
      ensures Spent(w, v.positions[p].ticker)
    {
      if p != pid {
        SpentStays(v, w, v.positions[p].ticker);
      }
    }
  }

  /** An exit in flight is for a LOCAL position, so there is no stop row to end. */
  lemma NoneStanding(v: World, pid: nat)
    requires Matched(v) && pid in v.positions && v.positions[pid].Open()
    requires exists k ::
               InFlight(v.orders, k) && v.orders[k].side.Sell? && v.orders[k].ticker == v.positions[pid].ticker
    ensures v.positions[pid].protection.Local? && EndedFor(v.stopRows, pid, Withdrawn) == v.stopRows
  {
    assert Owned(v.positions[pid], pid, v.stopRows);
    EndedFacts(v.stopRows, pid, Withdrawn);
  }

  lemma UnclosedLeaves(v: World, w: World)
    requires OrdersPersist(v, w) && (forall k :: k in w.orders ==> k in v.orders) && w.stopRows == v.stopRows
    requires w.positions.Keys == v.positions.Keys
    requires forall p :: p in v.positions ==>
               || w.positions[p] == v.positions[p]
               || (v.positions[p].protection.Local? && w.positions[p] == v.positions[p].(lots := w.positions[p].lots))
    ensures OnlyResolved(v, w)
  {
    forall p | p in v.positions && !v.positions[p].Open() && Spent(v, v.positions[p].ticker)
      ensures Spent(w, v.positions[p].ticker)
    {
      SpentStays(v, w, v.positions[p].ticker);
    }
  }

  lemma MovedLeaves(v: World, w: World, key: Id, pid: nat, stopPct: real)
    requires Matched(v) && OneOpen(v.positions) && InFlight(v.orders, key) && OrdersPersist(v, w)
    requires Moved(v, w, key, pid, stopPct)
    requires key in w.orders && w.orders == v.orders[key := w.orders[key]] && w.orders[key].status.Terminal()
    ensures OnlyResolved(v, w)
  {
    if !Applied(v, w, key, pid, stopPct) {
      assert InFlight(v.orders, key) && v.orders[key].side.Sell? && v.orders[key].ticker == v.positions[pid].ticker;
      NoneStanding(v, pid);
      UnclosedLeaves(v, w);
    } else if w.orders[key].side.Buy? {
      BoughtLeaves(v, w, key, pid, stopPct);
    } else {
      SoldLeaves(v, w, key, pid, stopPct);
    }
  }

  // ------------------------------------------------------------------ what recovery achieves

  /** The broker has finished with the order, or never saw it. */
  predicate OverAt(b: Broker, key: Id) {
    key in b.market ==> b.market[key].state.Done?
  }

  /** The row says what the broker's record said, or that the order was never placed. */
  predicate Recorded(row: Order, was: Order, b: Broker, key: Id) {
    && SameRequest(row, was) && row.status.Terminal() && row.brokerId == was.brokerId
    && if key in b.market then
         && b.market[key].state == Done(row.status) && row.filled == b.market[key].filled
         && (row.filled > 0 ==> row.price == Some(b.market[key].price) && row.fee == b.market[key].fee)
       else row.status.Rejected? && row.filled == 0
  }

  lemma ToldIsRecorded(row: Order, was: Order, b: Broker, reply: StateReply, key: Id)
    requires OverAt(b, key) && reply == StateOf(b, key)
    ensures Over(reply) ==> Told(row, was, reply) ==> Recorded(row, was, b, key)
    ensures (key in b.market ==> b.market[key].state.outcome.Terminal()) ==> Over(reply)
  {
  }

  /** The order's fill is in this position: it opened it, closed it, or sold some of its lots. */
  predicate TakenBy(v: World, w: World, key: Id, pid: nat, lotSizes: string -> nat, stopPct: real) {
    && key in w.orders && pid in w.positions
    && var order, p := w.orders[key], w.positions[pid];
    if order.side.Buy? then pid !in v.positions && BooksEntry(p, key, order, lotSizes(order.ticker), stopPct)
    else
      && pid in v.positions && v.positions[pid].Open() && v.positions[pid].ticker == order.ticker
      && if !order.status.Filled? && order.filled < v.positions[pid].lots
         then p == v.positions[pid].(lots := v.positions[pid].lots - order.filled)
         else p.exit.Some? && p.exit.value.closeKey == Some(key) && Some(p.exit.value.price) == order.price
              && Some(p.exit.value.trigger) == order.trigger && p.lots == v.positions[pid].lots
  }

  ghost predicate FillTaken(v: World, w: World, key: Id, lotSizes: string -> nat, stopPct: real) {
    exists pid :: TakenBy(v, w, key, pid, lotSizes, stopPct)
  }

  /** Positions on other tickers are as they were, and none is new. */
  ghost predicate OnlyOn(v: World, w: World, ticker: string) {
    && (forall p :: p in v.positions ==>
          && p in w.positions && w.positions[p].ticker == v.positions[p].ticker
          && (v.positions[p].ticker != ticker ==> w.positions[p] == v.positions[p]))
    && (forall p :: p in w.positions && w.positions[p].ticker != ticker ==> p in v.positions)
  }

  lemma MovedOnly(v: World, w: World, key: Id, touched: Option<nat>, lotSizes: string -> nat, stopPct: real)
    requires key in w.orders
    requires touched.None? ==> w.positions == v.positions
    requires touched.Some? ==> Moved(v, w, key, touched.value, stopPct) && touched.value in w.positions
    requires touched.Some? && w.orders[key].side.Buy? ==>
               w.positions[touched.value].lotSize == lotSizes(w.orders[key].ticker)
    ensures OnlyOn(v, w, w.orders[key].ticker)
    ensures touched.Some? ==> FillTaken(v, w, key, lotSizes, stopPct)
  {
    if touched.Some? {
      assert TakenBy(v, w, key, touched.value, lotSizes, stopPct);
    }
  }

  /** Resolving one order touches its row and the positions of its ticker only. */
  ghost predicate ResolvedBy(v: World, w: World, key: Id) {
    && key in v.orders && key in w.orders && w.orders == v.orders[key := w.orders[key]]
    && OnlyOn(v, w, v.orders[key].ticker) && OrdersPersist(v, w)
  }

  /** The row is settled by the broker's record, and the fill is in a position if there was something for it. */
  ghost predicate Recovered(v: World, w: World, key: Id, lotSizes: string -> nat, stopPct: real) {
    && key in v.orders && key in w.orders && Recorded(w.orders[key], v.orders[key], v.broker, key)
    && (Takeable(w.orders[key], v.positions) ==> FillTaken(v, w, key, lotSizes, stopPct))
  }

  /** Asks the broker about an order and resolves it by the answer. */
  method Resolve(bot: Bot, key: Id, order: Order, stopPct: real) returns (r: Resolution)
    requires bot.Valid() && key in bot.orders && SameRequest(order, bot.orders[key])
    modifies bot
    ensures bot.Valid() && bot.Later() && bot.broker.market.Keys == old(bot.broker.market.Keys)
    ensures old(Matched(bot.View())) ==>
              Matched(bot.View()) && bot.even == old(bot.even) && OnlyResolved(old(bot.View()), bot.View())
    ensures ResolvedBy(old(bot.View()), bot.View(), key)
    ensures bot.obliging && !old(bot.orders[key]).status.Terminal() ==>
              && !r.Broken?
              && (OverAt(old(bot.broker), key) ==>
                    r.Resolved? && Recovered(old(bot.View()), bot.View(), key, bot.lotSizes, stopPct))
  {
    hide Matched, OnlyResolved;
    ghost var v := bot.View();
    var reply := bot.GetOrderState(key);
    ghost var asked := bot.View();
    if Matched(v) {
      KeptMatched(bot);
    }
    StillOver(v.broker, bot.broker, key);
    r := ResolveTold(bot, key, order, reply, stopPct);
    SameRecord(v, asked, bot.View(), key, bot.lotSizes, stopPct);
    LaterFollows(bot);
    ResolvedSince(v, asked, bot.View());
  }

  lemma StillOver(v: Broker, w: Broker, key: Id)
    requires OrdersKept(v, w)
    ensures OverAt(v, key) ==> OverAt(w, key)
  {
  }

  /** The exchange's own moves before the answer change neither the tables nor a finished order. */
  lemma SameRecord(u: World, v: World, w: World, key: Id, lotSizes: string -> nat, stopPct: real)
    requires v == u.(broker := v.broker) && OrdersKept(u.broker, v.broker)
    ensures ResolvedBy(v, w, key) ==> ResolvedBy(u, w, key)
    ensures OverAt(u.broker, key) && Recovered(v, w, key, lotSizes, stopPct) ==> Recovered(u, w, key, lotSizes, stopPct)
  {
    if FillTaken(v, w, key, lotSizes, stopPct) {
      var pid :| TakenBy(v, w, key, pid, lotSizes, stopPct);
      assert TakenBy(u, w, key, pid, lotSizes, stopPct);
    }
  }

  lemma ResolvedSince(u: World, v: World, w: World)
    requires v == u.(broker := v.broker)
    ensures OnlyResolved(v, w) ==> OnlyResolved(u, w)
  {
  }

  /** The order's section once the broker has answered. */
  method ResolveTold(bot: Bot, key: Id, order: Order, reply: StateReply, stopPct: real) returns (r: Resolution)
    requires bot.Valid() && key in bot.orders && SameRequest(order, bot.orders[key]) && Answers(reply, bot.broker, key)
    modifies bot
    ensures bot.Valid() && bot.Later() && bot.broker.market.Keys == old(bot.broker.market.Keys)
    ensures old(Matched(bot.View())) ==>
              Matched(bot.View()) && bot.even == old(bot.even) && OnlyResolved(old(bot.View()), bot.View())
    ensures ResolvedBy(old(bot.View()), bot.View(), key)
    ensures bot.obliging && !reply.NoState? && !old(bot.orders[key]).status.Terminal() ==>
              && !r.Broken?
              && (OverAt(old(bot.broker), key) ==>
                    r.Resolved? && Recovered(old(bot.View()), bot.View(), key, bot.lotSizes, stopPct))
  {
    hide Moved, Applied, OnlyResolved, SoldOut, Bare, Follows, Coherent, Takeable;
    ghost var v, touched := bot.View(), None;
    r, touched := ResolveOne(bot, key, order, reply, stopPct);
    LaterFollows(bot);
    MovedOnly(v, bot.View(), key, touched, bot.lotSizes, stopPct);
    if !reply.NoState? && OverAt(v.broker, key) && !v.orders[key].status.Terminal() {
      assert Inv(old(bot.trace)[|old(bot.log)|]);
      ToldIsRecorded(bot.orders[key], v.orders[key], v.broker, reply, key);
    }
    if Matched(v) {
      ResolvedSalesPending(bot, v, key);
      LaterSalesPending(bot);
      ResolvedMatched(v, bot.View(), key, touched, stopPct);
    }
  }

  lemma ResolvedMatched(v: World, w: World, key: Id, touched: Option<nat>, stopPct: real)
    requires Matched(v) && OneOpen(v.positions) && Follows(v, w) && OrdersPersist(v, w)
    requires Coherent(w.positions, w.stopRows) && SalesPending(w)
    requires key in v.orders && key in w.orders && w.orders == v.orders[key := w.orders[key]]
    requires touched.None? ==> w.positions == v.positions && w.stopRows == v.stopRows
    requires touched.Some? ==> InFlight(v.orders, key) && w.orders[key].status.Terminal()
                               && Moved(v, w, key, touched.value, stopPct)
    requires ClosedBy(v.positions, w.positions, touched) ==> SoldOut(w.orders[key], v.positions[touched.value])
    ensures Matched(w) && OnlyResolved(v, w)
    ensures ClosedBy(v.positions, w.positions, touched) ==> v.positions[touched.value].lots == w.orders[key].filled
  {
    hide Moved, Matched, SoldOut;
    if touched.Some? {
      MovedMatched(v, w, key, touched.value, stopPct);
      MovedLeaves(v, w, key, touched.value, stopPct);
      if ClosedBy(v.positions, w.positions, touched) {
        SoldItsLots(v, w, key, touched.value, stopPct);
      }
    } else {
      UntouchedMatched(v, w, key);
      UnclosedLeaves(v, w);
    }
  }

  /** An exit in flight has its bare position, so resolving it books what it sold. */
  lemma ResolvedSalesPending(bot: Bot, v: World, key: Id)
    requires bot.Valid() && Matched(v) && key in v.orders && OrdersPersist(v, bot.View())
    requires key in bot.orders && bot.orders == v.orders[key := bot.orders[key]]
    requires Bare(v, v.orders[key].ticker) && !v.orders[key].status.Terminal() ==> PendingSale(bot.View(), key)
    ensures NewSalesPending(v, bot.View())
  {
    if bot.orders != v.orders {
      if v.orders[key].side.Buy? {
        BuysArePending(bot, key);
      } else {
        ExitIsBare(v, key);
      }
    }
  }

  lemma ExitIsBare(v: World, key: Id)
    requires Matched(v) && InFlight(v.orders, key) && v.orders[key].side.Sell?
    ensures Bare(v, v.orders[key].ticker)
  {
    var pid :| pid in v.positions && v.positions[pid].Open() && v.positions[pid].ticker == v.orders[key].ticker;
    assert Owned(v.positions[pid], pid, v.stopRows);
  }

  /** Who else may take sections in between: nobody, the shutdown drain, or any task at all. */
  datatype Company = Alone | Draining | Anyone

  /** The shutdown drain, between two sections of another task: it resolves any orders it likes, from
      listings as old as it likes. */
  method Drain(bot: Bot, stopPct: real)
    requires bot.Valid()
    modifies bot
    ensures bot.Valid() && bot.Later()
    ensures old(Matched(bot.View())) ==>
              Matched(bot.View()) && bot.even == old(bot.even) && OnlyResolved(old(bot.View()), bot.View())
  {
    ghost var v, calm := bot.View(), Matched(bot.View());
    UnclosedLeaves(v, v);
    var sections: nat := *;
    while sections > 0
      invariant bot.Valid() && bot.Later()
      invariant calm ==> Matched(bot.View()) && bot.even == old(bot.even) && OnlyResolved(v, bot.View())
    {
      ghost var u := bot.View();
      var key: Id := *;
      var listed: Order := *;
      if key in bot.orders && SameRequest(listed, bot.orders[key]) {
        var r := Resolve(bot, key, listed, stopPct);
        if calm {
          ResolvedInTurn(v, u, bot.View());
        }
      }
      sections := sections - 1;
    }
  }

  /** What the others do between two sections of this task. */
  method Between(bot: Bot, company: Company, stopPct: real)
    requires bot.Valid()
    modifies bot
    ensures bot.Valid() && bot.Later()
    ensures company.Alone? ==> bot.View() == old(bot.View()) && bot.even == old(bot.even)
    ensures !company.Anyone? && old(Matched(bot.View())) ==>
              Matched(bot.View()) && bot.even == old(bot.even) && OnlyResolved(old(bot.View()), bot.View())
  {
    UnclosedLeaves(bot.View(), bot.View());
    if company.Draining? {
      Drain(bot, stopPct);
    } else if company.Anyone? {
      bot.OtherTasks();
    }
  }

  lemma UntouchedMatched(v: World, w: World, key: Id)
    requires Matched(v) && Follows(v, w) && OrdersPersist(v, w) && w.positions == v.positions
    requires w.stopRows == v.stopRows
    requires key in w.orders && w.orders == v.orders[key := w.orders[key]]
    requires key in v.orders && (v.orders[key].status.Terminal() ==> w.orders == v.orders)
    requires SalesPending(w)
    ensures Matched(w)
  {
    if InFlight(v.orders, key) {
      SettledOrders(v, w, key);
    }
    ExitsStayOpen(v, w);
    StopsStillMatch(v, w);
  }

  /** A listing of what was in flight, each order once. */
  ghost predicate ListedOnce(pending: seq<(Id, Order)>, orders: map<Id, Order>) {
    && (forall i :: 0 <= i < |pending| ==> InFlight(orders, pending[i].0) && pending[i].1 == orders[pending[i].0])
    && (forall i, j :: 0 <= i < j < |pending| ==> pending[i].0 != pending[j].0)
  }

  /** The only order in flight on its ticker. */
  ghost predicate Sole(orders: map<Id, Order>, key: Id) {
    forall k :: InFlight(orders, k) && key in orders && orders[k].ticker == orders[key].ticker ==> k == key
  }

  predicate Reached(pending: seq<(Id, Order)>, i: nat, ticker: string)
    requires i <= |pending|
  {
    exists j :: 0 <= j < i && pending[j].1.ticker == ticker
  }

  /** On tickers recovery has not reached the positions are as they were. */
  ghost predicate UnreachedKept(v: World, w: World, pending: seq<(Id, Order)>, i: nat)
    requires i <= |pending|
  {
    && (forall p :: p in v.positions && !Reached(pending, i, v.positions[p].ticker) ==>
          p in w.positions && w.positions[p] == v.positions[p])
    && (forall p :: p in w.positions && p !in v.positions ==> Reached(pending, i, w.positions[p].ticker))
  }

  /** What recovery achieves: every order that was over has its record on file, and the fill of one that was alone
      in flight on its ticker is in a position wherever there was something for it to act on. */
  ghost predicate Settles(v: World, w: World, key: Id, lotSizes: string -> nat, stopPct: real) {
    key in v.orders && OverAt(v.broker, key) ==>
      && key in w.orders && Recorded(w.orders[key], v.orders[key], v.broker, key)
      && (Sole(v.orders, key) && Takeable(w.orders[key], v.positions) ==> FillTaken(v, w, key, lotSizes, stopPct))
  }

  ghost predicate RecoveredAll(v: World, w: World, lotSizes: string -> nat, stopPct: real) {
    forall k :: InFlight(v.orders, k) ==> Settles(v, w, k, lotSizes, stopPct)
  }

  /** How far recovery has got. */
  ghost predicate RecoveredSoFar(v: World, w: World, pending: seq<(Id, Order)>, i: nat, lotSizes: string -> nat,
                                 stopPct: real) {
    && i <= |pending| && w.broker.market.Keys == v.broker.market.Keys && Persists(v, w)
    && (forall j :: i <= j < |pending| ==> pending[j].0 in w.orders && w.orders[pending[j].0] == pending[j].1)
    && UnreachedKept(v, w, pending, i)
    && (forall j :: 0 <= j < i ==> Settles(v, w, pending[j].0, lotSizes, stopPct))
  }

  /** Resolving another order leaves what was settled before as it is. */
  lemma StillSettles(v: World, u: World, w: World, key: Id, now: Id, lotSizes: string -> nat, stopPct: real)
    requires Settles(v, u, key, lotSizes, stopPct) && ResolvedBy(u, w, now) && Persists(v, u)
    requires key != now && InFlight(v.orders, now) && u.orders[now] == v.orders[now]
    ensures Settles(v, w, key, lotSizes, stopPct)
  {
    if key in v.orders && OverAt(v.broker, key) && Sole(v.orders, key) && FillTaken(v, u, key, lotSizes, stopPct) {
      var pid :| TakenBy(v, u, key, pid, lotSizes, stopPct);
      assert TakenBy(v, w, key, pid, lotSizes, stopPct);
    }
  }

  /** The order whose turn it is was as listed, and so was its ticker if it was alone there. */
  lemma NowSettles(v: World, u: World, w: World, pending: seq<(Id, Order)>, i: nat, lotSizes: string -> nat,
                   stopPct: real)
    requires i < |pending| && ListedOnce(pending, v.orders) && RecoveredSoFar(v, u, pending, i, lotSizes, stopPct)
    requires OverAt(u.broker, pending[i].0) ==> Recovered(u, w, pending[i].0, lotSizes, stopPct)
    ensures Settles(v, w, pending[i].0, lotSizes, stopPct)
  {
    var key := pending[i].0;
    if OverAt(v.broker, key) && Sole(v.orders, key) {
      assert !Reached(pending, i, v.orders[key].ticker);
      if Takeable(w.orders[key], v.positions) {
        assert Takeable(w.orders[key], u.positions);
        var pid :| TakenBy(u, w, key, pid, lotSizes, stopPct);
        assert TakenBy(v, w, key, pid, lotSizes, stopPct);
      }
    }
  }

  lemma RecoveredNext(v: World, u: World, w: World, pending: seq<(Id, Order)>, i: nat, lotSizes: string -> nat,
                      stopPct: real)
    requires i < |pending| && ListedOnce(pending, v.orders) && RecoveredSoFar(v, u, pending, i, lotSizes, stopPct)
    requires ResolvedBy(u, w, pending[i].0) && Persists(v, w)
    requires w.broker.market.Keys == u.broker.market.Keys
    requires OverAt(u.broker, pending[i].0) ==> Recovered(u, w, pending[i].0, lotSizes, stopPct)
    ensures RecoveredSoFar(v, w, pending, i + 1, lotSizes, stopPct)
  {
    forall j | 0 <= j < i + 1 ensures Settles(v, w, pending[j].0, lotSizes, stopPct) {
      if j < i {
        StillSettles(v, u, w, pending[j].0, pending[i].0, lotSizes, stopPct);
      } else {
        NowSettles(v, u, w, pending, i, lotSizes, stopPct);
      }
    }
    ReachedNext(v, u, w, pending, i);
  }

  lemma ReachedNext(v: World, u: World, w: World, pending: seq<(Id, Order)>, i: nat)
    requires i < |pending| && UnreachedKept(v, u, pending, i) && OnlyOn(u, w, pending[i].1.ticker)
    ensures UnreachedKept(v, w, pending, i + 1)
  {
    forall t ensures Reached(pending, i + 1, t) <==> Reached(pending, i, t) || t == pending[i].1.ticker {
      assert t == pending[i].1.ticker ==> pending[i].1.ticker == t;
    }
  }

  lemma NothingRecovered(w: World, pending: seq<(Id, Order)>, lotSizes: string -> nat, stopPct: real)
    requires ListedOnce(pending, w.orders)
    ensures RecoveredSoFar(w, w, pending, 0, lotSizes, stopPct)
  {
    PersistsReflexive(w);
  }

  lemma AllSettled(v: World, w: World, pending: seq<(Id, Order)>, lotSizes: string -> nat, stopPct: real)
    requires RecoveredSoFar(v, w, pending, |pending|, lotSizes, stopPct)
    requires forall k :: InFlight(v.orders, k) ==> (k, v.orders[k]) in pending
    ensures RecoveredAll(v, w, lotSizes, stopPct)
  {
    forall k | InFlight(v.orders, k) ensures Settles(v, w, k, lotSizes, stopPct) {
      var j :| 0 <= j < |pending| && pending[j] == (k, v.orders[k]);
    }
  }

  /** Every unfinished order in turn. They are listed before any lock is taken, so a listed row may be
      settled by another task before its turn comes. Alone with a broker that answers, nothing fails. */
  method ResolveUnfinished(bot: Bot, pending: seq<(Id, Order)>, stopPct: real, company: Company)
    returns (fault: Option<Fault>)
    requires bot.Valid()
    requires forall i :: 0 <= i < |pending| ==>
               pending[i].0 in bot.orders && SameRequest(pending[i].1, bot.orders[pending[i].0])
    modifies bot
    ensures bot.Valid() && bot.Later()
    ensures !company.Anyone? && old(Matched(bot.View())) ==> Matched(bot.View()) && bot.even == old(bot.even)
    ensures pending == [] ==> fault.None? && bot.View() == old(bot.View())
    ensures bot.obliging && company.Alone? && ListedOnce(pending, old(bot.orders)) ==>
              fault.None? && RecoveredSoFar(old(bot.View()), bot.View(), pending, |pending|, bot.lotSizes, stopPct)
  {
    hide Matched, RecoveredSoFar, Persists, ResolvedBy, Recovered;
    ghost var v, calm := bot.View(), !company.Anyone? && Matched(bot.View());
    ghost var answered := bot.obliging && company.Alone? && ListedOnce(pending, bot.orders);
    if answered {
      NothingRecovered(v, pending, bot.lotSizes, stopPct);
    }
    for i := 0 to |pending|
      invariant bot.Valid() && bot.Later() && (pending == [] ==> bot.View() == old(bot.View()))
      invariant calm ==> Matched(bot.View()) && bot.even == old(bot.even)
      invariant forall j :: 0 <= j < |pending| ==>
                  pending[j].0 in bot.orders && SameRequest(pending[j].1, bot.orders[pending[j].0])
      invariant answered ==> RecoveredSoFar(v, bot.View(), pending, i, bot.lotSizes, stopPct)
    {
      var r := ResolveNext(bot, pending, i, stopPct, company, v, answered);
      if r.Broken? {
        return Some(r.fault);
      }
    }
    return None;
  }

  /** One listed order, after whatever the others did. */
  method ResolveNext(bot: Bot, pending: seq<(Id, Order)>, i: nat, stopPct: real, company: Company, ghost first: World,
                     ghost answered: bool)
    returns (r: Resolution)
    requires bot.Valid() && i < |pending|
    requires forall j :: 0 <= j < |pending| ==>
               pending[j].0 in bot.orders && SameRequest(pending[j].1, bot.orders[pending[j].0])
    requires answered ==>
               && bot.obliging && company.Alone? && ListedOnce(pending, first.orders)
               && RecoveredSoFar(first, bot.View(), pending, i, bot.lotSizes, stopPct)
    modifies bot
    ensures bot.Valid() && bot.Later()
    ensures !company.Anyone? && old(Matched(bot.View())) ==> Matched(bot.View()) && bot.even == old(bot.even)
    ensures forall j :: 0 <= j < |pending| ==>
              pending[j].0 in bot.orders && SameRequest(pending[j].1, bot.orders[pending[j].0])
    ensures answered ==> !r.Broken? && RecoveredSoFar(first, bot.View(), pending, i + 1, bot.lotSizes, stopPct)
  {
    hide Matched, ResolvedBy, Recovered, OverAt, Settles, UnreachedKept;
    ghost var u := bot.View();
    Between(bot, company, stopPct);
    bot.LaterPersists();
    r := Resolve(bot, pending[i].0, pending[i].1, stopPct);
    bot.LaterPersists();
    if answered {
      PersistsTransitive(first, u, bot.View());
      RecoveredNext(first, u, bot.View(), pending, i, bot.lotSizes, stopPct);
    }
  }

  // ------------------------------------------------------------------ executed stops

  lemma ExecutedMatched(v: World, w: World, pid: nat, k: Id)
    requires Matched(v) && Follows(v, w) && Coherent(w.positions, w.stopRows)
    requires pid in v.positions && pid in w.positions && w.positions == v.positions[pid := w.positions[pid]]
    requires !w.positions[pid].Open()
    requires k !in v.orders && k in w.orders && w.orders[k].status.Terminal() && w.orders == v.orders[k := w.orders[k]]
    requires w.stopRows == ExecutedIn(v.stopRows, v.positions[pid].protection)
    requires SalesPending(w) && v.positions[pid].Open() && v.positions[pid].protection.Exchange?
    ensures Matched(w)
  {
    assert OneInFlight(w.orders);
    ClosedMatched(v, w, pid);
  }

  /** The broker's record of the stops that have executed, by its own identifiers. */
  method GetExecutedStopFills(bot: Bot) returns (fills: Option<map<nat, StopFill>>)
    requires bot.Valid()
    modifies bot
    ensures bot.Valid() && bot.Onward() && bot.TablesKept() && bot.even == old(bot.even)
    ensures fills.Some? ==> Executions(fills.value, bot.broker.stops)
    ensures bot.obliging ==> fills.Some? && AllTold(fills.value, bot.broker.stops) && bot.broker == old(bot.broker)
  {
    bot.Exchange();
    var told: map<nat, StopFill> := *;
    var lost: bool := *;
    var stops := bot.broker.stops;
    fills := if lost && !bot.obliging then None
             else Some(map sid | sid in stops && stops[sid].state.Fired? && (bot.obliging || sid in told)
                         :: if sid in told then told[sid].(sid := sid) else StopFill(sid, stops[sid].lots, None, None));
  }

  ghost predicate AllTold(fills: map<nat, StopFill>, stops: map<nat, BrokerStop>) {
    forall sid :: sid in stops && stops[sid].state.Fired? ==> sid in fills
  }

  ghost predicate Executions(fills: map<nat, StopFill>, stops: map<nat, BrokerStop>) {
    forall sid :: sid in fills ==> fills[sid].sid == sid && sid in stops && stops[sid].state.Fired?
  }

  /** The position's standing row names a stop the broker says has executed. */
  predicate Reported(rows: map<Id, StopRow>, fills: map<nat, StopFill>, pid: nat) {
    exists k ::
      && k in rows && rows[k].position == pid && rows[k].status.Standing()
      && rows[k].sid.Some? && rows[k].sid.value in fills
  }

  /** And says so without a price. */
  predicate Unpriced(rows: map<Id, StopRow>, fills: map<nat, StopFill>, pid: nat) {
    exists k :: k in rows && rows[k].position == pid && rows[k].status.Standing() && rows[k].sid.Some?
                && rows[k].sid.value in fills && fills[rows[k].sid.value].price.None?
  }

  /** That record, if there is one. */
  method FindExecution(bot: Bot, fills: map<nat, StopFill>, pid: nat) returns (fill: Option<StopFill>)
    requires bot.Valid() && Executions(fills, bot.broker.stops)
    ensures fill.Some? <==> Reported(bot.stopRows, fills, pid)
    ensures fill.Some? ==>
              && (fill.value.price.None? <==> Unpriced(bot.stopRows, fills, pid))
              && exists k ::
                   && k in bot.stopRows && bot.stopRows[k].position == pid && bot.stopRows[k].status.Standing()
                   && bot.stopRows[k].sid == Some(fill.value.sid) && fill.value.sid in bot.broker.stops
                   && bot.broker.stops[fill.value.sid].state.Fired?
  {
    var record := bot.ActiveForPosition(pid);
    fill := None;
    if record.Some? && bot.stopRows[record.value].sid.Some? && bot.stopRows[record.value].sid.value in fills {
      fill := Some(fills[bot.stopRows[record.value].sid.value]);
    }
  }

  /** A fired stop named by the position's standing row covered exactly its lots. */
  lemma FiredCovers(bot: Bot, pid: nat, sid: nat, k: Id)
    requires bot.Valid() && Matched(bot.View()) && pid in bot.positions && bot.positions[pid].Open()
    requires k in bot.stopRows && bot.stopRows[k].position == pid && bot.stopRows[k].status.Standing()
    requires bot.stopRows[k].sid == Some(sid) && sid in bot.broker.stops && bot.broker.stops[sid].state.Fired?
    ensures FiredFor(bot.View(), pid, sid) && bot.broker.stops[sid].lots == bot.positions[pid].lots
  {
    assert Inv(bot.trace[|bot.log|]);
  }

  /** Ending an owned stop's row touches no other position's. */
  lemma ExecutedElsewhere(rows: map<Id, StopRow>, p: Position, pid: nat)
    requires Owned(p, pid, rows)
    ensures Elsewhere(rows, ExecutedIn(rows, p.protection), pid)
  {
  }

  lemma AboutOne(v: World, w: World, pid: nat)
    requires pid in v.positions && pid in w.positions && w.positions == v.positions[pid := w.positions[pid]]
    requires w.positions[pid].ticker == v.positions[pid].ticker
    requires w.orders == v.orders
             || exists k ::
                  && k !in v.orders && k in w.orders && w.orders[k].status.Terminal()
                  && w.orders == v.orders[k := w.orders[k]]
    ensures OnlyAbout(v, w, pid) && (w.stopRows == v.stopRows ==> Elsewhere(v.stopRows, w.stopRows, pid))
  {
  }

  method CloseFired(bot: Bot, pid: nat, fill: StopFill) returns (r: Outcome)
    requires bot.Valid() && Matched(bot.View()) && pid in bot.positions && bot.positions[pid].Open()
    requires bot.positions[pid].protection.Exchange?
    requires FiredFor(bot.View(), pid, fill.sid) && bot.broker.stops[fill.sid].lots == bot.positions[pid].lots
    modifies bot
    ensures bot.Valid() && bot.Later() && Matched(bot.View()) && bot.even == old(bot.even)
    ensures OnlyAbout(old(bot.View()), bot.View(), pid) && Elsewhere(old(bot.stopRows), bot.stopRows, pid)
    ensures (if r.Fine? then !bot.positions[pid].Open() else bot.TablesKept())
    ensures if fill.price.None? then r == Raised(NoFill) else r.Fine?
  {
    hide OnlyAbout, Elsewhere, Follows, ExecutedIn;
    ghost var v := bot.View();
    assert Owned(bot.positions[pid], pid, bot.stopRows);
    ExecutedElsewhere(bot.stopRows, bot.positions[pid], pid);
    r := CloseExecutedStop(bot, pid, fill);
    AboutOne(v, bot.View(), pid);
    LaterFollows(bot);
    LaterSalesPending(bot);
    if r.Fine? {
      ExecutedMatched(v, bot.View(), pid, bot.positions[pid].exit.value.closeKey.value);
    } else {
      StopsStillMatch(v, bot.View());
    }
  }

  /** Closes an open position whose stop the broker says has executed. */
  method CloseIfExecuted(bot: Bot, fills: map<nat, StopFill>, pid: nat) returns (closed: bool, fault: Option<Fault>)
    requires bot.Valid() && Matched(bot.View()) && pid in bot.positions && bot.positions[pid].Open()
    requires bot.positions[pid].protection.Exchange? && Executions(fills, bot.broker.stops)
    modifies bot
    ensures bot.Valid() && bot.Later() && Matched(bot.View()) && bot.even == old(bot.even)
    ensures OnlyAbout(old(bot.View()), bot.View(), pid) && Elsewhere(old(bot.stopRows), bot.stopRows, pid)
    ensures (if closed then !bot.positions[pid].Open() else bot.TablesKept())
    ensures closed || fault.Some? <==> Reported(old(bot.stopRows), fills, pid)
    ensures fault.Some? ==> !closed && fault == Some(NoFill) && Unpriced(old(bot.stopRows), fills, pid)
  {
    closed, fault := false, None;
    var fill := FindExecution(bot, fills, pid);
    if fill.Some? {
      ghost var k :| k in bot.stopRows && bot.stopRows[k].position == pid && bot.stopRows[k].status.Standing()
                     && bot.stopRows[k].sid == Some(fill.value.sid);
      FiredCovers(bot, pid, fill.value.sid, k);
      var r := CloseFired(bot, pid, fill.value);
      closed := r.Fine?;
      fault := if r.Raised? then Some(r.fault) else None;
    }
  }

  // ------------------------------------------------------------------ the cycle

  ghost predicate AllClosed(closed: set<nat>, positions: map<nat, Position>) {
    forall pid :: pid in closed ==> pid in positions && !positions[pid].Open()
  }

  /** A listed row is still open, or its ticker is spent. */
  ghost predicate StandsOrSpent(n: Numbered, w: World) {
    && n.pid in w.positions && w.positions[n.pid].ticker == n.row.ticker
    && (w.positions[n.pid].Open() || Spent(w, n.row.ticker))
  }

  /** So are all the listed rows from some point on that are not passed over. */
  ghost predicate Waiting(rows: seq<Numbered>, from: nat, skip: set<nat>, w: World) {
    forall j :: from <= j < |rows| && rows[j].pid !in skip ==> StandsOrSpent(rows[j], w)
  }

  lemma WaitingStays(rows: seq<Numbered>, from: nat, skip: set<nat>, v: World, w: World)
    requires Waiting(rows, from, skip, v) && NoneReplaced(v, w)
    ensures Waiting(rows, from, skip, w)
  {
    forall j | from <= j < |rows| && rows[j].pid !in skip ensures StandsOrSpent(rows[j], w) {
      assert StandsOrSpent(rows[j], v);
    }
  }

  lemma OthersWait(rows: seq<Numbered>, i: nat, from: nat, skip: set<nat>, v: World, w: World)
    requires DistinctRows(rows) && i < |rows| && Waiting(rows, from, skip, v) && OrdersPersist(v, w)
    requires OnlyAbout(v, w, rows[i].pid) && v.positions[rows[i].pid].ticker == rows[i].row.ticker
    ensures Waiting(rows, from, skip + {rows[i].pid}, w)
  {
    forall j | from <= j < |rows| && rows[j].pid !in skip + {rows[i].pid} ensures StandsOrSpent(rows[j], w) {
      assert j != i && StandsOrSpent(rows[j], v);
      OtherStands(rows[j], rows[i].pid, v, w);
    }
  }

  lemma OtherStands(n: Numbered, pid: nat, v: World, w: World)
    requires StandsOrSpent(n, v) && OnlyAbout(v, w, pid) && OrdersPersist(v, w)
    requires n.pid != pid && n.row.ticker != v.positions[pid].ticker
    ensures StandsOrSpent(n, w)
  {
  }

  /** Every row is still there, closed ones are closed, and those the exchange protects are as they were. */
  ghost predicate OthersStay(before: map<nat, Position>, after: map<nat, Position>, pid: nat) {
    && before.Keys <= after.Keys
    && (forall p :: p in before && !before[p].Open() ==> !after[p].Open())
    && (forall p :: p in before && p != pid && before[p].protection.Exchange? ==> after[p] == before[p])
  }

  ghost predicate OthersSame(before: map<nat, Position>, after: map<nat, Position>, pid: nat) {
    forall q :: q != pid && q in before ==> q in after && after[q] == before[q]
  }

  /** What others did before a section, and the section, are together no more than the section may do. */
  lemma StayTogether(u: World, v: World, w: World, fills: map<nat, StopFill>, pid: nat)
    requires OnlyResolved(u, v) && PositionsPersist(u, v) && OthersStay(v.positions, w.positions, pid)
    requires ReportedAlike(v, w, fills, pid)
    ensures OthersStay(u.positions, w.positions, pid) && ReportedAlike(u, w, fills, pid)
  {
    GrownReports(u, v, fills);
  }

  /** One listed EXCHANGE position, after whatever the others did. */
  method CloseSection(bot: Bot, fills: map<nat, StopFill>, n: Numbered, company: Company, stopPct: real,
                      ghost rows: seq<Numbered>, ghost i: nat, ghost skip: set<nat>)
    returns (closed: bool, fault: Option<Fault>)
    requires bot.Valid() && Matched(bot.View()) && !company.Anyone? && Executions(fills, bot.broker.stops)
    requires n.pid in bot.positions && bot.positions[n.pid] == n.row && n.row.Open() && n.row.protection.Exchange?
    requires DistinctRows(rows) && i < |rows| && rows[i] == n && n.pid !in skip && Waiting(rows, 0, skip, bot.View())
    modifies bot
    ensures bot.Valid() && bot.Later() && Matched(bot.View()) && bot.even == old(bot.even)
    ensures Executions(fills, bot.broker.stops)
    ensures OthersStay(old(bot.positions), bot.positions, n.pid)
    ensures ReportedAlike(old(bot.View()), bot.View(), fills, n.pid)
    ensures n.pid in bot.positions && if closed then !bot.positions[n.pid].Open() else bot.positions[n.pid] == n.row
    ensures fault.Some? ==> !closed && fault == Some(NoFill) && Unpriced(old(bot.stopRows), fills, n.pid)
    ensures closed || fault.Some? <==> Reported(old(bot.stopRows), fills, n.pid)
    ensures Waiting(rows, 0, if closed then skip + {n.pid} else skip, bot.View())
    ensures company.Alone? ==> OthersSame(old(bot.positions), bot.positions, n.pid)
  {
    hide Matched, OthersStay, ReportedAlike, OthersSame, Waiting, Reported, Unpriced;
    ghost var v := bot.View();
    Between(bot, company, stopPct);
    bot.LaterPersists();
    GrownReports(v, bot.View(), fills);
    WaitingStays(rows, 0, skip, v, bot.View());
    ghost var u := bot.View();
    closed, fault := CloseListed(bot, fills, n, rows, i, skip);
    StayTogether(v, u, bot.View(), fills, n.pid);
  }

  /** The section itself. */
  method CloseListed(bot: Bot, fills: map<nat, StopFill>, n: Numbered, ghost rows: seq<Numbered>, ghost i: nat,
                     ghost skip: set<nat>)
    returns (closed: bool, fault: Option<Fault>)
    requires bot.Valid() && Matched(bot.View()) && Executions(fills, bot.broker.stops)
    requires n.pid in bot.positions && bot.positions[n.pid] == n.row && n.row.Open() && n.row.protection.Exchange?
    requires DistinctRows(rows) && i < |rows| && rows[i] == n && n.pid !in skip && Waiting(rows, 0, skip, bot.View())
    modifies bot
    ensures bot.Valid() && bot.Later() && Matched(bot.View()) && bot.even == old(bot.even)
    ensures Executions(fills, bot.broker.stops)
    ensures OthersStay(old(bot.positions), bot.positions, n.pid)
    ensures ReportedAlike(old(bot.View()), bot.View(), fills, n.pid)
    ensures OthersSame(old(bot.positions), bot.positions, n.pid)
    ensures n.pid in bot.positions && if closed then !bot.positions[n.pid].Open() else bot.positions[n.pid] == n.row
    ensures fault.Some? ==> !closed && fault == Some(NoFill) && Unpriced(old(bot.stopRows), fills, n.pid)
    ensures closed || fault.Some? <==> Reported(old(bot.stopRows), fills, n.pid)
    ensures Waiting(rows, 0, if closed then skip + {n.pid} else skip, bot.View())
  {
    hide Matched, Waiting, Reported, Unpriced, Elsewhere;
    ghost var v := bot.View();
    closed, fault := CloseIfExecuted(bot, fills, n.pid);
    bot.LaterPersists();
    ElsewhereReports(v, bot.View(), fills, n.pid);
    OthersWait(rows, i, 0, skip, v, bot.View());
    if !closed {
      assert StandsOrSpent(n, bot.View());
      WaitingMore(rows, i, skip, bot.View());
    }
  }

  lemma WaitingMore(rows: seq<Numbered>, i: nat, skip: set<nat>, w: World)
    requires i < |rows| && DistinctRows(rows) && Waiting(rows, 0, skip + {rows[i].pid}, w) && StandsOrSpent(rows[i], w)
    ensures Waiting(rows, 0, skip, w)
  {
    forall j | 0 <= j < |rows| && rows[j].pid !in skip ensures StandsOrSpent(rows[j], w) {
      if j != i {
        assert rows[j].pid !in skip + {rows[i].pid};
      }
    }
  }

  /** What the broker reported of the other positions is still what it reports. */
  ghost predicate ReportedAlike(v: World, w: World, fills: map<nat, StopFill>, pid: nat) {
    forall q :: q != pid && q in v.positions ==>
      && (Reported(w.stopRows, fills, q) <==> Reported(v.stopRows, fills, q))
      && (Unpriced(w.stopRows, fills, q) <==> Unpriced(v.stopRows, fills, q))
  }

  lemma GrownReports(v: World, w: World, fills: map<nat, StopFill>)
    requires RowsGrow(v, w)
    ensures forall q :: q in v.positions ==>
              && (Reported(w.stopRows, fills, q) <==> Reported(v.stopRows, fills, q))
              && (Unpriced(w.stopRows, fills, q) <==> Unpriced(v.stopRows, fills, q))
  {
  }

  lemma ElsewhereReports(v: World, w: World, fills: map<nat, StopFill>, pid: nat)
    requires Elsewhere(v.stopRows, w.stopRows, pid)
    ensures ReportedAlike(v, w, fills, pid)
  {
    forall q | q != pid && q in v.positions
      ensures Reported(w.stopRows, fills, q) <==> Reported(v.stopRows, fills, q)
      ensures Unpriced(w.stopRows, fills, q) <==> Unpriced(v.stopRows, fills, q)
    {
      forall k
        ensures (k in v.stopRows && v.stopRows[k].position == q) <==>
                (k in w.stopRows && w.stopRows[k].position == q) {}
    }
  }

  ghost predicate AnyProtected(rows: seq<Numbered>) {
    exists n :: n in rows && n.row.protection.Exchange?
  }

  /** Closes every listed position the exchange protects and says has executed, and no other of those.
      `told` is what the broker answers when asked for the executed stops; it is asked only where the
      exchange protects a listed position. */
  method CloseExecuted(bot: Bot, rows: seq<Numbered>, told: Option<map<nat, StopFill>>, company: Company, stopPct: real)
    returns (closed: set<nat>, fault: Option<Fault>)
    requires bot.Valid() && Matched(bot.View()) && ListsOpen(rows, bot.positions) && !company.Anyone?
    requires told.Some? ==> Executions(told.value, bot.broker.stops)
    modifies bot
    ensures bot.Valid() && bot.Later() && Matched(bot.View()) && bot.even == old(bot.even)
    ensures old(bot.positions).Keys <= bot.positions.Keys && AllClosed(closed, bot.positions)
    ensures !AnyProtected(rows) ==> closed == {} && fault.None? && bot.View() == old(bot.View())
    ensures AnyProtected(rows) && told.None? ==>
              closed == {} && fault == Some(BrokerDown) && bot.View() == old(bot.View())
    ensures AnyProtected(rows) && told.Some? ==>
              if fault.None? then ClosedSoFar(rows, |rows|, closed, told.value, old(bot.stopRows), bot.stopRows,
                                              bot.positions)
              else fault == Some(NoFill) && exists n :: n in rows && Unpriced(old(bot.stopRows), told.value, n.pid)
    ensures fault.None? ==> Waiting(rows, 0, closed, bot.View())
    ensures company.Alone? ==> forall n :: n in rows && n.row.protection.Local? ==>
              n.pid in bot.positions && bot.positions[n.pid] == n.row
  {
    closed, fault := {}, None;
    assert forall j :: 0 <= j < |rows| ==> rows[j] in rows;
    if forall j :: 0 <= j < |rows| ==> rows[j].row.protection.Local? {
      return;
    }
    if told.None? {
      fault := Some(BrokerDown);
      return;
    }
    closed, fault := CloseEach(bot, rows, told.value, company, stopPct);
  }

  method CloseEach(bot: Bot, rows: seq<Numbered>, fills: map<nat, StopFill>, company: Company, stopPct: real)
    returns (closed: set<nat>, fault: Option<Fault>)
    requires bot.Valid() && Matched(bot.View()) && !company.Anyone? && Executions(fills, bot.broker.stops)
    requires ListsOpen(rows, bot.positions)
    modifies bot
    ensures bot.Valid() && bot.Later() && Matched(bot.View()) && bot.even == old(bot.even)
    ensures old(bot.positions).Keys <= bot.positions.Keys && AllClosed(closed, bot.positions)
    ensures if fault.None? then ClosedSoFar(rows, |rows|, closed, fills, old(bot.stopRows), bot.stopRows, bot.positions)
            else fault == Some(NoFill) && exists n :: n in rows && Unpriced(old(bot.stopRows), fills, n.pid)
    ensures fault.None? ==> Waiting(rows, 0, closed, bot.View())
    ensures company.Alone? ==> LocalsKept(rows, bot.positions)
  {
    hide Matched, ClosedSoFar, Waiting, LocalsKept, OthersStay, OthersSame, ReportedAlike, AllClosed;
    closed, fault := {}, None;
    ghost var first := bot.stopRows;
    NoneClosedYet(rows, fills, bot.View());
    assert forall j :: 0 <= j < |rows| ==> rows[j] in rows;
    for i := 0 to |rows|
      invariant bot.Valid() && bot.Later() && Matched(bot.View()) && bot.even == old(bot.even) && fault.None?
      invariant old(bot.positions).Keys <= bot.positions.Keys && Executions(fills, bot.broker.stops)
      invariant AllClosed(closed, bot.positions) && Waiting(rows, 0, closed, bot.View())
      invariant ClosedSoFar(rows, i, closed, fills, first, bot.stopRows, bot.positions)
      invariant company.Alone? ==> LocalsKept(rows, bot.positions)
    {
      if rows[i].row.protection.Exchange? {
        var done: bool;
        ghost var so, before := closed, bot.View();
        NextIsOpen(rows, i, closed, fills, first, before);
        done, fault := CloseSection(bot, fills, rows[i], company, stopPct, rows, i, closed);
        LocalsStay(rows, i, before.positions, bot.positions);
        ClosedStayClosed(so, before.positions, bot.positions, rows[i].pid);
        if fault.Some? {
          assert rows[i] in rows && Unpriced(first, fills, rows[i].pid);
          return;
        }
        if done {
          closed := closed + {rows[i].pid};
        }
        ClosedOneMore(rows, i, so, done, fills, first, before, bot.View());
      } else {
        LocalPassed(rows, i, closed, fills, first, bot.stopRows, bot.positions);
      }
    }
  }

  ghost predicate LocalsKept(rows: seq<Numbered>, positions: map<nat, Position>) {
    forall n :: n in rows && n.row.protection.Local? ==> n.pid in positions && positions[n.pid] == n.row
  }

  /** How far a pass over the listed rows has got: what the exchange protects and the broker reported is
      closed, and what else it protects is as it was. */
  ghost predicate ClosedSoFar(rows: seq<Numbered>, i: nat, closed: set<nat>, fills: map<nat, StopFill>,
                              first: map<Id, StopRow>, now: map<Id, StopRow>, positions: map<nat, Position>) {
    && i <= |rows|
    && (forall j :: i <= j < |rows| ==>
          && rows[j].pid !in closed
          && (Reported(now, fills, rows[j].pid) <==> Reported(first, fills, rows[j].pid))
          && (Unpriced(now, fills, rows[j].pid) <==> Unpriced(first, fills, rows[j].pid)))
    && (forall j :: 0 <= j < i ==>
          (rows[j].pid in closed <==> rows[j].row.protection.Exchange? && Reported(first, fills, rows[j].pid)))
    && (forall j :: 0 <= j < |rows| && rows[j].row.protection.Exchange? && rows[j].pid !in closed ==>
          rows[j].pid in positions && positions[rows[j].pid] == rows[j].row)
  }

  lemma LocalsStay(rows: seq<Numbered>, i: nat, before: map<nat, Position>, after: map<nat, Position>)
    requires i < |rows| && DistinctRows(rows) && rows[i].row.protection.Exchange?
    ensures LocalsKept(rows, before) && OthersSame(before, after, rows[i].pid) ==> LocalsKept(rows, after)
  {
  }

  lemma ClosedStayClosed(closed: set<nat>, before: map<nat, Position>, after: map<nat, Position>, pid: nat)
    requires AllClosed(closed, before) && OthersStay(before, after, pid)
    ensures AllClosed(closed, after) && before.Keys <= after.Keys
    ensures pid in after && !after[pid].Open() ==> AllClosed(closed + {pid}, after)
  {
  }

  lemma NoneClosedYet(rows: seq<Numbered>, fills: map<nat, StopFill>, w: World)
    requires ListsOpen(rows, w.positions)
    ensures ClosedSoFar(rows, 0, {}, fills, w.stopRows, w.stopRows, w.positions) && Waiting(rows, 0, {}, w)
    ensures LocalsKept(rows, w.positions) && AllClosed({}, w.positions)
  {
    assert forall j :: 0 <= j < |rows| ==> rows[j] in rows;
  }

  lemma NextIsOpen(rows: seq<Numbered>, i: nat, closed: set<nat>, fills: map<nat, StopFill>, first: map<Id, StopRow>,
                   w: World)
    requires ClosedSoFar(rows, i, closed, fills, first, w.stopRows, w.positions) && i < |rows|
    requires rows[i].row.protection.Exchange?
    requires forall j :: 0 <= j < |rows| ==> rows[j].row.Open()
    ensures rows[i].pid !in closed && rows[i].pid in w.positions && w.positions[rows[i].pid] == rows[i].row
    ensures rows[i].row.Open()
    ensures Reported(w.stopRows, fills, rows[i].pid) <==> Reported(first, fills, rows[i].pid)
    ensures Unpriced(w.stopRows, fills, rows[i].pid) <==> Unpriced(first, fills, rows[i].pid)
  {
  }

  lemma LocalPassed(rows: seq<Numbered>, i: nat, closed: set<nat>, fills: map<nat, StopFill>, first: map<Id, StopRow>,
                    now: map<Id, StopRow>, positions: map<nat, Position>)
    requires ClosedSoFar(rows, i, closed, fills, first, now, positions) && i < |rows| && rows[i].row.protection.Local?
    ensures ClosedSoFar(rows, i + 1, closed, fills, first, now, positions)
  {
  }

  lemma ClosedOneMore(rows: seq<Numbered>, i: nat, closed: set<nat>, done: bool, fills: map<nat, StopFill>,
                      first: map<Id, StopRow>, v: World, w: World)
    requires i < |rows| && DistinctRows(rows) && ClosedSoFar(rows, i, closed, fills, first, v.stopRows, v.positions)
    requires rows[i].row.protection.Exchange? && (done <==> Reported(v.stopRows, fills, rows[i].pid))
    requires ReportedAlike(v, w, fills, rows[i].pid) && OthersStay(v.positions, w.positions, rows[i].pid)
    requires forall j :: 0 <= j < |rows| ==> rows[j].pid in v.positions
    requires !done ==> rows[i].pid in w.positions && w.positions[rows[i].pid] == rows[i].row
    ensures ClosedSoFar(rows, i + 1, if done then closed + {rows[i].pid} else closed, fills, first, w.stopRows,
                        w.positions)
  {
  }

  // ------------------------------------------------------------------ passes

  /** One attempt of a pass, how it ended, and the stretch of the log its section took. */
  datatype Tried<T> = Tried(of: T, outcome: Outcome, start: nat, end: nat)

  /** The sections of a pass follow one another in the log. */
  ghost predicate InTurn<T>(tried: seq<Tried<T>>, from: nat, to: nat) {
    && (forall k :: 0 <= k < |tried| ==> from <= tried[k].start <= tried[k].end <= to)
    && (forall j, k :: 0 <= j < k < |tried| ==> tried[j].end <= tried[k].start)
  }

  /** A pass goes on after the faults it passes over, and ends with the first other one. */
  ghost predicate PassEnds<T>(tried: seq<Tried<T>>, passedOver: set<Fault>, fault: Option<Fault>) {
    && (forall i :: 0 <= i < |tried| && tried[i].outcome.Raised? && tried[i].outcome.fault !in passedOver ==>
          i == |tried| - 1 && fault == Some(tried[i].outcome.fault))
    && (fault.Some? ==> |tried| > 0 && tried[|tried| - 1].outcome == Raised(fault.value) && fault.value !in passedOver)
  }

  /** What an outcome ends the pass with. */
  function PassFault(outcome: Outcome, passedOver: set<Fault>): Option<Fault> {
    if outcome.Raised? && outcome.fault !in passedOver then Some(outcome.fault) else None
  }

  lemma PassGoesOn<T>(tried: seq<Tried<T>>, last: Tried<T>, passedOver: set<Fault>, from: nat, to: nat)
    requires PassEnds(tried, passedOver, None) && InTurn(tried, from, last.start)
    requires from <= last.start <= last.end <= to
    ensures PassEnds(tried + [last], passedOver, PassFault(last.outcome, passedOver))
    ensures InTurn(tried + [last], from, to)
  {
  }

  /** What the exit rules call for among the first `n` listed positions. */
  function Called(rows: seq<Numbered>, n: nat, skip: set<nat>, verdicts: map<nat, Trigger>): (pids: seq<nat>)
    requires n <= |rows|
  {
    if n == 0 then []
    else
      var pid := rows[n - 1].pid;
      Called(rows, n - 1, skip, verdicts) + if pid !in skip && pid in verdicts then [pid] else []
  }

  function Subjects<T>(tried: seq<Tried<T>>): (of: seq<T>)
    ensures |of| == |tried| && forall i :: 0 <= i < |of| ==> of[i] == tried[i].of
  {
    seq(|tried|, i requires 0 <= i < |tried| => tried[i].of)
  }

  const PASSED_EXITS: set<Fault> := {ExitFailed, IllegalTrigger}
  const PASSED_ENTRIES: set<Fault> := {Refusal, PositionState}

  // ------------------------------------------------------------------ exits of a cycle

  /** Each attempt went as its stretch of the log shows. */
  ghost predicate ExitsWent(trace: seq<World>, tried: seq<Tried<nat>>, verdicts: map<nat, Trigger>) {
    forall k :: 0 <= k < |tried| ==>
      && tried[k].start < |trace| && tried[k].end < |trace| && tried[k].of in verdicts
      && ExitWent(trace[tried[k].start], trace[tried[k].end], tried[k].of, verdicts[tried[k].of], tried[k].outcome)
  }

  /** A pass over the first `n` listed positions: exactly what the exit rules call for was tried, in order. */
  ghost predicate ExitPass(rows: seq<Numbered>, n: nat, skip: set<nat>, verdicts: map<nat, Trigger>,
                           tried: seq<Tried<nat>>, fault: Option<Fault>, trace: seq<World>, from: nat) {
    && n <= |rows| && Subjects(tried) == Called(rows, n, skip, verdicts) && PassEnds(tried, PASSED_EXITS, fault)
    && |trace| > 0 && InTurn(tried, from, |trace| - 1) && ExitsWent(trace, tried, verdicts)
  }

  lemma ExitPassStays(rows: seq<Numbered>, n: nat, skip: set<nat>, verdicts: map<nat, Trigger>, tried: seq<Tried<nat>>,
                      fault: Option<Fault>, trace: seq<World>, more: seq<World>, from: nat)
    requires ExitPass(rows, n, skip, verdicts, tried, fault, trace, from) && trace <= more
    ensures ExitPass(rows, n, skip, verdicts, tried, fault, more, from)
  {
    forall k | 0 <= k < |tried| ensures tried[k].start < |more| && tried[k].end < |more|
                                        && more[tried[k].start] == trace[tried[k].start]
                                        && more[tried[k].end] == trace[tried[k].end] {}
  }

  lemma ExitTried(rows: seq<Numbered>, i: nat, skip: set<nat>, verdicts: map<nat, Trigger>, tried: seq<Tried<nat>>,
                  last: Tried<nat>, trace: seq<World>, more: seq<World>, from: nat)
    requires i < |rows| && rows[i].pid !in skip && rows[i].pid in verdicts && last.of == rows[i].pid
    requires ExitPass(rows, i, skip, verdicts, tried, None, trace, from) && trace <= more
    requires from <= |trace| - 1 <= last.start <= last.end == |more| - 1
    requires ExitWent(more[last.start], more[last.end], last.of, verdicts[last.of], last.outcome)
    ensures ExitPass(rows, i + 1, skip, verdicts, tried + [last], PassFault(last.outcome, PASSED_EXITS), more, from)
  {
    ExitPassStays(rows, i, skip, verdicts, tried, None, trace, more, from);
    PassGoesOn(tried, last, PASSED_EXITS, from, |more| - 1);
    assert Subjects(tried + [last]) == Subjects(tried) + [last.of];
    forall k | 0 <= k < |tried + [last]|
      ensures ExitWent(more[(tried + [last])[k].start], more[(tried + [last])[k].end], (tried + [last])[k].of,
                       verdicts[(tried + [last])[k].of], (tried + [last])[k].outcome)
    {
      if k < |tried| {
        assert (tried + [last])[k] == tried[k];
      }
    }
  }

  /** One exit, after whatever the others did; its own section began at `start`. */
  method ExitSection(bot: Bot, pid: nat, trigger: Trigger, company: Company, stopPct: real, ghost rows: seq<Numbered>,
                     ghost i: nat, ghost skip: set<nat>)
    returns (r: Outcome, alone: bool, ghost start: nat)
    requires bot.Valid() && pid in bot.positions && !company.Anyone?
    requires DistinctRows(rows) && i < |rows| && rows[i].pid == pid && pid !in skip
    requires bot.positions[pid].ticker == rows[i].row.ticker
    modifies bot
    ensures bot.Valid() && bot.Later() && PositionsPersist(old(bot.View()), bot.View())
    ensures |old(bot.log)| <= start <= |bot.log| && ExitWent(bot.trace[start], bot.View(), pid, trigger, r)
    ensures company.Alone? ==> bot.even == old(bot.even)
    ensures old(Matched(bot.View())) && alone ==> Matched(bot.View()) && bot.even == old(bot.even)
    ensures old(Matched(bot.View()) && Waiting(rows, i, skip, bot.View())) ==>
              && Waiting(rows, i + 1, skip, bot.View())
              && (Uncontested(bot.trace, bot.log, |old(bot.log)|, |bot.log|) ==> alone)
  {
    hide Matched, ExitWent, Uncontested;
    ghost var v := bot.View();
    Between(bot, company, stopPct);
    bot.LaterPersists();
    label between:
    start := |bot.log|;
    ghost var u := bot.View();
    if Matched(v) && Waiting(rows, i, skip, v) {
      WaitingStays(rows, i, skip, v, u);
    }
    r, alone := TryExit(bot, pid, trigger);
    UncontestedLater(bot.trace, bot.log, |old(bot.log)|, start, |bot.log|);
    bot.LaterPersists@between();
    if Matched(v) && Waiting(rows, i, skip, v) {
      OneFewerWaits(rows, i, skip, u, bot.View());
    }
    bot.LaterPersists();
  }

  lemma UncontestedLater(trace: seq<World>, log: seq<Action>, from: nat, later: nat, to: nat)
    requires from <= later <= to <= |log| < |trace|
    ensures Uncontested(trace, log, from, to) ==> Uncontested(trace, log, later, to)
  {
  }

  lemma OneFewerWaits(rows: seq<Numbered>, i: nat, skip: set<nat>, v: World, w: World)
    requires DistinctRows(rows) && i < |rows| && Waiting(rows, i, skip, v) && OrdersPersist(v, w)
    requires OnlyAbout(v, w, rows[i].pid) && v.positions[rows[i].pid].ticker == rows[i].row.ticker
    requires rows[i].pid !in skip
    ensures Waiting(rows, i + 1, skip, w)
    ensures v.positions[rows[i].pid].Open() || !OneOpenOn(v.positions, rows[i].row.ticker)
  {
    OthersWait(rows, i, i, skip, v, w);
    assert StandsOrSpent(rows[i], v);
    forall j | i + 1 <= j < |rows| && rows[j].pid !in skip ensures StandsOrSpent(rows[j], w) {
      assert rows[j].pid !in skip + {rows[i].pid};
    }
  }

  /** `verdicts` is what the exit rules say of each position. Everything they call for is tried, once and
      in order, until a fault that is neither a failed exit nor a refused stop-loss. */
  method SubmitExits(bot: Bot, rows: seq<Numbered>, skip: set<nat>, verdicts: map<nat, Trigger>, company: Company,
                     stopPct: real)
    returns (fault: Option<Fault>, alone: bool, ghost tried: seq<Tried<nat>>, ghost reached: nat)
    requires bot.Valid() && DistinctRows(rows) && AllThere(rows, bot.positions) && !company.Anyone?
    modifies bot
    ensures bot.Valid() && bot.Later() && (company.Alone? ==> bot.even == old(bot.even))
    ensures old(Matched(bot.View())) && alone ==> Matched(bot.View()) && bot.even == old(bot.even)
    ensures old(Matched(bot.View()) && Waiting(rows, 0, skip, bot.View())) ==>
              (Uncontested(bot.trace, bot.log, |old(bot.log)|, |bot.log|) ==> alone)
    ensures ExitPass(rows, reached, skip, verdicts, tried, fault, bot.trace, |old(bot.log)|)
    ensures (fault.None? ==> reached == |rows|)
  {
    hide Matched, Uncontested, ExitPass, Waiting;
    ghost var n, calm, ready := |bot.log|, Matched(bot.View()), Waiting(rows, 0, skip, bot.View());
    fault, alone, tried, reached := None, true, [], 0;
    NothingTried(rows, skip, verdicts, bot.trace, n);
    for i := 0 to |rows|
      invariant bot.Valid() && bot.Later() && fault.None? && reached == i
      invariant (company.Alone? ==> bot.even == old(bot.even))
      invariant calm && alone ==> Matched(bot.View()) && bot.even == old(bot.even)
      invariant calm && ready && alone ==> Waiting(rows, i, skip, bot.View())
      invariant calm && ready && Uncontested(bot.trace, bot.log, n, |bot.log|) ==> alone
      invariant AllThere(rows, bot.positions) && ExitPass(rows, i, skip, verdicts, tried, None, bot.trace, n)
    {
      var pid := rows[i].pid;
      if pid !in skip && pid in verdicts {
        ghost var trace, log, before := bot.trace, bot.log, bot.View();
        var r, first;
        ghost var start;
        r, first, start := ExitSection(bot, pid, verdicts[pid], company, stopPct, rows, i, skip);
        alone := alone && first;
        UncontestedSplit(trace, log, bot.trace, bot.log, n);
        AllStillThere(rows, before, bot.View());
        ghost var last := Tried(pid, r, start, |bot.log|);
        ExitTried(rows, i, skip, verdicts, tried, last, trace, bot.trace, n);
        tried, reached := tried + [last], i + 1;
        if r.Raised? && r.fault != ExitFailed && r.fault != IllegalTrigger {
          fault := Some(r.fault);
          return;
        }
      } else {
        ExitPassedBy(rows, i, skip, verdicts, tried, bot.trace, n, bot.View());
      }
      reached := i + 1;
    }
  }

  lemma NothingTried(rows: seq<Numbered>, skip: set<nat>, verdicts: map<nat, Trigger>, trace: seq<World>, from: nat)
    requires |trace| > 0
    ensures ExitPass(rows, 0, skip, verdicts, [], None, trace, from)
  {
  }

  lemma ExitPassedBy(rows: seq<Numbered>, i: nat, skip: set<nat>, verdicts: map<nat, Trigger>, tried: seq<Tried<nat>>,
                     trace: seq<World>, from: nat, w: World)
    requires i < |rows| && (rows[i].pid in skip || rows[i].pid !in verdicts)
    requires ExitPass(rows, i, skip, verdicts, tried, None, trace, from)
    ensures ExitPass(rows, i + 1, skip, verdicts, tried, None, trace, from)
    ensures Waiting(rows, i, skip, w) ==> Waiting(rows, i + 1, skip, w)
  {
    assert Called(rows, i + 1, skip, verdicts) == Called(rows, i, skip, verdicts);
  }

  /** A stretch is uncontested if and only if both its parts are. */
  lemma UncontestedSplit(trace: seq<World>, log: seq<Action>, trace': seq<World>, log': seq<Action>, from: nat)
    requires trace <= trace' && log <= log' && |trace| == |log| + 1 && |trace'| == |log'| + 1 && from <= |log|
    ensures Uncontested(trace', log', from, |log'|) <==>
            Uncontested(trace, log, from, |log|) && Uncontested(trace', log', |log|, |log'|)
  {
    if Uncontested(trace', log', from, |log'|) {
      forall i | from <= i < |log| ensures !Contested(trace[i], log[i]) {
        assert log'[i] == log[i] && trace'[i] == trace[i];
      }
    }
    if Uncontested(trace, log, from, |log|) && Uncontested(trace', log', |log|, |log'|) {
      forall i | from <= i < |log'| ensures !Contested(trace'[i], log'[i]) {
        if i < |log| {
          assert log'[i] == log[i] && trace'[i] == trace[i];
        }
      }
    }
  }

  ghost predicate AllThere(rows: seq<Numbered>, positions: map<nat, Position>) {
    forall j :: 0 <= j < |rows| ==> rows[j].pid in positions && positions[rows[j].pid].ticker == rows[j].row.ticker
  }

  lemma AllStillThere(rows: seq<Numbered>, v: World, w: World)
    requires AllThere(rows, v.positions) && PositionsPersist(v, w)
    ensures AllThere(rows, w.positions)
  {
  }

  /** What was sold is closed, then and ever after. */
  lemma SoldAreClosed(bot: Bot, rows: seq<Numbered>, n: nat, skip: set<nat>, verdicts: map<nat, Trigger>,
                      tried: seq<Tried<nat>>, fault: Option<Fault>, from: nat, k: nat)
    requires bot.Valid() && ExitPass(rows, n, skip, verdicts, tried, fault, bot.trace, from)
    requires k < |tried| && tried[k].outcome.Fine?
    ensures tried[k].of in bot.positions && !bot.positions[tried[k].of].Open()
  {
    assert ExitWent(bot.trace[tried[k].start], bot.trace[tried[k].end], tried[k].of, verdicts[tried[k].of],
                    tried[k].outcome);
    RunPersists(bot.trace, bot.log, tried[k].end, |bot.log|);
  }

  // ------------------------------------------------------------------ entries of a cycle

  predicate OpenedIn(tried: seq<Tried<Approved>>, ticker: string) {
    exists k :: 0 <= k < |tried| && tried[k].outcome.Fine? && tried[k].of.ticker == ticker
  }

  /** The first `n` signals in order: each was tried, unless its ticker had been opened before in the pass. */
  ghost predicate SignalsTried(signals: seq<Approved>, n: nat, tried: seq<Tried<Approved>>)
    requires n <= |signals|
  {
    if n == 0 then tried == []
    else
      || (OpenedIn(tried, signals[n - 1].ticker) && SignalsTried(signals, n - 1, tried))
      || (tried != [] && tried[|tried| - 1].of == signals[n - 1]
          && !OpenedIn(tried[..|tried| - 1], signals[n - 1].ticker)
          && SignalsTried(signals, n - 1, tried[..|tried| - 1]))
  }

  ghost predicate EntriesWent(trace: seq<World>, tried: seq<Tried<Approved>>) {
    forall k :: 0 <= k < |tried| ==>
      && tried[k].start < |trace| && tried[k].end < |trace|
      && EntryWent(trace[tried[k].start], trace[tried[k].end], tried[k].of, tried[k].outcome)
  }

  ghost predicate EntryPass(signals: seq<Approved>, n: nat, tried: seq<Tried<Approved>>, fault: Option<Fault>,
                            trace: seq<World>, from: nat) {
    && n <= |signals| && SignalsTried(signals, n, tried) && PassEnds(tried, PASSED_ENTRIES, fault)
    && |trace| > 0 && InTurn(tried, from, |trace| - 1) && EntriesWent(trace, tried)
  }

  lemma EntryPassStays(signals: seq<Approved>, n: nat, tried: seq<Tried<Approved>>, fault: Option<Fault>,
                       trace: seq<World>, more: seq<World>, from: nat)
    requires EntryPass(signals, n, tried, fault, trace, from) && trace <= more
    ensures EntryPass(signals, n, tried, fault, more, from)
  {
    forall k | 0 <= k < |tried| ensures tried[k].start < |more| && tried[k].end < |more|
                                        && more[tried[k].start] == trace[tried[k].start]
                                        && more[tried[k].end] == trace[tried[k].end] {}
  }

  lemma OpenedMore(tried: seq<Tried<Approved>>, last: Tried<Approved>)
    ensures forall t :: OpenedIn(tried + [last], t) <==>
              OpenedIn(tried, t) || (last.outcome.Fine? && last.of.ticker == t)
  {
    var more := tried + [last];
    forall t | OpenedIn(tried, t) ensures OpenedIn(more, t) {
      var k :| 0 <= k < |tried| && tried[k].outcome.Fine? && tried[k].of.ticker == t;
      assert more[k] == tried[k];
    }
    assert more[|tried|] == last;
  }

  /** The tickers the pass has opened. */
  ghost predicate OpenedAre(tried: seq<Tried<Approved>>, tickers: set<string>) {
    forall t :: t in tickers <==> OpenedIn(tried, t)
  }

  lemma EntryTried(signals: seq<Approved>, i: nat, tried: seq<Tried<Approved>>, last: Tried<Approved>,
                   taken: set<string>, trace: seq<World>, more: seq<World>, from: nat)
    requires i < |signals| && EntryPass(signals, i, tried, None, trace, from) && trace <= more && last.of == signals[i]
    requires OpenedAre(tried, taken) && last.of.ticker !in taken
    requires from <= |trace| - 1 <= last.start <= last.end == |more| - 1
    requires EntryWent(more[last.start], more[last.end], last.of, last.outcome)
    ensures EntryPass(signals, i + 1, tried + [last], PassFault(last.outcome, PASSED_ENTRIES), more, from)
    ensures OpenedAre(tried + [last], if last.outcome.Fine? then taken + {last.of.ticker} else taken)
  {
    EntryPassStays(signals, i, tried, None, trace, more, from);
    PassGoesOn(tried, last, PASSED_ENTRIES, from, |more| - 1);
    OpenedMore(tried, last);
    assert (tried + [last])[..|tried|] == tried;
    forall k | 0 <= k < |tried + [last]|
      ensures EntryWent(more[(tried + [last])[k].start], more[(tried + [last])[k].end], (tried + [last])[k].of,
                        (tried + [last])[k].outcome)
    {
      if k < |tried| {
        assert (tried + [last])[k] == tried[k];
      }
    }
  }

  lemma EntryPassedBy(signals: seq<Approved>, i: nat, tried: seq<Tried<Approved>>, taken: set<string>,
                      trace: seq<World>, from: nat)
    requires i < |signals| && EntryPass(signals, i, tried, None, trace, from) && OpenedAre(tried, taken)
    requires signals[i].ticker in taken
    ensures EntryPass(signals, i + 1, tried, None, trace, from)
  {
  }

  /** One entry, after whatever the others did; its own section began at `start`. */
  method EntrySection(bot: Bot, signal: Approved, company: Company, stopPct: real)
    returns (r: Outcome, alone: bool, ghost start: nat)
    requires bot.Valid() && !company.Anyone?
    modifies bot
    ensures bot.Valid() && bot.Later() && (company.Alone? ==> bot.even == old(bot.even))
    ensures |old(bot.log)| <= start <= |bot.log| && EntryWent(bot.trace[start], bot.View(), signal, r)
    ensures old(Matched(bot.View())) && alone ==> Matched(bot.View()) && bot.even == old(bot.even)
    ensures Uncontested(bot.trace, bot.log, |old(bot.log)|, |bot.log|) ==> alone
    ensures company.Alone? ==> forall q :: q in old(bot.positions) ==>
              q in bot.positions && bot.positions[q] == old(bot.positions)[q]
  {
    hide Matched, EntryWent, Uncontested;
    Between(bot, company, stopPct);
    start := |bot.log|;
    r, alone := TryEntry(bot, signal, stopPct);
    UncontestedLater(bot.trace, bot.log, |old(bot.log)|, start, |bot.log|);
  }

  /** A ticker opened earlier in the pass is not tried again; refusals leave the rest of the pass, and
      any other fault ends it. */
  method EvaluateEntries(bot: Bot, signals: seq<Approved>, company: Company, stopPct: real)
    returns (fault: Option<Fault>, alone: bool, ghost tried: seq<Tried<Approved>>, ghost reached: nat)
    requires bot.Valid() && !company.Anyone?
    modifies bot
    ensures bot.Valid() && bot.Later() && (company.Alone? ==> bot.even == old(bot.even))
    ensures old(Matched(bot.View())) && alone ==> Matched(bot.View()) && bot.even == old(bot.even)
    ensures Uncontested(bot.trace, bot.log, |old(bot.log)|, |bot.log|) ==> alone
    ensures EntryPass(signals, reached, tried, fault, bot.trace, |old(bot.log)|)
    ensures (fault.None? ==> reached == |signals|)
    ensures company.Alone? ==> forall q :: q in old(bot.positions) ==>
              q in bot.positions && bot.positions[q] == old(bot.positions)[q]
  {
    hide Matched, Uncontested, EntryPass;
    ghost var n, calm := |bot.log|, Matched(bot.View());
    fault, alone, tried, reached := None, true, [], 0;
    var inThisPass: set<string> := {};
    NoSignalTried(signals, bot.trace, n);
    for i := 0 to |signals|
      invariant bot.Valid() && bot.Later() && fault.None? && reached == i
      invariant (company.Alone? ==> bot.even == old(bot.even))
      invariant calm && alone ==> Matched(bot.View()) && bot.even == old(bot.even)
      invariant Uncontested(bot.trace, bot.log, n, |bot.log|) ==> alone
      invariant EntryPass(signals, i, tried, None, bot.trace, n) && OpenedAre(tried, inThisPass)
      invariant company.Alone? ==> forall q :: q in old(bot.positions) ==>
                  q in bot.positions && bot.positions[q] == old(bot.positions)[q]
    {
      if signals[i].ticker !in inThisPass {
        ghost var trace, log := bot.trace, bot.log;
        var r, first;
        ghost var start;
        r, first, start := EntrySection(bot, signals[i], company, stopPct);
        alone := alone && first;
        UncontestedSplit(trace, log, bot.trace, bot.log, n);
        ghost var last := Tried(signals[i], r, start, |bot.log|);
        EntryTried(signals, i, tried, last, inThisPass, trace, bot.trace, n);
        tried, reached := tried + [last], i + 1;
        if r.Fine? {
          inThisPass := inThisPass + {signals[i].ticker};
        } else if r.fault != Refusal && r.fault != PositionState {
          fault := Some(r.fault);
          return;
        }
      } else {
        EntryPassedBy(signals, i, tried, inThisPass, bot.trace, n);
      }
      reached := i + 1;
    }
  }

  lemma NoSignalTried(signals: seq<Approved>, trace: seq<World>, from: nat)
    requires |trace| > 0
    ensures EntryPass(signals, 0, [], None, trace, from)
  {
  }

  // ------------------------------------------------------------------ the cycle

  /** What a completed cycle has done: when its recovery was over, the open positions it listed and when, those
      it found executed, and what it tried. */
  datatype Deeds = Deeds(recovered: nat, at: nat, rows: seq<Numbered>, closed: set<nat>, sold: nat,
                         exits: seq<Tried<nat>>, entered: nat, entries: seq<Tried<Approved>>)

  /** Every exit called for was tried, and then every signal, in this stretch of the log. */
  ghost predicate Completed(deeds: Deeds, verdicts: map<nat, Trigger>, signals: seq<Approved>, entering: bool,
                            trace: seq<World>, from: nat) {
    && from <= deeds.recovered <= deeds.at <= deeds.sold <= deeds.entered < |trace|
    && ListsOpen(deeds.rows, trace[deeds.at].positions) && AllClosed(deeds.closed, trace[deeds.sold].positions)
    && ExitPass(deeds.rows, |deeds.rows|, deeds.closed, verdicts, deeds.exits, None, trace, deeds.sold)
    && (entering ==> EntryPass(signals, |signals|, deeds.entries, None, trace, deeds.entered))
  }

  /** A cycle cut short by the exits or the entries it tried: the last one raised the fault. */
  ghost predicate SubmitsEnded(deeds: Deeds, fault: Fault, verdicts: map<nat, Trigger>, signals: seq<Approved>,
                               entering: bool, trace: seq<World>) {
    || (exists n :: ExitPass(deeds.rows, n, deeds.closed, verdicts, deeds.exits, Some(fault), trace, deeds.sold))
    || (entering && ExitPass(deeds.rows, |deeds.rows|, deeds.closed, verdicts, deeds.exits, None, trace, deeds.sold)
        && exists n :: EntryPass(signals, n, deeds.entries, Some(fault), trace, deeds.entered))
  }

  /** A listed position's stop had executed. */
  ghost predicate SomeFired(rows: seq<Numbered>, trace: seq<World>, from: nat) {
    exists n, i :: n in rows && from <= i < |trace| && HasFired(trace[i], n.pid)
  }

  /** Why a cycle did not complete: the broker knew no price for an executed stop, or the submitting ended. */
  ghost predicate Interrupted(deeds: Deeds, fault: Fault, verdicts: map<nat, Trigger>, signals: seq<Approved>,
                              entering: bool, trace: seq<World>, from: nat) {
    && from <= deeds.recovered <= deeds.at < |trace| && ListsOpen(deeds.rows, trace[deeds.at].positions)
    && ((fault.NoFill? && SomeFired(deeds.rows, trace, deeds.at))
        || (deeds.at <= deeds.sold && SubmitsEnded(deeds, fault, verdicts, signals, entering, trace)))
  }

  /** The exchange has executed the stop the position's standing row names. */
  predicate HasFired(w: World, pid: nat) {
    exists k :: k in w.stopRows && w.stopRows[k].position == pid && w.stopRows[k].status.Standing()
                && w.stopRows[k].sid.Some? && w.stopRows[k].sid.value in w.broker.stops
                && w.broker.stops[w.stopRows[k].sid.value].state.Fired?
  }

  /** Every listed position whose stop had executed was closed on it. */
  ghost predicate FiredClosed(rows: seq<Numbered>, closed: set<nat>, w: World) {
    forall n :: n in rows && n.row.protection.Exchange? && HasFired(w, n.pid) ==> n.pid in closed
  }

  lemma FiredAreClosed(rows: seq<Numbered>, closed: set<nat>, fills: map<nat, StopFill>, v: World, w: World,
                       now: map<Id, StopRow>, positions: map<nat, Position>)
    requires w.stopRows == v.stopRows && StopsKept(v.broker, w.broker) && AllTold(fills, w.broker.stops)
    requires ClosedSoFar(rows, |rows|, closed, fills, w.stopRows, now, positions)
    ensures FiredClosed(rows, closed, v)
  {
    forall n | n in rows && n.row.protection.Exchange? && HasFired(v, n.pid) ensures n.pid in closed {
      var j :| 0 <= j < |rows| && rows[j] == n;
      assert Reported(w.stopRows, fills, n.pid);
    }
  }

  /** Recovery, executed stops, exits, entries, with the drain's sections in between or alone. `entering`:
      the day's loss could be measured, and neither a halt nor the shutdown forbids entries. As long as
      nothing submitted was contested, the cycle leaves the lot ledger as it was, and ready for the next. */
  method TradingCycle(bot: Bot, verdicts: map<nat, Trigger>, signals: seq<Approved>, entering: bool, company: Company,
                      stopPct: real)
    returns (fault: Option<Fault>, alone: bool, ghost deeds: Deeds)
    requires bot.Valid() && Matched(bot.View()) && !company.Anyone?
    modifies bot
    ensures bot.Valid() && bot.Later() && (company.Alone? ==> bot.even == old(bot.even))
    ensures alone ==> Matched(bot.View()) && bot.even == old(bot.even)
    ensures Uncontested(bot.trace, bot.log, |old(bot.log)|, |bot.log|) ==> alone
    ensures fault.None? ==> Completed(deeds, verdicts, signals, entering, bot.trace, |old(bot.log)|)
    ensures fault.None? && bot.obliging ==>
              deeds.at < |bot.trace| && FiredClosed(deeds.rows, deeds.closed, bot.trace[deeds.at])
    ensures bot.obliging && company.Alone? ==>
              && deeds.recovered < |bot.trace|
              && RecoveredAll(old(bot.View()), bot.trace[deeds.recovered], bot.lotSizes, stopPct)
              && (fault.Some? ==>
                    Interrupted(deeds, fault.value, verdicts, signals, entering, bot.trace, |old(bot.log)|))
  {
    hide Matched, Uncontested, Completed, Interrupted, FiredClosed, RecoveredAll, RecoveredSoFar;
    ghost var v := bot.View();
    alone, deeds := true, Deeds(|bot.log|, 0, [], {}, 0, [], 0, []);
    var pending := ListUnresolved(bot);
    fault := ResolveUnfinished(bot, pending, stopPct, company);
    if fault.Some? {
      return;
    }
    ghost var recovered := |bot.log|;
    if bot.obliging && company.Alone? {
      AllSettled(v, bot.View(), pending, bot.lotSizes, stopPct);
    }
    fault, alone, deeds := Trade(bot, verdicts, signals, entering, company, stopPct, |old(bot.log)|);
    UncontestedLater(bot.trace, bot.log, |old(bot.log)|, recovered, |bot.log|);
  }

  /** The cycle once unfinished orders have been looked at. */
  method Trade(bot: Bot, verdicts: map<nat, Trigger>, signals: seq<Approved>, entering: bool, company: Company,
               stopPct: real, ghost from: nat)
    returns (fault: Option<Fault>, alone: bool, ghost deeds: Deeds)
    requires bot.Valid() && Matched(bot.View()) && !company.Anyone? && from <= |bot.log|
    modifies bot
    ensures bot.Valid() && bot.Later() && (company.Alone? ==> bot.even == old(bot.even))
    ensures alone ==> Matched(bot.View()) && bot.even == old(bot.even)
    ensures Uncontested(bot.trace, bot.log, |old(bot.log)|, |bot.log|) ==> alone
    ensures fault.None? ==> Completed(deeds, verdicts, signals, entering, bot.trace, from)
    ensures deeds.recovered == |old(bot.log)|
    ensures fault.None? && bot.obliging ==>
              deeds.at < |bot.trace| && FiredClosed(deeds.rows, deeds.closed, bot.trace[deeds.at])
    ensures fault.Some? && bot.obliging ==>
              Interrupted(deeds, fault.value, verdicts, signals, entering, bot.trace, from)
  {
    hide Matched, Uncontested, Completed, ClosedSoFar, OneOpenOn, Waiting, SubmitsEnded, SomeFired, HasFired;
    ghost var listed := bot.View();
    alone, deeds := true, Deeds(|bot.log|, 0, [], {}, 0, [], 0, []);
    var rows := ListOpen(bot);
    deeds := deeds.(at := |bot.log|, rows := rows);
    var told := AskExecuted(bot, rows);
    ghost var asked := bot.View();
    var closed: set<nat>;
    ghost var asking := |bot.log|;
    closed, fault := CloseExecuted(bot, rows, told, company, stopPct);
    if fault.Some? {
      if bot.obliging {
        UnpricedHasFired(rows, told, asked, bot.trace, deeds.at, asking);
      }
      return;
    }
    bot.LaterPersists();
    StillListed(rows, old(bot.View()), bot.View());
    if bot.obliging {
      ListedFiredClosed(rows, told, listed, asked, closed, bot.View());
    }
    ghost var closing := |bot.log|;
    deeds := deeds.(closed := closed, sold := closing);
    fault, alone, deeds := ActOn(bot, rows, closed, verdicts, signals, entering, company, stopPct, deeds, from);
    UncontestedLater(bot.trace, bot.log, |old(bot.log)|, closing, |bot.log|);
  }

  lemma UnpricedHasFired(rows: seq<Numbered>, told: Option<map<nat, StopFill>>, asked: World, trace: seq<World>,
                         from: nat, asking: nat)
    requires from <= asking < |trace| && trace[asking] == asked
    requires told.Some? && Executions(told.value, asked.broker.stops)
    requires exists n :: n in rows && Unpriced(asked.stopRows, told.value, n.pid)
    ensures SomeFired(rows, trace, from)
  {
    var n :| n in rows && Unpriced(asked.stopRows, told.value, n.pid);
    assert HasFired(trace[asking], n.pid);
  }

  /** The executed stops, asked for only where the exchange protects a listed position. */
  method AskExecuted(bot: Bot, rows: seq<Numbered>) returns (told: Option<map<nat, StopFill>>)
    requires bot.Valid() && Matched(bot.View())
    modifies bot
    ensures bot.Valid() && bot.Onward() && bot.TablesKept() && bot.even == old(bot.even) && Matched(bot.View())
    ensures told.Some? ==> Executions(told.value, bot.broker.stops)
    ensures bot.obliging && AnyProtected(rows) ==> told.Some? && AllTold(told.value, bot.broker.stops)
  {
    told := None;
    if exists j :: 0 <= j < |rows| && rows[j].row.protection.Exchange? {
      told := GetExecutedStopFills(bot);
      KeptMatched(bot);
    }
  }

  lemma StillListed(rows: seq<Numbered>, v: World, w: World)
    requires ListsOpen(rows, v.positions) && PositionsPersist(v, w)
    ensures AllThere(rows, w.positions)
  {
    assert forall j :: 0 <= j < |rows| ==> rows[j] in rows;
  }

  lemma ListedFiredClosed(rows: seq<Numbered>, told: Option<map<nat, StopFill>>, v: World, w: World, closed: set<nat>,
                          now: World)
    requires w.stopRows == v.stopRows && StopsKept(v.broker, w.broker)
    requires AnyProtected(rows) ==>
               && told.Some? && AllTold(told.value, w.broker.stops)
               && ClosedSoFar(rows, |rows|, closed, told.value, w.stopRows, now.stopRows, now.positions)
    ensures FiredClosed(rows, closed, v)
  {
    if AnyProtected(rows) {
      FiredAreClosed(rows, closed, told.value, v, w, now.stopRows, now.positions);
    }
  }

  /** The submitting half of the cycle. */
  method ActOn(bot: Bot, rows: seq<Numbered>, closed: set<nat>, verdicts: map<nat, Trigger>, signals: seq<Approved>,
               entering: bool, company: Company, stopPct: real, ghost before: Deeds, ghost from: nat)
    returns (fault: Option<Fault>, alone: bool, ghost deeds: Deeds)
    requires bot.Valid() && DistinctRows(rows) && AllThere(rows, bot.positions) && !company.Anyone?
    requires Matched(bot.View()) && Waiting(rows, 0, closed, bot.View())
    requires from <= before.recovered <= before.at <= before.sold == |bot.log|
    requires before.rows == rows && before.closed == closed
    requires ListsOpen(rows, bot.trace[before.at].positions) && AllClosed(closed, bot.positions)
    modifies bot
    ensures bot.Valid() && bot.Later() && (company.Alone? ==> bot.even == old(bot.even))
    ensures alone ==> Matched(bot.View()) && bot.even == old(bot.even)
    ensures Uncontested(bot.trace, bot.log, |old(bot.log)|, |bot.log|) ==> alone
    ensures fault.None? ==> Completed(deeds, verdicts, signals, entering, bot.trace, from)
    ensures deeds.recovered == before.recovered && deeds.at == before.at && deeds.rows == rows && deeds.closed == closed
    ensures deeds.sold == before.sold
    ensures fault.Some? ==> SubmitsEnded(deeds, fault.value, verdicts, signals, entering, bot.trace)
  {
    hide Matched, Uncontested, ExitPass, EntryPass, Waiting, OneOpenOn, ListsOpen, AllClosed;
    ghost var n := |bot.log|;
    ghost var exits, entries, reached;
    deeds := before;
    fault, alone, exits, reached := SubmitExits(bot, rows, closed, verdicts, company, stopPct);
    deeds := deeds.(exits := exits, entered := |bot.log|);
    if fault.Some? || !entering {
      return;
    }
    ghost var trace, log := bot.trace, bot.log;
    var entered;
    fault, entered, entries, reached := EvaluateEntries(bot, signals, company, stopPct);
    alone := alone && entered;
    UncontestedSplit(trace, log, bot.trace, bot.log, n);
    ExitPassStays(rows, |rows|, closed, verdicts, exits, None, trace, bot.trace, n);
    deeds := deeds.(entries := entries);
  }

  // ------------------------------------------------------------------ the ledger of a session

  /** Between sections no exit is lost, so the ledger counts the unresolved ones only. */
  lemma MatchedLedger(w: World, ticker: string)
    requires Matched(w)
    ensures LostExits(w, ticker) == 0 && Imbalance(w, ticker) == Gap(w, ticker)
  {
    NothingLost(w, ticker);
    ImbalanceIsGapLessLost(w, ticker);
  }

  /** Conservation at the broker, on every ticker: broker lots stay open lots, plus fills of entries that
      opened nothing, minus fills of unresolved exits, minus executed stops nothing was closed on. */
  lemma LedgerKept(bot: Bot, i: nat, ticker: string)
    requires bot.Valid() && bot.even && Matched(bot.View()) && i <= |bot.log| && Matched(bot.trace[i])
    ensures Imbalance(bot.View(), ticker) == Imbalance(bot.trace[i], ticker)
  {
    assert Inv(bot.trace[0]);
    EvenRunKeepsLedger(bot.trace, bot.log, i, ticker);
    EvenRunKeepsLedger(bot.trace, bot.log, |bot.log|, ticker);
    MatchedLedger(bot.View(), ticker);
    MatchedLedger(bot.trace[i], ticker);
  }

  /** What the exit rules and the strategies say in one cycle, and whether entries are allowed. */
  datatype Advice = Advice(verdicts: map<nat, Trigger>, signals: seq<Approved>, entering: bool)

  /** One cycle of a session: its stretch of the log, and how it went. */
  datatype Cycle = Cycle(start: nat, end: nat, fault: Option<Fault>, deeds: Deeds)

  /** A cycle without a fault did all of what was advised; with an obliging broker and nobody beside it, it also
      recovered what was over first, and a fault has its reason in what it did. `trace` ends with the cycle. */
  ghost predicate CycleWent(c: Cycle, advice: Advice, trace: seq<World>, certain: bool, lotSizes: string -> nat,
                            stopPct: real) {
    && c.start <= c.end == |trace| - 1
    && (c.fault.None? ==> Completed(c.deeds, advice.verdicts, advice.signals, advice.entering, trace, c.start))
    && (certain ==>
          && c.deeds.recovered < |trace| && RecoveredAll(trace[c.start], trace[c.deeds.recovered], lotSizes, stopPct)
          && (c.fault.Some? ==>
                Interrupted(c.deeds, c.fault.value, advice.verdicts, advice.signals, advice.entering, trace, c.start)))
  }

  /** The cycles of a session, one after the other, each on its own stretch of the log. */
  ghost predicate CyclesWent(went: seq<Cycle>, advice: seq<Advice>, trace: seq<World>, from: nat, certain: bool,
                             lotSizes: string -> nat, stopPct: real) {
    && |went| <= |advice|
    && (forall k :: 0 <= k < |went| ==>
          && went[k].end < |trace|
          && CycleWent(went[k], advice[k], trace[..went[k].end + 1], certain, lotSizes, stopPct))
    && (forall j, k :: 0 <= j && k == j + 1 < |went| ==> went[j].end == went[k].start)
    && (went != [] ==> went[0].start == from)
    && |trace| == 1 + if went == [] then from else went[|went| - 1].end
  }

  lemma OneMoreCycle(went: seq<Cycle>, c: Cycle, advice: seq<Advice>, trace: seq<World>, more: seq<World>, from: nat,
                     certain: bool, lotSizes: string -> nat, stopPct: real)
    requires CyclesWent(went, advice, trace, from, certain, lotSizes, stopPct) && trace <= more
    requires |went| < |advice| && CycleWent(c, advice[|went|], more, certain, lotSizes, stopPct)
    requires c.start == |trace| - 1 && c.end == |more| - 1
    ensures CyclesWent(went + [c], advice, more, from, certain, lotSizes, stopPct)
  {
    hide CycleWent;
    var all := went + [c];
    forall k | 0 <= k < |all|
      ensures all[k].end < |more| && CycleWent(all[k], advice[k], more[..all[k].end + 1], certain, lotSizes, stopPct)
    {
      if k < |went| {
        assert more[..went[k].end + 1] == trace[..went[k].end + 1];
      } else {
        assert more[..c.end + 1] == more;
      }
    }
  }

  lemma NoCycles(advice: seq<Advice>, trace: seq<World>, from: nat, certain: bool, lotSizes: string -> nat,
                 stopPct: real)
    requires |trace| == from + 1
    ensures CyclesWent([], advice, trace, from, certain, lotSizes, stopPct)
  {
  }

  /** Any number of cycles, faults or not, with the drain running beside them or not, one after the other. As long
      as nothing submitted was contested, all of them run, and the ledger of every ticker stays what it was. */
  method Session(bot: Bot, advice: seq<Advice>, company: Company, stopPct: real)
    returns (cycles: nat, ghost went: seq<Cycle>)
    requires bot.Valid() && Matched(bot.View()) && bot.even && !company.Anyone?
    modifies bot
    ensures bot.Valid() && bot.Later() && cycles == |went| <= |advice|
    ensures CyclesWent(went, advice, bot.trace, |old(bot.log)|, bot.obliging && company.Alone?, bot.lotSizes, stopPct)
    ensures Uncontested(bot.trace, bot.log, |old(bot.log)|, |bot.log|) ==>
              && cycles == |advice| && Matched(bot.View()) && bot.even
              && forall t :: Imbalance(bot.View(), t) == Imbalance(old(bot.View()), t)
  {
    hide Matched, Uncontested, Imbalance, CyclesWent, Completed, Interrupted, RecoveredAll, FiredClosed;
    ghost var v, n, certain := bot.View(), |bot.log|, bot.obliging && company.Alone?;
    var alone := true;
    cycles, went := 0, [];
    NoCycles(advice, bot.trace, n, certain, bot.lotSizes, stopPct);
    while cycles < |advice| && alone
      invariant cycles == |went| <= |advice| && bot.Valid() && bot.Later()
      invariant alone ==> Matched(bot.View()) && bot.even
      invariant Uncontested(bot.trace, bot.log, n, |bot.log|) ==> alone
      invariant n <= |bot.log| && bot.trace[n] == v
      invariant CyclesWent(went, advice, bot.trace, n, certain, bot.lotSizes, stopPct)
      decreases |advice| - cycles
    {
      ghost var trace, log := bot.trace, bot.log;
      var fault;
      ghost var deeds;
      fault, alone, deeds :=
        TradingCycle(bot, advice[cycles].verdicts, advice[cycles].signals, advice[cycles].entering, company, stopPct);
      UncontestedSplit(trace, log, bot.trace, bot.log, n);
      ghost var cycle := Cycle(|log|, |bot.log|, fault, deeds);
      OneMoreCycle(went, cycle, advice, trace, bot.trace, n, certain, bot.lotSizes, stopPct);
      cycles, went := cycles + 1, went + [cycle];
    }
    if alone {
      forall t ensures Imbalance(bot.View(), t) == Imbalance(v, t) {
        LedgerKept(bot, n, t);
      }
    }
  }
}
