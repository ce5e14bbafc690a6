/** The atomic steps the bot and its broker can take, and what every run of them keeps.

    Each database call of the program commits on its own, and the process may stop between any
    two awaited calls; so a crash leaves exactly the world some prefix of the step log leads to,
    and a fact about every legal log is a fact about every crash point.
 */
module Protocol {
  import opened Models
  import opened MapSums

  datatype MarketState = Live | Done(outcome: OrderStatus)

  /** A market order as the exchange holds it, with the average price of what it has filled and the
      commission it has charged so far. `booked` is bookkeeping of this model: some local position has
      been opened, closed or shrunk on account of this order's fill. */
  datatype MarketOrder = MarketOrder(ticker: string, side: Side, lots: nat, state: MarketState, filled: nat,
                                     price: real, fee: Option<real>, booked: bool)
  {
    /** What the broker tells of the price and the commission: nothing before the first lot. */
    function Price(): Option<real> {
      if filled > 0 then Some(price) else None
    }

    function Fee(): Option<real> {
      if filled > 0 then fee else None
    }
  }

  datatype StopState = Armed | Fired | Gone

  datatype BrokerStop = BrokerStop(key: Id, ticker: string, lots: nat, price: real, created: int, state: StopState,
                                   booked: bool)

  datatype Broker = Broker(market: map<Id, MarketOrder>, stops: map<nat, BrokerStop>, lots: map<string, int>)
  {
    function Holds(ticker: string): int {
      if ticker in lots then lots[ticker] else 0
    }

    function Moved(ticker: string, n: int): Broker {
      this.(lots := lots[ticker := Holds(ticker) + n])
    }
  }

  datatype World = World(orders: map<Id, Order>, positions: map<nat, Position>, stopRows: map<Id, StopRow>,
                         broker: Broker)

  /** On whose account a position row is closed. */
  datatype Cause = ByOrder(key: Id) | ByStop(key: Id, sid: nat) | ByOwner

  datatype Action =
    // committed table writes
    | RecordSubmitting(key: Id, row: Order)
    | SettleOrder(key: Id, status: OrderStatus, filled: nat, price: Option<real>, fee: Option<real>,
                  brokerId: Option<Id>)
    | OpenRow(pid: nat, key: Id, lotSize: nat, stop: real)
    | AdoptRow(pid: nat, adopted: Position)
    | CloseRow(pid: nat, exit: ExitInfo, cause: Cause)
    | ShrinkRow(pid: nat, key: Id, lots: nat)
    | AdjustRow(pid: nat, lots: nat)
    | Protect(pid: nat, protection: Protection)
    | RecordPlacing(key: Id, stopRow: StopRow)
    | ActivateStop(key: Id, sid: nat)
    | SettleStop(key: Id, ending: StopStatus)
    // requests that reach the broker
    | PostMarket(key: Id)
    | CancelOrder(key: Id)
    | PostStop(key: Id, sid: nat, created: int, held: real)
    | CancelStop(sid: nat)
    // the exchange and the account's owner
    | Fill(key: Id, more: nat, average: real, fee: Option<real>)
    | Finish(key: Id, outcome: OrderStatus)
    | Fire(sid: nat)
    | ForeignTrade(ticker: string, n: int)
    | ForeignStop(sid: nat, foreign: BrokerStop)

  predicate OneOpenOn(positions: map<nat, Position>, ticker: string) {
    exists p :: p in positions && positions[p].Open() && positions[p].ticker == ticker
  }

  predicate StandingOn(stopRows: map<Id, StopRow>, pid: nat) {
    exists k :: k in stopRows && stopRows[k].position == pid && stopRows[k].status.Standing()
  }

  predicate Unseen(stops: map<nat, BrokerStop>, key: Id) {
    forall s :: s in stops ==> stops[s].key != key
  }

  /** A booking needs a locally settled order that can fill no further and was never booked. */
  predicate Bookable(w: World, key: Id, side: Side) {
    && key in w.orders && w.orders[key].status.Terminal()
    && key in w.broker.market && w.broker.market[key].state.Done?
    && w.broker.market[key].side == side && !w.broker.market[key].booked
  }

  /** A fired stop whose own row belongs to the position. */
  predicate FiredFor(w: World, pid: nat, sid: nat) {
    && pid in w.positions && sid in w.broker.stops && w.broker.stops[sid].state.Fired?
    && w.broker.stops[sid].ticker == w.positions[pid].ticker
    && w.broker.stops[sid].key in w.stopRows && w.stopRows[w.broker.stops[sid].key].position == pid
  }

  /** An entry for the ticker whose outcome is not written down yet. */
  predicate Unfinished(orders: map<Id, Order>, key: Id, ticker: string) {
    key in orders && !orders[key].status.Terminal() && orders[key].intent.Entry? && orders[key].ticker == ticker
  }

  predicate Enabled(w: World, a: Action) {
    match a
    case RecordSubmitting(k, row) =>
      k.Ours? && k !in w.orders && row.status.Submitting? && Formed(row)
    case SettleOrder(k, status, _, _, _, _) =>
      && k in w.orders && !w.orders[k].status.Terminal() && status.Terminal()
      && (k in w.broker.market ==> w.broker.market[k].state.Done?)
    case OpenRow(pid, k, _, _) =>
      && 0 < pid && pid !in w.positions && Bookable(w, k, Buy) && w.orders[k].price.Some? && w.orders[k].filled > 0
      && !OneOpenOn(w.positions, w.orders[k].ticker)
    case AdoptRow(pid, p) =>
      && 0 < pid && pid !in w.positions && Unfinished(w.orders, p.openKey, p.ticker)
      && p.lots > 0 && p.Open() && p.protection.Local?
      && !OneOpenOn(w.positions, p.ticker)
    case CloseRow(pid, exit, cause) =>
      && pid in w.positions && w.positions[pid].Open()
      && (cause.ByOrder? ==> Bookable(w, cause.key, Sell) && exit.closeKey == Some(cause.key)
                             && w.broker.market[cause.key].ticker == w.positions[pid].ticker)
      && (cause.ByStop? ==> FiredFor(w, pid, cause.sid) && !w.broker.stops[cause.sid].booked
                            && cause.key in w.orders && exit.closeKey == Some(cause.key))
      && (cause.ByOwner? ==> exit.closeKey.None? && exit.trigger.External?)
    case ShrinkRow(pid, k, n) =>
      && pid in w.positions && w.positions[pid].Open() && 0 < n && Bookable(w, k, Sell)
      && w.broker.market[k].ticker == w.positions[pid].ticker
    case AdjustRow(pid, n) => pid in w.positions && w.positions[pid].Open() && 0 < n
    case Protect(pid, _) => pid in w.positions
    case RecordPlacing(k, row) =>
      && k !in w.stopRows && row.position in w.positions && row.ticker == w.positions[row.position].ticker
      && row.status.Placing? && row.sid.None? && !StandingOn(w.stopRows, row.position)
    case ActivateStop(k, sid) =>
      && k in w.stopRows && w.stopRows[k].status.Standing() && sid in w.broker.stops && w.broker.stops[sid].key == k
    case SettleStop(k, outcome) => k in w.stopRows && w.stopRows[k].status.Standing() && !outcome.Standing()
    case PostMarket(k) => k in w.orders && w.orders[k].status.Submitting? && k !in w.broker.market
    case CancelOrder(_) => true
    case PostStop(k, sid, _, _) =>
      k.Ours? && k in w.stopRows && w.stopRows[k].status.Placing? && sid !in w.broker.stops && Unseen(w.broker.stops, k)
    case CancelStop(_) => true
    case Fill(k, n, _, _) =>
      k in w.broker.market && w.broker.market[k].state.Live? && w.broker.market[k].filled + n <= w.broker.market[k].lots
    case Finish(k, outcome) =>
      && k in w.broker.market && w.broker.market[k].state.Live? && outcome.Terminal()
      && (outcome.Filled? <==> w.broker.market[k].filled == w.broker.market[k].lots)
    case Fire(sid) => sid in w.broker.stops && w.broker.stops[sid].state.Armed?
    case ForeignTrade(_, _) => true
    case ForeignStop(sid, s) => sid !in w.broker.stops && s.key == Theirs(sid) && s.state.Armed? && !s.booked
  }

  function Booked(b: Broker, key: Id): Broker
    requires key in b.market
  {
    b.(market := b.market[key := b.market[key].(booked := true)])
  }

  function SetPosition(w: World, pid: nat, p: Position): World {
    w.(positions := w.positions[pid := p])
  }

  /** The row `db.orders.settle` writes. */
  function SettledRow(row: Order, status: OrderStatus, filled: nat, price: Option<real>, fee: Option<real>,
                      brokerId: Option<Id>): Order {
    row.(status := status, filled := filled, price := price, fee := fee,
         brokerId := if brokerId.Some? then brokerId else row.brokerId)
  }

  /** The row carries the outcome it was settled with, and the broker's identifier where one was given. */
  predicate Carries(row: Order, was: Order, status: OrderStatus, filled: nat, price: Option<real>, fee: Option<real>,
                    brokerId: Option<Id>) {
    && SameRequest(row, was) && row.status == status && row.filled == filled && row.price == price && row.fee == fee
    && row.brokerId == (if brokerId.Some? then brokerId else was.brokerId)
  }

  lemma SettledCarries(was: Order, status: OrderStatus, filled: nat, price: Option<real>, fee: Option<real>,
                       brokerId: Option<Id>)
    ensures Carries(SettledRow(was, status, filled, price, fee, brokerId), was, status, filled, price, fee, brokerId)
  {
  }

  /** The row `db.positions.open` inserts for a filled entry. */
  function OpenedPosition(order: Order, key: Id, lotSize: nat, stop: real): Position
    requires order.price.Some?
  {
    Position(order.ticker, order.filled, lotSize, order.price.value, stop, key, false, None, Local)
  }

  function Signed(side: Side, n: int): int {
    if side.Buy? then n else -n
  }

  function Apply(w: World, a: Action): World
    requires Enabled(w, a)
  {
    match a
    case RecordSubmitting(k, row) => w.(orders := w.orders[k := row])
    case SettleOrder(k, status, filled, price, fee, brokerId) =>
      w.(orders := w.orders[k := SettledRow(w.orders[k], status, filled, price, fee, brokerId)])
    case OpenRow(pid, k, lotSize, stop) =>
      SetPosition(w, pid, OpenedPosition(w.orders[k], k, lotSize, stop)).(broker := Booked(w.broker, k))
    case AdoptRow(pid, p) => SetPosition(w, pid, p)
    case CloseRow(pid, exit, cause) =>
      var closed := SetPosition(w, pid, w.positions[pid].(exit := Some(exit), protection := Local));
      (match cause
       case ByOrder(k) => closed.(broker := Booked(w.broker, k))
       case ByStop(_, sid) =>
         closed.(broker := w.broker.(stops := w.broker.stops[sid := w.broker.stops[sid].(booked := true)]))
       case ByOwner => closed)
    case ShrinkRow(pid, k, n) =>
      SetPosition(w, pid, w.positions[pid].(lots := n)).(broker := Booked(w.broker, k))
    case AdjustRow(pid, n) => SetPosition(w, pid, w.positions[pid].(lots := n))
    case Protect(pid, protection) => SetPosition(w, pid, w.positions[pid].(protection := protection))
    case RecordPlacing(k, row) => w.(stopRows := w.stopRows[k := row])
    case ActivateStop(k, sid) =>
      w.(stopRows := w.stopRows[k := w.stopRows[k].(status := Active, sid := Some(sid))])
    case SettleStop(k, outcome) => w.(stopRows := w.stopRows[k := w.stopRows[k].(status := outcome)])
    case PostMarket(k) =>
      var row := w.orders[k];
      w.(broker := w.broker.(market := w.broker.market[k :=
        MarketOrder(row.ticker, row.side, row.lots, Live, 0, 0.0, None, false)]))
    case CancelOrder(k) =>
      if k in w.broker.market && w.broker.market[k].state.Live?
      then w.(broker := w.broker.(market := w.broker.market[k := w.broker.market[k].(state := Done(Cancelled))]))
      else w
    case PostStop(k, sid, created, held) =>
      var row := w.stopRows[k];
      w.(broker := w.broker.(stops := w.broker.stops[sid :=
        BrokerStop(k, row.ticker, row.lots, held, created, Armed, false)]))
    case CancelStop(sid) =>
      if sid in w.broker.stops && w.broker.stops[sid].state.Armed?
      then w.(broker := w.broker.(stops := w.broker.stops[sid := w.broker.stops[sid].(state := Gone)]))
      else w
    case Fill(k, n, average, fee) =>
      var o := w.broker.market[k];
      var filled := w.broker.(market := w.broker.market[k := o.(filled := o.filled + n, price := average, fee := fee)]);
      w.(broker := filled.Moved(o.ticker, Signed(o.side, n)))
    case Finish(k, outcome) =>
      w.(broker := w.broker.(market := w.broker.market[k := w.broker.market[k].(state := Done(outcome))]))
    case Fire(sid) =>
      var s := w.broker.stops[sid];
      w.(broker := w.broker.(stops := w.broker.stops[sid := s.(state := Fired)]).Moved(s.ticker, -(s.lots as int)))
    case ForeignTrade(ticker, n) => w.(broker := w.broker.Moved(ticker, n))
    case ForeignStop(sid, s) => w.(broker := w.broker.(stops := w.broker.stops[sid := s]))
  }

  /** A behaviour: the world before the first step and after each one. A crash leaves one of them. */
  ghost predicate IsRun(trace: seq<World>, log: seq<Action>) {
    && |trace| == |log| + 1
    && (forall i {:trigger log[i]} :: 0 <= i < |log| ==> IsStep(trace[i], log[i], trace[i + 1]))
  }

  /** Every world of a behaviour keeps the table invariants (`RunKeepsInv`). */
  ghost predicate AllSound(trace: seq<World>) {
    forall i {:trigger Inv(trace[i])} :: 0 <= i < |trace| ==> Inv(trace[i])
  }

  predicate IsStep(v: World, a: Action, w: World) {
    Enabled(v, a) && w == Apply(v, a)
  }

  // ------------------------------------------------------------------ table invariants

  /** Every order key the broker has seen is on disk, and describes the same order there. */
  ghost predicate OrdersWritten(orders: map<Id, Order>, market: map<Id, MarketOrder>) {
    forall k :: k in market ==>
      && k in orders && orders[k].ticker == market[k].ticker
      && orders[k].side == market[k].side && orders[k].lots == market[k].lots
  }

  /** So is every stop key; a stop the bot did not post is named by the broker's own identifier. */
  ghost predicate StopsWritten(stopRows: map<Id, StopRow>, stops: map<nat, BrokerStop>) {
    forall s :: s in stops ==>
      if stops[s].key.Ours?
      then stops[s].key in stopRows && stopRows[stops[s].key].ticker == stops[s].ticker
           && stopRows[stops[s].key].lots == stops[s].lots
      else stops[s].key == Theirs(s)
  }

  /** No client key stands for two stop orders at the broker. */
  ghost predicate KeysOnce(stops: map<nat, BrokerStop>) {
    forall s, r :: (s in stops && r in stops && stops[s].key == stops[r].key) ==> s == r
  }

  ghost predicate BookedIsFinal(orders: map<Id, Order>, market: map<Id, MarketOrder>) {
    forall k :: k in market && market[k].booked ==>
      market[k].state.Done? && k in orders && orders[k].status.Terminal()
  }

  /** An order whose row has settled can fill no further. */
  ghost predicate SettledIsDone(orders: map<Id, Order>, market: map<Id, MarketOrder>) {
    forall k :: k in market && k in orders && orders[k].status.Terminal() ==> market[k].state.Done?
  }

  /** A finished order has an outcome, and is reported filled only when every lot of it was executed. */
  ghost predicate FilledIsFull(market: map<Id, MarketOrder>) {
    forall k :: k in market ==>
      && market[k].filled <= market[k].lots && (market[k].state.Done? ==> market[k].state.outcome.Terminal())
      && (market[k].state == Done(Filled) ==> market[k].filled == market[k].lots)
  }

  ghost predicate BookedHasFired(stops: map<nat, BrokerStop>) {
    forall s :: s in stops && stops[s].booked ==> stops[s].state.Fired?
  }

  /** A row that names a stop of the broker's names its own. */
  ghost predicate RowsNamed(stopRows: map<Id, StopRow>, stops: map<nat, BrokerStop>) {
    forall k :: k in stopRows && stopRows[k].sid.Some? ==>
      stopRows[k].sid.value in stops && stops[stopRows[k].sid.value].key == k
  }

  /** A position is closed on account of its own stop only. */
  ghost predicate BookedIsClosed(w: World) {
    forall s :: s in w.broker.stops && w.broker.stops[s].booked ==>
      && w.broker.stops[s].key in w.stopRows
      && var pid := w.stopRows[w.broker.stops[s].key].position;
      pid in w.positions && !w.positions[pid].Open()
  }

  /** The partial unique index on open positions. */
  ghost predicate OneOpen(positions: map<nat, Position>) {
    forall p, q :: (p in positions && q in positions && positions[p].Open() && positions[q].Open()
                    && positions[p].ticker == positions[q].ticker) ==> p == q
  }

  /** The partial unique index on live stop rows. */
  ghost predicate OneStanding(stopRows: map<Id, StopRow>) {
    forall j, k :: (j in stopRows && k in stopRows && stopRows[j].status.Standing() && stopRows[k].status.Standing()
                    && stopRows[j].position == stopRows[k].position) ==> j == k
  }

  /** Foreign keys, assigned row numbers, and the CHECKs on lots and triggers. */
  ghost predicate PositionsLinked(positions: map<nat, Position>, orders: map<Id, Order>) {
    && 0 !in positions
    && (forall p :: p in positions ==>
          && positions[p].openKey in orders && positions[p].ticker == orders[positions[p].openKey].ticker
          && (positions[p].Open() ==> positions[p].lots > 0))
    && (forall k :: k in orders ==> Formed(orders[k]))
  }

  ghost predicate RowsLinked(stopRows: map<Id, StopRow>, positions: map<nat, Position>) {
    forall k :: k in stopRows ==>
      && stopRows[k].position in positions && stopRows[k].ticker == positions[stopRows[k].position].ticker
      && (stopRows[k].status.Active? ==> stopRows[k].sid.Some?)
  }

  ghost predicate Linked(w: World) {
    PositionsLinked(w.positions, w.orders) && RowsLinked(w.stopRows, w.positions)
  }

  ghost predicate Inv(w: World) {
    && OrdersWritten(w.orders, w.broker.market) && StopsWritten(w.stopRows, w.broker.stops)
    && KeysOnce(w.broker.stops) && BookedIsFinal(w.orders, w.broker.market) && SettledIsDone(w.orders, w.broker.market)
    && FilledIsFull(w.broker.market) && BookedHasFired(w.broker.stops) && OneOpen(w.positions)
    && OneStanding(w.stopRows) && Linked(w)
    && RowsNamed(w.stopRows, w.broker.stops) && BookedIsClosed(w)
  }

  /** What a step may change, by part of the world. */
  predicate TouchesOrders(a: Action) {
    a.RecordSubmitting? || a.SettleOrder?
  }

  predicate TouchesPositions(a: Action) {
    a.OpenRow? || a.AdoptRow? || a.CloseRow? || a.ShrinkRow? || a.AdjustRow? || a.Protect?
  }

  predicate TouchesStopRows(a: Action) {
    a.RecordPlacing? || a.ActivateStop? || a.SettleStop?
  }

  predicate TouchesMarket(a: Action) {
    a.OpenRow? || a.CloseRow? || a.ShrinkRow? || a.PostMarket? || a.CancelOrder? || a.Fill? || a.Finish?
  }

  predicate TouchesStops(a: Action) {
    a.CloseRow? || a.PostStop? || a.CancelStop? || a.Fire? || a.ForeignStop?
  }

  lemma StepTouches(w: World, a: Action)
    requires Enabled(w, a)
    ensures TouchesOrders(a) || Apply(w, a).orders == w.orders
    ensures TouchesPositions(a) || Apply(w, a).positions == w.positions
    ensures TouchesStopRows(a) || Apply(w, a).stopRows == w.stopRows
    ensures TouchesMarket(a) || Apply(w, a).broker.market == w.broker.market
    ensures TouchesStops(a) || Apply(w, a).broker.stops == w.broker.stops
  {
  }

  lemma StepKeepsOrdersWritten(w: World, a: Action)
    requires OrdersWritten(w.orders, w.broker.market) && Enabled(w, a)
    ensures OrdersWritten(Apply(w, a).orders, Apply(w, a).broker.market)
  {
    if !(TouchesOrders(a) || TouchesMarket(a)) {
      StepTouches(w, a);
    }
  }

  lemma StepKeepsStopsWritten(w: World, a: Action)
    requires StopsWritten(w.stopRows, w.broker.stops) && Enabled(w, a)
    ensures StopsWritten(Apply(w, a).stopRows, Apply(w, a).broker.stops)
  {
    if !(TouchesStopRows(a) || TouchesStops(a)) {
      StepTouches(w, a);
    }
  }

  lemma StepKeepsKeysOnce(w: World, a: Action)
    requires StopsWritten(w.stopRows, w.broker.stops) && KeysOnce(w.broker.stops) && Enabled(w, a)
    ensures KeysOnce(Apply(w, a).broker.stops)
  {
    if !TouchesStops(a) {
      StepTouches(w, a);
    }
  }

  lemma StepKeepsBooked(w: World, a: Action)
    requires BookedIsFinal(w.orders, w.broker.market) && Enabled(w, a)
    ensures BookedIsFinal(Apply(w, a).orders, Apply(w, a).broker.market)
  {
    if !(TouchesOrders(a) || TouchesMarket(a)) {
      StepTouches(w, a);
    }
  }

  lemma StepKeepsSettledIsDone(w: World, a: Action)
    requires SettledIsDone(w.orders, w.broker.market) && OrdersWritten(w.orders, w.broker.market) && Enabled(w, a)
    ensures SettledIsDone(Apply(w, a).orders, Apply(w, a).broker.market)
  {
    if !(TouchesOrders(a) || TouchesMarket(a)) {
      StepTouches(w, a);
    }
  }

  lemma StepKeepsFilledIsFull(w: World, a: Action)
    requires FilledIsFull(w.broker.market) && Enabled(w, a)
    ensures FilledIsFull(Apply(w, a).broker.market)
  {
    if !TouchesMarket(a) {
      StepTouches(w, a);
    }
  }

  lemma StepKeepsBookedStops(w: World, a: Action)
    requires BookedHasFired(w.broker.stops) && Enabled(w, a)
    ensures BookedHasFired(Apply(w, a).broker.stops)
  {
    if !TouchesStops(a) {
      StepTouches(w, a);
    }
  }

  lemma StepKeepsOneOpen(w: World, a: Action)
    requires OneOpen(w.positions) && Enabled(w, a)
    ensures OneOpen(Apply(w, a).positions)
  {
    if !TouchesPositions(a) {
      StepTouches(w, a);
    }
  }

  lemma StepKeepsOneStanding(w: World, a: Action)
    requires OneStanding(w.stopRows) && Enabled(w, a)
    ensures OneStanding(Apply(w, a).stopRows)
  {
    if !TouchesStopRows(a) {
      StepTouches(w, a);
    }
  }

  lemma StepKeepsPositionsLinked(w: World, a: Action)
    requires PositionsLinked(w.positions, w.orders) && Enabled(w, a)
    ensures PositionsLinked(Apply(w, a).positions, Apply(w, a).orders)
  {
    if !(TouchesOrders(a) || TouchesPositions(a)) {
      StepTouches(w, a);
    }
  }

  lemma StepKeepsRowsLinked(w: World, a: Action)
    requires RowsLinked(w.stopRows, w.positions) && Enabled(w, a)
    ensures RowsLinked(Apply(w, a).stopRows, Apply(w, a).positions)
  {
    if !(TouchesStopRows(a) || TouchesPositions(a)) {
      StepTouches(w, a);
    }
  }

  lemma StepKeepsRowsNamed(w: World, a: Action)
    requires RowsNamed(w.stopRows, w.broker.stops) && Enabled(w, a)
    ensures RowsNamed(Apply(w, a).stopRows, Apply(w, a).broker.stops)
  {
    if !(TouchesStopRows(a) || TouchesStops(a)) {
      StepTouches(w, a);
    }
  }

  lemma StepKeepsBookedIsClosed(w: World, a: Action)
    requires BookedIsClosed(w) && Enabled(w, a)
    ensures BookedIsClosed(Apply(w, a))
  {
    if !(TouchesPositions(a) || TouchesStopRows(a) || TouchesStops(a)) {
      StepTouches(w, a);
    }
  }

  lemma StepKeepsInv(w: World, a: Action)
    requires Inv(w) && Enabled(w, a)
    ensures Inv(Apply(w, a))
  {
    StepKeepsOrdersWritten(w, a);
    StepKeepsStopsWritten(w, a);
    StepKeepsKeysOnce(w, a);
    StepKeepsBooked(w, a);
    StepKeepsSettledIsDone(w, a);
    StepKeepsFilledIsFull(w, a);
    StepKeepsBookedStops(w, a);
    StepKeepsOneOpen(w, a);
    StepKeepsOneStanding(w, a);
    StepKeepsPositionsLinked(w, a);
    StepKeepsRowsLinked(w, a);
    StepKeepsRowsNamed(w, a);
    StepKeepsBookedIsClosed(w, a);
  }

  /** Safety over whole runs, and so at every crash point of one. */
  lemma {:induction false} RunKeepsInv(trace: seq<World>, log: seq<Action>, i: nat)
    requires IsRun(trace, log) && Inv(trace[0]) && i <= |log|
    ensures Inv(trace[i])
  {
    if i > 0 {
      RunKeepsInv(trace, log, i - 1);
      assert IsStep(trace[i - 1], log[i - 1], trace[i]);
      StepKeepsInv(trace[i - 1], log[i - 1]);
    }
  }

  /** A crash after any step, and whatever the restarted process does from the world it left, make up
      one run again: what holds of every run holds across crashes. */
  lemma CrashJoinsRuns(before: seq<World>, done: seq<Action>, i: nat, after: seq<World>, next: seq<Action>)
    requires IsRun(before, done) && i <= |done| && IsRun(after, next) && after[0] == before[i]
    ensures IsRun(before[..i] + after, done[..i] + next)
  {
    var trace, log := before[..i] + after, done[..i] + next;
    forall j {:trigger log[j]} | 0 <= j < |log| ensures IsStep(trace[j], log[j], trace[j + 1]) {
      if j < i {
        assert log[j] == done[j] && IsStep(before[j], done[j], before[j + 1]);
        assert trace[j] == before[j] && trace[j + 1] == before[j + 1];
      } else {
        assert log[j] == next[j - i] && trace[j] == after[j - i] && trace[j + 1] == after[j - i + 1];
      }
    }
  }

  // ------------------------------------------------------------------ what never comes undone

  /** Rows and broker orders persist: what was requested never changes, a terminal row and a
      finished order never change at all, and a booking is never taken back. */
  ghost predicate OrdersPersist(v: World, w: World) {
    forall k :: k in v.orders ==>
      && k in w.orders && SameRequest(v.orders[k], w.orders[k])
      && (v.orders[k].status.Terminal() ==> w.orders[k] == v.orders[k])
  }

  /** What an order at the exchange can become. */
  predicate Becomes(o: MarketOrder, later: MarketOrder) {
    && later.ticker == o.ticker && later.side == o.side && later.lots == o.lots && o.filled <= later.filled
    && (o.state.Done? ==>
          later.state == o.state && later.filled == o.filled && later.price == o.price && later.fee == o.fee)
    && (o.booked ==> later.booked)
  }

  ghost predicate MarketPersists(v: Broker, w: Broker) {
    forall k :: k in v.market ==> k in w.market && Becomes(v.market[k], w.market[k])
  }

  ghost predicate StopsPersist(v: Broker, w: Broker) {
    forall s :: s in v.stops ==>
      && s in w.stops && w.stops[s].key == v.stops[s].key && w.stops[s].lots == v.stops[s].lots
      && w.stops[s].ticker == v.stops[s].ticker && (!v.stops[s].state.Armed? ==> w.stops[s].state == v.stops[s].state)
      && (v.stops[s].booked ==> w.stops[s].booked)
  }

  /** An order that settled without reaching the exchange never reaches it. */
  ghost predicate UnpostedPersist(v: World, w: World) {
    forall k :: k in v.orders && v.orders[k].status.Terminal() && k !in v.broker.market ==> k !in w.broker.market
  }

  /** No position row disappears, and a closed one stays closed as it was. */
  ghost predicate PositionsPersist(v: World, w: World) {
    forall p :: p in v.positions ==>
      && p in w.positions && w.positions[p].ticker == v.positions[p].ticker
      && w.positions[p].openKey == v.positions[p].openKey
      && (!v.positions[p].Open() ==> w.positions[p].exit == v.positions[p].exit)
  }

  ghost predicate Persists(v: World, w: World) {
    && OrdersPersist(v, w) && UnpostedPersist(v, w) && PositionsPersist(v, w)
    && MarketPersists(v.broker, w.broker) && StopsPersist(v.broker, w.broker)
  }

  lemma StepPersistsOrders(w: World, a: Action)
    requires Enabled(w, a)
    ensures OrdersPersist(w, Apply(w, a))
  {
    if !TouchesOrders(a) {
      StepTouches(w, a);
    }
  }

  lemma StepPersistsMarket(w: World, a: Action)
    requires Enabled(w, a)
    ensures MarketPersists(w.broker, Apply(w, a).broker)
  {
    if !TouchesMarket(a) {
      StepTouches(w, a);
    }
  }

  lemma StepPersistsStops(w: World, a: Action)
    requires Enabled(w, a)
    ensures StopsPersist(w.broker, Apply(w, a).broker)
  {
    if !TouchesStops(a) {
      StepTouches(w, a);
    }
  }

  lemma StepPersistsUnposted(w: World, a: Action)
    requires Enabled(w, a)
    ensures UnpostedPersist(w, Apply(w, a))
  {
    if !TouchesMarket(a) {
      StepTouches(w, a);
    }
  }

  lemma StepPersistsPositions(w: World, a: Action)
    requires Enabled(w, a)
    ensures PositionsPersist(w, Apply(w, a))
  {
    if !TouchesPositions(a) {
      StepTouches(w, a);
    }
  }

  lemma PersistsReflexive(w: World)
    ensures Persists(w, w)
  {
  }

  lemma PersistsTransitive(u: World, v: World, w: World)
    requires Persists(u, v) && Persists(v, w)
    ensures Persists(u, w)
  {
  }

  lemma PersistsOneMore(u: World, v: World, a: Action)
    requires Persists(u, v) && Enabled(v, a)
    ensures Persists(u, Apply(v, a))
  {
    StepPersistsOrders(v, a);
    StepPersistsUnposted(v, a);
    StepPersistsPositions(v, a);
    StepPersistsMarket(v, a);
    StepPersistsStops(v, a);
    PersistsTransitive(u, v, Apply(v, a));
  }

  lemma {:induction false} RunPersists(trace: seq<World>, log: seq<Action>, i: nat, j: nat)
    requires IsRun(trace, log) && i <= j <= |log|
    ensures Persists(trace[i], trace[j])
    decreases j - i
  {
    if i == j {
      PersistsReflexive(trace[i]);
    } else {
      RunPersists(trace, log, i, j - 1);
      assert IsStep(trace[j - 1], log[j - 1], trace[j]);
      PersistsOneMore(trace[i], trace[j - 1], log[j - 1]);
    }
  }

  /** Each market key reaches the broker at most once in a run, whatever crashes cut it, and only
      while its row is on disk and unsettled. */
  lemma MarketPostedOnce(trace: seq<World>, log: seq<Action>, i: nat, j: nat, key: Id)
    requires IsRun(trace, log) && i <= j < |log|
    requires log[i] == PostMarket(key) && log[j] == PostMarket(key)
    ensures i == j && key in trace[i].orders && !trace[i].orders[key].status.Terminal()
  {
    assert IsStep(trace[i], log[i], trace[i + 1]);
    if i < j {
      RunPersists(trace, log, i + 1, j);
    }
  }

  lemma StopKeySeen(trace: seq<World>, log: seq<Action>, i: nat, j: nat)
    requires IsRun(trace, log) && i < j <= |log| && log[i].PostStop?
    ensures !Unseen(trace[j].broker.stops, log[i].key)
  {
    assert IsStep(trace[i], log[i], trace[i + 1]);
    RunPersists(trace, log, i + 1, j);
    var after, later := trace[i + 1].broker.stops, trace[j].broker.stops;
    assert log[i].sid in after && after[log[i].sid].key == log[i].key;
  }

  /** So does each stop key. */
  lemma StopPostedOnce(trace: seq<World>, log: seq<Action>, i: nat, j: nat)
    requires IsRun(trace, log) && i <= j < |log|
    requires log[i].PostStop? && log[j].PostStop? && log[i].key == log[j].key
    ensures i == j && log[i].key in trace[i].stopRows && trace[i].stopRows[log[i].key].status.Standing()
  {
    assert IsStep(trace[i], log[i], trace[i + 1]);
    if i < j {
      StopKeySeen(trace, log, i, j);
    }
  }

  /** The order on whose account a step opens, closes or shrinks a position. */
  function Books(a: Action): Option<Id> {
    match a
    case OpenRow(_, k, _, _) => Some(k)
    case CloseRow(_, _, ByOrder(k)) => Some(k)
    case ShrinkRow(_, k, _) => Some(k)
    case _ => None
  }

  lemma BookingStays(trace: seq<World>, log: seq<Action>, i: nat, j: nat, key: Id)
    requires IsRun(trace, log) && i < j <= |log| && Books(log[i]) == Some(key)
    ensures key in trace[j].broker.market && trace[j].broker.market[key].booked
  {
    assert IsStep(trace[i], log[i], trace[i + 1]);
    assert key in trace[i + 1].broker.market && trace[i + 1].broker.market[key].booked;
    RunPersists(trace, log, i + 1, j);
  }

  /** One fill moves one position once, and only after its row has settled for good. */
  lemma FillAppliedOnce(trace: seq<World>, log: seq<Action>, i: nat, j: nat, key: Id)
    requires IsRun(trace, log) && i <= j < |log|
    requires Books(log[i]) == Some(key) && Books(log[j]) == Some(key)
    ensures i == j && key in trace[i].orders && trace[i].orders[key].status.Terminal()
  {
    assert IsStep(trace[i], log[i], trace[i + 1]) && IsStep(trace[j], log[j], trace[j + 1]);
    if i < j {
      BookingStays(trace, log, i, j, key);
    }
  }

  // ------------------------------------------------------------------ adopted fills

  /** The positions that stand for an order's fill, opened or adopted. */
  ghost function Carriers(positions: map<nat, Position>, key: Id): set<nat> {
    set p | p in positions && positions[p].openKey == key
  }

  /** The order a step writes a new position for. */
  function Takes(a: Action): Option<Id> {
    match a
    case OpenRow(_, k, _, _) => Some(k)
    case AdoptRow(_, p) => Some(p.openKey)
    case _ => None
  }

  ghost predicate ClosedCarrier(w: World, key: Id) {
    exists p :: p in w.positions && w.positions[p].openKey == key && !w.positions[p].Open()
  }

  /** Whoever writes a position for a fill finds every earlier one for it closed. */
  lemma TakingFindsClosed(w: World, a: Action, key: Id)
    requires Inv(w) && Enabled(w, a) && Takes(a) == Some(key)
    ensures Carriers(w.positions, key) != {} <==> ClosedCarrier(w, key)
    ensures exists pid ::
              pid !in w.positions && Carriers(Apply(w, a).positions, key) == Carriers(w.positions, key) + {pid}
  {
    var pid := a.pid;
    assert pid !in w.positions && Carriers(Apply(w, a).positions, key) == Carriers(w.positions, key) + {pid};
    forall p | p in Carriers(w.positions, key) ensures !w.positions[p].Open() {
      assert w.positions[p].ticker == w.orders[key].ticker;
    }
    if ClosedCarrier(w, key) {
      var p :| p in w.positions && w.positions[p].openKey == key && !w.positions[p].Open();
      assert p in Carriers(w.positions, key);
    }
  }

  lemma CarriersStay(w: World, a: Action, key: Id)
    requires Enabled(w, a) && Takes(a) != Some(key)
    ensures Carriers(Apply(w, a).positions, key) == Carriers(w.positions, key)
  {
    if !TouchesPositions(a) {
      StepTouches(w, a);
    }
  }

  lemma OneMorePosition(v: World, a: Action, w: World, key: Id)
    requires Inv(v) && IsStep(v, a, w)
    ensures Takes(a) != Some(key) ==> Carriers(w.positions, key) == Carriers(v.positions, key)
    ensures Takes(a) == Some(key) ==> (|Carriers(w.positions, key)| <= 1 <==> !ClosedCarrier(v, key))
    ensures |Carriers(v.positions, key)| <= |Carriers(w.positions, key)|
  {
    if Takes(a) == Some(key) {
      TakingFindsClosed(v, a, key);
    } else {
      CarriersStay(v, a, key);
    }
  }

  /** Before the first order. */
  const NOTHING := World(map[], map[], map[], Broker(map[], map[], map[]))

  lemma OneMore(trace: seq<World>, log: seq<Action>, a: Action, w: World)
    requires IsRun(trace, log) && IsStep(trace[|log|], a, w)
    ensures IsRun(trace + [w], log + [a])
  {
  }

  const ENTERING := Order("T", Buy, Entry, 10, None, Submitting, 0, None, None, None)
  const LEAVING := Order("T", Sell, Exit, 10, Some(MaxAge), Submitting, 0, None, None, None)
  const ADOPTED := Position("T", 10, 1, 1.0, 0.9, Ours(0), true, None, Local)
  const BOUGHT := MarketOrder("T", Buy, 10, Done(Filled), 10, 1.0, None, false)
  const SOLD := MarketOrder("T", Sell, 10, Done(Filled), 10, 1.0, None, false)

  /** A run that takes an unanswered entry's fill twice. The portfolio shows the entry's lots, so the
      position is adopted; it is sold; only then is the entry settled, and nothing is open any more. */
  lemma AdoptedFillTakenTwice() returns (trace: seq<World>, log: seq<Action>, key: Id)
    ensures IsRun(trace, log) && trace[0] == NOTHING
    ensures var w := trace[|log|];
            && Carriers(w.positions, key) == {1, 2} && w.positions[2].Open() && w.positions[2].lots == 10
            && w.broker.Holds(w.positions[2].ticker) == 0
  {
    key := Ours(0);
    trace, log := BoughtUnanswered();
    trace, log := AdoptedThenSold(trace, log);
    var settle := SettleOrder(key, Filled, 10, Some(1.0), None, None);
    OneMore(trace, log, settle, Apply(trace[|log|], settle));
    trace, log := trace + [Apply(trace[|log|], settle)], log + [settle];
    var open := OpenRow(2, key, 1, 0.9);
    assert Bookable(trace[|log|], key, Buy);
    OneMore(trace, log, open, Apply(trace[|log|], open));
    trace, log := trace + [Apply(trace[|log|], open)], log + [open];
  }

  /** A recorded order that reaches the exchange and fills whole. */
  function Traded(w: World, key: Id, row: Order): World {
    var o := MarketOrder(row.ticker, row.side, row.lots, Done(Filled), row.lots, 1.0, None, false);
    w.(orders := w.orders[key := row],
       broker := w.broker.(market := w.broker.market[key := o]).Moved(row.ticker, Signed(row.side, row.lots)))
  }

  lemma Trading(w: World, key: Id, row: Order) returns (states: seq<World>, steps: seq<Action>)
    requires key.Ours? && key !in w.orders && key !in w.broker.market && row.status.Submitting? && Formed(row)
    ensures IsRun(states, steps) && states[0] == w && states[|steps|] == Traded(w, key, row)
  {
    var w1 := Apply(w, RecordSubmitting(key, row));
    var w2 := Apply(w1, PostMarket(key));
    states, steps := [w], [];
    OneMore(states, steps, RecordSubmitting(key, row), w1);
    states, steps := states + [w1], steps + [RecordSubmitting(key, row)];
    OneMore(states, steps, PostMarket(key), w2);
    states, steps := states + [w2], steps + [PostMarket(key)];
    var w3 := FilledWhole(w, w1, w2, key, row);
    OneMore(states, steps, Fill(key, row.lots, 1.0, None), w3);
    states, steps := states + [w3], steps + [Fill(key, row.lots, 1.0, None)];
    OneMore(states, steps, Finish(key, Filled), Traded(w, key, row));
    states, steps := states + [Traded(w, key, row)], steps + [Finish(key, Filled)];
  }

  lemma FilledWhole(w: World, w1: World, w2: World, key: Id, row: Order) returns (w3: World)
    requires key.Ours? && key !in w.orders && key !in w.broker.market && row.status.Submitting? && Formed(row)
    requires IsStep(w, RecordSubmitting(key, row), w1) && IsStep(w1, PostMarket(key), w2)
    ensures IsStep(w2, Fill(key, row.lots, 1.0, None), w3) && IsStep(w3, Finish(key, Filled), Traded(w, key, row))
  {
    w3 := Apply(w2, Fill(key, row.lots, 1.0, None));
    var o := MarketOrder(row.ticker, row.side, row.lots, Done(Filled), row.lots, 1.0, None, false);
    assert Apply(w3, Finish(key, Filled)).broker.market == w.broker.market[key := o];
  }

  lemma BoughtUnanswered() returns (trace: seq<World>, log: seq<Action>)
    ensures IsRun(trace, log) && trace[0] == NOTHING
    ensures trace[|log|] == World(map[Ours(0) := ENTERING], map[], map[],
                                  Broker(map[Ours(0) := BOUGHT], map[], map["T" := 10]))
  {
    trace, log := Trading(NOTHING, Ours(0), ENTERING);
  }

  lemma AdoptedThenSold(before: seq<World>, done: seq<Action>) returns (trace: seq<World>, log: seq<Action>)
    requires IsRun(before, done)
    requires before[|done|] == World(map[Ours(0) := ENTERING], map[], map[],
                                     Broker(map[Ours(0) := BOUGHT], map[], map["T" := 10]))
    ensures IsRun(trace, log) && trace[0] == before[0]
    ensures var w := trace[|log|];
            && Ours(0) in w.orders && w.orders[Ours(0)] == ENTERING && w.positions.Keys == {1}
            && w.positions[1] == ADOPTED.(exit := w.positions[1].exit) && !w.positions[1].Open()
            && Ours(0) in w.broker.market && w.broker.market[Ours(0)] == BOUGHT && w.broker.Holds("T") == 0
  {
    var w0 := before[|done|];
    var adopt := AdoptRow(1, ADOPTED);
    var states, steps := SoldOff(Apply(w0, adopt));
    CrashJoinsRuns(before, done, |done|, [w0] + states, [adopt] + steps);
    trace, log := before[..|done|] + ([w0] + states), done[..|done|] + ([adopt] + steps);
  }

  lemma SoldOff(w: World) returns (states: seq<World>, steps: seq<Action>)
    requires w == World(map[Ours(0) := ENTERING], map[1 := ADOPTED], map[],
                        Broker(map[Ours(0) := BOUGHT], map[], map["T" := 10]))
    ensures IsRun(states, steps) && states[0] == w
    ensures var after := states[|steps|];
            && Ours(0) in after.orders && after.orders[Ours(0)] == ENTERING && after.positions.Keys == {1}
            && after.positions[1] == ADOPTED.(exit := after.positions[1].exit) && !after.positions[1].Open()
            && Ours(0) in after.broker.market && after.broker.market[Ours(0)] == BOUGHT && after.broker.Holds("T") == 0
  {
    var e := Ours(1);
    states, steps := Trading(w, e, LEAVING);
    assert states[|steps|].orders == map[Ours(0) := ENTERING, e := LEAVING];
    assert states[|steps|].broker == Broker(map[Ours(0) := BOUGHT, e := SOLD], map[], map["T" := 0]);
    var settle := SettleOrder(e, Filled, 10, Some(1.0), None, None);
    OneMore(states, steps, settle, Apply(states[|steps|], settle));
    states, steps := states + [Apply(states[|steps|], settle)], steps + [settle];
    var close := CloseRow(1, ExitInfo(MaxAge, 1.0, Some(e), None, 0.0), ByOrder(e));
    OneMore(states, steps, close, Apply(states[|steps|], close));
    states, steps := states + [Apply(states[|steps|], close)], steps + [close];
  }

  lemma StopBookingStays(trace: seq<World>, log: seq<Action>, i: nat, j: nat, sid: nat)
    requires IsRun(trace, log) && i < j <= |log| && log[i].CloseRow? && log[i].cause.ByStop? && log[i].cause.sid == sid
    ensures sid in trace[j].broker.stops && trace[j].broker.stops[sid].booked
  {
    assert IsStep(trace[i], log[i], trace[i + 1]);
    RunPersists(trace, log, i + 1, j);
  }

  /** One execution of a stop closes one position once. */
  lemma StopAppliedOnce(trace: seq<World>, log: seq<Action>, i: nat, j: nat, sid: nat)
    requires IsRun(trace, log) && i <= j < |log|
    requires log[i].CloseRow? && log[i].cause.ByStop? && log[i].cause.sid == sid
    requires log[j].CloseRow? && log[j].cause.ByStop? && log[j].cause.sid == sid
    ensures i == j
  {
    assert IsStep(trace[i], log[i], trace[i + 1]) && IsStep(trace[j], log[j], trace[j + 1]);
    if i < j {
      StopBookingStays(trace, log, i, j, sid);
    }
  }

  // ------------------------------------------------------------------ the lot ledger

  function PositionWeight(ticker: string): Position -> int {
    (p: Position) => if p.Open() && p.ticker == ticker then p.lots else 0
  }

  function MarketWeight(ticker: string): MarketOrder -> int {
    (o: MarketOrder) => if !o.booked && o.ticker == ticker then Signed(o.side, o.filled) else 0
  }

  function StopWeight(ticker: string): BrokerStop -> int {
    (s: BrokerStop) => if s.state.Fired? && !s.booked && s.ticker == ticker then s.lots else 0
  }

  /** Broker lots not explained by open positions, fills not yet booked (entries add, exits
      subtract) and executed stops not yet booked. The ledger balances where this is zero. */
  ghost function Gap(w: World, ticker: string): int {
    w.broker.Holds(ticker) - Sum(w.positions, PositionWeight(ticker))
    - Sum(w.broker.market, MarketWeight(ticker)) + Sum(w.broker.stops, StopWeight(ticker))
  }

  /** How many lots a step leaves unexplained, and on which ticker. */
  function Shift(w: World, a: Action): (string, int)
    requires Enabled(w, a)
  {
    match a
    case OpenRow(_, k, _, _) => (w.orders[k].ticker, w.broker.market[k].filled - w.orders[k].filled)
    case AdoptRow(_, p) => (p.ticker, -(p.lots as int))
    case CloseRow(pid, _, cause) =>
      var p := w.positions[pid];
      (p.ticker, p.lots - match cause
                          case ByOrder(k) => w.broker.market[k].filled
                          case ByStop(_, sid) => w.broker.stops[sid].lots
                          case ByOwner => 0)
    case ShrinkRow(pid, k, n) => (w.positions[pid].ticker, w.positions[pid].lots - n - w.broker.market[k].filled)
    case AdjustRow(pid, n) => (w.positions[pid].ticker, w.positions[pid].lots - n)
    case ForeignTrade(ticker, n) => (ticker, n)
    case _ => ("", 0)
  }

  function PositionShift(w: World, a: Action): (string, int)
    requires Enabled(w, a)
  {
    match a
    case OpenRow(_, k, _, _) => (w.orders[k].ticker, w.orders[k].filled)
    case AdoptRow(_, p) => (p.ticker, p.lots)
    case CloseRow(pid, _, _) => (w.positions[pid].ticker, -(w.positions[pid].lots as int))
    case ShrinkRow(pid, _, n) => (w.positions[pid].ticker, n - w.positions[pid].lots)
    case AdjustRow(pid, n) => (w.positions[pid].ticker, n - w.positions[pid].lots)
    case _ => ("", 0)
  }

  function MarketShift(w: World, a: Action): (string, int)
    requires Enabled(w, a)
  {
    var booked := Books(a);
    if booked.Some? then
      var o := w.broker.market[booked.value];
      (o.ticker, -Signed(o.side, o.filled))
    else if a.Fill? then
      var o := w.broker.market[a.key];
      (o.ticker, if o.booked then 0 else Signed(o.side, a.more))
    else ("", 0)
  }

  function StopShift(w: World, a: Action): (string, int)
    requires Enabled(w, a)
  {
    match a
    case CloseRow(_, _, ByStop(_, sid)) =>
      var s := w.broker.stops[sid];
      (s.ticker, -(s.lots as int))
    case Fire(sid) =>
      var s := w.broker.stops[sid];
      (s.ticker, s.lots)
    case _ => ("", 0)
  }

  function At(shift: (string, int), ticker: string): int {
    if shift.0 == ticker then shift.1 else 0
  }

  lemma StepMovesPositions(w: World, a: Action, t: string)
    requires Enabled(w, a)
    ensures Sum(Apply(w, a).positions, PositionWeight(t))
            == Sum(w.positions, PositionWeight(t)) + At(PositionShift(w, a), t)
  {
    var after := Apply(w, a).positions;
    match a
    case OpenRow(pid, _, _, _) => SumUpdate(w.positions, PositionWeight(t), pid, after[pid]);
    case AdoptRow(pid, _) => SumUpdate(w.positions, PositionWeight(t), pid, after[pid]);
    case CloseRow(pid, _, _) => SumUpdate(w.positions, PositionWeight(t), pid, after[pid]);
    case ShrinkRow(pid, _, _) => SumUpdate(w.positions, PositionWeight(t), pid, after[pid]);
    case AdjustRow(pid, _) => SumUpdate(w.positions, PositionWeight(t), pid, after[pid]);
    case Protect(pid, _) => SumUpdate(w.positions, PositionWeight(t), pid, after[pid]);
    case _ =>
  }

  lemma StepMovesMarket(w: World, a: Action, t: string)
    requires Enabled(w, a)
    ensures Sum(Apply(w, a).broker.market, MarketWeight(t))
            == Sum(w.broker.market, MarketWeight(t)) + At(MarketShift(w, a), t)
  {
    var market, after := w.broker.market, Apply(w, a).broker.market;
    if Books(a).Some? {
      SumUpdate(market, MarketWeight(t), Books(a).value, after[Books(a).value]);
    } else if a.PostMarket? || a.Fill? || a.Finish? || (a.CancelOrder? && after != market) {
      SumUpdate(market, MarketWeight(t), a.key, after[a.key]);
    } else {
      assert after == market && MarketShift(w, a).1 == 0;
    }
  }

  lemma StepMovesStops(w: World, a: Action, t: string)
    requires BookedHasFired(w.broker.stops) && Enabled(w, a)
    ensures Sum(Apply(w, a).broker.stops, StopWeight(t))
            == Sum(w.broker.stops, StopWeight(t)) + At(StopShift(w, a), t)
  {
    var stops, after := w.broker.stops, Apply(w, a).broker.stops;
    if a.CloseRow? && a.cause.ByStop? {
      SumUpdate(stops, StopWeight(t), a.cause.sid, after[a.cause.sid]);
    } else if a.PostStop? || a.ForeignStop? || a.Fire? || (a.CancelStop? && after != stops) {
      RequestMovesStops(w, a, t);
    } else {
      assert after == stops && StopShift(w, a).1 == 0;
    }
  }

  lemma RequestMovesStops(w: World, a: Action, t: string)
    requires BookedHasFired(w.broker.stops) && Enabled(w, a)
    requires a.PostStop? || a.ForeignStop? || a.Fire? || (a.CancelStop? && Apply(w, a).broker.stops != w.broker.stops)
    ensures Sum(Apply(w, a).broker.stops, StopWeight(t))
            == Sum(w.broker.stops, StopWeight(t)) + At(StopShift(w, a), t)
  {
    SumUpdate(w.broker.stops, StopWeight(t), a.sid, Apply(w, a).broker.stops[a.sid]);
  }

  /** The exact effect of every step on the ledger; all other tickers are untouched. */
  lemma StepMovesGap(w: World, a: Action, ticker: string)
    requires OrdersWritten(w.orders, w.broker.market) && BookedIsFinal(w.orders, w.broker.market)
    requires BookedHasFired(w.broker.stops)
    requires Enabled(w, a)
    ensures Gap(Apply(w, a), ticker) == Gap(w, ticker) + At(Shift(w, a), ticker)
  {
    StepMovesPositions(w, a, ticker);
    StepMovesMarket(w, a, ticker);
    StepMovesStops(w, a, ticker);
    StepMovesHolding(w, a, ticker);
  }

  /** What is left after the three tables' shifts is what the broker's own holding does. */
  lemma StepMovesHolding(w: World, a: Action, ticker: string)
    requires OrdersWritten(w.orders, w.broker.market) && BookedIsFinal(w.orders, w.broker.market)
    requires Enabled(w, a)
    ensures Apply(w, a).broker.Holds(ticker) == w.broker.Holds(ticker)
            + At(PositionShift(w, a), ticker) + At(MarketShift(w, a), ticker)
            - At(StopShift(w, a), ticker) + At(Shift(w, a), ticker)
  {
    if TouchesPositions(a) {
      assert Apply(w, a).broker.lots == w.broker.lots;
    } else {
      assert PositionShift(w, a).1 == 0;
    }
  }

  /** A step that leaves the ledger exactly as balanced as it found it. */
  predicate Even(w: World, a: Action)
    requires Enabled(w, a)
  {
    Shift(w, a).1 == 0
  }

  ghost predicate EvenRun(trace: seq<World>, log: seq<Action>) {
    && IsRun(trace, log)
    && (forall i {:trigger log[i]} :: 0 <= i < |log| ==> Enabled(trace[i], log[i]) && Even(trace[i], log[i]))
  }

  /** A ledger is disturbed exactly by the uneven steps: a fill that did not match the lots it was
      booked against, a correction, an adoption, or a trade of the owner's. */
  lemma LedgerMovesIffUneven(w: World, a: Action)
    requires Inv(w) && Enabled(w, a)
    ensures (forall t :: Gap(Apply(w, a), t) == Gap(w, t)) <==> Even(w, a)
  {
    forall t ensures Gap(Apply(w, a), t) == Gap(w, t) + At(Shift(w, a), t) {
      StepMovesGap(w, a, t);
    }
    StepMovesGap(w, a, Shift(w, a).0);
  }

  /** Conservation over whole runs, at every crash point and on every ticker. */
  lemma {:induction false} EvenRunKeepsLedger(trace: seq<World>, log: seq<Action>, i: nat, ticker: string)
    requires EvenRun(trace, log) && Inv(trace[0]) && i <= |log|
    ensures Gap(trace[i], ticker) == Gap(trace[0], ticker)
  {
    if i > 0 {
      EvenRunKeepsLedger(trace, log, i - 1, ticker);
      RunKeepsInv(trace, log, i - 1);
      assert IsStep(trace[i - 1], log[i - 1], trace[i]);
      StepMovesGap(trace[i - 1], log[i - 1], ticker);
    }
  }

  // ------------------------------------------------------------------ unresolved exits only

  function EntryWeight(ticker: string): MarketOrder -> int {
    (o: MarketOrder) => if !o.booked && o.ticker == ticker && o.side.Buy? then o.filled else 0
  }

  function ExitWeight(ticker: string): MarketOrder -> int {
    (o: MarketOrder) => if !o.booked && o.ticker == ticker && o.side.Sell? then o.filled else 0
  }

  ghost function SettledKeys(w: World): set<Id> {
    set k | k in w.broker.market && k in w.orders && w.orders[k].status.Terminal()
  }

  /** Lots sold by exits whose rows are still unresolved. */
  ghost function UnresolvedExits(w: World, ticker: string): int {
    Sum(w.broker.market - SettledKeys(w), ExitWeight(ticker))
  }

  /** Lots sold by exits that settled for good and moved no position: no recovery will see them again. */
  ghost function LostExits(w: World, ticker: string): int {
    Sum(w.broker.market - (w.broker.market.Keys - SettledKeys(w)), ExitWeight(ticker))
  }

  /** What is wrong with the equation: broker lots = open lots + fills of entries that opened nothing
      - fills of unresolved exits - lots of executed stops nothing was closed on. */
  ghost function Imbalance(w: World, ticker: string): int {
    w.broker.Holds(ticker) - Sum(w.positions, PositionWeight(ticker)) - Sum(w.broker.market, EntryWeight(ticker))
    + UnresolvedExits(w, ticker) + Sum(w.broker.stops, StopWeight(ticker))
  }

  lemma ImbalanceIsGapLessLost(w: World, ticker: string)
    ensures Imbalance(w, ticker) == Gap(w, ticker) - LostExits(w, ticker)
  {
    var market := w.broker.market;
    var settled, pending := market - (market.Keys - SettledKeys(w)), market - SettledKeys(w);
    SumAdds(market, EntryWeight(ticker), MarketWeight(ticker), ExitWeight(ticker));
    assert market == settled + pending;
    SumJoins(settled, pending, ExitWeight(ticker));
  }

  /** Over a run of even steps the equation moves by exactly the exits lost on the way. */
  lemma EvenRunLosesExits(trace: seq<World>, log: seq<Action>, i: nat, ticker: string)
    requires EvenRun(trace, log) && Inv(trace[0]) && i <= |log|
    ensures Imbalance(trace[i], ticker) + LostExits(trace[i], ticker)
            == Imbalance(trace[0], ticker) + LostExits(trace[0], ticker)
  {
    EvenRunKeepsLedger(trace, log, i, ticker);
    ImbalanceIsGapLessLost(trace[i], ticker);
    ImbalanceIsGapLessLost(trace[0], ticker);
  }

  /** A sale of some lots that has moved no position. */
  predicate SoldUnbooked(o: MarketOrder) {
    o.side.Sell? && o.filled > 0 && !o.booked
  }

  /** Every sale at the broker that moved no position belongs to a row recovery will list again. */
  ghost predicate SalesPending(w: World) {
    forall k :: k in w.broker.market && SoldUnbooked(w.broker.market[k]) ==>
      k in w.orders && !w.orders[k].status.Terminal()
  }

  lemma NothingLost(w: World, ticker: string)
    requires SalesPending(w)
    ensures LostExits(w, ticker) == 0
  {
    SumZero(w.broker.market - (w.broker.market.Keys - SettledKeys(w)), ExitWeight(ticker));
  }
}
