/** The simulated exchange a backtest runs against: historical bars behind the broker's surface. */
module Exchanges {
  import opened Models
  import opened MapSums
  import opened Runs

  datatype Bar = Bar(at: int, open: real, high: real, low: real, close: real)

  /** Which price of the current bar is reported as the last one. */
  datatype Phase = AtOpen | AtLow | AtHigh | AtClose

  /** A percentage of turnover with a minimum. */
  datatype Commission = Commission(pct: real, minimum: real) {
    function On(turnover: real): real {
      var share := turnover * pct / 100.0;
      if share >= minimum then share else minimum
    }
  }

  /** What never changes during a backtest. `lot` holds the known instruments. */
  datatype Market = Market(bars: map<string, seq<Bar>>, lot: map<string, nat>, slippage: real, tariff: Commission,
                           rejectStops: bool)

  datatype SimOrder = SimOrder(ticker: string, side: Side, lots: nat, status: OrderStatus, price: real, fee: real,
                               units: nat, created: int)

  datatype SimStop = SimStop(ticker: string, lots: nat, price: real, status: StopStatus, created: int)

  datatype StopFill = StopFill(ticker: string, lots: nat, price: real, fee: real, units: nat, at: int)

  datatype Held = Held(lots: int, average: real)

  /** The exchange's fields. `placed` is the insertion order of `stops`. */
  datatype Account = Account(cash: real, now: Option<int>, phase: Phase, checked: set<int>, orders: map<nat, SimOrder>,
                             stops: map<nat, SimStop>, placed: seq<nat>, executed: map<nat, StopFill>,
                             holdings: map<string, Held>)

  datatype Reply = Taken(order: SimOrder) | Placed | Refused | Unready

  // ------------------------------------------------------------------ what the cursor sees

  /** Bars up to and including the cursor. */
  function Seen(bars: seq<Bar>, now: int): (seen: seq<Bar>)
    ensures forall b :: b in seen ==> b in bars && b.at <= now
  {
    if bars == [] then []
    else
      var last := bars[|bars| - 1];
      Seen(bars[..|bars| - 1], now) + if last.at <= now then [last] else []
  }

  function Visible(m: Market, a: Account, ticker: string): seq<Bar> {
    if a.now.None? || ticker !in m.bars then [] else Seen(m.bars[ticker], a.now.value)
  }

  function BarFor(m: Market, a: Account, ticker: string): Option<Bar> {
    var seen := Visible(m, a, ticker);
    if seen == [] then None else Some(seen[|seen| - 1])
  }

  function FirstAfter(bars: seq<Bar>, now: int): Option<Bar> {
    if bars == [] then None else if bars[0].at > now then Some(bars[0]) else FirstAfter(bars[1..], now)
  }

  /** Where a market order gets its price. */
  function NextBar(m: Market, a: Account, ticker: string): Option<Bar> {
    if a.now.None? || ticker !in m.bars then None else FirstAfter(m.bars[ticker], a.now.value)
  }

  /** The last listed bar that has begun. */
  ghost predicate Latest(bars: seq<Bar>, now: int, i: nat) {
    i < |bars| && bars[i].at <= now && forall j :: i < j < |bars| ==> bars[j].at > now
  }

  /** The first listed bar that has not. */
  ghost predicate Following(bars: seq<Bar>, now: int, i: nat) {
    i < |bars| && bars[i].at > now && forall j :: 0 <= j < i ==> bars[j].at <= now
  }

  lemma LatestLater(front: seq<Bar>, last: Bar, now: int, i: nat)
    requires last.at > now
    ensures Latest(front, now, i) ==> Latest(front + [last], now, i) && (front + [last])[i] == front[i]
    ensures (forall b :: b in front ==> b.at > now) ==> forall b :: b in front + [last] ==> b.at > now
  {
  }

  lemma {:induction false} SeenLast(bars: seq<Bar>, now: int) returns (i: nat)
    ensures if Seen(bars, now) == [] then forall b :: b in bars ==> b.at > now
            else Latest(bars, now, i) && bars[i] == Seen(bars, now)[|Seen(bars, now)| - 1]
  {
    i := 0;
    if bars != [] {
      var front, last := bars[..|bars| - 1], bars[|bars| - 1];
      assert bars == front + [last];
      assert Seen(bars, now) == Seen(front, now) + if last.at <= now then [last] else [];
      if last.at <= now {
        i := |bars| - 1;
      } else {
        i := SeenLast(front, now);
        LatestLater(front, last, now, i);
      }
    }
  }

  lemma {:induction false} FirstIsFollowing(bars: seq<Bar>, now: int) returns (i: nat)
    ensures match FirstAfter(bars, now)
            case None => forall b :: b in bars ==> b.at <= now
            case Some(b) => Following(bars, now, i) && bars[i] == b
  {
    i := 0;
    if bars != [] && bars[0].at <= now {
      assert bars == [bars[0]] + bars[1..];
      i := FirstIsFollowing(bars[1..], now);
      if FirstAfter(bars, now).Some? {
        i := i + 1;
      }
    }
  }

  /** The bar the cursor is in is the last listed that has begun, and an order is priced at the first listed that
      has not. */
  lemma CursorBars(m: Market, a: Account, ticker: string)
    requires a.now.Some? && ticker in m.bars
    ensures var bars, now := m.bars[ticker], a.now.value;
            && (match BarFor(m, a, ticker)
                case None => forall b :: b in bars ==> b.at > now
                case Some(b) => exists i: nat :: Latest(bars, now, i) && bars[i] == b)
            && (match NextBar(m, a, ticker)
                case None => forall b :: b in bars ==> b.at <= now
                case Some(b) => exists i: nat :: Following(bars, now, i) && bars[i] == b)
  {
    hide Latest, Following, Seen, FirstAfter;
    var i := SeenLast(m.bars[ticker], a.now.value);
    var j := FirstIsFollowing(m.bars[ticker], a.now.value);
  }

  function LastPrice(m: Market, a: Account, ticker: string): Option<real> {
    match BarFor(m, a, ticker)
    case None => None
    case Some(b) =>
      Some(match a.phase case AtOpen => b.open case AtLow => b.low case AtHigh => b.high case AtClose => b.close)
  }

  function Candles(m: Market, a: Account, ticker: string, since: int, until: int): seq<Bar> {
    Between(Visible(m, a, ticker), since, until)
  }

  function Between(bars: seq<Bar>, since: int, until: int): seq<Bar> {
    if bars == [] then []
    else (if since <= bars[0].at <= until then [bars[0]] else []) + Between(bars[1..], since, until)
  }

  /** Truncated towards zero. */
  function Affords(cash: real, lotCost: real): int {
    if lotCost <= 0.0 then 0
    else
      var ratio := cash / lotCost;
      if ratio >= 0.0 then ratio.Floor else -((-ratio).Floor)
  }

  /** What a lot costs at a bar's close, nothing without one. */
  function LotCost(bar: Option<Bar>, lot: nat): real {
    if bar.None? then 0.0 else bar.value.close * lot as real
  }

  /** What the account's cash buys at the last close. */
  function MaxLots(m: Market, a: Account, ticker: string): int {
    Affords(a.cash, LotCost(BarFor(m, a, ticker), if ticker in m.lot then m.lot[ticker] else 0))
  }

  /** It is the largest number of lots the cash pays for, counted from a debt upwards as from cash downwards. */
  lemma LargestMaxLots(cash: real, lotCost: real, n: int)
    requires lotCost > 0.0
    ensures if cash >= 0.0 then n <= Affords(cash, lotCost) <==> n as real * lotCost <= cash
            else n >= Affords(cash, lotCost) <==> n as real * lotCost >= cash
  {
    Divided(cash, lotCost, n as real);
    Divided(cash, lotCost, 0.0);
    UpToFloor(n, cash / lotCost);
    UpToFloor(-n, -(cash / lotCost));
  }

  lemma Divided(cash: real, cost: real, n: real)
    requires cost > 0.0
    ensures n <= cash / cost <==> n * cost <= cash
    ensures n >= cash / cost <==> n * cost >= cash
  {
    var ratio := cash / cost;
    assert ratio * cost == cash;
    assert n < ratio ==> (ratio - n) * cost > 0.0;
    assert n > ratio ==> (n - ratio) * cost > 0.0;
  }

  lemma UpToFloor(n: int, x: real)
    ensures n <= x.Floor <==> n as real <= x
  {
  }

  // ------------------------------------------------------------------ fills

  function Slipped(m: Market, price: real, side: Side): real {
    if side.Buy? then price * (1.0 + m.slippage / 100.0) else price * (1.0 - m.slippage / 100.0)
  }

  function HeldLots(a: Account, ticker: string): int {
    if ticker in a.holdings then a.holdings[ticker].lots else 0
  }

  /** Selling more than is held removes the holding; nothing is owed. */
  function Reduced(holdings: map<string, Held>, ticker: string, lots: nat): map<string, Held> {
    if ticker !in holdings then holdings
    else if holdings[ticker].lots - lots <= 0 then holdings - {ticker}
    else holdings[ticker := holdings[ticker].(lots := holdings[ticker].lots - lots)]
  }

  function Turnover(price: real, units: nat): real {
    price * units as real
  }

  /** The account after an order's fill, and the order as filled. */
  function AfterFill(m: Market, a: Account, key: nat, order: SimOrder, price: real): Account {
    var turnover := Turnover(price, order.units);
    var fee := m.tariff.On(turnover);
    var done := order.(status := OrderStatus.Filled, price := price, fee := fee);
    var after := a.(orders := a.orders[key := done]);
    if order.side.Buy? then
      after.(cash := a.cash - (turnover + fee),
             holdings := a.holdings[order.ticker := Held(HeldLots(a, order.ticker) + order.lots, price)])
    else
      after.(cash := a.cash + (turnover - fee), holdings := Reduced(a.holdings, order.ticker, order.lots))
  }

  /** The bar a standing stop fires on now, if it does. */
  function Trigger(m: Market, a: Account, key: nat): Option<Bar> {
    if key !in a.stops then None
    else
      var stop := a.stops[key];
      var bar := BarFor(m, a, stop.ticker);
      if stop.status.Active? && bar.Some? && bar.value.at !in a.checked && bar.value.low <= stop.price
      then bar else None
  }

  function StopPrice(stop: SimStop, bar: Bar): real {
    if stop.price <= bar.open then stop.price else bar.open
  }

  function UnitsOf(m: Market, ticker: string, lots: nat): nat {
    if ticker in m.lot then lots * m.lot[ticker] else 0
  }

  /** One standing stop, met by its bar. */
  function FireOne(m: Market, a: Account, key: nat): Account {
    var bar := Trigger(m, a, key);
    if bar.None? || a.now.None? then a
    else
      var stop := a.stops[key];
      var price := StopPrice(stop, bar.value);
      var units := UnitsOf(m, stop.ticker, stop.lots);
      var turnover := Turnover(price, units);
      var fee := m.tariff.On(turnover);
      a.(cash := a.cash + (turnover - fee), holdings := Reduced(a.holdings, stop.ticker, stop.lots),
         executed := a.executed[key := StopFill(stop.ticker, stop.lots, price, fee, units, a.now.value)],
         stops := a.stops[key := stop.(status := Executed)])
  }

  /** The first `n` placed stops, in order. */
  function FireFirst(m: Market, a: Account, n: nat): (after: Account)
    requires n <= |a.placed|
    ensures after.placed == a.placed && after.stops.Keys == a.stops.Keys
    ensures after.now == a.now && after.checked == a.checked && after.orders == a.orders && after.phase == a.phase
  {
    if n == 0 then a else FireOne(m, FireFirst(m, a, n - 1), a.placed[n - 1])
  }

  lemma FireFirstNext(m: Market, a: Account, n: nat, so: Account, after: Account)
    requires n < |a.placed| && so == FireFirst(m, a, n) && after == FireOne(m, so, a.placed[n])
    ensures after == FireFirst(m, a, n + 1)
  {
  }

  /** What each firing keeps, all of them keep. */
  lemma {:induction false} FireFirstKept(m: Market, keeps: Account -> bool, a: Account, n: nat)
    requires n <= |a.placed| && keeps(a)
    requires forall x, key :: keeps(x) ==> keeps(FireOne(m, x, key))
    ensures keeps(FireFirst(m, a, n))
  {
    if n > 0 {
      FireFirstKept(m, keeps, a, n - 1);
    }
  }

  /** A figure summed over the firings of the first `n` placed stops. */
  function FiringSum(m: Market, change: (Account, nat) -> int, a: Account, n: nat): int
    requires n <= |a.placed|
  {
    if n == 0 then 0 else FiringSum(m, change, a, n - 1) + change(FireFirst(m, a, n - 1), a.placed[n - 1])
  }

  lemma {:induction false} FireFirstSummed(m: Market, keeps: Account -> bool, value: Account -> int,
                                           change: (Account, nat) -> int, a: Account, n: nat)
    requires n <= |a.placed| && keeps(a)
    requires forall x, key :: keeps(x) ==>
               keeps(FireOne(m, x, key)) && value(FireOne(m, x, key)) == value(x) + change(x, key)
    ensures keeps(FireFirst(m, a, n)) && value(FireFirst(m, a, n)) == value(a) + FiringSum(m, change, a, n)
  {
    if n > 0 {
      FireFirstSummed(m, keeps, value, change, a, n - 1);
    }
  }

  function CurrentBars(m: Market, a: Account): set<int> {
    set t | t in m.bars && BarFor(m, a, t).Some? :: BarFor(m, a, t).value.at
  }

  // ------------------------------------------------------------------ requests

  datatype Op =
    | Advance(moment: int, phase: Phase)
    | PostMarket(key: nat, ticker: string, side: Side, lots: int)
    | CancelOrder(key: nat)
    | PostStop(key: nat, ticker: string, lots: int, price: real)
    | CancelStop(key: nat)

  function Advanced(m: Market, a: Account, moment: int, phase: Phase): Account {
    var moved := a.(now := Some(moment), phase := phase);
    var fired := FireFirst(m, moved, |a.placed|);
    fired.(checked := a.checked + CurrentBars(m, moved))
  }

  function Requested(m: Market, ticker: string, side: Side, lots: nat, now: int): SimOrder {
    SimOrder(ticker, side, lots, Submitted, 0.0, 0.0, UnitsOf(m, ticker, lots), now)
  }

  predicate Affordable(m: Market, a: Account, order: SimOrder, price: real) {
    var turnover := Turnover(price, order.units);
    turnover + m.tariff.On(turnover) <= a.cash
  }

  /** Priced at the next bar's open; without one the order stays live and unpriced. */
  function Posted(m: Market, a: Account, key: nat, ticker: string, side: Side, lots: int): (Account, Reply) {
    if lots <= 0 || ticker !in m.lot then (a, Refused)
    else if a.now.None? then (a, Unready)
    else
      var order := Requested(m, ticker, side, lots, a.now.value);
      var following := NextBar(m, a, ticker);
      if following.None? then (a.(orders := a.orders[key := order]), Taken(order))
      else
        var price := Slipped(m, following.value.open, side);
        if side.Buy? && !Affordable(m, a, order, price) then (a, Refused)
        else
          var after := AfterFill(m, a, key, order, price);
          (after, Taken(after.orders[key]))
  }

  function StopPosted(m: Market, a: Account, key: nat, ticker: string, lots: int, price: real): (Account, Reply) {
    if lots <= 0 || m.rejectStops || ticker !in m.lot then (a, Refused)
    else if a.now.None? then (a, Unready)
    else
      (a.(stops := a.stops[key := SimStop(ticker, lots, price, Active, a.now.value)],
          placed := if key in a.stops then a.placed else a.placed + [key]), Placed)
  }

  function Do(m: Market, a: Account, op: Op): Account {
    match op
    case Advance(moment, phase) => Advanced(m, a, moment, phase)
    case PostMarket(key, ticker, side, lots) => Posted(m, a, key, ticker, side, lots).0
    case CancelOrder(key) =>
      if key in a.orders && a.orders[key].status.Submitted?
      then a.(orders := a.orders[key := a.orders[key].(status := OrderStatus.Cancelled)]) else a
    case PostStop(key, ticker, lots, price) => StopPosted(m, a, key, ticker, lots, price).0
    case CancelStop(key) =>
      if key in a.stops then a.(stops := a.stops[key := a.stops[key].(status := Withdrawn)]) else a
  }

  // ------------------------------------------------------------------ a fill in figures

  /** The commission is the larger of the tariff's percentage of the turnover and its minimum. */
  predicate Charges(t: Commission, turnover: real, fee: real) {
    && fee >= t.minimum && fee * 100.0 >= turnover * t.pct
    && (fee == t.minimum || fee * 100.0 == turnover * t.pct)
  }

  /** The price is the open moved against the trader by the slippage, a percentage. */
  predicate MovedAgainst(m: Market, open: real, side: Side, price: real) {
    if side.Buy? then (price - open) * 100.0 == m.slippage * open else (open - price) * 100.0 == m.slippage * open
  }

  /** What a fill at the open of a bar costs. */
  predicate Costs(m: Market, open: real, side: Side, units: real, price: real, fee: real) {
    MovedAgainst(m, open, side, price) && Charges(m.tariff, price * units, fee)
  }

  lemma TariffCharges(t: Commission, turnover: real)
    ensures forall fee :: fee == t.On(turnover) <==> Charges(t, turnover, fee)
  {
    assert turnover * t.pct / 100.0 * 100.0 == turnover * t.pct;
  }

  lemma SlippedMoves(m: Market, open: real, side: Side)
    ensures forall price :: price == Slipped(m, open, side) <==> MovedAgainst(m, open, side, price)
  {
    var share := m.slippage / 100.0;
    assert share * 100.0 == m.slippage;
    assert open * (1.0 + share) == open + open * share && open * (1.0 - share) == open - open * share;
    assert open * share * 100.0 == m.slippage * open;
  }

  /** So a buyer pays the open or more, and a seller gets it or less. */
  lemma NeverForTheTrader(m: Market, open: real, side: Side, price: real)
    requires MovedAgainst(m, open, side, price) && m.slippage >= 0.0 && open >= 0.0
    ensures if side.Buy? then open <= price else price <= open
  {
    assert m.slippage * open >= 0.0;
  }

  /** A market order with a bar to be priced at is filled whole, for every unit of its lots, at the price and the
      commission the tariff and the slippage make of the open, and the cash moves by exactly that. Only a
      purchase the cash does not pay for is refused. */
  lemma PostedInFigures(m: Market, a: Account, key: nat, ticker: string, side: Side, lots: int)
    requires lots > 0 && ticker in m.lot && NextBar(m, a, ticker).Some?
    ensures var (after, reply) := Posted(m, a, key, ticker, side, lots);
            var open, units := NextBar(m, a, ticker).value.open, (lots * m.lot[ticker]) as real;
            && (reply.Taken? ==>
                  && key in after.orders && reply.order == after.orders[key]
                  && var o := reply.order;
                  && o.status.Filled? && o.ticker == ticker && o.side == side && o.lots == lots
                  && Costs(m, open, side, units, o.price, o.fee)
                  && after.cash == (if side.Buy? then a.cash - o.price * units - o.fee
                                    else a.cash + o.price * units - o.fee))
            && (!reply.Taken? <==>
                  side.Buy? && forall price, fee ::
                    Costs(m, open, side, units, price, fee) ==> price * units + fee > a.cash)
  {
    var open, units := NextBar(m, a, ticker).value.open, (lots * m.lot[ticker]) as real;
    hide Slipped, Commission.On, MovedAgainst, Charges;
    var price := Slipped(m, open, side);
    SlippedMoves(m, open, side);
    TariffCharges(m.tariff, price * units);
    assert Costs(m, open, side, units, price, m.tariff.On(price * units));
    assert Turnover(price, UnitsOf(m, ticker, lots)) == price * units;
  }

  /** A stop that fires sells its lots at its price or the open, whichever is lower, less the commission. */
  lemma FiredInFigures(m: Market, a: Account, key: nat)
    requires a.now.Some? && Trigger(m, a, key).Some? && a.stops[key].ticker in m.lot
    ensures var after, stop, open := FireOne(m, a, key), a.stops[key], Trigger(m, a, key).value.open;
            var units := (stop.lots * m.lot[stop.ticker]) as real;
            && key in after.executed && var f := after.executed[key];
            && f.lots == stop.lots && f.price <= stop.price && f.price <= open
            && (f.price == stop.price || f.price == open)
            && Charges(m.tariff, f.price * units, f.fee) && after.cash == a.cash + f.price * units - f.fee
  {
    var stop := a.stops[key];
    var units := (stop.lots * m.lot[stop.ticker]) as real;
    TariffCharges(m.tariff, StopPrice(stop, Trigger(m, a, key).value) * units);
  }

  // ------------------------------------------------------------------ what every account keeps

  /** A key the exchange has not seen. */
  predicate FreshKey(a: Account, op: Op) {
    (op.PostMarket? ==> op.key !in a.orders) && (op.PostStop? ==> op.key !in a.stops)
  }

  /** Placed stops are on record, and an executed one is no longer active. */
  ghost predicate Firing(a: Account) {
    && (forall k :: k in a.placed ==> k in a.stops)
    && (forall k :: k in a.executed ==> k in a.stops && !a.stops[k].status.Active?)
    && (forall t :: t in a.holdings ==> a.holdings[t].lots > 0)
  }

  /** The standing stops of every bar the cursor is in have been checked. */
  ghost predicate BarsChecked(m: Market, a: Account) {
    forall t :: a.now.Some? && t in m.bars && BarFor(m, a, t).Some? ==> BarFor(m, a, t).value.at in a.checked
  }

  ghost predicate WellKept(m: Market, a: Account) {
    Firing(a) && BarsChecked(m, a)
  }

  lemma FireOneKeeps(m: Market, a: Account, key: nat)
    requires Firing(a)
    ensures Firing(FireOne(m, a, key))
  {
  }

  lemma FireFirstKeeps(m: Market, a: Account, n: nat)
    requires Firing(a) && n <= |a.placed|
    ensures Firing(FireFirst(m, a, n))
  {
    forall x, key | Firing(x) ensures Firing(FireOne(m, x, key)) {
      FireOneKeeps(m, x, key);
    }
    FireFirstKept(m, x => Firing(x), a, n);
  }

  lemma SameBar(m: Market, a: Account, b: Account, t: string)
    requires b.now == a.now
    ensures BarFor(m, b, t) == BarFor(m, a, t)
  {
  }

  /** Every current bar's standing stops have been checked, whatever jumps the cursor makes. */
  lemma AdvanceChecks(m: Market, a: Account, moment: int, phase: Phase)
    ensures BarsChecked(m, Advanced(m, a, moment, phase))
  {
    var moved, after := a.(now := Some(moment), phase := phase), Advanced(m, a, moment, phase);
    forall t | t in m.bars && BarFor(m, after, t).Some? ensures BarFor(m, after, t).value.at in CurrentBars(m, moved) {
      SameBar(m, moved, after, t);
    }
  }

  lemma RequestKeeps(m: Market, a: Account, op: Op)
    requires Firing(a) && FreshKey(a, op) && !op.Advance?
    ensures Firing(Do(m, a, op))
    ensures Do(m, a, op).now == a.now && Do(m, a, op).checked == a.checked
  {
  }

  lemma SameCursor(m: Market, a: Account, b: Account)
    requires BarsChecked(m, a) && b.now == a.now && b.checked == a.checked
    ensures BarsChecked(m, b)
  {
    forall t | b.now.Some? && t in m.bars && BarFor(m, b, t).Some? ensures BarFor(m, b, t).value.at in b.checked {
      SameBar(m, a, b, t);
    }
  }

  lemma StepKeeps(m: Market, a: Account, op: Op)
    requires WellKept(m, a) && FreshKey(a, op)
    ensures WellKept(m, Do(m, a, op))
  {
    if op.Advance? {
      FireFirstKeeps(m, a.(now := Some(op.moment), phase := op.phase), |a.placed|);
      AdvanceChecks(m, a, op.moment, op.phase);
    } else {
      RequestKeeps(m, a, op);
      SameCursor(m, a, Do(m, a, op));
    }
  }

  // ------------------------------------------------------------------ cash

  function Worth(o: SimOrder): real {
    if !o.status.Filled? then 0.0
    else if o.side.Buy? then -(Turnover(o.price, o.units) + o.fee)
    else Turnover(o.price, o.units) - o.fee
  }

  function FillWorth(f: StopFill): real {
    Turnover(f.price, f.units) - f.fee
  }

  /** Turnover less fee of all filled sales and executed stops, minus turnover and fee of all buys. */
  ghost function Flow(a: Account): real {
    Total(a.orders, Worth) + Total(a.executed, FillWorth)
  }

  lemma FireOneConserves(m: Market, a: Account, key: nat)
    requires Firing(a)
    ensures FireOne(m, a, key).cash - Flow(FireOne(m, a, key)) == a.cash - Flow(a)
  {
    var after := FireOne(m, a, key);
    if after != a {
      TotalUpdate(a.executed, FillWorth, key, after.executed[key]);
    }
  }

  lemma FireFirstConserves(m: Market, a: Account, n: nat)
    requires Firing(a) && n <= |a.placed|
    ensures FireFirst(m, a, n).cash - Flow(FireFirst(m, a, n)) == a.cash - Flow(a)
  {
    var base := a.cash - Flow(a);
    forall x, key | Firing(x) && x.cash - Flow(x) == base
      ensures Firing(FireOne(m, x, key)) && FireOne(m, x, key).cash - Flow(FireOne(m, x, key)) == base
    {
      FireOneKeeps(m, x, key);
      FireOneConserves(m, x, key);
    }
    FireFirstKept(m, x => Firing(x) && x.cash - Flow(x) == base, a, n);
  }

  lemma FilledConserves(m: Market, a: Account, key: nat, order: SimOrder, price: real)
    requires key !in a.orders
    ensures AfterFill(m, a, key, order, price).cash - Flow(AfterFill(m, a, key, order, price)) == a.cash - Flow(a)
  {
    TotalUpdate(a.orders, Worth, key, AfterFill(m, a, key, order, price).orders[key]);
  }

  /** No request creates or destroys money. */
  lemma StepConservesCash(m: Market, a: Account, op: Op)
    requires WellKept(m, a) && FreshKey(a, op)
    ensures Do(m, a, op).cash - Flow(Do(m, a, op)) == a.cash - Flow(a)
  {
    var after := Do(m, a, op);
    match op
    case Advance(moment, phase) => FireFirstConserves(m, a.(now := Some(moment), phase := phase), |a.placed|);
    case PostMarket(key, ticker, side, lots) =>
      if after != a {
        var order := Requested(m, ticker, side, lots, a.now.value);
        var following := NextBar(m, a, ticker);
        if following.None? {
          TotalUpdate(a.orders, Worth, key, order);
        } else {
          FilledConserves(m, a, key, order, Slipped(m, following.value.open, side));
        }
      }
    case CancelOrder(key) =>
      if after != a {
        TotalUpdate(a.orders, Worth, key, after.orders[key]);
      }
    case PostStop(_, _, _, _) =>
    case CancelStop(_) =>
  }

  // ------------------------------------------------------------------ lots

  function Bought(ticker: string): SimOrder -> int {
    (o: SimOrder) =>
      if !o.status.Filled? || o.ticker != ticker then 0 else if o.side.Buy? then o.lots else -(o.lots as int)
  }

  function SoldByStop(ticker: string): StopFill -> int {
    (f: StopFill) => if f.ticker == ticker then f.lots else 0
  }

  /** Lots bought less lots sold, by every record the exchange keeps. */
  ghost function Net(a: Account, ticker: string): int {
    Sum(a.orders, Bought(ticker)) - Sum(a.executed, SoldByStop(ticker))
  }

  /** Lots sold that were not there to sell. */
  function Uncovered(a: Account, ticker: string, sold: string, lots: nat): nat {
    if ticker == sold && lots > HeldLots(a, ticker) >= 0 then lots - HeldLots(a, ticker) else 0
  }

  function UncoveredByStop(m: Market, a: Account, key: nat, ticker: string): nat {
    if Trigger(m, a, key).None? || a.now.None? then 0 else Uncovered(a, ticker, a.stops[key].ticker, a.stops[key].lots)
  }

  function Uncovering(m: Market, ticker: string): (Account, nat) -> int {
    (a: Account, key: nat) => UncoveredByStop(m, a, key, ticker)
  }

  /** Lots a request sells beyond the holding of a ticker. */
  function Oversold(m: Market, a: Account, op: Op, ticker: string): int {
    match op
    case Advance(moment, phase) => FiringSum(m, Uncovering(m, ticker), a.(now := Some(moment), phase := phase),
                                             |a.placed|)
    case PostMarket(_, sold, side, lots) =>
      if side.Sell? && lots > 0 && sold in m.lot && NextBar(m, a, sold).Some?
      then Uncovered(a, ticker, sold, lots) else 0
    case _ => 0
  }

  /** How far the lots held are from the records. */
  ghost function Drift(a: Account, ticker: string): int {
    HeldLots(a, ticker) - Net(a, ticker)
  }

  lemma FireOneLots(m: Market, a: Account, after: Account, key: nat, ticker: string, so: int)
    requires Firing(a) && after == FireOne(m, a, key) && Drift(a, ticker) == so
    ensures Drift(after, ticker) == so + UncoveredByStop(m, a, key, ticker)
  {
    if after != a {
      SumUpdate(a.executed, SoldByStop(ticker), key, after.executed[key]);
    }
  }

  lemma FireFirstLots(m: Market, a: Account, n: nat, ticker: string)
    requires Firing(a) && n <= |a.placed|
    ensures Drift(FireFirst(m, a, n), ticker) == Drift(a, ticker) + FiringSum(m, Uncovering(m, ticker), a, n)
  {
    forall x, key | Firing(x)
      ensures Firing(FireOne(m, x, key))
      ensures Drift(FireOne(m, x, key), ticker) == Drift(x, ticker) + UncoveredByStop(m, x, key, ticker)
    {
      FireOneKeeps(m, x, key);
      FireOneLots(m, x, FireOne(m, x, key), key, ticker, Drift(x, ticker));
    }
    FireFirstSummed(m, x => Firing(x), x => Drift(x, ticker), Uncovering(m, ticker), a, n);
  }

  lemma FilledLots(m: Market, a: Account, key: nat, order: SimOrder, price: real, ticker: string)
    requires key !in a.orders && Firing(a)
    ensures var after := AfterFill(m, a, key, order, price);
            Drift(after, ticker) == Drift(a, ticker)
            + if order.side.Sell? then Uncovered(a, ticker, order.ticker, order.lots) else 0
  {
    SumUpdate(a.orders, Bought(ticker), key, AfterFill(m, a, key, order, price).orders[key]);
  }

  /** Held lots leave the records by exactly the lots sold without being held. */
  lemma StepMovesLots(m: Market, a: Account, op: Op, ticker: string)
    requires WellKept(m, a) && FreshKey(a, op)
    ensures Drift(Do(m, a, op), ticker) == Drift(a, ticker) + Oversold(m, a, op, ticker)
  {
    var after := Do(m, a, op);
    match op
    case Advance(moment, phase) => FireFirstLots(m, a.(now := Some(moment), phase := phase), |a.placed|, ticker);
    case PostMarket(key, sold, side, lots) =>
      if lots > 0 && sold in m.lot && a.now.Some? {
        var order := Requested(m, sold, side, lots, a.now.value);
        var following := NextBar(m, a, sold);
        if following.None? {
          SumUpdate(a.orders, Bought(ticker), key, order);
        } else {
          FilledLots(m, a, key, order, Slipped(m, following.value.open, side), ticker);
        }
      }
    case CancelOrder(key) =>
      if after != a {
        SumUpdate(a.orders, Bought(ticker), key, after.orders[key]);
      }
    case PostStop(_, _, _, _) =>
    case CancelStop(_) =>
  }

  // ------------------------------------------------------------------ solvency

  /** A sale that pays its own fee. */
  predicate PaysItsFee(m: Market, price: real, units: nat) {
    m.tariff.On(Turnover(price, units)) <= Turnover(price, units)
  }

  predicate StopPaysItsFee(m: Market, a: Account, key: nat) {
    var bar := Trigger(m, a, key);
    bar.Some? ==> PaysItsFee(m, StopPrice(a.stops[key], bar.value), UnitsOf(m, a.stops[key].ticker, a.stops[key].lots))
  }

  predicate FirstPayTheirFees(m: Market, a: Account, n: nat)
    requires n <= |a.placed|
  {
    n == 0 || (FirstPayTheirFees(m, a, n - 1) && StopPaysItsFee(m, FireFirst(m, a, n - 1), a.placed[n - 1]))
  }

  predicate SalesPayTheirFees(m: Market, a: Account, op: Op) {
    match op
    case Advance(moment, phase) => FirstPayTheirFees(m, a.(now := Some(moment), phase := phase), |a.placed|)
    case PostMarket(_, ticker, side, lots) =>
      var following := NextBar(m, a, ticker);
      side.Sell? && lots > 0 && following.Some? ==>
        PaysItsFee(m, Slipped(m, following.value.open, side), UnitsOf(m, ticker, lots))
    case _ => true
  }

  lemma {:induction false} FireFirstSolvent(m: Market, a: Account, n: nat)
    requires n <= |a.placed| && FirstPayTheirFees(m, a, n) && a.cash >= 0.0
    ensures FireFirst(m, a, n).cash >= 0.0
  {
    if n > 0 {
      FireFirstSolvent(m, a, n - 1);
    }
  }

  lemma StepSolvent(m: Market, a: Account, op: Op)
    requires a.cash >= 0.0 && SalesPayTheirFees(m, a, op)
    ensures Do(m, a, op).cash >= 0.0
  {
    if op.Advance? {
      FireFirstSolvent(m, a.(now := Some(op.moment), phase := op.phase), |a.placed|);
    }
  }

  /** A priced sale leaves every account it could meet solvent exactly when it pays its own fee. */
  lemma SaleSolventIff(m: Market, key: nat, order: SimOrder, price: real)
    requires order.side.Sell?
    ensures (forall a: Account :: a.cash >= 0.0 ==> AfterFill(m, a, key, order, price).cash >= 0.0)
            <==> PaysItsFee(m, price, order.units)
  {
    var broke := Account(0.0, None, AtClose, {}, map[], map[], [], map[], map[]);
    assert AfterFill(m, broke, key, order, price).cash
           == Turnover(price, order.units) - m.tariff.On(Turnover(price, order.units));
  }

  /** So does a stop that fires now. */
  lemma StopSolventIff(m: Market, a: Account, key: nat)
    requires Trigger(m, a, key).Some?
    ensures (forall cash: real :: cash >= 0.0 ==> FireOne(m, a.(cash := cash), key).cash >= 0.0) <==>
              StopPaysItsFee(m, a, key)
  {
    forall cash: real ensures FireOne(m, a.(cash := cash), key).cash == cash + StopProceeds(m, a, key) {
      FireOnePays(m, a, a.(cash := cash), key);
    }
    assert FireOne(m, a.(cash := 0.0), key).cash == StopProceeds(m, a, key);
  }

  /** What a stop that fires now brings in, its fee paid. */
  function StopProceeds(m: Market, a: Account, key: nat): real
    requires Trigger(m, a, key).Some?
  {
    var turnover := Turnover(StopPrice(a.stops[key], Trigger(m, a, key).value),
                             UnitsOf(m, a.stops[key].ticker, a.stops[key].lots));
    turnover - m.tariff.On(turnover)
  }

  lemma FireOnePays(m: Market, a: Account, b: Account, key: nat)
    requires Trigger(m, a, key).Some? && b == a.(cash := b.cash)
    ensures FireOne(m, b, key).cash == b.cash + StopProceeds(m, a, key)
  {
    SameTrigger(m, a, b, key);
  }

  /** The minimum commission can exceed a small sale, and then the account can go under. */
  lemma SmallSaleOverdraws() returns (m: Market, a: Account, op: Op)
    ensures a.cash >= 0.0 && a.placed == [] && Do(m, a, op).cash < 0.0
  {
    var bar := Bar(1, 1.0, 1.0, 1.0, 1.0);
    m := Market(map["T" := [bar]], map["T" := 1], 0.0, Commission(0.0, 5.0), false);
    a := Account(0.0, Some(0), AtClose, {}, map[], map[], [], map[], map["T" := Held(1, 1.0)]);
    op := PostMarket(0, "T", Sell, 1);
    assert NextBar(m, a, "T") == Some(bar);
    assert Slipped(m, 1.0, Sell) == 1.0;
    assert Do(m, a, op).cash == -4.0;
  }

  // ------------------------------------------------------------------ runs

  ghost predicate IsStep(m: Market, a: Account, op: Op, b: Account) {
    FreshKey(a, op) && b == Do(m, a, op)
  }

  ghost function Next(m: Market): (Account, Op, Account) -> bool {
    (a, op, b) => IsStep(m, a, op, b)
  }

  ghost predicate IsRun(m: Market, states: seq<Account>, ops: seq<Op>) {
    Steps(Next(m), states, ops) && WellKept(m, states[0])
  }

  /** No condition on the requests of a run. */
  function Any(): (Account, Op) -> bool {
    (a, op) => true
  }

  lemma RunKeeps(m: Market, states: seq<Account>, ops: seq<Op>, i: nat)
    requires IsRun(m, states, ops) && i <= |ops|
    ensures WellKept(m, states[i])
  {
    forall a, op, b | IsStep(m, a, op, b) && WellKept(m, a) ensures WellKept(m, b) {
      StepKeeps(m, a, op);
    }
    Kept(Next(m), Any(), a => WellKept(m, a), states, ops, 0, i);
  }

  /** Cash is what it was, plus every sale's proceeds and minus every purchase's cost. */
  lemma RunConservesCash(m: Market, states: seq<Account>, ops: seq<Op>, i: nat)
    requires IsRun(m, states, ops) && i <= |ops|
    ensures states[i].cash == states[0].cash - Flow(states[0]) + Flow(states[i])
  {
    var base := states[0].cash - Flow(states[0]);
    forall a, op, b | IsStep(m, a, op, b) && WellKept(m, a) && a.cash - Flow(a) == base
      ensures WellKept(m, b) && b.cash - Flow(b) == base
    {
      StepKeeps(m, a, op);
      StepConservesCash(m, a, op);
    }
    Kept(Next(m), Any(), a => WellKept(m, a) && a.cash - Flow(a) == base, states, ops, 0, i);
  }

  function Overselling(m: Market, ticker: string): (Account, Op) -> int {
    (a, op) => Oversold(m, a, op, ticker)
  }

  /** Held lots stay bought minus sold exactly as long as nothing is sold that is not held, and are
      over by exactly what was. */
  lemma RunMovesLots(m: Market, states: seq<Account>, ops: seq<Op>, i: nat, ticker: string)
    requires IsRun(m, states, ops) && i <= |ops|
    ensures HeldLots(states[i], ticker) - Net(states[i], ticker)
            == HeldLots(states[0], ticker) - Net(states[0], ticker)
               + Accumulated(Overselling(m, ticker), states, ops, i)
  {
    forall a, op, b | IsStep(m, a, op, b) && WellKept(m, a)
      ensures WellKept(m, b) && Drift(b, ticker) == Drift(a, ticker) + Oversold(m, a, op, ticker)
    {
      StepKeeps(m, a, op);
      StepMovesLots(m, a, op, ticker);
    }
    Summed(Next(m), a => WellKept(m, a), a => Drift(a, ticker), Overselling(m, ticker), states, ops, i);
  }

  function Paying(m: Market): (Account, Op) -> bool {
    (a, op) => SalesPayTheirFees(m, a, op)
  }

  lemma RunSolvent(m: Market, states: seq<Account>, ops: seq<Op>, i: nat)
    requires IsRun(m, states, ops) && i <= |ops| && states[0].cash >= 0.0 && Always(Paying(m), states, ops, 0, i)
    ensures states[i].cash >= 0.0
  {
    forall a, op, b | IsStep(m, a, op, b) && SalesPayTheirFees(m, a, op) && a.cash >= 0.0 ensures b.cash >= 0.0 {
      StepSolvent(m, a, op);
    }
    Kept(Next(m), Paying(m), (a: Account) => a.cash >= 0.0, states, ops, 0, i);
  }

  // ------------------------------------------------------------------ stops fire once, and where the market traded

  /** What a stop's execution and row owe to the account firing began with. */
  ghost predicate SameRecord(a: Account, x: Account, k: nat) {
    && Firing(x) && k in a.stops && k in x.stops
    && (k in a.executed ==> k in x.executed && x.executed[k] == a.executed[k])
    && (k in a.executed || k !in x.executed ==> x.stops[k] == a.stops[k])
  }

  lemma SameRecordNext(m: Market, a: Account, x: Account, key: nat, k: nat)
    requires SameRecord(a, x, k)
    ensures SameRecord(a, FireOne(m, x, key), k)
  {
    FireOneKeeps(m, x, key);
  }

  lemma FireFirstSame(m: Market, a: Account, n: nat, k: nat)
    requires Firing(a) && n <= |a.placed| && k in a.stops
    ensures SameRecord(a, FireFirst(m, a, n), k)
  {
    forall x, key | SameRecord(a, x, k) ensures SameRecord(a, FireOne(m, x, key), k) {
      SameRecordNext(m, a, x, key, k);
    }
    FireFirstKept(m, x => SameRecord(a, x, k), a, n);
  }

  /** The record of a stop that fires now: on a bar not checked before, for its own lots, at its price
      or the open it gapped through to. */
  ghost predicate FiredOn(m: Market, a: Account, after: Account, k: nat) {
    && k in a.stops && k in after.executed && Trigger(m, a, k).Some?
    && var stop, bar := a.stops[k], Trigger(m, a, k).value;
    && after.executed[k].ticker == stop.ticker && after.executed[k].lots == stop.lots
    && after.executed[k].price == StopPrice(stop, bar)
  }

  /** A stop's trigger depends on its own row, the cursor and the bars already checked. */
  lemma SameTrigger(m: Market, a: Account, b: Account, k: nat)
    requires k in a.stops && k in b.stops && a.stops[k] == b.stops[k] && a.now == b.now && a.checked == b.checked
    ensures Trigger(m, a, k) == Trigger(m, b, k)
  {
    assert BarFor(m, a, a.stops[k].ticker) == BarFor(m, b, b.stops[k].ticker);
  }

  /** While firing goes on: what has fired did so as it should, what has not stands as it did. */
  ghost predicate FiringFrom(m: Market, a: Account, x: Account, k: nat) {
    && SameRecord(a, x, k) && x.now == a.now && x.checked == a.checked
    && (k in x.executed ==> FiredOn(m, a, x, k))
  }

  lemma FiringNext(m: Market, a: Account, x: Account, key: nat, k: nat)
    requires FiringFrom(m, a, x, k) && k !in a.executed
    ensures FiringFrom(m, a, FireOne(m, x, key), k)
  {
    SameRecordNext(m, a, x, key, k);
    if k !in x.executed {
      SameTrigger(m, a, x, k);
    } else {
      assert !x.stops[k].status.Active?;
    }
  }

  lemma FireFirstFires(m: Market, a: Account, n: nat, k: nat)
    requires Firing(a) && n <= |a.placed| && k !in a.executed && k in FireFirst(m, a, n).executed
    ensures FiredOn(m, a, FireFirst(m, a, n), k)
  {
    FireFirstKeeps(m, a, n);
    forall x, key | FiringFrom(m, a, x, k) ensures FiringFrom(m, a, FireOne(m, x, key), k) {
      FiringNext(m, a, x, key, k);
    }
    FireFirstKept(m, x => FiringFrom(m, a, x, k), a, n);
  }

  predicate Fires(a: Account, after: Account, k: nat) {
    k !in a.executed && k in after.executed
  }

  lemma StepExecuted(m: Market, a: Account, op: Op, k: nat)
    requires WellKept(m, a) && FreshKey(a, op) && k in a.executed
    ensures k in Do(m, a, op).executed && Do(m, a, op).executed[k] == a.executed[k]
  {
    if op.Advance? {
      FireFirstSame(m, a.(now := Some(op.moment), phase := op.phase), |a.placed|, k);
    }
  }

  lemma ExecutedStays(m: Market, states: seq<Account>, ops: seq<Op>, i: nat, j: nat, k: nat)
    requires IsRun(m, states, ops) && i <= j <= |ops| && k in states[i].executed
    ensures k in states[j].executed && states[j].executed[k] == states[i].executed[k]
  {
    var fill := states[i].executed[k];
    forall a, op, b | IsStep(m, a, op, b) && WellKept(m, a) && k in a.executed && a.executed[k] == fill
      ensures WellKept(m, b) && k in b.executed && b.executed[k] == fill
    {
      StepKeeps(m, a, op);
      StepExecuted(m, a, op, k);
    }
    RunKeeps(m, states, ops, i);
    Kept(Next(m), Any(), a => WellKept(m, a) && k in a.executed && a.executed[k] == fill, states, ops, i, j);
  }

  /** A stop fires at most once in a run, however many phases of a bar are walked. */
  lemma FiresAtMostOnce(m: Market, states: seq<Account>, ops: seq<Op>, i: nat, j: nat, k: nat)
    requires IsRun(m, states, ops) && i <= j < |ops|
    requires Fires(states[i], states[i + 1], k) && Fires(states[j], states[j + 1], k)
    ensures i == j
  {
    if i < j {
      ExecutedStays(m, states, ops, i + 1, j, k);
    }
  }

  predicate WellFormed(bar: Bar) {
    bar.low <= bar.open <= bar.high && bar.low <= bar.close <= bar.high
  }

  /** A stop fills no better than its own price and the bar's open, and no worse than its low. */
  lemma FillWithinBar(m: Market, a: Account, op: Op, k: nat)
    requires WellKept(m, a) && FreshKey(a, op) && Fires(a, Do(m, a, op), k)
    ensures op.Advance? && k in a.stops
    ensures var after := Do(m, a, op);
            && BarFor(m, after, a.stops[k].ticker).Some?
            && var bar := BarFor(m, after, a.stops[k].ticker).value;
            && bar.at !in a.checked && bar.low <= a.stops[k].price && after.executed[k].lots == a.stops[k].lots
            && after.executed[k].price <= a.stops[k].price && after.executed[k].price <= bar.open
            && (WellFormed(bar) ==> bar.low <= after.executed[k].price)
  {
    OnlyAdvancingFires(m, a, op, k);
    var moved := a.(now := Some(op.moment), phase := op.phase);
    FireFirstFires(m, moved, |a.placed|, k);
    FiredWithinBar(m, moved, Do(m, a, op), k);
  }

  lemma OnlyAdvancingFires(m: Market, a: Account, op: Op, k: nat)
    requires Fires(a, Do(m, a, op), k)
    ensures op.Advance?
  {
  }

  lemma FiredWithinBar(m: Market, moved: Account, after: Account, k: nat)
    requires FiredOn(m, moved, after, k) && after.now == moved.now
    ensures var bar := BarFor(m, after, moved.stops[k].ticker);
            && bar.Some? && bar.value.at !in moved.checked && bar.value.low <= moved.stops[k].price
            && after.executed[k].lots == moved.stops[k].lots
            && after.executed[k].price <= moved.stops[k].price && after.executed[k].price <= bar.value.open
            && (WellFormed(bar.value) ==> bar.value.low <= after.executed[k].price)
  {
    SameBar(m, moved, after, moved.stops[k].ticker);
  }

  lemma StepStop(m: Market, a: Account, op: Op, k: nat)
    requires WellKept(m, a) && FreshKey(a, op) && k in a.stops
    ensures k in Do(m, a, op).stops && Do(m, a, op).stops[k].ticker == a.stops[k].ticker
    ensures a.checked <= Do(m, a, op).checked
  {
    hide WellKept, CurrentBars, BarFor, NextBar, Reduced;
    if op.Advance? {
      FireFirstTickers(m, a.(now := Some(op.moment), phase := op.phase), |a.placed|, k);
    }
  }

  lemma FireFirstTickers(m: Market, a: Account, n: nat, k: nat)
    requires n <= |a.placed| && k in a.stops
    ensures FireFirst(m, a, n).stops[k].ticker == a.stops[k].ticker
  {
    FireFirstKept(m, (x: Account) => k in x.stops && x.stops[k].ticker == a.stops[k].ticker, a, n);
  }

  /** What a posted stop's row and the bars checked since owe to an earlier account. */
  ghost predicate StillThere(m: Market, a: Account, x: Account, k: nat) {
    WellKept(m, x) && k in a.stops && k in x.stops && x.stops[k].ticker == a.stops[k].ticker && a.checked <= x.checked
  }

  lemma StopStays(m: Market, states: seq<Account>, ops: seq<Op>, i: nat, j: nat, k: nat)
    requires IsRun(m, states, ops) && i <= j <= |ops| && k in states[i].stops
    ensures StillThere(m, states[i], states[j], k)
  {
    var was := states[i];
    forall a, op, b | IsStep(m, a, op, b) && StillThere(m, was, a, k) ensures StillThere(m, was, b, k) {
      StepKeeps(m, a, op);
      StepStop(m, a, op, k);
    }
    RunKeeps(m, states, ops, i);
    Kept(Next(m), Any(), a => StillThere(m, was, a, k), states, ops, i, j);
  }

  lemma PostedOnTicker(m: Market, a: Account, k: nat, ticker: string, lots: int, price: real)
    requires k !in a.stops && k in StopPosted(m, a, k, ticker, lots, price).0.stops
    ensures var after := StopPosted(m, a, k, ticker, lots, price).0;
            after.stops[k].ticker == ticker && after.checked == a.checked
  {
  }

  lemma CurrentIsChecked(m: Market, a: Account, ticker: string)
    requires WellKept(m, a) && BarFor(m, a, ticker).Some?
    ensures BarFor(m, a, ticker).value.at in a.checked
  {
  }

  lemma PostingBarChecked(m: Market, states: seq<Account>, ops: seq<Op>, i: nat, k: nat, ticker: string, lots: int,
                          price: real)
    requires IsRun(m, states, ops) && i < |ops| && ops[i] == PostStop(k, ticker, lots, price)
    requires k in states[i + 1].stops
    requires BarFor(m, states[i], ticker).Some?
    ensures states[i + 1].stops[k].ticker == ticker && BarFor(m, states[i], ticker).value.at in states[i + 1].checked
  {
    RunKeeps(m, states, ops, i);
    assert Next(m)(states[i], ops[i], states[i + 1]);
    CurrentIsChecked(m, states[i], ticker);
    PostedOnTicker(m, states[i], k, ticker, lots, price);
  }

  lemma FiringBarUnchecked(m: Market, states: seq<Account>, ops: seq<Op>, j: nat, k: nat)
    requires IsRun(m, states, ops) && j < |ops| && k in states[j].stops && Fires(states[j], states[j + 1], k)
    ensures var bar := BarFor(m, states[j + 1], states[j].stops[k].ticker);
            bar.Some? && bar.value.at !in states[j].checked
  {
    RunKeeps(m, states, ops, j);
    assert Next(m)(states[j], ops[j], states[j + 1]);
    FillWithinBar(m, states[j], ops[j], k);
  }

  /** No stop fires in the bar it was posted in, wherever the cursor went in between. */
  lemma NeverInItsOwnBar(m: Market, states: seq<Account>, ops: seq<Op>, i: nat, j: nat, k: nat, ticker: string,
                         lots: int, price: real)
    requires IsRun(m, states, ops) && i < j < |ops| && ops[i] == PostStop(k, ticker, lots, price)
    requires k in states[i + 1].stops
    requires BarFor(m, states[i], ticker).Some? && Fires(states[j], states[j + 1], k)
    ensures BarFor(m, states[j + 1], ticker).Some?
    ensures BarFor(m, states[j + 1], ticker).value.at != BarFor(m, states[i], ticker).value.at
  {
    PostingBarChecked(m, states, ops, i, k, ticker, lots, price);
    StopStays(m, states, ops, i + 1, j, k);
    FiringBarUnchecked(m, states, ops, j, k);
  }

  // ------------------------------------------------------------------ no look-ahead

  /** Two histories that are the same up to an instant: a common prefix, and nothing else that early. */
  ghost predicate SameUntil(b: seq<Bar>, c: seq<Bar>, until: int) {
    exists n :: 0 <= n <= |b| && n <= |c| && Prefix(b, c, n, until)
  }

  ghost predicate Prefix(b: seq<Bar>, c: seq<Bar>, n: nat, until: int)
    requires n <= |b| && n <= |c|
  {
    && b[..n] == c[..n]
    && (forall i :: n <= i < |b| ==> b[i].at > until) && (forall i :: n <= i < |c| ==> c[i].at > until)
  }

  /** The same instruments and costs; only the histories differ. */
  predicate SameTerms(m: Market, w: Market) {
    w.lot == m.lot && w.slippage == m.slippage && w.tariff == m.tariff && w.rejectStops == m.rejectStops
  }

  ghost predicate Alike(m: Market, w: Market, until: int) {
    && SameTerms(m, w)
    && w.bars.Keys == m.bars.Keys && forall t :: t in m.bars ==> SameUntil(m.bars[t], w.bars[t], until)
  }

  lemma {:induction false} SeenPrefix(bars: seq<Bar>, n: nat, now: int)
    requires n <= |bars| && forall i :: n <= i < |bars| ==> bars[i].at > now
    ensures Seen(bars, now) == Seen(bars[..n], now)
  {
    if n == |bars| {
      assert bars[..n] == bars;
    } else {
      var front := bars[..|bars| - 1];
      SeenPrefix(front, n, now);
      assert front[..n] == bars[..n];
    }
  }

  lemma {:induction false} FirstAfterPrefix(bars: seq<Bar>, n: nat, now: int, until: int)
    requires n <= |bars| && forall i :: n <= i < |bars| ==> bars[i].at > until
    ensures FirstAfter(bars[..n], now).Some? ==> FirstAfter(bars, now) == FirstAfter(bars[..n], now)
    ensures FirstAfter(bars, now).Some? && FirstAfter(bars, now).value.at <= until ==>
              FirstAfter(bars, now) == FirstAfter(bars[..n], now)
  {
    if n > 0 {
      FirstAfterPrefix(bars[1..], n - 1, now, until);
      assert bars[1..][..n - 1] == bars[..n][1..];
    } else if bars != [] && bars[0].at <= now {
      FirstAfterPrefix(bars[1..], 0, now, until);
      assert bars[1..][..0] == bars[..0];
    }
  }

  predicate NowBy(a: Account, until: int) {
    a.now.Some? ==> a.now.value <= until
  }

  lemma SameView(m: Market, w: Market, a: Account, ticker: string, until: int)
    requires Alike(m, w, until) && NowBy(a, until)
    ensures Visible(m, a, ticker) == Visible(w, a, ticker) && BarFor(m, a, ticker) == BarFor(w, a, ticker)
  {
    if a.now.Some? && ticker in m.bars {
      var n :| 0 <= n <= |m.bars[ticker]| && n <= |w.bars[ticker]| && Prefix(m.bars[ticker], w.bars[ticker], n, until);
      SeenPrefix(m.bars[ticker], n, a.now.value);
      SeenPrefix(w.bars[ticker], n, a.now.value);
    }
  }

  /** What a strategy can ask for is the same in both. */
  lemma SameAnswers(m: Market, w: Market, a: Account, ticker: string, since: int, until: int, horizon: int)
    requires Alike(m, w, horizon) && NowBy(a, horizon)
    ensures Candles(m, a, ticker, since, until) == Candles(w, a, ticker, since, until)
    ensures LastPrice(m, a, ticker) == LastPrice(w, a, ticker) && MaxLots(m, a, ticker) == MaxLots(w, a, ticker)
  {
    SameView(m, w, a, ticker, horizon);
  }

  lemma SameFireOne(m: Market, w: Market, a: Account, key: nat, until: int)
    requires Alike(m, w, until) && NowBy(a, until)
    ensures FireOne(m, a, key) == FireOne(w, a, key)
  {
    if key in a.stops {
      SameView(m, w, a, a.stops[key].ticker, until);
    }
  }

  lemma {:induction false} SameFirings(m: Market, w: Market, a: Account, n: nat, until: int)
    requires Alike(m, w, until) && NowBy(a, until) && n <= |a.placed|
    ensures FireFirst(m, a, n) == FireFirst(w, a, n)
  {
    if n > 0 {
      SameFirings(m, w, a, n - 1, until);
      SameFireOne(m, w, FireFirst(m, a, n - 1), a.placed[n - 1], until);
    }
  }

  lemma SameAdvance(m: Market, w: Market, a: Account, moment: int, phase: Phase, until: int)
    requires Alike(m, w, until) && moment <= until
    ensures Advanced(m, a, moment, phase) == Advanced(w, a, moment, phase)
  {
    var moved := a.(now := Some(moment), phase := phase);
    SameFirings(m, w, moved, |a.placed|, until);
    forall t | t in m.bars ensures BarFor(m, moved, t) == BarFor(w, moved, t) {
      SameView(m, w, moved, t, until);
    }
    assert CurrentBars(m, moved) == CurrentBars(w, moved);
  }

  /** The next bar is inside the shared history. */
  predicate NextBy(m: Market, a: Account, ticker: string, until: int) {
    NextBar(m, a, ticker).Some? && NextBar(m, a, ticker).value.at <= until
  }

  lemma SameNext(m: Market, w: Market, a: Account, ticker: string, until: int)
    requires Alike(m, w, until) && NextBy(m, a, ticker, until)
    ensures NextBar(w, a, ticker) == NextBar(m, a, ticker)
  {
    var n :| 0 <= n <= |m.bars[ticker]| && n <= |w.bars[ticker]| && Prefix(m.bars[ticker], w.bars[ticker], n, until);
    FirstAfterPrefix(m.bars[ticker], n, a.now.value, until);
    FirstAfterPrefix(w.bars[ticker], n, a.now.value, until);
  }

  lemma SameFill(m: Market, w: Market, a: Account, key: nat, order: SimOrder, price: real)
    requires SameTerms(m, w)
    ensures AfterFill(m, a, key, order, price) == AfterFill(w, a, key, order, price)
    ensures Affordable(m, a, order, price) == Affordable(w, a, order, price)
  {
  }

  /** A fill depends on the bars through the next bar's open alone. */
  lemma FillSeesOnlyNextOpen(m: Market, w: Market, a: Account, key: nat, ticker: string, side: Side, lots: int)
    requires SameTerms(m, w) && (NextBar(m, a, ticker).Some? <==> NextBar(w, a, ticker).Some?)
    requires NextBar(m, a, ticker).Some? ==> NextBar(m, a, ticker).value.open == NextBar(w, a, ticker).value.open
    ensures Posted(m, a, key, ticker, side, lots) == Posted(w, a, key, ticker, side, lots)
  {
    if lots > 0 && ticker in m.lot && a.now.Some? {
      var order := Requested(m, ticker, side, lots, a.now.value);
      assert order == Requested(w, ticker, side, lots, a.now.value);
      if NextBar(m, a, ticker).Some? {
        PricedAlike(m, w, a, key, ticker, side, lots, order, Slipped(m, NextBar(m, a, ticker).value.open, side));
      }
    }
  }

  lemma PricedAlike(m: Market, w: Market, a: Account, key: nat, ticker: string, side: Side, lots: int, order: SimOrder,
                    price: real)
    requires SameTerms(m, w) && lots > 0 && ticker in m.lot && a.now.Some?
    requires NextBar(m, a, ticker).Some? && NextBar(w, a, ticker).Some?
    requires order == Requested(m, ticker, side, lots, a.now.value) == Requested(w, ticker, side, lots, a.now.value)
    requires price == Slipped(m, NextBar(m, a, ticker).value.open, side) 
                      == Slipped(w, NextBar(w, a, ticker).value.open, side)
    ensures Posted(m, a, key, ticker, side, lots) == Posted(w, a, key, ticker, side, lots)
  {
    SameFill(m, w, a, key, order, price);
    var after := AfterFill(m, a, key, order, price);
    var answer := if side.Buy? && !Affordable(m, a, order, price)
                  then (a, Refused) else (after, Taken(after.orders[key]));
    assert Posted(m, a, key, ticker, side, lots) == answer;
    assert Posted(w, a, key, ticker, side, lots) == answer;
  }

  /** The request looks no further than `until`. */
  predicate LooksNoFurther(m: Market, a: Account, op: Op, until: int) {
    match op
    case Advance(moment, _) => moment <= until
    case PostMarket(_, ticker, _, _) => NextBy(m, a, ticker, until)
    case _ => true
  }

  lemma SameStep(m: Market, w: Market, a: Account, op: Op, until: int)
    requires Alike(m, w, until) && LooksNoFurther(m, a, op, until)
    ensures Do(m, a, op) == Do(w, a, op)
  {
    match op
    case Advance(moment, phase) => SameAdvance(m, w, a, moment, phase, until);
    case PostMarket(key, ticker, side, lots) =>
      SameNext(m, w, a, ticker, until);
      FillSeesOnlyNextOpen(m, w, a, key, ticker, side, lots);
    case _ =>
  }

  function NotPast(m: Market, until: int): (Account, Op) -> bool {
    (a, op) => LooksNoFurther(m, a, op, until)
  }

  /** Two backtests whose histories agree up to an instant go through the same accounts for as long as
      they look no further, whatever either history holds afterwards. */
  lemma NoLookAhead(m: Market, w: Market, states: seq<Account>, others: seq<Account>, ops: seq<Op>, until: int, i: nat)
    requires IsRun(m, states, ops) && IsRun(w, others, ops) && states[0] == others[0] && i <= |ops|
    requires Alike(m, w, until) && Always(NotPast(m, until), states, ops, 0, i)
    ensures states[i] == others[i]
  {
    forall a, op, b, c | IsStep(m, a, op, b) && IsStep(w, a, op, c) && LooksNoFurther(m, a, op, until) ensures b == c {
      SameStep(m, w, a, op, until);
    }
    Agree(Next(m), Next(w), NotPast(m, until), states, others, ops, i);
  }

  // ------------------------------------------------------------------ the exchange itself

  class SimulatedExchange {
    const market: Market
    var cash: real
    var now: Option<int>
    var phase: Phase
    var checked: set<int>
    var orders: map<nat, SimOrder>
    var stops: map<nat, SimStop>
    var placed: seq<nat>
    var executed: map<nat, StopFill>
    var holdings: map<string, Held>

    ghost function View(): Account
      reads this
    {
      Account(cash, now, phase, checked, orders, stops, placed, executed, holdings)
    }

    ghost predicate Valid()
      reads this
    {
      WellKept(market, View())
    }

    constructor (market: Market, cash: real)
      ensures Valid() && this.market == market
      ensures View() == Account(cash, None, AtClose, {}, map[], map[], [], map[], map[])
    {
      this.market, this.cash := market, cash;
      now, phase, checked := None, AtClose, {};
      orders, stops, placed, executed, holdings := map[], map[], [], map[], map[];
    }

    method CurrentBar(ticker: string) returns (bar: Option<Bar>)
      ensures bar == BarFor(market, View(), ticker)
    {
      bar := None;
      if now.Some? && ticker in market.bars {
        var bars := market.bars[ticker];
        for i := 0 to |bars|
          invariant bar == var seen := Seen(bars[..i], now.value); if seen == [] then None else Some(seen[|seen| - 1])
        {
          assert bars[..i + 1][..i] == bars[..i];
          if bars[i].at <= now.value {
            bar := Some(bars[i]);
          }
        }
        assert bars[..|bars|] == bars;
      }
    }

    method Settle(ticker: string, lots: nat)
      modifies `holdings
      ensures holdings == Reduced(old(holdings), ticker, lots)
    {
      if ticker in holdings {
        holdings := holdings[ticker := holdings[ticker].(lots := holdings[ticker].lots - lots)];
        if holdings[ticker].lots <= 0 {
          holdings := holdings - {ticker};
        }
      }
    }

    method FireStop(key: nat)
      requires key in stops
      modifies this
      ensures View() == FireOne(market, old(View()), key)
    {
      var stop := stops[key];
      if !stop.status.Active? {
        return;
      }
      var bar := CurrentBar(stop.ticker);
      if bar.None? || bar.value.at in checked || bar.value.low > stop.price {
        return;
      }
      var price := if stop.price <= bar.value.open then stop.price else bar.value.open;
      var units := UnitsOf(market, stop.ticker, stop.lots);
      var turnover := Turnover(price, units);
      var fee := market.tariff.On(turnover);
      cash := cash + (turnover - fee);
      Settle(stop.ticker, stop.lots);
      executed := executed[key := StopFill(stop.ticker, stop.lots, price, fee, units, now.value)];
      stops := stops[key := stop.(status := Executed)];
    }

    /** The bars the cursor is in, on every ticker. */
    method EnteredBars() returns (entered: set<int>)
      ensures entered == CurrentBars(market, View())
    {
      entered := {};
      var left := market.bars.Keys;
      while left != {}
        invariant left <= market.bars.Keys
        invariant entered == set t | t in market.bars.Keys - left && BarFor(market, View(), t).Some?
                               :: BarFor(market, View(), t).value.at
        decreases |left|
      {
        var t :| t in left;
        var bar := CurrentBar(t);
        if bar.Some? {
          entered := entered + {bar.value.at};
        }
        left := left - {t};
      }
    }

    /** Every placed stop, in order. */
    method FireAll()
      requires forall k :: k in placed ==> k in stops
      modifies this
      ensures View() == FireFirst(market, old(View()), |old(placed)|)
    {
      hide FireOne;
      ghost var before := View();
      ghost var so := before;
      var keys := placed;
      for i := 0 to |keys|
        invariant keys == before.placed && View() == so && so == FireFirst(market, before, i)
      {
        FireStop(keys[i]);
        FireFirstNext(market, before, i, so, View());
        so := View();
      }
    }

    method FireStops()
      requires forall k :: k in placed ==> k in stops
      modifies this
      ensures View() == FireFirst(market, old(View()), |old(placed)|).(
                           checked := old(checked) + CurrentBars(market, old(View())))
    {
      var entered := EnteredBars();
      FireAll();
      checked := checked + entered;
    }

    method Advance(moment: int, phase: Phase)
      requires Valid()
      modifies this
      ensures Valid() && View() == Do(market, old(View()), Op.Advance(moment, phase))
    {
      ghost var before := View();
      now := Some(moment);
      this.phase := phase;
      FireStops();
      StepKeeps(market, before, Op.Advance(moment, phase));
    }

    method PostMarketOrder(key: nat, ticker: string, side: Side, lots: int) returns (reply: Reply)
      requires Valid()
      modifies this
      ensures (View(), reply) == Posted(market, old(View()), key, ticker, side, lots)
      ensures Valid()
    {
      ghost var before := View();
      if lots <= 0 || ticker !in market.lot {
        return Refused;
      }
      if now.None? {
        return Unready;
      }
      var order := Requested(market, ticker, side, lots, now.value);
      var following := Following(ticker);
      if following.Some? && side.Buy? {
        var price := Slipped(market, following.value.open, side);
        var turnover := Turnover(price, order.units);
        if turnover + market.tariff.On(turnover) > cash {
          return Refused;
        }
      }
      if following.None? {
        orders := orders[key := order];
        SameCursor(market, before, View());
        return Taken(order);
      }
      ApplyFill(key, order, Slipped(market, following.value.open, side));
      SameCursor(market, before, View());
      return Taken(orders[key]);
    }

    /** The bar after the cursor. */
    method Following(ticker: string) returns (bar: Option<Bar>)
      ensures bar == NextBar(market, View(), ticker)
    {
      bar := if now.None? || ticker !in market.bars then None else FirstAfter(market.bars[ticker], now.value);
    }

    method ApplyFill(key: nat, order: SimOrder, price: real)
      modifies this
      ensures View() == AfterFill(market, old(View()), key, order, price)
    {
      var turnover := Turnover(price, order.units);
      var fee := market.tariff.On(turnover);
      if order.side.Buy? {
        cash := cash - (turnover + fee);
        var held := if order.ticker in holdings then holdings[order.ticker].lots else 0;
        holdings := holdings[order.ticker := Held(held + order.lots, price)];
      } else {
        cash := cash + (turnover - fee);
        Settle(order.ticker, order.lots);
      }
      orders := orders[key := order.(status := OrderStatus.Filled, price := price, fee := fee)];
    }
  
    /** Under a key already used the record is overwritten, fired or not. */
    method PostStopLoss(key: nat, ticker: string, lots: int, price: real) returns (reply: Reply)
      requires Valid()
      modifies this
      ensures (View(), reply) == StopPosted(market, old(View()), key, ticker, lots, price)
      ensures key !in old(stops) ==> Valid()
    {
      ghost var before := View();
      if lots <= 0 || market.rejectStops || ticker !in market.lot {
        return Refused;
      }
      if now.None? {
        return Unready;
      }
      if key !in stops {
        placed := placed + [key];
      }
      stops := stops[key := SimStop(ticker, lots, price, Active, now.value)];
      SameCursor(market, before, View());
      return Placed;
    }

    method CancelOrder(key: nat)
      requires Valid()
      modifies this
      ensures Valid() && View() == Do(market, old(View()), Op.CancelOrder(key))
    {
      ghost var before := View();
      if key in orders && orders[key].status.Submitted? {
        orders := orders[key := orders[key].(status := OrderStatus.Cancelled)];
      }
      SameCursor(market, before, View());
    }

    method CancelStopOrder(key: nat)
      requires Valid()
      modifies this
      ensures Valid() && View() == Do(market, old(View()), CancelStop(key))
    {
      ghost var before := View();
      if key in stops {
        stops := stops[key := stops[key].(status := Withdrawn)];
      }
      SameCursor(market, before, View());
    }
  }
}
