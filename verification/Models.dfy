/** The durable rows and broker records the bot works with.

    Money is exact (`real`) where the program uses `Decimal`; instants are integers.
 */
module Models {

  datatype Option<+T> = None | Some(value: T)

  datatype Side = Buy | Sell
  datatype Intent = Entry | Exit
  datatype Trigger = StopLoss | TakeProfit | MaxAge | External

  /** An order key. `Ours` is a key the bot generated, `Theirs` an identifier the broker issued;
      the two never coincide. */
  datatype Id = Ours(n: nat) | Theirs(n: nat)

  datatype OrderStatus = Submitting | Submitted | Filled | Rejected | Cancelled {
    predicate Terminal() { Filled? || Rejected? || Cancelled? }
  }

  datatype StopStatus = Placing | Active | Withdrawn | Executed | Orphaned | Failed {
    /** Covered by the unique index on live stop rows. */
    predicate Standing() { Placing? || Active? }
  }

  /** `stop_protection` together with `stop_order_key`: the table's CHECK constraint admits
      exactly EXCHANGE with a key and LOCAL without one. */
  datatype Protection = Local | Exchange(key: Id)

  datatype Order = Order(
    ticker: string, side: Side, intent: Intent, lots: nat, trigger: Option<Trigger>, status: OrderStatus, filled: nat,
    price: Option<real>, fee: Option<real>, brokerId: Option<Id>)

  /** The columns of an order row that are written once, when it is submitted. */
  predicate SameRequest(a: Order, b: Order) {
    a.ticker == b.ticker && a.side == b.side && a.intent == b.intent && a.lots == b.lots && a.trigger == b.trigger
  }

  /** An entry buys and an exit sells; exactly the exits say why, and never that the owner did it. */
  predicate Formed(o: Order) {
    (o.intent.Entry? <==> o.side.Buy?) && (o.intent.Exit? <==> o.trigger.Some?) && o.trigger != Some(External)
  }

  /** How a position was closed: the exit columns, all null while the position is open. */
  datatype ExitInfo = ExitInfo(trigger: Trigger, price: real, closeKey: Option<Id>, exitFee: Option<real>, pnl: real)

  datatype Position = Position(
    ticker: string, lots: nat, lotSize: nat, entry: real, stop: real, openKey: Id, adopted: bool,
    exit: Option<ExitInfo>, protection: Protection)
  {
    predicate Open() { exit.None? }
  }

  datatype StopRow = StopRow(sid: Option<nat>, position: nat, ticker: string, lots: nat, price: real,
                             status: StopStatus)

  /** The commission on an order row, zero while it is unknown or the row is absent. */
  function FeeOf(orders: map<Id, Order>, key: Option<Id>): real {
    if key.Some? && key.value in orders && orders[key.value].fee.Some? then orders[key.value].fee.value
    else 0.0
  }

  function Realised(entry: real, exit: real, lots: nat, lotSize: nat, entryFee: real, exitFee: real): real {
    (exit - entry) * (lots * lotSize) as real - entryFee - exitFee
  }

  /** The commissions a closed row's figure is net of. The owner's own sale has its commission on the row,
      the bot's on its order. */
  function OpeningFee(p: Position, orders: map<Id, Order>): real {
    if p.openKey in orders && orders[p.openKey].fee.Some? then orders[p.openKey].fee.value else 0.0
  }

  function ClosingFee(p: Position, orders: map<Id, Order>): real
    requires !p.Open()
  {
    var e := p.exit.value;
    if e.closeKey.None? then (if e.exitFee.Some? then e.exitFee.value else 0.0)
    else if e.closeKey.value in orders && orders[e.closeKey.value].fee.Some? then orders[e.closeKey.value].fee.value
    else 0.0
  }

  /** A closed row's figure, with those commissions, is what the sale brought less what the purchase cost. */
  predicate Balances(p: Position, orders: map<Id, Order>) {
    !p.Open() ==>
      var units := (p.lots * p.lotSize) as real;
      p.exit.value.pnl + OpeningFee(p, orders) + ClosingFee(p, orders) == p.exit.value.price * units - p.entry * units
  }

  lemma RealisedBalances(entry: real, exit: real, lots: nat, lotSize: nat, entryFee: real, exitFee: real)
    ensures Realised(entry, exit, lots, lotSize, entryFee, exitFee) + entryFee + exitFee
            == exit * (lots * lotSize) as real - entry * (lots * lotSize) as real
  {
    var units := (lots * lotSize) as real;
    assert (exit - entry) * units == exit * units - entry * units;
  }
}
