/** The bot's three tables and its broker account, and one method for every awaited call.

    Before and after the effect of a call the exchange may move; each effect is one step of
    `Protocol`, noted in `log`. A crash inside any method leaves the world of a prefix of `log`.
 */
module Bots {
  import opened Models
  import opened Protocol

  /** The reply to a posted market order: the broker's record of it, a refusal, or no answer
      (in which case the order may or may not have reached the exchange). */
  datatype PostReply =
    | Posted(status: OrderStatus, filled: nat, price: Option<real>, fee: Option<real>)
    | Refused
    | NoAnswer

  datatype StateReply =
    | State(status: OrderStatus, filled: nat, price: Option<real>, fee: Option<real>)
    | Unknown
    | NoState

  /** The truth about an order, and what the broker may answer: that, or nothing. */
  function StateOf(b: Broker, key: Id): StateReply {
    if key !in b.market then Unknown
    else State(StatusOf(b.market[key]), b.market[key].filled, b.market[key].Price(), b.market[key].Fee())
  }

  predicate Answers(reply: StateReply, b: Broker, key: Id) {
    reply.NoState? || reply == StateOf(b, key)
  }

  /** The row says what the exchange executed, at what price and for what commission. */
  predicate AsExecuted(row: Order, market: map<Id, MarketOrder>, key: Id) {
    && key in market && market[key].state.Done? && row.filled == market[key].filled
    && (row.filled > 0 ==> row.price == Some(market[key].price) && row.fee == market[key].fee)
  }

  function StatusOf(o: MarketOrder): OrderStatus {
    if o.state.Live? then Submitted else o.state.outcome
  }

  predicate IsExchangeMove(a: Action) {
    a.Fill? || a.Finish? || a.Fire? || a.ForeignStop?
  }

  /** Stops that have fired or gone stay exactly as they are. */
  ghost predicate StopsKept(v: Broker, w: Broker) {
    forall s :: s in v.stops && !v.stops[s].state.Armed? ==> s in w.stops && w.stops[s] == v.stops[s]
  }

  /** No order appears at the exchange and none is booked. */
  ghost predicate OrdersKept(v: Broker, w: Broker) {
    && w.market.Keys == v.market.Keys
    && (forall k :: k in v.market ==> Becomes(v.market[k], w.market[k]) && w.market[k].booked == v.market[k].booked)
  }

  /** Stops never disappear, and those the bot did not post are named by the broker. */
  ghost predicate NewStopsForeign(v: Broker, w: Broker) {
    && v.stops.Keys <= w.stops.Keys
    && (forall s :: s in w.stops ==> w.stops[s].key == if s in v.stops then v.stops[s].key else Theirs(s))
  }

  lemma MoveKeeps(w: World, a: Action)
    requires IsExchangeMove(a) && Enabled(w, a)
    ensures OrdersKept(w.broker, Apply(w, a).broker) && Even(w, a)
    ensures Apply(w, a) == w.(broker := Apply(w, a).broker)
  {
  }

  lemma MoveKeepsStops(w: World, a: Action)
    requires IsExchangeMove(a) && Enabled(w, a)
    ensures NewStopsForeign(w.broker, Apply(w, a).broker) && StopsKept(w.broker, Apply(w, a).broker)
  {
  }

  /** The account once the exchange has acted on a cancelled stop. */
  function Disarmed(b: Broker, sid: nat): Broker {
    if sid in b.stops && b.stops[sid].state.Armed? then b.(stops := b.stops[sid := b.stops[sid].(state := Gone)]) else b
  }

  /** The account once the exchange has acted on a cancelled order: what was executed stays. */
  function Ended(b: Broker, key: Id): Broker {
    if key in b.market && b.market[key].state.Live?
    then b.(market := b.market[key := b.market[key].(state := Done(Cancelled))]) else b
  }

  /** What `db.positions.close` stores for an open position. */
  function ExitOf(orders: map<Id, Order>, p: Position, trigger: Trigger, price: real, closeKey: Option<Id>,
                  exitFee: Option<real>): ExitInfo {
    var closing := if closeKey.Some? then FeeOf(orders, closeKey) else if exitFee.Some? then exitFee.value else 0.0;
    ExitInfo(trigger, price, closeKey, exitFee,
             Realised(p.entry, price, p.lots, p.lotSize, FeeOf(orders, Some(p.openKey)), closing))
  }

  lemma ExitBalances(orders: map<Id, Order>, p: Position, trigger: Trigger, price: real, closeKey: Option<Id>,
                     exitFee: Option<real>)
    ensures Balances(p.(exit := Some(ExitOf(orders, p, trigger, price, closeKey, exitFee)), protection := Local),
                     orders)
  {
    var closing := if closeKey.Some? then FeeOf(orders, closeKey) else if exitFee.Some? then exitFee.value else 0.0;
    RealisedBalances(p.entry, price, p.lots, p.lotSize, FeeOf(orders, Some(p.openKey)), closing);
  }

  lemma {:induction false} FreshExists(used: set<Id>) returns (n: nat)
    ensures forall m: nat :: m >= n ==> Ours(m) !in used
  {
    if used == {} {
      n := 0;
    } else {
      var x :| x in used;
      n := FreshExists(used - {x});
      if x.Ours? && x.n >= n {
        n := x.n + 1;
      }
    }
  }

  lemma {:induction false} FreshNumber(used: set<nat>) returns (n: nat)
    ensures forall m: nat :: m >= n ==> m !in used
  {
    if used == {} {
      n := 0;
    } else {
      var x :| x in used;
      n := FreshNumber(used - {x});
      assert used == used - {x} + {x};
      if x >= n {
        n := x + 1;
      }
    }
  }

  function LeastOf(a: nat, b: nat): nat {
    if a < b then a else b
  }

  predicate IsRequest(a: Action) {
    a.PostMarket? || a.CancelOrder? || a.PostStop? || a.CancelStop?
  }

  type Tick = r: real | r > 0.0 witness 1.0

  lemma OneMoreStep(trace: seq<World>, log: seq<Action>, a: Action, w: World)
    requires IsRun(trace, log) && AllSound(trace) && IsStep(trace[|log|], a, w)
    ensures IsRun(trace + [w], log + [a]) && AllSound(trace + [w])
    ensures EvenRun(trace, log) && Even(trace[|log|], a) ==> EvenRun(trace + [w], log + [a])
  {
    assert Inv(trace[|log|]);
    StepKeepsInv(trace[|log|], a);
  }

  class Bot {
    var orders: map<Id, Order>
    var positions: map<nat, Position>
    var stopRows: map<Id, StopRow>
    var broker: Broker
    /** The tick size of each instrument the broker can describe. */
    const increments: map<string, Tick>
    /** The lot size of each instrument. */
    const lotSizes: string -> nat
    /** A scenario: the broker accepts every call, executes up to `depth` lots of a market order on its arrival
        and holds stops within a tick of the asked price, and otherwise the exchange stands still. */
    const obliging: bool
    const depth: nat
    ghost var trace: seq<World>
    ghost var log: seq<Action>
    /** Whether every step so far left the lot ledger as it was. */
    ghost var even: bool
    /** How many requests have reached the broker; `Note` counts them. */
    ghost var requests: nat

    ghost function View(): World
      reads this
    {
      World(orders, positions, stopRows, broker)
    }

    ghost predicate Valid()
      reads this
    {
      IsRun(trace, log) && AllSound(trace) && trace[|log|] == View() && (even ==> EvenRun(trace, log))
    }

    twostate predicate TablesKept()
      reads this
    {
      orders == old(orders) && positions == old(positions) && stopRows == old(stopRows)
    }

    twostate predicate Later()
      reads this
    {
      old(trace) <= trace && old(log) <= log
    }

    /** The log only grew, no order appeared or was booked, and no finished stop changed. */
    twostate predicate Onward()
      reads this
    {
      Later() && OrdersKept(old(broker), broker) && StopsKept(old(broker), broker)
    }

    /** While the exchange stands still no lots change hands. */
    twostate predicate LotsStill()
      reads this
    {
      obliging ==> broker.lots == old(broker).lots
    }

    constructor (world: World, increments: map<string, Tick>, lotSizes: string -> nat, obliging: bool, depth: nat)
      requires Inv(world)
      ensures this.increments == increments && this.lotSizes == lotSizes
      ensures this.obliging == obliging && this.depth == depth
      ensures Valid() && View() == world && trace == [world] && log == [] && even
    {
      this.increments, this.lotSizes, this.obliging, this.depth := increments, lotSizes, obliging, depth;
      orders, positions, stopRows, broker := world.orders, world.positions, world.stopRows, world.broker;
      trace, log, even, requests := [world], [], true, 0;
    }

    /** Whatever ran in between, rows persist and settled ones are as they were. */
    twostate lemma LaterPersists()
      requires old(Valid()) && Valid() && Later()
      ensures Persists(old(View()), View())
    {
      RunPersists(trace, log, |old(log)|, |log|);
    }

    /** A fill once taken into a position stays taken. */
    twostate lemma BookedStays(key: Id)
      requires old(Valid()) && Valid() && Later() && old(key in broker.market && broker.market[key].booked)
      ensures key in broker.market && broker.market[key].booked
    {
      LaterPersists();
    }

    ghost method Note(before: World, a: Action)
      requires IsRun(trace, log) && AllSound(trace) && trace[|log|] == before && (even ==> EvenRun(trace, log))
      requires IsStep(before, a, View())
      modifies `trace, `log, `even, `requests
      ensures Valid() && trace == old(trace) + [View()] && log == old(log) + [a]
      ensures even == (old(even) && Even(before, a)) && requests == old(requests) + if IsRequest(a) then 1 else 0
    {
      OneMoreStep(trace, log, a, View());
      even := even && Even(before, a);
      requests := requests + if IsRequest(a) then 1 else 0;
      trace, log := trace + [View()], log + [a];
    }

    /** The exchange takes any number of moves of its own. */
    method Exchange()
      requires Valid()
      modifies `broker, `trace, `log, `even, `requests
      ensures Valid() && Onward() && even == old(even)
      ensures requests == old(requests)
      ensures NewStopsForeign(old(broker), broker) && (obliging ==> broker == old(broker))
    {
      var moves: nat := *;
      while !obliging && moves > 0
        invariant obliging ==> broker == old(broker)
        invariant Valid() && Onward() && even == old(even) && requests == old(requests)
        invariant TablesKept() && NewStopsForeign(old(broker), broker)
      {
        var a: Action := *;
        Move(a);
        moves := moves - 1;
      }
    }

    method Move(a: Action)
      requires Valid()
      modifies `broker, `trace, `log, `even, `requests
      ensures Valid() && Onward() && even == old(even)
      ensures requests == old(requests)
      ensures NewStopsForeign(old(broker), broker)
    {
      if IsExchangeMove(a) && Enabled(World(orders, positions, stopRows, broker), a) {
        ghost var before := View();
        broker := Apply(World(orders, positions, stopRows, broker), a).broker;
        MoveKeeps(before, a);
        MoveKeepsStops(before, a);
        Note(before, a);
      }
    }
  
    // ---------------------------------------------------------------- db.orders

    /** A uuid: no row and no broker stop has ever carried it. */
    method NewKey() returns (key: Id)
      requires Valid()
      ensures key.Ours? && key !in orders && key !in stopRows
    {
      ghost var n := FreshExists(orders.Keys + stopRows.Keys);
      assert Ours(n) !in orders && Ours(n) !in stopRows;
      key :| key.Ours? && key !in orders && key !in stopRows;
    }

    method RecordSubmitting(key: Id, ticker: string, side: Side, intent: Intent, lots: nat, trigger: Option<Trigger>)
      requires Valid() && key.Ours? && key !in orders
      requires Formed(Order(ticker, side, intent, lots, trigger, Submitting, 0, None, None, None))
      modifies this
      ensures Valid() && Onward() && even == old(even)
      ensures orders == old(orders)[key := Order(ticker, side, intent, lots, trigger, Submitting, 0, None, None, None)]
      ensures positions == old(positions) && stopRows == old(stopRows)
      ensures key !in broker.market
    {
      Exchange();
      assert Inv(trace[|log|]);
      ghost var before := View();
      var row := Order(ticker, side, intent, lots, trigger, Submitting, 0, None, None, None);
      orders := orders[key := row];
      Note(before, Protocol.RecordSubmitting(key, row));
    }

    method SettleOrder(key: Id, status: OrderStatus, filled: nat, price: Option<real>, fee: Option<real>,
                       brokerId: Option<Id>)
      returns (ok: bool)
      requires Valid() && status.Terminal() && (key in broker.market ==> broker.market[key].state.Done?)
      modifies this
      ensures Valid() && Onward() && even == old(even)
      ensures ok <==> key in old(orders) && !old(orders)[key].status.Terminal()
      ensures orders ==
                if ok then old(orders)[key := SettledRow(old(orders)[key], status, filled, price, fee, brokerId)]
                        else old(orders)
      ensures positions == old(positions) && stopRows == old(stopRows)
    {
      Exchange();
      ok := key in orders && !orders[key].status.Terminal();
      if ok {
        WriteSettled(key, status, filled, price, fee, brokerId);
      }
    }

    method WriteSettled(key: Id, status: OrderStatus, filled: nat, price: Option<real>, fee: Option<real>,
                        brokerId: Option<Id>)
      requires Valid() && Enabled(View(), Protocol.SettleOrder(key, status, filled, price, fee, brokerId))
      modifies `orders, `trace, `log, `even, `requests
      ensures Valid() && Later() && even == old(even)
      ensures orders == old(orders)[key := SettledRow(old(orders)[key], status, filled, price, fee, brokerId)]
    {
      ghost var before := View();
      orders := orders[key := SettledRow(orders[key], status, filled, price, fee, brokerId)];
      Note(before, Protocol.SettleOrder(key, status, filled, price, fee, brokerId));
    }

    // ---------------------------------------------------------------- db.positions

    /** The open position on a ticker; the index allows at most one. */
    method AlreadyOpen(ticker: string) returns (found: Option<nat>)
      requires Valid()
      ensures OneOpen(positions) && (found.None? <==> !OneOpenOn(positions, ticker))
      ensures found.Some? ==> found.value in positions && positions[found.value].Open()
                              && positions[found.value].ticker == ticker
    {
      assert Inv(trace[|log|]);
      if OneOpenOn(positions, ticker) {
        var pid :| pid in positions && positions[pid].Open() && positions[pid].ticker == ticker;
        found := Some(pid);
      } else {
        found := None;
      }
    }

    /** Stop rows belong to positions that are there. */
    lemma NoneStandsYet(pid: nat)
      requires Valid() && pid !in positions
      ensures !StandingOn(stopRows, pid)
    {
      assert Inv(trace[|log|]);
    }

    method OpenRow(key: Id, lotSize: nat, stop: real) returns (pid: nat)
      requires Valid() && Bookable(View(), key, Buy) && orders[key].price.Some? && orders[key].filled > 0
      requires !OneOpenOn(positions, orders[key].ticker)
      modifies this
      ensures Valid() && Later() && broker.market.Keys == old(broker.market.Keys)
      ensures orders == old(orders) && stopRows == old(stopRows)
      ensures key in broker.market && broker.market[key].booked
      ensures even == (old(even) && old(broker.market[key].filled) == old(orders[key].filled))
      ensures 0 < pid && pid !in old(positions) && !StandingOn(stopRows, pid)
      ensures positions == old(positions)[pid := OpenedPosition(old(orders[key]), key, lotSize, stop)]
    {
      Exchange();
      ghost var before := View();
      ghost var n := FreshNumber(positions.Keys);
      assert n + 1 !in positions;
      pid :| 0 < pid && pid !in positions;
      NoneStandsYet(pid);
      positions := positions[pid := OpenedPosition(orders[key], key, lotSize, stop)];
      broker := Booked(broker, key);
      Note(before, Protocol.OpenRow(pid, key, lotSize, stop));
    }

    /** A stop that fired for a position still open has closed none. */
    lemma UnbookedWhileOpen(pid: nat, cause: Cause)
      requires Valid() && pid in positions && positions[pid].Open() && cause.ByStop? && FiredFor(View(), pid, cause.sid)
      ensures !broker.stops[cause.sid].booked
    {
      assert Inv(trace[|log|]);
    }

    /** Atomically closes an open position; on a closed or absent row nothing is written. */
    method CloseRow(pid: nat, trigger: Trigger, price: real, cause: Cause, exitFee: Option<real>) returns (ok: bool)
      requires Valid()
      requires cause.ByOrder? ==> Bookable(View(), cause.key, Sell)
                                  && (pid in positions ==> broker.market[cause.key].ticker == positions[pid].ticker)
      requires cause.ByStop? ==> cause.key in orders && FiredFor(View(), pid, cause.sid)
      requires cause.ByOwner? <==> trigger.External?
      requires exitFee.Some? ==> trigger.External?
      modifies this
      ensures Valid() && Later() && broker.market.Keys == old(broker.market.Keys)
      ensures requests == old(requests)
      ensures orders == old(orders) && stopRows == old(stopRows)
      ensures ok <==> pid in old(positions) && old(positions)[pid].Open()
      ensures !ok ==> positions == old(positions) && even == old(even)
      ensures ok ==> positions == old(positions)[pid := old(positions)[pid].(
                exit := Some(ExitOf(old(orders), old(positions)[pid], trigger, price,
                                    if cause.ByOwner? then None else Some(cause.key), exitFee)),
                protection := Local)]
      ensures ok ==> Balances(positions[pid], orders)
      ensures ok && cause.ByOrder? ==>
                && even == (old(even) && old(positions)[pid].lots == old(broker).market[cause.key].filled)
                && cause.key in broker.market && broker.market[cause.key].booked
      ensures ok && cause.ByStop? ==>
                even == (old(even) && old(positions)[pid].lots == old(broker).stops[cause.sid].lots)
      ensures obliging && cause.ByOwner? ==> broker == old(broker)
    {
      hide Balances;
      Exchange();
      ok := pid in positions && positions[pid].Open();
      if ok {
        if cause.ByStop? {
          UnbookedWhileOpen(pid, cause);
        }
        ExitBalances(orders, positions[pid], trigger, price, if cause.ByOwner? then None else Some(cause.key), exitFee);
        WriteExit(pid, cause, ExitOf(orders, positions[pid], trigger, price,
                                     if cause.ByOwner? then None else Some(cause.key), exitFee));
      }
    }

    method WriteExit(pid: nat, cause: Cause, exit: ExitInfo)
      requires Valid() && Enabled(View(), Protocol.CloseRow(pid, exit, cause))
      modifies this
      ensures Valid() && Later() && broker.market.Keys == old(broker.market.Keys)
      ensures requests == old(requests)
      ensures orders == old(orders) && stopRows == old(stopRows)
      ensures positions == old(positions)[pid := old(positions)[pid].(exit := Some(exit), protection := Local)]
      ensures even == (old(even) && old(Even(View(), Protocol.CloseRow(pid, exit, cause))))
      ensures cause.ByOwner? ==> broker == old(broker)
      ensures cause.ByOrder? ==> cause.key in broker.market && broker.market[cause.key].booked
    {
      ghost var before := View();
      positions := positions[pid := positions[pid].(exit := Some(exit), protection := Local)];
      match cause {
        case ByOrder(key) => broker := Booked(broker, key);
        case ByStop(_, sid) => broker := broker.(stops := broker.stops[sid := broker.stops[sid].(booked := true)]);
        case ByOwner =>
      }
      Note(before, Protocol.CloseRow(pid, exit, cause));
    }

    /** `update_lots` on account of a partial exit. */
    method ShrinkRow(pid: nat, key: Id, lots: nat)
      requires Valid() && Bookable(View(), key, Sell) && pid in positions && positions[pid].Open() && 0 < lots
      requires broker.market[key].ticker == positions[pid].ticker
      modifies this
      ensures Valid() && Later() && broker.market.Keys == old(broker.market.Keys)
      ensures orders == old(orders) && stopRows == old(stopRows)
      ensures positions == old(positions)[pid := old(positions)[pid].(lots := lots)]
      ensures even == (old(even) && old(positions)[pid].lots - lots == old(broker).market[key].filled)
      ensures key in broker.market && broker.market[key].booked
    {
      Exchange();
      ghost var before := View();
      positions := positions[pid := positions[pid].(lots := lots)];
      broker := Booked(broker, key);
      Note(before, Protocol.ShrinkRow(pid, key, lots));
    }

    /** `update_lots` to the broker's count. */
    method AdjustRow(pid: nat, lots: nat)
      requires Valid() && pid in positions && positions[pid].Open() && 0 < lots
      modifies this
      ensures Valid() && Onward() && (obliging ==> broker == old(broker))
      ensures requests == old(requests)
      ensures orders == old(orders) && stopRows == old(stopRows)
      ensures positions == old(positions)[pid := old(positions)[pid].(lots := lots)]
    {
      Exchange();
      ghost var before := View();
      positions := positions[pid := positions[pid].(lots := lots)];
      Note(before, Protocol.AdjustRow(pid, lots));
    }

    method AdoptRow(adopted: Position) returns (pid: nat)
      requires Valid() && Unfinished(orders, adopted.openKey, adopted.ticker)
      requires adopted.lots > 0 && adopted.Open() && adopted.protection.Local?
      requires !OneOpenOn(positions, adopted.ticker)
      modifies this
      ensures Valid() && Onward() && (obliging ==> broker == old(broker))
      ensures requests == old(requests)
      ensures orders == old(orders) && stopRows == old(stopRows)
      ensures 0 < pid && pid !in old(positions) && positions == old(positions)[pid := adopted]
      ensures !StandingOn(stopRows, pid)
    {
      Exchange();
      ghost var before := View();
      ghost var n := FreshNumber(positions.Keys);
      assert n + 1 !in positions;
      pid :| 0 < pid && pid !in positions;
      NoneStandsYet(pid);
      positions := positions[pid := adopted];
      Note(before, Protocol.AdoptRow(pid, adopted));
    }

    method SetStopProtection(pid: nat, protection: Protection)
      requires Valid() && pid in positions
      modifies this
      ensures Valid() && Onward() && even == old(even)
      ensures obliging ==> broker == old(broker)
      ensures orders == old(orders) && stopRows == old(stopRows)
      ensures positions == old(positions)[pid := old(positions)[pid].(protection := protection)]
    {
      Exchange();
      ghost var before := View();
      positions := positions[pid := positions[pid].(protection := protection)];
      Note(before, Protocol.Protect(pid, protection));
    }

    // ---------------------------------------------------------------- db.stop_orders

    /** Refused on a known key, and by the unique index while a stop row of the position stands. */
    method RecordPlacing(key: Id, pid: nat, lots: nat, price: real) returns (ok: bool)
      requires Valid() && pid in positions
      modifies this
      ensures Valid() && Onward() && even == old(even)
      ensures obliging ==> broker == old(broker)
      ensures orders == old(orders) && positions == old(positions)
      ensures ok <==> key !in old(stopRows) && !StandingOn(old(stopRows), pid)
      ensures stopRows ==
                if ok then old(stopRows)[key := StopRow(None, pid, positions[pid].ticker, lots, price, Placing)]
                          else old(stopRows)
      ensures ok && key.Ours? ==> Unseen(broker.stops, key)
    {
      Exchange();
      ok := key !in stopRows && !StandingOn(stopRows, pid);
      if ok {
        assert Inv(trace[|log|]);
        ghost var before := View();
        var row := StopRow(None, pid, positions[pid].ticker, lots, price, Placing);
        stopRows := stopRows[key := row];
        Note(before, Protocol.RecordPlacing(key, row));
      }
    }

    method ActivateStop(key: Id, sid: nat)
      requires Valid() && key in stopRows && stopRows[key].status.Standing()
      requires sid in broker.stops && broker.stops[sid].key == key
      modifies this
      ensures Valid() && Onward() && even == old(even)
      ensures obliging ==> broker == old(broker)
      ensures orders == old(orders) && positions == old(positions)
      ensures stopRows == old(stopRows)[key := old(stopRows)[key].(status := Active, sid := Some(sid))]
    {
      Exchange();
      ghost var before := View();
      stopRows := stopRows[key := stopRows[key].(status := Active, sid := Some(sid))];
      Note(before, Protocol.ActivateStop(key, sid));
    }

    method SettleStop(key: Id, ending: StopStatus) returns (ok: bool)
      requires Valid() && !ending.Standing()
      modifies this
      ensures Valid() && Onward() && even == old(even)
      ensures requests == old(requests)
      ensures obliging ==> broker == old(broker)
      ensures orders == old(orders) && positions == old(positions)
      ensures ok <==> key in old(stopRows) && old(stopRows)[key].status.Standing()
      ensures stopRows == if ok then old(stopRows)[key := old(stopRows)[key].(status := ending)] else old(stopRows)
    {
      Exchange();
      ok := key in stopRows && stopRows[key].status.Standing();
      if ok {
        ghost var before := View();
        stopRows := stopRows[key := stopRows[key].(status := ending)];
        Note(before, Protocol.SettleStop(key, ending));
      }
    }

    /** The single standing stop row of a position; the index allows at most one. */
    method ActiveForPosition(pid: nat) returns (found: Option<Id>)
      requires Valid()
      ensures OneStanding(stopRows) && (found.None? <==> !StandingOn(stopRows, pid))
      ensures found.Some? ==> found.value in stopRows && stopRows[found.value].position == pid
                              && stopRows[found.value].status.Standing()
    {
      assert Inv(trace[|log|]);
      if StandingOn(stopRows, pid) {
        var key :| key in stopRows && stopRows[key].position == pid && stopRows[key].status.Standing();
        found := Some(key);
      } else {
        found := None;
      }
    }

    // ---------------------------------------------------------------- broker.client

    /** The post reaches the exchange or does not; a positive reply is the exchange's own record. */
    method PostMarketOrder(key: Id) returns (reply: PostReply)
      requires Valid() && key in orders && orders[key].status.Submitting? && key !in broker.market
      modifies this
      ensures Valid() && Later() && TablesKept() && even == old(even)
      ensures broker.market.Keys <= old(broker.market.Keys) + {key}
      ensures reply.Posted? ==>
                && key in broker.market && !broker.market[key].booked
                && broker.market[key].ticker == orders[key].ticker && broker.market[key].side == orders[key].side
                && TellsOf(reply, broker.market[key])
                && (reply.status.Filled? ==> reply.filled == orders[key].lots)
      ensures reply.Refused? && key in broker.market ==>
                broker.market[key].state.Done? && broker.market[key].filled == 0
      ensures obliging ==> reply.Posted? && reply.filled == LeastOf(depth, orders[key].lots)
                           && reply.status == if depth < orders[key].lots then Submitted else Filled
    {
      Exchange();
      var arrives: bool := *;
      if arrives || obliging {
        Arrive(key);
        if obliging {
          Execute(key);
        }
        reply := ReplyTo(key);
      } else {
        var refused: bool := *;
        reply := if refused then Refused else NoAnswer;
      }
    }

    /** The reply is the exchange's record of the order. */
    static predicate TellsOf(reply: PostReply, o: MarketOrder) {
      && reply.Posted? && reply.status == StatusOf(o) && reply.filled == o.filled
      && reply.price == o.Price() && reply.fee == o.Fee()
    }

    method Arrive(key: Id)
      requires Valid() && key in orders && orders[key].status.Submitting? && key !in broker.market
      modifies this
      ensures Valid() && Later() && TablesKept() && even == old(even)
      ensures broker.market == old(broker).market[key :=
                MarketOrder(orders[key].ticker, orders[key].side, orders[key].lots, Live, 0, 0.0, None, false)]
    {
      ghost var before := View();
      var row := orders[key];
      var posted := MarketOrder(row.ticker, row.side, row.lots, Live, 0, 0.0, None, false);
      broker := broker.(market := broker.market[key := posted]);
      Note(before, Protocol.PostMarket(key));
    }

    /** The exchange executes what it can of an order at once, at a price and for a commission of its own. */
    method Execute(key: Id)
      requires Valid() && key in broker.market && broker.market[key].state.Live? && !broker.market[key].booked
      requires broker.market[key].filled == 0
      modifies this
      ensures Valid() && Later() && TablesKept() && even == old(even)
      ensures key in broker.market && broker.market == old(broker).market[key := broker.market[key]]
      ensures var was, o := old(broker).market[key], broker.market[key];
              o == was.(state := if depth < was.lots then Live else Done(Filled), filled := LeastOf(depth, was.lots),
                        price := o.price, fee := o.fee)
    {
      FillSome(key, LeastOf(depth, broker.market[key].lots));
      if broker.market[key].lots <= depth {
        ghost var before := View();
        broker := broker.(market := broker.market[key := broker.market[key].(state := Done(Filled))]);
        Note(before, Protocol.Finish(key, Filled));
      }
    }

    method FillSome(key: Id, n: nat)
      requires Valid() && key in broker.market && broker.market[key].state.Live?
      requires broker.market[key].filled + n <= broker.market[key].lots
      modifies `broker, `trace, `log, `even, `requests
      ensures Valid() && Later() && even == old(even)
      ensures key in broker.market && broker.market == old(broker).market[key := broker.market[key]]
      ensures var was, o := old(broker).market[key], broker.market[key];
              o == was.(filled := was.filled + n, price := o.price, fee := o.fee)
    {
      var average: real, fee: Option<real> := *, *;
      ghost var before := View();
      var o := broker.market[key];
      broker := broker.(market := broker.market[key := o.(filled := o.filled + n, price := average, fee := fee)])
                .Moved(o.ticker, Signed(o.side, n));
      Note(before, Protocol.Fill(key, n, average, fee));
    }

    method ReplyTo(key: Id) returns (reply: PostReply)
      requires Valid() && key in broker.market && !broker.market[key].booked
      modifies this
      ensures Valid() && Onward() && TablesKept() && even == old(even)
      ensures reply.Posted? ==>
                && TellsOf(reply, broker.market[key])
                && (reply.status.Filled? ==> reply.filled == broker.market[key].lots)
      ensures reply.Refused? ==> broker.market[key].state.Done? && broker.market[key].filled == 0
      ensures obliging && !StatusOf(old(broker.market[key])).Rejected? ==> reply.Posted? && broker == old(broker)
    {
      Exchange();
      assert Inv(trace[|log|]);
      var lost: bool := *;
      var o := broker.market[key];
      reply := if (lost && !obliging) || (StatusOf(o).Rejected? && o.filled > 0) then NoAnswer
               else if StatusOf(o).Rejected? then Refused
               else Posted(StatusOf(o), o.filled, o.Price(), o.Fee());
    }

    /** The exchange's record at that moment, or that it has none, if there is an answer at all. */
    method GetOrderState(key: Id) returns (reply: StateReply)
      requires Valid()
      modifies this
      ensures Valid() && Onward() && TablesKept() && even == old(even)
      ensures Answers(reply, broker, key)
      ensures reply.State? && reply.status.Filled? ==> reply.filled == broker.market[key].lots
      ensures obliging ==> !reply.NoState? && broker == old(broker)
    {
      Exchange();
      assert Inv(trace[|log|]);
      var lost: bool := *;
      reply := if lost && !obliging then NoState else StateOf(broker, key);
    }

    /** Once acknowledged, a cancelled order fills no further. */
    method CancelOrder(key: Id) returns (ok: bool)
      requires Valid()
      modifies this
      ensures Valid() && Onward() && TablesKept() && even == old(even)
      ensures ok && key in broker.market ==> broker.market[key].state.Done?
      ensures obliging ==> ok && broker == Ended(old(broker), key)
    {
      Exchange();
      ok := *;
      ok := ok || obliging;
      var arrives: bool := *;
      if ok || arrives {
        Withdraw(key);
      }
    }

    method Withdraw(key: Id)
      requires Valid()
      modifies `broker, `trace, `log, `even, `requests
      ensures Valid() && Onward() && even == old(even)
      ensures key in broker.market ==> broker.market[key].state.Done?
      ensures broker == Ended(old(broker), key)
    {
      ghost var before := View();
      broker := Ended(broker, key);
      Note(before, Protocol.CancelOrder(key));
    }

    /** The stop the exchange holds for a row it was asked to place: the asked lots, at a price it
        rounded itself. */
    predicate HeldFor(row: StopRow, key: Id, s: BrokerStop) {
      && s.key == key && s.ticker == row.ticker && s.lots == row.lots && s.state.Armed? && !s.booked
      && (row.ticker in increments ==> -increments[row.ticker] < s.price - row.price < increments[row.ticker])
    }

    /** A stop whose post is refused or unanswered may stand at the exchange all the same. */
    method PostStopLoss(key: Id) returns (sid: Option<nat>)
      requires Valid() && key.Ours? && key in stopRows && stopRows[key].status.Placing? && Unseen(broker.stops, key)
      modifies this
      ensures Valid() && Onward() && TablesKept() && even == old(even) && LotsStill()
      ensures sid.Some? ==>
                sid.value in broker.stops && sid.value !in old(broker).stops && broker.stops[sid.value].key == key
      ensures obliging ==>
                && sid.Some? && HeldFor(stopRows[key], key, broker.stops[sid.value])
                && broker.stops == old(broker).stops[sid.value := broker.stops[sid.value]]
    {
      Exchange();
      sid := None;
      var arrives: bool := *;
      if arrives || obliging {
        var held: real := *;
        var off := held - stopRows[key].price;
        var tick := if stopRows[key].ticker in increments then increments[stopRows[key].ticker] else 1.0;
        if obliging && !(-tick < off < tick) {
          held := stopRows[key].price;
        }
        var issued := Issue(key, held);
        var answered: bool := *;
        sid := if answered || obliging then Some(issued) else None;
      }
    }

    method Issue(key: Id, held: real) returns (sid: nat)
      requires Valid() && key.Ours? && key in stopRows && stopRows[key].status.Placing? && Unseen(broker.stops, key)
      modifies `broker, `trace, `log, `even, `requests
      ensures Valid() && Onward() && even == old(even) && sid !in old(broker).stops && sid in broker.stops
      ensures broker.stops[sid] == BrokerStop(key, stopRows[key].ticker, stopRows[key].lots, held,
                                              broker.stops[sid].created, Armed, false)
      ensures broker.stops == old(broker).stops[sid := broker.stops[sid]] && broker.lots == old(broker).lots
    {
      ghost var before := View();
      ghost var n := FreshNumber(broker.stops.Keys);
      assert n !in broker.stops;
      sid :| sid !in broker.stops;
      var created: int := *;
      var row := stopRows[key];
      broker := broker.(stops := broker.stops[sid :=
        BrokerStop(key, row.ticker, row.lots, held, created, Armed, false)]);
      Note(before, Protocol.PostStop(key, sid, created, held));
    }

    method CancelStopOrder(sid: nat) returns (ok: bool)
      requires Valid()
      modifies this
      ensures Valid() && Onward() && TablesKept() && even == old(even)
      ensures ok && sid in broker.stops ==> !broker.stops[sid].state.Armed?
      ensures obliging ==> ok && broker == Disarmed(old(broker), sid)
    {
      Exchange();
      ok := *;
      ok := ok || obliging;
      var arrives: bool := *;
      if ok || arrives {
        ghost var before := View();
        broker := Disarmed(broker, sid);
        Note(before, Protocol.CancelStop(sid));
      }
    }

    /** The instrument's lot size, where the broker answers. */
    method GetInstrument(ticker: string) returns (lot: Option<nat>)
      requires Valid()
      modifies this
      ensures Valid() && Onward() && TablesKept() && even == old(even)
      ensures requests == old(requests)
      ensures lot.Some? ==> lot.value == lotSizes(ticker)
      ensures obliging ==> lot.Some? && broker == old(broker)
    {
      Exchange();
      var answered: bool := *;
      lot := if answered || obliging then Some(lotSizes(ticker)) else None;
    }

    /** `allowed` is what the broker answers, if it does. */
    method GetMaxLots(allowed: Option<nat>) returns (reply: Option<nat>)
      requires Valid()
      modifies this
      ensures Valid() && Onward() && TablesKept() && even == old(even) && reply == allowed
      ensures obliging ==> broker == old(broker)
    {
      Exchange();
      return allowed;
    }

    /** Between two locked sections other tasks may take any steps at all. */
    method OtherTasks()
      requires Valid()
      modifies this
      ensures Valid() && Later()
    {
      var steps: nat := *;
      while steps > 0
        invariant Valid() && Later()
      {
        var a: Action := *;
        var w := World(orders, positions, stopRows, broker);
        if Enabled(w, a) {
          var v := Apply(w, a);
          orders, positions, stopRows, broker := v.orders, v.positions, v.stopRows, v.broker;
          Note(w, a);
        }
        steps := steps - 1;
      }
    }
  }
}
