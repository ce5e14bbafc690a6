/** Stored profit and loss, and the commissions that arrive after a position is closed. */
module Pnl {
  import opened Collections
  import opened MapSums
  import opened Models
  import opened Bots

  // ------------------------------------------------------------------ one order's commission

  /** The order state as re-queried: absent, or with a fee (or none) and the trades it executed as. */
  datatype FeeReply = NoRecord | Record(fee: Option<real>, trades: set<nat>)

  datatype FeedItem = FeedItem(id: nat, fee: real, trades: set<nat>, parent: Option<nat>, at: int)

  function TradesOf(feed: seq<FeedItem>, executions: set<nat>): (trades: seq<FeedItem>)
    ensures forall f :: f in trades <==> f in feed && f.trades * executions != {}
  {
    if feed == [] then []
    else (if feed[0].trades * executions != {} then [feed[0]] else []) + TradesOf(feed[1..], executions)
  }

  function FeesUnder(feed: seq<FeedItem>, parents: set<nat>): (fees: seq<FeedItem>)
    ensures forall f :: f in fees <==> f in feed && f.parent.Some? && f.parent.value in parents
  {
    if feed == [] then []
    else (if feed[0].parent.Some? && feed[0].parent.value in parents then [feed[0]] else [])
         + FeesUnder(feed[1..], parents)
  }

  function Added(fees: seq<FeedItem>): real {
    if fees == [] then 0.0 else fees[0].fee + Added(fees[1..])
  }

  /** A number, a measured zero, or `None` for unknown. */
  function Resolve(reply: FeeReply, feed: seq<FeedItem>, cutoff: int): Option<real> {
    match reply
    case NoRecord => None
    case Record(fee, executions) =>
      if fee.Some? then fee
      else
        var trades := TradesOf(feed, executions);
        var fees := FeesUnder(feed, set f | f in trades :: f.id);
        if trades == [] then None
        else if fees != [] then Some(Added(fees))
        else if forall f :: f in trades ==> f.at <= cutoff then Some(0.0)
        else None
  }

  /** A trade that may still be charged is never written off: an answer without the broker's own figure
      needs a listed trade of the order, and a zero needs every such trade settled and uncharged. */
  lemma NoFeeIsMeasured(reply: FeeReply, feed: seq<FeedItem>, cutoff: int)
    requires reply.Record? && reply.fee.None? && Resolve(reply, feed, cutoff).Some?
    ensures exists t :: t in feed && t.trades * reply.trades != {}
    ensures (forall f, t :: f in feed && t in feed && t.trades * reply.trades != {} ==> f.parent != Some(t.id)) ==>
              && Resolve(reply, feed, cutoff) == Some(0.0)
              && forall t :: t in feed && t.trades * reply.trades != {} ==> t.at <= cutoff
  {
    var trades := TradesOf(feed, reply.trades);
    assert trades[0] in trades;
    var fees := FeesUnder(feed, set f | f in trades :: f.id);
    if fees != [] {
      var f := fees[0];
      assert f in fees;
      var t :| t in trades && t.id == f.parent.value;
    }
  }

  /** Some commission is listed under a trade of the order. */
  predicate Charged(feed: seq<FeedItem>, executions: set<nat>) {
    exists f, t :: f in feed && t in feed && t.trades * executions != {} && f.parent == Some(t.id)
  }

  lemma {:induction false} TradesAppend(feed: seq<FeedItem>, f: FeedItem, executions: set<nat>)
    requires f.trades * executions == {}
    ensures TradesOf(feed + [f], executions) == TradesOf(feed, executions)
  {
    if feed != [] {
      assert (feed + [f])[1..] == feed[1..] + [f];
      TradesAppend(feed[1..], f, executions);
    }
  }

  lemma {:induction false} FeesAppend(feed: seq<FeedItem>, f: FeedItem, parents: set<nat>)
    requires f.parent.Some? && f.parent.value in parents
    ensures FeesUnder(feed + [f], parents) == FeesUnder(feed, parents) + [f]
  {
    if feed != [] {
      assert (feed + [f])[1..] == feed[1..] + [f];
      FeesAppend(feed[1..], f, parents);
    }
  }

  lemma {:induction false} AddedAppend(fees: seq<FeedItem>, f: FeedItem)
    ensures Added(fees + [f]) == Added(fees) + f.fee
  {
    if fees != [] {
      assert (fees + [f])[1..] == fees[1..] + [f];
      AddedAppend(fees[1..], f);
    }
  }

  /** What is listed under the trades of an order. */
  function ChargesOf(feed: seq<FeedItem>, executions: set<nat>): seq<FeedItem> {
    FeesUnder(feed, set t | t in TradesOf(feed, executions) :: t.id)
  }

  lemma AppendCharge(feed: seq<FeedItem>, f: FeedItem, executions: set<nat>)
    requires f.trades * executions == {}
    requires exists t :: t in TradesOf(feed, executions) && f.parent == Some(t.id)
    ensures TradesOf(feed + [f], executions) == TradesOf(feed, executions)
    ensures ChargesOf(feed + [f], executions) == ChargesOf(feed, executions) + [f]
    ensures Added(ChargesOf(feed + [f], executions)) == Added(ChargesOf(feed, executions)) + f.fee
  {
    TradesAppend(feed, f, executions);
    FeesAppend(feed, f, set t | t in TradesOf(feed, executions) :: t.id);
    AddedAppend(ChargesOf(feed, executions), f);
  }

  lemma ChargedAnswer(reply: FeeReply, feed: seq<FeedItem>, cutoff: int)
    requires reply.Record? && reply.fee.None? && TradesOf(feed, reply.trades) != []
    requires ChargesOf(feed, reply.trades) != []
    ensures Resolve(reply, feed, cutoff) == Some(Added(ChargesOf(feed, reply.trades)))
  {
  }

  lemma ChargedIff(feed: seq<FeedItem>, executions: set<nat>)
    ensures Charged(feed, executions) <==> ChargesOf(feed, executions) != []
  {
    var trades := TradesOf(feed, executions);
    var fees := FeesUnder(feed, set t | t in trades :: t.id);
    if fees != [] {
      assert fees[0] in fees;
      var t :| t in trades && t.id == fees[0].parent.value;
    }
    if f, t :| f in feed && t in feed && t.trades * executions != {} && f.parent == Some(t.id) {
      assert t in trades && f in fees;
    }
  }

  lemma ChargeAdds(executions: set<nat>, feed: seq<FeedItem>, f: FeedItem, cutoff: int)
    requires f.trades * executions == {}
    requires exists t :: t in feed && t.trades * executions != {} && f.parent == Some(t.id)
    ensures var charges := Added(ChargesOf(feed, executions));
            && Resolve(Record(None, executions), feed + [f], cutoff) == Some(charges + f.fee)
            && if Charged(feed, executions) then Resolve(Record(None, executions), feed, cutoff) == Some(charges)
               else charges == 0.0
  {
    hide Charged, Resolve;
    var t :| t in feed && t.trades * executions != {} && f.parent == Some(t.id);
    assert t in TradesOf(feed, executions);
    AppendCharge(feed, f, executions);
    ChargedIff(feed, executions);
    if Charged(feed, executions) {
      ChargedAnswer(Record(None, executions), feed, cutoff);
    }
    ChargedAnswer(Record(None, executions), feed + [f], cutoff);
  }

  /** One more commission listed under a trade of the order adds exactly its amount to the answer; before the
      first there is none to add to. The broker's own figure wins over any listing, and without a record of
      the order there is no answer. */
  lemma ChargesAddUp(reply: FeeReply, feed: seq<FeedItem>, f: FeedItem, cutoff: int)
    requires reply.Record? ==>
               f.trades * reply.trades == {}
               && exists t :: t in feed && t.trades * reply.trades != {} && f.parent == Some(t.id)
    ensures match reply
            case NoRecord => Resolve(reply, feed + [f], cutoff).None?
            case Record(Some(own), _) => Resolve(reply, feed + [f], cutoff) == Some(own)
            case Record(None, executions) =>
              if Charged(feed, executions)
              then Resolve(reply, feed, cutoff).Some?
                   && Resolve(reply, feed + [f], cutoff) == Some(Resolve(reply, feed, cutoff).value + f.fee)
              else Resolve(reply, feed + [f], cutoff) == Some(f.fee)
  {
    hide Charged, TradesOf, FeesUnder, Added;
    if reply.Record? && reply.fee.None? {
      ChargeAdds(reply.trades, feed, f, cutoff);
    }
  }

  // ------------------------------------------------------------------ what a closed position should store

  /** The figure the current order rows imply. */
  function Owed(orders: map<Id, Order>, p: Position): real
    requires !p.Open()
  {
    var exit := p.exit.value;
    var closing := if exit.trigger.External? then (if exit.exitFee.Some? then exit.exitFee.value else 0.0)
                   else FeeOf(orders, exit.closeKey);
    Realised(p.entry, exit.price, p.lots, p.lotSize, FeeOf(orders, Some(p.openKey)), closing)
  }

  predicate InStep(orders: map<Id, Order>, p: Position) {
    p.Open() || p.exit.value.pnl == Owed(orders, p)
  }

  ghost predicate AllInStep(orders: map<Id, Order>, positions: map<nat, Position>) {
    forall pid :: pid in positions ==> InStep(orders, positions[pid])
  }

  predicate Refers(p: Position, key: Id) {
    p.openKey == key || (!p.Open() && p.exit.value.closeKey == Some(key))
  }

  /** An exit the owner's own trade caused has no closing order. */
  predicate ExternalUnordered(p: Position) {
    !p.Open() && p.exit.value.trigger.External? ==> p.exit.value.closeKey.None?
  }

  /** `db.positions.close` admits an order exactly for the bot's own exits, and a commission of the row's own
      only for the owner's. */
  predicate ExitFormed(p: Position) {
    !p.Open() ==>
      && (p.exit.value.trigger.External? <==> p.exit.value.closeKey.None?)
      && (p.exit.value.exitFee.Some? ==> p.exit.value.trigger.External?)
  }

  /** Being in step is balancing: what the sale brought, less the purchase, less both commissions. */
  lemma InStepIffBalances(orders: map<Id, Order>, p: Position)
    requires ExitFormed(p)
    ensures InStep(orders, p) <==> Balances(p, orders)
  {
    if !p.Open() {
      RealisedBalances(p.entry, p.exit.value.price, p.lots, p.lotSize, OpeningFee(p, orders), ClosingFee(p, orders));
      assert Owed(orders, p) == Realised(p.entry, p.exit.value.price, p.lots, p.lotSize, OpeningFee(p, orders),
                                         ClosingFee(p, orders));
    }
  }

  /** Only orders a closed position refers to can move what it should store. */
  lemma OwedDependsOnReferred(before: map<Id, Order>, after: map<Id, Order>, p: Position)
    requires !p.Open() && forall k :: Refers(p, k) ==> FeeOf(after, Some(k)) == FeeOf(before, Some(k))
    ensures Owed(after, p) == Owed(before, p)
  {
    assert Refers(p, p.openKey);
    if p.exit.value.closeKey.Some? {
      assert Refers(p, p.exit.value.closeKey.value);
    }
  }

  /** Writing a fee that was unknown leaves a closed position in step exactly when the fee is zero or
      the position does not refer to the order: otherwise it must be recomputed. */
  lemma LateFeeStepsOutIff(orders: map<Id, Order>, key: Id, row: Order, fee: real, p: Position)
    requires key in orders && orders[key].fee.None? && row.fee == Some(fee)
    requires !p.Open() && InStep(orders, p) && ExternalUnordered(p)
    ensures InStep(orders[key := row], p) <==> fee == 0.0 || !Refers(p, key)
  {
    var after := orders[key := row];
    if !Refers(p, key) {
      OwedDependsOnReferred(orders, after, p);
    } else {
      var first := if p.openKey == key then fee else 0.0;
      var second := if p.exit.value.closeKey == Some(key) then fee else 0.0;
      FeesSubtract(orders, after, p, first, second);
    }
  }

  lemma FeesSubtract(orders: map<Id, Order>, after: map<Id, Order>, p: Position, first: real, second: real)
    requires !p.Open() && ExternalUnordered(p)
    requires FeeOf(after, Some(p.openKey)) == FeeOf(orders, Some(p.openKey)) + first
    requires FeeOf(after, p.exit.value.closeKey) == FeeOf(orders, p.exit.value.closeKey) + second
    requires p.exit.value.closeKey.None? ==> second == 0.0
    ensures Owed(after, p) == Owed(orders, p) - first - second
  {
  }

  // ------------------------------------------------------------------ the books

  /** Rows differ at most in fees that were unknown. */
  ghost predicate OnlyLateFees(before: map<Id, Order>, after: map<Id, Order>, updated: set<Id>) {
    && after.Keys == before.Keys && updated <= before.Keys
    && forall k :: k in before ==>
         if k in updated then before[k].fee.None? && after[k] == before[k].(fee := after[k].fee) && after[k].fee.Some?
         else after[k] == before[k]
  }

  class Books {
    var orders: map<Id, Order>
    var positions: map<nat, Position>
    var settledAt: map<Id, int>
    var alertedAt: map<Id, int>
    /** Orders the owner was alerted about, in order. */
    var alerts: seq<Id>

    const STALE := 24 * 3600
    const FEE_SETTLE := 300

    ghost predicate Valid()
      reads this
    {
      && (forall pid :: pid in positions ==> ExitFormed(positions[pid]))
      && (forall i, j :: 0 <= i < j < |alerts| ==> alerts[i] != alerts[j])
      && (forall i :: 0 <= i < |alerts| ==> alerts[i] in alertedAt)
    }

    constructor ()
      ensures Valid() && orders == map[] && positions == map[] && alerts == []
    {
      orders, positions, settledAt, alertedAt, alerts := map[], map[], map[], map[], [];
    }

    /** `db.positions.close`, from the order row as it stands. */
    method Close(pid: nat, trigger: Trigger, price: real, closeKey: Option<Id>, exitFee: Option<real>)
      returns (ok: bool)
      requires Valid() && (trigger.External? <==> closeKey.None?) && (exitFee.Some? ==> trigger.External?)
      modifies `positions
      ensures Valid() && (ok <==> pid in old(positions) && old(positions)[pid].Open())
      ensures positions.Keys == old(positions).Keys && forall q :: q in positions && q != pid ==>
                positions[q] == old(positions)[q]
      ensures !ok ==> positions == old(positions)
      ensures ok ==>
                && positions[pid].exit.Some? && InStep(orders, positions[pid]) && Balances(positions[pid], orders)
                && var exit := positions[pid].exit.value;
                && exit == ExitInfo(trigger, price, closeKey, exitFee, exit.pnl)
                && positions[pid] == old(positions)[pid].(exit := Some(exit), protection := Local)
      ensures old(AllInStep(orders, positions)) ==> AllInStep(orders, positions)
    {
      ok := pid in positions && positions[pid].Open();
      if ok {
        positions := positions[pid := positions[pid].(
          exit := Some(ExitOf(orders, positions[pid], trigger, price, closeKey, exitFee)), protection := Local)];
        InStepIffBalances(orders, positions[pid]);
      }
    }

    method RecordCommission(key: Id, fee: real) returns (ok: bool)
      modifies `orders
      ensures ok <==> key in old(orders) && old(orders)[key].status.Terminal()
      ensures orders == if ok then old(orders)[key := old(orders)[key].(fee := Some(fee))] else old(orders)
    {
      ok := key in orders && orders[key].status.Terminal();
      if ok {
        orders := orders[key := orders[key].(fee := Some(fee))];
      }
    }

    /** Idempotent: a position already in step is written back unchanged. */
    method RecomputeRealised(pid: nat) returns (ok: bool)
      requires Valid()
      modifies `positions
      ensures Valid() && (ok <==> pid in old(positions) && !old(positions)[pid].Open())
      ensures positions.Keys == old(positions).Keys && forall q :: q in positions && q != pid ==>
                positions[q] == old(positions)[q]
      ensures ok ==> InStep(orders, positions[pid]) && !positions[pid].Open() && Balances(positions[pid], orders)
                     && positions[pid] == old(positions)[pid].(exit := Some(old(positions)[pid].exit.value.(
                          pnl := positions[pid].exit.value.pnl)))
      ensures ok && InStep(orders, old(positions)[pid]) ==> positions == old(positions)
    {
      ok := pid in positions && !positions[pid].Open();
      if ok {
        var p := positions[pid];
        positions := positions[pid := p.(exit := Some(p.exit.value.(pnl := Owed(orders, p))))];
        InStepIffBalances(orders, positions[pid]);
      }
    }

    method MarkAlerted(key: Id, at: int)
      modifies `alertedAt
      ensures alertedAt == if key in old(alertedAt) then old(alertedAt) else old(alertedAt)[key := at]
    {
      if key !in alertedAt {
        alertedAt := alertedAt[key := at];
      }
    }

    predicate Missing(key: Id, since: int, until: int)
      reads this
    {
      && key in orders && orders[key].status.Filled? && orders[key].fee.None?
      && key in settledAt && since <= settledAt[key] <= until
    }

    method ListMissing(since: int, until: int) returns (keys: seq<Id>)
      ensures forall i, j :: 0 <= i < j < |keys| ==> keys[i] != keys[j]
      ensures forall k :: k in keys <==> Missing(k, since, until)
    {
      keys := Enumerate(set k | k in orders && Missing(k, since, until));
    }

    /** An order stale and unanswered is alerted about once, and marked. */
    method AlertOnce(key: Id, fillAt: int, moment: int)
      requires Valid()
      modifies `alerts, `alertedAt
      ensures Valid()
      ensures alerts == if moment - fillAt > STALE && key !in old(alertedAt) then old(alerts) + [key] else old(alerts)
      ensures forall k :: k in old(alertedAt) ==> k in alertedAt && alertedAt[k] == old(alertedAt)[k]
      ensures forall k :: k in alertedAt && k != key ==> k in old(alertedAt)
    {
      if moment - fillAt > STALE && key !in alertedAt {
        alerts := alerts + [key];
        MarkAlerted(key, moment);
      }
    }

    /** The first loop: ask about every missing fee. */
    method AskAll(missing: seq<Id>, replies: Id -> FeeReply, feed: seq<FeedItem>, moment: int)
      returns (updated: set<Id>)
      requires Valid() && forall k :: k in missing ==>
                 k in orders && orders[k].status.Filled? && orders[k].fee.None? && k in settledAt
      requires forall i, j :: 0 <= i < j < |missing| ==> missing[i] != missing[j]
      modifies `orders, `alerts, `alertedAt
      ensures Valid() && OnlyLateFees(old(orders), orders, updated) && old(alerts) <= alerts
      ensures forall k :: k in updated <==> k in missing && Resolve(replies(k), feed, moment - FEE_SETTLE).Some?
      ensures forall k :: k in updated ==> orders[k].fee == Resolve(replies(k), feed, moment - FEE_SETTLE)
      ensures forall k :: k in alerts <==>
                k in old(alerts) || (k in missing && k !in updated && old(Unalerted(k, moment)))
    {
      updated := {};
      assert forall j :: 0 <= j < |missing| ==> missing[j] in missing;
      for i := 0 to |missing|
        invariant Valid() && OnlyLateFees(old(orders), orders, updated) && old(alerts) <= alerts
        invariant forall k :: k in updated <==>
                    k in missing[..i] && Resolve(replies(k), feed, moment - FEE_SETTLE).Some?
        invariant forall k :: k in updated ==> orders[k].fee == Resolve(replies(k), feed, moment - FEE_SETTLE)
        invariant forall k :: k in alerts <==>
                    k in old(alerts) || (k in missing[..i] && k !in updated && old(Unalerted(k, moment)))
        invariant forall k :: k !in missing[..i] ==> (k in alertedAt <==> k in old(alertedAt))
      {
        var key := missing[i];
        assert missing[..i + 1] == missing[..i] + [key] && key !in missing[..i];
        var fee := Resolve(replies(key), feed, moment - FEE_SETTLE);
        if fee.Some? {
          var ok := RecordCommission(key, fee.value);
          updated := updated + {key};
        } else {
          AlertOnce(key, settledAt[key], moment);
        }
      }
      assert missing[..|missing|] == missing;
    }

    /** Stale, and the owner has not been told. */
    predicate Unalerted(key: Id, moment: int)
      reads this
    {
      key in settledAt && moment - settledAt[key] > STALE && key !in alertedAt
    }

    /** One closed position: rewritten if an updated order belongs to it. */
    method RecomputeOne(pid: nat, updated: set<Id>, ghost before: map<Id, Order>)
      requires Valid() && OnlyLateFees(before, orders, updated) && pid in positions && !positions[pid].Open()
      modifies `positions
      ensures Valid() && positions.Keys == old(positions).Keys && positions == old(positions)[pid := positions[pid]]
      ensures PutRight(old(positions)[pid], positions[pid], updated, before, orders)
    {
      if exists k :: k in updated && Refers(positions[pid], k) {
        var ok := RecomputeRealised(pid);
      } else {
        SameStep(before, orders, updated, positions[pid]);
      }
    }

    /** The second loop: rewrite every closed position an updated order belongs to. */
    method RecomputeAll(updated: set<Id>, ghost before: map<Id, Order>)
      requires Valid() && OnlyLateFees(before, orders, updated)
      modifies `positions
      ensures Valid() && positions.Keys == old(positions).Keys
      ensures forall pid :: pid in positions ==> PutRight(old(positions)[pid], positions[pid], updated, before, orders)
    {
      hide OnlyLateFees, PutRight;
      var closed: seq<nat> := Enumerate(set pid | pid in positions && !positions[pid].Open());
      assert forall j :: 0 <= j < |closed| ==> closed[j] in closed;
      for i := 0 to |closed|
        invariant Valid() && positions.Keys == old(positions).Keys
        invariant forall pid :: pid in positions && pid !in closed[..i] ==> positions[pid] == old(positions)[pid]
        invariant forall pid :: pid in positions && pid in closed[..i] ==>
                    PutRight(old(positions)[pid], positions[pid], updated, before, orders)
      {
        assert closed[..i + 1] == closed[..i] + [closed[i]] && closed[i] !in closed[..i];
        RecomputeOne(closed[i], updated, before);
      }
      assert closed[..|closed|] == closed;
      forall pid | pid in positions ensures PutRight(old(positions)[pid], positions[pid], updated, before, orders) {
        if pid !in closed {
          OpenIsRight(positions[pid], updated, before, orders);
        }
      }
    }

    /** None of the position's orders is waiting for its fee. */
    ghost predicate NoneMissing(p: Position, since: int, until: int)
      reads this
    {
      forall k :: Refers(p, k) ==> !Missing(k, since, until)
    }

    /** Unknown fees are asked about, and every affected figure is rewritten. `replies` is what the broker
        answers of each order, and `feed` the operations it lists, none where it does not answer. A run that
        stopped between a fee and its figure is not made good by a later one: with no fee missing any more,
        the stale figure is left as it is. */
    method Backfill(since: int, until: int, moment: int, replies: Id -> FeeReply, feed: seq<FeedItem>)
      returns (count: nat)
      requires Valid()
      modifies this
      ensures Valid() && old(alerts) <= alerts
      ensures positions.Keys == old(positions).Keys && orders.Keys == old(orders).Keys
      ensures forall k :: k in orders ==>
                var fee := Resolve(replies(k), feed, moment - FEE_SETTLE);
                orders[k] == if old(Missing(k, since, until)) && fee.Some? then old(orders)[k].(fee := fee)
                             else old(orders)[k]
      ensures count == |set k | k in orders && orders[k] != old(orders)[k]|
      ensures forall k :: k in alerts <==>
                k in old(alerts) || (k in orders && old(Missing(k, since, until)) && orders[k].fee.None?
                                     && old(Unalerted(k, moment)))
      ensures old(AllInStep(orders, positions)) ==> AllInStep(orders, positions)
      ensures forall pid, k :: (pid in positions && !positions[pid].Open() && Refers(positions[pid], k)
                                && k in orders && orders[k] != old(orders)[k]) ==> Balances(positions[pid], orders)
      ensures forall pid :: pid in old(positions) && old(NoneMissing(positions[pid], since, until)) ==>
                              && positions[pid] == old(positions)[pid]
                              && (InStep(orders, positions[pid]) <==> old(InStep(orders, positions[pid])))
    {
      hide Resolve;
      ghost var before := orders;
      var missing := ListMissing(since, until);
      assert forall k :: k in missing <==> old(Missing(k, since, until));
      if missing == [] {
        assert (set k | k in orders && orders[k] != old(orders)[k]) == {};
        return 0;
      }
      var updated := AskAll(missing, replies, feed, moment);
      if updated != {} {
        RecomputeAll(updated, before);
      }
      assert updated == set k | k in orders && orders[k] != old(orders)[k];
      forall pid | pid in old(positions) && old(NoneMissing(positions[pid], since, until))
        ensures positions[pid] == old(positions)[pid]
        ensures InStep(orders, positions[pid]) <==> old(InStep(orders, positions[pid]))
      {
        SameStep(before, orders, updated, positions[pid]);
      }
      return |updated|;
    }
  }

  /** A figure is only ever rewritten for a position an updated order belongs to. */
  ghost predicate Recomputed(before: Position, after: Position, updated: set<Id>) {
    || after == before
    || (!before.Open() && !after.Open() && (exists k :: k in updated && Refers(before, k))
        && after == before.(exit := Some(before.exit.value.(pnl := after.exit.value.pnl))))
  }

  /** So rewritten, a figure balances, and stays in step in any case. */
  ghost predicate PutRight(before: Position, after: Position, updated: set<Id>, was: map<Id, Order>,
                           now: map<Id, Order>) {
    && Recomputed(before, after, updated) && (InStep(was, before) ==> InStep(now, after))
    && (!before.Open() && (exists k :: k in updated && Refers(before, k)) ==> Balances(after, now))
  }

  lemma OpenIsRight(p: Position, updated: set<Id>, was: map<Id, Order>, now: map<Id, Order>)
    requires p.Open()
    ensures PutRight(p, p, updated, was, now)
  {
  }

  lemma SameStep(before: map<Id, Order>, after: map<Id, Order>, updated: set<Id>, p: Position)
    requires OnlyLateFees(before, after, updated) && forall k :: k in updated ==> !Refers(p, k)
    ensures InStep(after, p) <==> InStep(before, p)
  {
    if !p.Open() {
      OwedDependsOnReferred(before, after, p);
    }
  }

  // ------------------------------------------------------------------ what the books add up to

  function Stored(p: Position): real {
    if p.Open() then 0.0 else p.exit.value.pnl
  }

  function Brought(p: Position): real {
    if p.Open() then 0.0 else p.exit.value.price * (p.lots * p.lotSize) as real
  }

  function Cost(p: Position): real {
    if p.Open() then 0.0 else p.entry * (p.lots * p.lotSize) as real
  }

  function Fees(orders: map<Id, Order>): Position -> real {
    (p: Position) => if p.Open() then 0.0 else OpeningFee(p, orders) + ClosingFee(p, orders)
  }

  /** The stored figures of any number of closes add up to what the sales brought, less what the purchases
      cost, less the commissions on record. */
  lemma StoredAddUp(books: Books)
    requires books.Valid() && AllInStep(books.orders, books.positions)
    ensures Total(books.positions, Stored)
            == Total(books.positions, Brought) - Total(books.positions, Cost)
               - Total(books.positions, Fees(books.orders))
  {
    forall pid | pid in books.positions
      ensures Stored(books.positions[pid]) == Brought(books.positions[pid]) - Cost(books.positions[pid])
                                              - Fees(books.orders)(books.positions[pid])
    {
      InStepIffBalances(books.orders, books.positions[pid]);
    }
    TotalSplits(books.positions, Stored, Brought, Cost, Fees(books.orders));
  }
}
