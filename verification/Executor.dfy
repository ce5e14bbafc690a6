/** Order submission, standing stops and crash recovery.

    Every method here runs inside a section, while the caller holds the ticker's lock and the global
    lock, so between its awaited calls only the exchange moves (`Interleaving.SectionIsAlone`). Alerts,
    log events and cool-downs are not part of this model.
 */
module Executor {
  import opened Models
  import opened Protocol
  import opened Bots

  const STOP_ATTEMPTS := 3

  datatype Fault =
    | PositionState | OrderState | Integrity | BrokerDown | Refusal | NoFill | NoIdentifier
    | IllegalTrigger | ExitFailed | Absent

  datatype Outcome = Fine(pid: nat) | Raised(fault: Fault)

  // ------------------------------------------------------------------ who owns a stop

  /** LOCAL with no standing row, or EXCHANGE naming its standing ACTIVE row; never EXCHANGE once
      closed. */
  predicate Owned(p: Position, pid: nat, rows: map<Id, StopRow>) {
    match p.protection
    case Local => !StandingOn(rows, pid)
    case Exchange(k) => p.Open() && k in rows && rows[k].position == pid && rows[k].status.Active?
  }

  ghost predicate Coherent(positions: map<nat, Position>, rows: map<Id, StopRow>) {
    forall p :: p in positions ==> Owned(positions[p], p, rows)
  }

  /** Stop rows of other positions are exactly as they were. */
  ghost predicate Elsewhere(before: map<Id, StopRow>, after: map<Id, StopRow>, pid: nat) {
    && (forall k :: k in before && before[k].position != pid ==> k in after && after[k] == before[k])
    && (forall k :: k in after && after[k].position != pid ==> k in before && before[k] == after[k])
  }

  /** Only the protection columns of one position differ. */
  ghost predicate OnlyProtection(before: map<nat, Position>, after: map<nat, Position>, pid: nat) {
    pid in before && pid in after && after == before[pid := before[pid].(protection := after[pid].protection)]
  }

  lemma OthersStayOwned(before: map<Id, StopRow>, after: map<Id, StopRow>, pid: nat, p: Position, q: nat)
    requires Elsewhere(before, after, pid) && q != pid && Owned(p, q, before)
    ensures Owned(p, q, after)
  {
  }

  lemma KeepsCoherent(positions: map<nat, Position>, rows: map<Id, StopRow>, positions': map<nat, Position>,
                      rows': map<Id, StopRow>, pid: nat)
    requires Coherent(positions, rows) && Elsewhere(rows, rows', pid)
    requires forall q :: q in positions' && q != pid ==> q in positions && positions'[q] == positions[q]
    requires pid in positions' ==> Owned(positions'[pid], pid, rows')
    ensures Coherent(positions', rows')
  {
    forall q | q in positions' ensures Owned(positions'[q], q, rows') {
      if q != pid {
        OthersStayOwned(rows, rows', pid, positions[q], q);
      }
    }
  }

  // ------------------------------------------------------------------ standing stops

  /** The position is protected by a stop row this call created, for its own lots and price. */
  predicate FreshlyProtected(p: Position, pid: nat, before: map<Id, StopRow>, after: map<Id, StopRow>) {
    p.protection.Exchange? &&
    var k := p.protection.key;
    && k !in before && k in after && after[k].sid.Some?
    && after[k] == StopRow(after[k].sid, pid, p.ticker, p.lots, p.stop, Active)
  }

  /** `after` adds only failed attempts of one position to `before`, except perhaps one row. */
  ghost predicate AddsFailed(before: map<Id, StopRow>, after: map<Id, StopRow>, pid: nat, but: Protection) {
    && (forall k :: k in before ==> k in after && after[k] == before[k])
    && (forall k :: k in after && k !in before ==>
          k.Ours? && after[k].position == pid && (after[k].status.Failed? || but == Exchange(k)))
  }

  /** Up to three attempts; a failed one leaves a FAILED row and nothing standing. */
  method PlaceStop(bot: Bot, pid: nat) returns (r: Outcome)
    requires bot.Valid() && pid in bot.positions
    modifies bot
    ensures bot.LotsStill()
    ensures bot.Valid() && bot.Later() && bot.even == old(bot.even) && bot.orders == old(bot.orders)
    ensures bot.broker.market.Keys == old(bot.broker.market.Keys)
    ensures OnlyProtection(old(bot.positions), bot.positions, pid)
    ensures StandingOn(old(bot.stopRows), pid) ==>
              && bot.TablesKept()
              && r == if old(bot.positions)[pid].protection.Exchange? then Fine(pid) else Raised(Integrity)
    ensures !StandingOn(old(bot.stopRows), pid) ==>
              && r == Fine(pid)
              && AddsFailed(old(bot.stopRows), bot.stopRows, pid, bot.positions[pid].protection)
              && (|| FreshlyProtected(bot.positions[pid], pid, old(bot.stopRows), bot.stopRows)
                  || (bot.positions == old(bot.positions) && !StandingOn(bot.stopRows, pid)
                      && |bot.stopRows| == |old(bot.stopRows)| + STOP_ATTEMPTS))
    ensures bot.obliging && !StandingOn(old(bot.stopRows), pid) ==> Issued(bot, pid, old(bot.broker.stops))
    ensures old(Coherent(bot.positions, bot.stopRows) && bot.positions[pid].Open()) ==>
              Coherent(bot.positions, bot.stopRows)
  {
    ghost var positions, rows := bot.positions, bot.stopRows;
    r := Place(bot, pid);
    if Coherent(positions, rows) && positions[pid].Open() && !StandingOn(rows, pid) {
      PlacementKeepsCoherent(positions, rows, bot.positions, bot.stopRows, pid);
    }
  }

  /** The placement loop itself. */
  method Place(bot: Bot, pid: nat) returns (r: Outcome)
    requires bot.Valid() && pid in bot.positions
    modifies bot
    ensures bot.LotsStill()
    ensures bot.Valid() && bot.Later() && bot.even == old(bot.even) && bot.orders == old(bot.orders)
    ensures bot.broker.market.Keys == old(bot.broker.market.Keys)
    ensures OnlyProtection(old(bot.positions), bot.positions, pid)
    ensures StandingOn(old(bot.stopRows), pid) ==>
              && bot.TablesKept()
              && r == if old(bot.positions)[pid].protection.Exchange? then Fine(pid) else Raised(Integrity)
    ensures !StandingOn(old(bot.stopRows), pid) ==>
              && r == Fine(pid)
              && AddsFailed(old(bot.stopRows), bot.stopRows, pid, bot.positions[pid].protection)
              && (|| FreshlyProtected(bot.positions[pid], pid, old(bot.stopRows), bot.stopRows)
                  || (bot.positions == old(bot.positions) && !StandingOn(bot.stopRows, pid)
                      && |bot.stopRows| == |old(bot.stopRows)| + STOP_ATTEMPTS))
    ensures bot.obliging && !StandingOn(old(bot.stopRows), pid) ==> Issued(bot, pid, old(bot.broker.stops))
  {
    var standing := bot.ActiveForPosition(pid);
    if standing.Some? && bot.positions[pid].protection.Exchange? {
      return Fine(pid);
    }
    for attempt := 0 to STOP_ATTEMPTS
      invariant bot.Valid() && bot.Later() && bot.even == old(bot.even)
      invariant bot.LotsStill()
      invariant bot.broker.market.Keys == old(bot.broker.market.Keys)
      invariant bot.orders == old(bot.orders) && bot.positions == old(bot.positions)
      invariant StandingOn(old(bot.stopRows), pid) ==> attempt == 0
      invariant attempt == 0 ==> bot.stopRows == old(bot.stopRows)
      invariant !StandingOn(old(bot.stopRows), pid) ==> !StandingOn(bot.stopRows, pid)
      invariant AddsFailed(old(bot.stopRows), bot.stopRows, pid, Local)
      invariant |bot.stopRows| == |old(bot.stopRows)| + attempt
      invariant bot.obliging && !StandingOn(old(bot.stopRows), pid) ==> attempt == 0 && bot.broker == old(bot.broker)
    {
      var placed := Attempt(bot, pid);
      if placed.None? {
        return Raised(Integrity);
      }
      if placed.value {
        return Fine(pid);
      }
    }
    return Fine(pid);
  }

  lemma AddsRow(before: map<Id, StopRow>, key: Id, row: StopRow, pid: nat)
    requires key.Ours? && key !in before && row.position == pid && !StandingOn(before, pid)
    ensures |before[key := row]| == |before| + 1
    ensures row.status.Failed? ==>
              AddsFailed(before, before[key := row], pid, Local) && !StandingOn(before[key := row], pid)
    ensures AddsFailed(before, before[key := row], pid, Exchange(key))
  {
  }

  /** The exchange holds the one new stop the position now names, as it was asked for. */
  ghost predicate Issued(bot: Bot, pid: nat, before: map<nat, BrokerStop>)
    reads bot
  {
    && pid in bot.positions && bot.positions[pid].protection.Exchange?
    && var key := bot.positions[pid].protection.key;
    && key in bot.stopRows && bot.stopRows[key].sid.Some?
    && var sid := bot.stopRows[key].sid.value;
    && sid !in before && sid in bot.broker.stops && bot.broker.stops == before[sid := bot.broker.stops[sid]]
    && bot.HeldFor(bot.stopRows[key], key, bot.broker.stops[sid])
  }

  /** One placement: None when the row cannot be recorded, else whether the stop now stands. */
  method Attempt(bot: Bot, pid: nat) returns (placed: Option<bool>)
    requires bot.Valid() && pid in bot.positions
    modifies bot
    ensures bot.LotsStill()
    ensures bot.Valid() && bot.Later() && bot.even == old(bot.even) && bot.orders == old(bot.orders)
    ensures bot.broker.market.Keys == old(bot.broker.market.Keys)
    ensures placed.None? <==> StandingOn(old(bot.stopRows), pid)
    ensures placed.None? ==> bot.TablesKept()
    ensures placed == Some(false) ==>
              && bot.positions == old(bot.positions) && |bot.stopRows| == |old(bot.stopRows)| + 1
              && AddsFailed(old(bot.stopRows), bot.stopRows, pid, Local) && !StandingOn(bot.stopRows, pid)
    ensures placed == Some(true) ==>
              && OnlyProtection(old(bot.positions), bot.positions, pid)
              && AddsFailed(old(bot.stopRows), bot.stopRows, pid, bot.positions[pid].protection)
              && FreshlyProtected(bot.positions[pid], pid, old(bot.stopRows), bot.stopRows)
    ensures bot.obliging && placed.Some? ==> placed.value && Issued(bot, pid, old(bot.broker.stops))
  {
    var key := bot.NewKey();
    var recorded := bot.RecordPlacing(key, pid, bot.positions[pid].lots, bot.positions[pid].stop);
    if !recorded {
      return None;
    }
    var stands := SendStop(bot, pid, key);
    AddsRow(old(bot.stopRows), key, bot.stopRows[key], pid);
    placed := Some(stands);
  }

  /** Posts a recorded stop: it stands and the position names it, or its row is FAILED. */
  method SendStop(bot: Bot, pid: nat, key: Id) returns (stands: bool)
    requires bot.Valid() && pid in bot.positions && key.Ours? && key in bot.stopRows
    requires bot.stopRows[key].status.Placing?
    requires Unseen(bot.broker.stops, key)
    modifies bot
    ensures bot.LotsStill()
    ensures bot.Valid() && bot.Later() && bot.even == old(bot.even) && bot.orders == old(bot.orders)
    ensures bot.broker.market.Keys == old(bot.broker.market.Keys)
    ensures key in bot.stopRows && bot.stopRows == old(bot.stopRows)[key := bot.stopRows[key]]
    ensures !stands ==>
              bot.positions == old(bot.positions) && bot.stopRows[key] == old(bot.stopRows)[key].(status := Failed)
    ensures stands ==>
              && bot.positions == old(bot.positions)[pid := old(bot.positions)[pid].(protection := Exchange(key))]
              && bot.stopRows[key].sid.Some?
              && bot.stopRows[key] == old(bot.stopRows)[key].(status := Active, sid := bot.stopRows[key].sid)
    ensures bot.obliging ==> stands && Issued(bot, pid, old(bot.broker.stops))
  {
    var sid := bot.PostStopLoss(key);
    stands := sid.Some?;
    if stands {
      bot.ActivateStop(key, sid.value);
      bot.SetStopProtection(pid, Exchange(key));
    } else {
      var settled := bot.SettleStop(key, Failed);
    }
  }

  /** Stop rows after the standing one of a position, if any, is settled. */
  function EndedFor(rows: map<Id, StopRow>, pid: nat, ending: StopStatus): map<Id, StopRow> {
    map k | k in rows ::
      if rows[k].position == pid && rows[k].status.Standing() then rows[k].(status := ending) else rows[k]
  }

  lemma EndedIsOneRow(rows: map<Id, StopRow>, pid: nat, standing: Id, ending: StopStatus)
    requires OneStanding(rows) && standing in rows && rows[standing].position == pid && rows[standing].status.Standing()
    ensures EndedFor(rows, pid, ending) == rows[standing := rows[standing].(status := ending)]
  {
  }

  lemma EndedFacts(rows: map<Id, StopRow>, pid: nat, ending: StopStatus)
    requires !ending.Standing()
    ensures Elsewhere(rows, EndedFor(rows, pid, ending), pid) && !StandingOn(EndedFor(rows, pid, ending), pid)
    ensures !StandingOn(rows, pid) ==> EndedFor(rows, pid, ending) == rows
  {
  }

  /** The exchange has taken down the stop a position's standing row names, and nothing else. */
  ghost predicate TakenDown(rows: map<Id, StopRow>, pid: nat, before: Broker, after: Broker) {
    && (forall k :: k in rows && rows[k].position == pid && rows[k].status.Standing() && rows[k].sid.Some? ==>
          after == Disarmed(before, rows[k].sid.value))
    && (after == before
        || exists k :: k in rows && rows[k].position == pid && rows[k].status.Standing() && rows[k].sid.Some?)
  }

  /** Cancels the standing stop at the exchange, then settles its row. */
  method EndStanding(bot: Bot, pid: nat) returns (ok: bool)
    requires bot.Valid()
    modifies bot
    ensures bot.Valid() && bot.Onward() && bot.even == old(bot.even)
    ensures bot.orders == old(bot.orders) && bot.positions == old(bot.positions)
    ensures bot.stopRows == if ok then EndedFor(old(bot.stopRows), pid, Withdrawn) else old(bot.stopRows)
    ensures bot.obliging ==> ok && TakenDown(old(bot.stopRows), pid, old(bot.broker), bot.broker)
    ensures !StandingOn(old(bot.stopRows), pid) ==> ok
  {
    var standing := bot.ActiveForPosition(pid);
    if standing.None? {
      EndedFacts(bot.stopRows, pid, Withdrawn);
      return true;
    }
    EndedIsOneRow(bot.stopRows, pid, standing.value, Withdrawn);
    if bot.stopRows[standing.value].sid.Some? {
      ok := bot.CancelStopOrder(bot.stopRows[standing.value].sid.value);
      if !ok {
        return;
      }
    }
    var settled := bot.SettleStop(standing.value, Withdrawn);
    ok := true;
  }

  /** Nothing local changes unless the exchange acknowledged the cancel. */
  method CancelStopToLocal(bot: Bot, pid: nat) returns (r: Outcome)
    requires bot.Valid() && pid in bot.positions
    modifies bot
    ensures bot.LotsStill()
    ensures bot.Valid() && bot.Onward() && bot.even == old(bot.even) && bot.orders == old(bot.orders)
    ensures r == Fine(pid) || r == Raised(BrokerDown)
    ensures r.Raised? ==> bot.TablesKept()
    ensures r.Fine? ==>
              && bot.positions == old(bot.positions)[pid := old(bot.positions)[pid].(protection := Local)]
              && bot.stopRows == EndedFor(old(bot.stopRows), pid, Withdrawn)
    ensures bot.obliging ==> r.Fine? && TakenDown(old(bot.stopRows), pid, old(bot.broker), bot.broker)
    ensures !StandingOn(old(bot.stopRows), pid) ==> r.Fine?
    ensures old(Coherent(bot.positions, bot.stopRows)) ==> Coherent(bot.positions, bot.stopRows)
  {
    var ok := EndStanding(bot, pid);
    if !ok {
      return Raised(BrokerDown);
    }
    if bot.positions[pid].protection.Exchange? {
      bot.SetStopProtection(pid, Local);
    }
    if old(Coherent(bot.positions, bot.stopRows)) {
      EndingKeepsCoherent(old(bot.positions), old(bot.stopRows), pid, bot.positions[pid], Withdrawn);
    }
    return Fine(pid);
  }

  /** Cancel the standing stop, then place one at the stored price for the stored lots. */
  method ReplaceStop(bot: Bot, pid: nat) returns (r: Outcome)
    requires bot.Valid() && pid in bot.positions
    modifies bot
    ensures bot.LotsStill()
    ensures bot.Valid() && bot.Later() && bot.even == old(bot.even) && bot.orders == old(bot.orders)
    ensures r == Fine(pid) || r == Raised(BrokerDown)
    ensures r.Raised? ==> bot.TablesKept()
    ensures r.Fine? ==>
              && OnlyProtection(old(bot.positions), bot.positions, pid)
              && AddsFailed(EndedFor(old(bot.stopRows), pid, Withdrawn), bot.stopRows, pid,
                            bot.positions[pid].protection)
              && (|| FreshlyProtected(bot.positions[pid], pid, old(bot.stopRows), bot.stopRows)
                  || (bot.positions[pid].protection.Local? && !StandingOn(bot.stopRows, pid)
                      && |bot.stopRows| == |EndedFor(old(bot.stopRows), pid, Withdrawn)| + STOP_ATTEMPTS))
    ensures old(Coherent(bot.positions, bot.stopRows) && bot.positions[pid].Open()) ==>
              Coherent(bot.positions, bot.stopRows)
    ensures bot.obliging ==> r.Fine? && Renewed(bot, pid, old(bot.stopRows), old(bot.broker))
  {
    r := CancelStopToLocal(bot, pid);
    if r.Raised? {
      return;
    }
    EndedFacts(old(bot.stopRows), pid, Withdrawn);
    r := PlaceStop(bot, pid);
  }

  /** The standing stop was taken down and the one new stop stands in its place. */
  ghost predicate Renewed(bot: Bot, pid: nat, rows: map<Id, StopRow>, before: Broker)
    reads bot
  {
    exists between: Broker :: TakenDown(rows, pid, before, between) && Issued(bot, pid, between.stops)
  }

  /** Binds a live broker stop to the position. The key must have no local row; a stop without a
      broker identifier is refused only after its PLACING row has been written. */
  method AdoptExistingStop(bot: Bot, pid: nat, key: Id, sid: Option<nat>, lots: nat, price: real) returns (r: Outcome)
    requires bot.Valid() && pid in bot.positions
    requires sid.Some? ==> sid.value in bot.broker.stops && bot.broker.stops[sid.value].key == key
    modifies bot
    ensures bot.Valid() && bot.Onward() && bot.even == old(bot.even) && bot.orders == old(bot.orders)
    ensures var recordable := key !in old(bot.stopRows) && !StandingOn(old(bot.stopRows), pid);
            r == if !recordable then Raised(Integrity) else if sid.None? then Raised(NoIdentifier) else Fine(pid)
    ensures r == Raised(Integrity) ==> bot.TablesKept()
    ensures r.Fine? ==>
              bot.positions == old(bot.positions)[pid := old(bot.positions)[pid].(protection := Exchange(key))]
    ensures r.Raised? ==> bot.positions == old(bot.positions)
    ensures r != Raised(Integrity) ==>
              bot.stopRows == old(bot.stopRows)[key := StopRow(sid, pid, old(bot.positions)[pid].ticker, lots, price,
                                                               if sid.Some? then Active else Placing)]
    ensures bot.obliging ==> bot.broker == old(bot.broker)
  {
    var recorded := bot.RecordPlacing(key, pid, lots, price);
    if !recorded {
      return Raised(Integrity);
    }
    if sid.None? {
      return Raised(NoIdentifier);
    }
    bot.LaterPersists();
    bot.ActivateStop(key, sid.value);
    bot.SetStopProtection(pid, Exchange(key));
    return Fine(pid);
  }

  /** Stop rows after the row under `key`, if it stands, is settled. */
  function EndedRow(rows: map<Id, StopRow>, key: Id, ending: StopStatus): map<Id, StopRow> {
    if key in rows && rows[key].status.Standing() then rows[key := rows[key].(status := ending)] else rows
  }

  /** Positions after the open one that names `key`, if it is `owner`, is returned to LOCAL. */
  function Demoted(positions: map<nat, Position>, owner: nat, key: Id): map<nat, Position> {
    if owner in positions && positions[owner].Open() && positions[owner].protection == Exchange(key)
    then positions[owner := positions[owner].(protection := Local)]
    else positions
  }

  /** Cancels a live stop nothing should be holding, and demotes its owner if there is one. */
  method CancelOrphanedStop(bot: Bot, key: Id, sid: Option<nat>, owner: nat) returns (r: Outcome)
    requires bot.Valid()
    modifies bot
    ensures bot.Valid() && bot.Onward() && bot.even == old(bot.even) && bot.orders == old(bot.orders)
    ensures r == Fine(owner) || r == Raised(BrokerDown)
    ensures r.Raised? ==> bot.TablesKept()
    ensures r.Fine? ==>
              && bot.stopRows == EndedRow(old(bot.stopRows), key, Orphaned)
              && bot.positions == Demoted(old(bot.positions), owner, key)
              && (owner == 0 ==> bot.positions == old(bot.positions))
    ensures bot.obliging ==>
              r.Fine? && bot.broker == if sid.Some? then Disarmed(old(bot.broker), sid.value) else old(bot.broker)
  {
    NoRowZero(bot);
    if sid.Some? {
      var ok := bot.CancelStopOrder(sid.value);
      if !ok {
        return Raised(BrokerDown);
      }
    }
    var settled := bot.SettleStop(key, Orphaned);
    Demote(bot, owner, key);
    return Fine(owner);
  }

  /** An open owner that names the stop is left LOCAL. */
  method Demote(bot: Bot, owner: nat, key: Id)
    requires bot.Valid()
    modifies bot
    ensures bot.Valid() && bot.Onward() && bot.even == old(bot.even) && bot.orders == old(bot.orders)
    ensures bot.stopRows == old(bot.stopRows) && bot.positions == Demoted(old(bot.positions), owner, key)
    ensures bot.obliging ==> bot.broker == old(bot.broker)
  {
    if owner in bot.positions && bot.positions[owner].Open() && bot.positions[owner].protection == Exchange(key) {
      bot.SetStopProtection(owner, Local);
    }
  }

  lemma NoRowZero(bot: Bot)
    requires bot.Valid()
    ensures 0 !in bot.positions
  {
    assert Inv(bot.trace[|bot.log|]);
  }

  // ------------------------------------------------------------------ settling

  /** What the tables say of an order the exchange holds. */
  lemma MarketMatches(bot: Bot, key: Id)
    requires bot.Valid() && key in bot.broker.market
    ensures key in bot.orders && Formed(bot.orders[key])
    ensures bot.broker.market[key].ticker == bot.orders[key].ticker
    ensures bot.broker.market[key].side == bot.orders[key].side
    ensures bot.broker.market[key].booked ==> bot.orders[key].status.Terminal()
    ensures bot.broker.market[key].lots == bot.orders[key].lots && bot.broker.market[key].filled <= bot.orders[key].lots
  {
    assert Inv(bot.trace[|bot.log|]);
  }

  /** A settled row whose fill, if any, can still be booked. */
  predicate FreshFill(w: World, key: Id) {
    && key in w.orders && w.orders[key].status.Terminal()
    && (w.orders[key].filled > 0 ==> Bookable(w, key, w.orders[key].side)
                                     && w.broker.market[key].ticker == w.orders[key].ticker
                                     && w.broker.market[key].filled == w.orders[key].filled)
  }

  /** If the order sold anything that moved no position yet, its row is still to be resolved. */
  predicate PendingSale(w: World, key: Id) {
    key in w.broker.market && SoldUnbooked(w.broker.market[key]) ==> key in w.orders && !w.orders[key].status.Terminal()
  }

  /** The position open on the ticker has no standing stop that a sale would have to take down first. */
  predicate Bare(w: World, ticker: string) {
    exists pid ::
      pid in w.positions && w.positions[pid].Open() && w.positions[pid].ticker == ticker && !StandingOn(w.stopRows, pid)
  }

  /** Settles a row from the exchange's record of a finished order. */
  method SettleFinished(bot: Bot, key: Id, status: OrderStatus, filled: nat, price: Option<real>, fee: Option<real>)
    returns (ok: bool)
    requires bot.Valid() && status.Terminal() && key in bot.broker.market && bot.broker.market[key].state.Done?
    requires bot.broker.market[key].filled == filled
    modifies bot
    ensures bot.Valid() && bot.Onward() && bot.even == old(bot.even)
    ensures bot.positions == old(bot.positions) && bot.stopRows == old(bot.stopRows)
    ensures key in old(bot.orders) && (ok <==> !old(bot.orders)[key].status.Terminal())
    ensures bot.orders ==
              if ok then old(bot.orders)[key := SettledRow(old(bot.orders)[key], status, filled, price, fee, None)]
                          else old(bot.orders)
    ensures ok ==> FreshFill(bot.View(), key) && Formed(bot.orders[key])
    ensures ok && price == old(bot.broker.market[key]).Price() && fee == old(bot.broker.market[key]).Fee() ==>
              AsExecuted(bot.orders[key], bot.broker.market, key)
  {
    MarketMatches(bot, key);
    ok := bot.SettleOrder(key, status, filled, price, fee, None);
  }

  // ------------------------------------------------------------------ entries

  /** What the rows look like once a fill has been opened: one new position for it, protected or
      left LOCAL after three failed placements. */
  ghost predicate OpenedFrom(before: map<nat, Position>, after: map<nat, Position>, rowsBefore: map<Id, StopRow>,
                             rowsAfter: map<Id, StopRow>, pid: nat, row: Position) {
    && pid !in before && pid in after
    && after == before[pid := row.(protection := after[pid].protection)]
    && AddsFailed(rowsBefore, rowsAfter, pid, after[pid].protection)
    && (|| FreshlyProtected(after[pid], pid, rowsBefore, rowsAfter)
        || (after[pid].protection.Local? && !StandingOn(rowsAfter, pid)
            && |rowsAfter| == |rowsBefore| + STOP_ATTEMPTS))
  }

  function StopPrice(fill: real, stopPct: real): real {
    fill * (100.0 - stopPct) / 100.0
  }

  /** The stop stands the given percentage below the entry. */
  predicate StopAt(p: Position, stopPct: real) {
    (p.entry - p.stop) * 100.0 == stopPct * p.entry
  }

  lemma StopPriceIsAt(fill: real, stopPct: real)
    ensures (fill - StopPrice(fill, stopPct)) * 100.0 == stopPct * fill
  {
    assert StopPrice(fill, stopPct) * 100.0 == fill * (100.0 - stopPct) == fill * 100.0 - fill * stopPct;
  }

  /** So it is a price below what was paid. */
  lemma StopStandsBelow(p: Position, stopPct: real)
    requires StopAt(p, stopPct) && 0.0 < stopPct < 100.0 && p.entry > 0.0
    ensures 0.0 < p.stop < p.entry
  {
    var off := stopPct * p.entry;
    assert off > 0.0;
    assert off < 100.0 * p.entry;
    assert p.entry * 100.0 - p.stop * 100.0 == off;
  }

  /** An opened row: the lots, the price and the stop of the entry's fill, and the instrument's lot size. */
  predicate BooksEntry(p: Position, key: Id, row: Order, lotSize: nat, stopPct: real) {
    && p.ticker == row.ticker && p.openKey == key && p.lots == row.filled && Some(p.entry) == row.price
    && p.lotSize == lotSize && StopAt(p, stopPct) && p.Open() && !p.adopted
  }

  lemma OpenedBooksEntry(before: map<nat, Position>, after: map<nat, Position>, rowsBefore: map<Id, StopRow>,
                         rowsAfter: map<Id, StopRow>, pid: nat, row: Order, key: Id, lotSize: nat, stopPct: real)
    requires row.price.Some?
    requires OpenedFrom(before, after, rowsBefore, rowsAfter, pid,
                        OpenedPosition(row, key, lotSize, StopPrice(row.price.value, stopPct)))
    ensures BooksEntry(after[pid], key, row, lotSize, stopPct)
  {
    hide AddsFailed, FreshlyProtected, StandingOn, StopPrice;
    StopPriceIsAt(row.price.value, stopPct);
  }

  lemma OpeningKeepsCoherent(before: map<nat, Position>, after: map<nat, Position>, rowsBefore: map<Id, StopRow>,
                             rowsAfter: map<Id, StopRow>, pid: nat, row: Position)
    requires OpenedFrom(before, after, rowsBefore, rowsAfter, pid, row) && Coherent(before, rowsBefore)
    requires row.protection.Local? && row.Open()
    ensures Coherent(after, rowsAfter)
  {
    KeepsCoherent(before, rowsBefore, after, rowsAfter, pid);
  }

  /** Opens a position for a settled entry fill, then places its standing stop. */
  method OpenFromFill(bot: Bot, key: Id, lotSize: nat, stopPct: real) returns (pid: nat)
    requires bot.Valid() && Bookable(bot.View(), key, Buy)
    requires bot.orders[key].price.Some? && bot.orders[key].filled > 0
    requires !OneOpenOn(bot.positions, bot.orders[key].ticker)
    modifies bot
    ensures bot.Valid() && bot.Later() && bot.orders == old(bot.orders)
    ensures bot.broker.market.Keys == old(bot.broker.market.Keys)
    ensures bot.even == (old(bot.even) && old(bot.broker.market[key].filled) == old(bot.orders[key].filled))
    ensures OpenedFrom(old(bot.positions), bot.positions, old(bot.stopRows), bot.stopRows, pid,
                       OpenedPosition(old(bot.orders[key]), key, lotSize,
                                      StopPrice(old(bot.orders[key].price.value), stopPct)))
    ensures pid in bot.positions && BooksEntry(bot.positions[pid], key, old(bot.orders[key]), lotSize, stopPct)
    ensures key in bot.broker.market && bot.broker.market[key].booked
    ensures old(Coherent(bot.positions, bot.stopRows)) ==> Coherent(bot.positions, bot.stopRows)
  {
    hide BooksEntry, Coherent;
    pid := bot.OpenRow(key, lotSize, StopPrice(bot.orders[key].price.value, stopPct));
    label written:
    var placed := PlaceStop(bot, pid);
    bot.BookedStays@written(key);
    OpenedBooksEntry(old(bot.positions), bot.positions, old(bot.stopRows), bot.stopRows, pid,
                     old(bot.orders[key]), key, lotSize, stopPct);
    if old(Coherent(bot.positions, bot.stopRows)) {
      OpeningKeepsCoherent(old(bot.positions), bot.positions, old(bot.stopRows), bot.stopRows, pid,
                           OpenedPosition(old(bot.orders[key]), key, lotSize,
                                          StopPrice(old(bot.orders[key]).price.value, stopPct)));
    }
  }

  /** How abandoning a partial entry ended: the broker's record was not in hand, the row had
      already been settled by someone else, or it is settled now. */
  datatype Settlement = Pending | Stale | Settled

  /** Cancels the remainder of a partial entry and settles the row from the broker's re-read. */
  method ResolvePartialEntry(bot: Bot, key: Id) returns (s: Settlement)
    requires bot.Valid() && key in bot.orders
    modifies bot
    ensures bot.Valid() && bot.Onward() && bot.even == old(bot.even)
    ensures bot.positions == old(bot.positions) && bot.stopRows == old(bot.stopRows)
    ensures !s.Settled? ==> bot.orders == old(bot.orders)
    ensures s.Stale? ==> old(bot.orders[key]).status.Terminal()
    ensures bot.obliging && key in old(bot.broker.market) ==> !s.Pending?
    ensures bot.obliging && key in old(bot.broker.market) ==>
              && (s.Settled? <==> !old(bot.orders[key]).status.Terminal())
              && (s.Settled? ==> key in bot.orders && bot.orders[key].filled == old(bot.broker.market[key]).filled)
    ensures s.Settled? ==>
              && !old(bot.orders[key]).status.Terminal() && key in bot.orders
              && bot.orders == old(bot.orders)[key := bot.orders[key]]
              && SameRequest(old(bot.orders[key]), bot.orders[key])
              && bot.orders[key].status == (if bot.orders[key].filled > 0 then Filled else Cancelled)
              && (bot.orders[key].filled > 0 ==> bot.orders[key].price.Some?)
              && AsExecuted(bot.orders[key], bot.broker.market, key)
  {
    var reply := CancelAndAsk(bot, key);
    if !reply.State? {
      return Pending;
    }
    var ok := SettleCut(bot, key, reply.filled, reply.price, reply.fee);
    s := if ok then Settled else Stale;
  }

  /** Withdraws an order, then asks what it had executed: once acknowledged, that is final. */
  method CancelAndAsk(bot: Bot, key: Id) returns (reply: StateReply)
    requires bot.Valid()
    modifies bot
    ensures bot.Valid() && bot.Onward() && bot.TablesKept() && bot.even == old(bot.even)
    ensures reply.State? ==>
              key in bot.broker.market && bot.broker.market[key].state.Done? && reply == StateOf(bot.broker, key)
    ensures bot.obliging && key in old(bot.broker.market) ==>
              reply.State? && reply.filled == old(bot.broker.market[key]).filled
  {
    var cancelled := bot.CancelOrder(key);
    reply := NoState;
    if cancelled {
      reply := bot.GetOrderState(key);
    }
  }

  /** Writes down an entry cut short: what it bought, or that it bought nothing. */
  method SettleCut(bot: Bot, key: Id, filled: nat, price: Option<real>, fee: Option<real>) returns (ok: bool)
    requires bot.Valid() && key in bot.orders && key in bot.broker.market && bot.broker.market[key].state.Done?
    requires bot.broker.market[key].filled == filled
    requires price == bot.broker.market[key].Price() && fee == bot.broker.market[key].Fee()
    modifies bot
    ensures bot.Valid() && bot.Onward() && bot.even == old(bot.even)
    ensures bot.positions == old(bot.positions) && bot.stopRows == old(bot.stopRows)
    ensures ok <==> !old(bot.orders[key]).status.Terminal()
    ensures !ok ==> bot.orders == old(bot.orders)
    ensures ok ==>
              var status := if filled > 0 then Filled else Cancelled;
              bot.orders == old(bot.orders)[key := SettledRow(old(bot.orders[key]), status, filled, price, fee, None)]
    ensures key in bot.broker.market && bot.broker.market[key].state.Done? && bot.broker.market[key].filled == filled
    ensures ok ==> AsExecuted(bot.orders[key], bot.broker.market, key)
  {
    if filled == 0 || price.None? {
      ok := bot.SettleOrder(key, Cancelled, 0, None, fee, None);
    } else {
      ok := bot.SettleOrder(key, Filled, filled, price, fee, None);
    }
  }

  /** At most one order was added, for this ticker and side. */
  ghost predicate AddsOrder(before: map<Id, Order>, after: map<Id, Order>, ticker: string, side: Side) {
    || after == before
    || exists k ::
         && k !in before && k in after && after == before[k := after[k]]
         && after[k].ticker == ticker && after[k].side == side
  }

  /** What each way an entry can fail leaves of the orders: a refusal is on record, and an open ticker is
      refused before anything is. */
  ghost predicate EntryFailure(before: map<Id, Order>, after: map<Id, Order>, ticker: string, open: bool,
                               fault: Fault) {
    match fault
    case PositionState => open && after == before
    case Refusal =>
      exists k :: k !in before && k in after && after == before[k := after[k]] && after[k].ticker == ticker
                  && after[k].side.Buy? && after[k].status.Terminal() && after[k].filled == 0
    case BrokerDown => !open
    case _ => false
  }

  /** Records intent, buys, opens LOCAL, then places the standing stop. `allowed` is what the broker answers
      when asked how many lots the account can pay for. */
  method OpenPosition(bot: Bot, ticker: string, requested: nat, allowed: Option<nat>, lotSize: nat, stopPct: real)
    returns (r: Outcome)
    requires bot.Valid()
    modifies bot
    ensures bot.Valid() && bot.Later() && bot.even == old(bot.even)
    ensures OneOpenOn(old(bot.positions), ticker) ==> r == Raised(PositionState) && bot.TablesKept()
    ensures AddsOrder(old(bot.orders), bot.orders, ticker, Buy)
    ensures r.Raised? ==> bot.positions == old(bot.positions) && bot.stopRows == old(bot.stopRows)
                          && EntryFailure(old(bot.orders), bot.orders, ticker, OneOpenOn(old(bot.positions), ticker),
                                          r.fault)
    ensures !OneOpenOn(old(bot.positions), ticker) ==>
              if allowed.None? then r == Raised(BrokerDown) && bot.orders == old(bot.orders)
              else Ordered(old(bot.orders), bot.orders, requested, allowed.value)
    ensures bot.obliging && !OneOpenOn(old(bot.positions), ticker)
            && allowed.Some? && LeastOf(allowed.value, requested) > 0 ==>
              if bot.depth == 0 then r == Raised(BrokerDown)
              else r.Fine? && r.pid in bot.positions
                   && bot.positions[r.pid].lots == LeastOf(bot.depth, LeastOf(allowed.value, requested))
    ensures r.Fine? ==>
              && r.pid in bot.positions
              && var key := bot.positions[r.pid].openKey;
              && key !in old(bot.orders) && key in bot.orders && bot.orders == old(bot.orders)[key := bot.orders[key]]
              && bot.orders[key].ticker == ticker && bot.orders[key].side.Buy?
              && bot.orders[key].status.Filled? && 0 < bot.orders[key].filled && bot.orders[key].price.Some?
              && OpenedFrom(old(bot.positions), bot.positions, old(bot.stopRows), bot.stopRows, r.pid,
                            OpenedPosition(bot.orders[key], key, lotSize,
                                           StopPrice(bot.orders[key].price.value, stopPct)))
              && BooksEntry(bot.positions[r.pid], key, bot.orders[key], lotSize, stopPct)
              && AsExecuted(bot.orders[key], bot.broker.market, key)
    ensures old(Coherent(bot.positions, bot.stopRows)) ==> Coherent(bot.positions, bot.stopRows)
  {
    var existing := bot.AlreadyOpen(ticker);
    if existing.Some? {
      return Raised(PositionState);
    }
    var reply := bot.GetMaxLots(allowed);
    if reply.None? {
      return Raised(BrokerDown);
    }
    var lots := if reply.value < requested then reply.value else requested;
    var key := bot.NewKey();
    if lots == 0 {
      bot.RecordSubmitting(key, ticker, Buy, Entry, requested, None);
      var rejected := bot.SettleOrder(key, Rejected, 0, None, None, None);
      assert key !in old(bot.orders) && bot.orders[key].status.Terminal();
      return Raised(Refusal);
    }
    r := Enter(bot, key, ticker, lots, lotSize, stopPct);
    assert key !in old(bot.orders);
  }

  /** One order is on record, for what was asked clamped to what the account can pay for, or rejected where
      that is nothing. */
  ghost predicate Ordered(before: map<Id, Order>, after: map<Id, Order>, requested: nat, allowed: nat) {
    exists k ::
      && k !in before && k in after && after == before[k := after[k]]
      && if LeastOf(allowed, requested) == 0 then after[k].lots == requested && after[k].status.Rejected?
         else after[k].lots == LeastOf(allowed, requested)
  }

  /** The funded half of an entry, under a key no row carries yet. */
  method Enter(bot: Bot, key: Id, ticker: string, lots: nat, lotSize: nat, stopPct: real) returns (r: Outcome)
    requires bot.Valid() && key.Ours? && key !in bot.orders && !OneOpenOn(bot.positions, ticker)
    modifies bot
    ensures bot.Valid() && bot.Later() && bot.even == old(bot.even)
    ensures r.Raised? ==> bot.positions == old(bot.positions) && bot.stopRows == old(bot.stopRows)
    ensures key in bot.orders && bot.orders == old(bot.orders)[key := bot.orders[key]]
    ensures r.Raised? ==> r.fault in {Refusal, BrokerDown}
                          && (r.fault.Refusal? ==> bot.orders[key].status.Terminal() && bot.orders[key].filled == 0)
    ensures bot.orders[key].ticker == ticker && bot.orders[key].side.Buy? && bot.orders[key].lots == lots
    ensures bot.obliging && lots > 0 ==>
              if bot.depth == 0 then r == Raised(BrokerDown)
              else r.Fine? && bot.orders[key].filled == LeastOf(bot.depth, lots)
    ensures r.Fine? ==>
              && r.pid in bot.positions && BooksEntry(bot.positions[r.pid], key, bot.orders[key], lotSize, stopPct)
              && AsExecuted(bot.orders[key], bot.broker.market, key)
              && bot.orders[key].status.Filled? && 0 < bot.orders[key].filled && bot.orders[key].price.Some?
              && OpenedFrom(old(bot.positions), bot.positions, old(bot.stopRows), bot.stopRows, r.pid,
                            OpenedPosition(bot.orders[key], key, lotSize,
                                           StopPrice(bot.orders[key].price.value, stopPct)))
    ensures old(Coherent(bot.positions, bot.stopRows)) ==> Coherent(bot.positions, bot.stopRows)
  {
    hide OpenedFrom, BooksEntry, Coherent;
    bot.RecordSubmitting(key, ticker, Buy, Entry, lots, None);
    var fault := SubmitEntry(bot, key);
    if fault.Some? {
      return Raised(fault.value);
    }
    label bought:
    var pid := OpenFromFill(bot, key, lotSize, stopPct);
    bot.LaterPersists@bought();
    return Fine(pid);
  }

  /** Posts a recorded entry. Without a fault the row is settled FILLED with what was bought. */
  method SubmitEntry(bot: Bot, key: Id) returns (fault: Option<Fault>)
    requires bot.Valid() && key in bot.orders && bot.orders[key].status.Submitting? && key !in bot.broker.market
    requires bot.orders[key].side.Buy?
    modifies bot
    ensures bot.Valid() && bot.Later() && bot.even == old(bot.even)
    ensures bot.positions == old(bot.positions) && bot.stopRows == old(bot.stopRows)
    ensures key in bot.orders && bot.orders == old(bot.orders)[key := bot.orders[key]]
    ensures SameRequest(old(bot.orders[key]), bot.orders[key])
    ensures fault.Some? ==> fault.value in {Refusal, BrokerDown}
    ensures fault == Some(Refusal) ==> bot.orders[key].status.Terminal() && bot.orders[key].filled == 0
    ensures bot.obliging && bot.orders[key].lots > 0 ==>
              if bot.depth == 0 then fault == Some(BrokerDown)
              else fault.None? && bot.orders[key].filled == LeastOf(bot.depth, bot.orders[key].lots)
    ensures fault.None? ==> AsExecuted(bot.orders[key], bot.broker.market, key)
    ensures fault.None? ==>
              && bot.orders[key].status.Filled? && bot.orders[key].filled > 0 && bot.orders[key].price.Some?
              && Bookable(bot.View(), key, Buy) && bot.broker.market[key].filled == bot.orders[key].filled
  {
    var reply := bot.PostMarketOrder(key);
    match reply {
      case Refused =>
        var rejected := bot.SettleOrder(key, Rejected, 0, None, None, None);
        fault := Some(Refusal);
      case NoAnswer =>
        fault := Some(BrokerDown);
      case Posted(status, filled, price, fee) =>
        if status.Submitted? && filled > 0 {
          var s := ResolvePartialEntry(bot, key);
          fault := if !s.Settled? then Some(BrokerDown)
                   else if bot.orders[key].filled == 0 then Some(Refusal) else None;
        } else if !status.Filled? || filled == 0 || price.None? {
          fault := Some(BrokerDown);
        } else {
          var settled := bot.SettleOrder(key, Filled, filled, price, fee, None);
          fault := None;
        }
    }
  }

  // ------------------------------------------------------------------ exits

  /** Closes the whole position at the price of a settled exit order. */
  method FinishClose(bot: Bot, pid: nat, key: Id, trigger: Trigger) returns (r: Outcome)
    requires bot.Valid() && Bookable(bot.View(), key, Sell) && !trigger.External? && pid in bot.positions
    requires bot.broker.market[key].ticker == bot.positions[pid].ticker
    modifies bot
    ensures bot.Valid() && bot.Later() && bot.orders == old(bot.orders) && bot.stopRows == old(bot.stopRows)
    ensures bot.broker.market.Keys == old(bot.broker.market.Keys)
    ensures r.Fine? <==> old(bot.orders[key]).price.Some? && old(bot.positions)[pid].Open()
    ensures r.Raised? ==> bot.positions == old(bot.positions) && bot.even == old(bot.even)
                          && r.fault == if old(bot.orders[key]).price.None? then ExitFailed else PositionState
    ensures r.Fine? ==>
              && r.pid == pid
              && bot.positions == old(bot.positions)[pid := old(bot.positions)[pid].(
                   exit := Some(ExitOf(old(bot.orders), old(bot.positions)[pid], trigger,
                                       old(bot.orders[key]).price.value, Some(key), None)),
                   protection := Local)]
              && bot.even == (old(bot.even) && old(bot.positions)[pid].lots == old(bot.broker.market[key].filled))
              && key in bot.broker.market && bot.broker.market[key].booked
              && Balances(bot.positions[pid], bot.orders)
  {
    if bot.orders[key].price.None? {
      return Raised(ExitFailed);
    }
    var ok := bot.CloseRow(pid, trigger, bot.orders[key].price.value, ByOrder(key), None);
    r := if ok then Fine(pid) else Raised(PositionState);
  }

  /** Posts a recorded exit; anything but a complete fill leaves the order to recovery. */
  method PostExit(bot: Bot, key: Id) returns (sold: bool)
    requires bot.Valid() && key in bot.orders && bot.orders[key].status.Submitting? && key !in bot.broker.market
    requires bot.orders[key].side.Sell? && bot.orders[key].trigger != Some(External)
    modifies bot
    ensures bot.Valid() && bot.Later() && bot.even == old(bot.even)
    ensures bot.positions == old(bot.positions) && bot.stopRows == old(bot.stopRows)
    ensures key in bot.orders && bot.orders == old(bot.orders)[key := bot.orders[key]]
    ensures SameRequest(old(bot.orders[key]), bot.orders[key])
    ensures !sold ==>
              (bot.orders[key].status.Submitting? || bot.orders[key].status.Rejected?) && PendingSale(bot.View(), key)
    ensures bot.obliging && bot.orders[key].lots > 0 ==> (sold <==> bot.orders[key].lots <= bot.depth)
    ensures sold ==> AsExecuted(bot.orders[key], bot.broker.market, key)
    ensures sold ==>
              && bot.orders[key].status.Filled? && bot.orders[key].filled == bot.orders[key].lots
              && bot.orders[key].price.Some?
              && Bookable(bot.View(), key, Sell) && bot.broker.market[key].ticker == bot.orders[key].ticker
              && bot.broker.market[key].filled == bot.orders[key].lots
  {
    var reply := bot.PostMarketOrder(key);
    sold := reply.Posted? && reply.status.Filled? && reply.filled > 0 && reply.price.Some?;
    if sold {
      var settled := SettleFinished(bot, key, Filled, reply.filled, reply.price, reply.fee);
    } else if reply.Refused? {
      var rejected := bot.SettleOrder(key, Rejected, 0, None, None, None);
    }
  }

  /** One sell for the whole position, recorded before it is sent. */
  method SubmitExit(bot: Bot, key: Id, ticker: string, lots: nat, trigger: Trigger) returns (sold: bool)
    requires bot.Valid() && key.Ours? && key !in bot.orders && !trigger.External?
    modifies bot
    ensures bot.Valid() && bot.Later() && bot.even == old(bot.even)
    ensures bot.positions == old(bot.positions) && bot.stopRows == old(bot.stopRows)
    ensures key in bot.orders && bot.orders == old(bot.orders)[key := bot.orders[key]]
    ensures bot.orders[key].ticker == ticker && bot.orders[key].lots == lots && bot.orders[key].side.Sell?
    ensures !sold ==>
              (bot.orders[key].status.Submitting? || bot.orders[key].status.Rejected?) && PendingSale(bot.View(), key)
    ensures bot.obliging && bot.orders[key].lots > 0 ==> (sold <==> bot.orders[key].lots <= bot.depth)
    ensures sold ==> AsExecuted(bot.orders[key], bot.broker.market, key)
    ensures sold ==>
              && bot.orders[key].status.Filled? && bot.orders[key].filled == lots && bot.orders[key].price.Some?
              && Bookable(bot.View(), key, Sell) && bot.broker.market[key].ticker == ticker
              && bot.broker.market[key].filled == lots
  {
    bot.RecordSubmitting(key, ticker, Sell, Exit, lots, Some(trigger));
    sold := PostExit(bot, key);
  }

  /** What each way an exit can fail leaves of the orders: nothing is on record where the trigger was
      refused or a stop could not be withdrawn, otherwise the one sell is. */
  ghost predicate ExitFailure(before: map<Id, Order>, after: map<Id, Order>, was: Position, trigger: Trigger,
                              fault: Fault) {
    match fault
    case IllegalTrigger => after == before && (trigger.External? || (trigger.StopLoss? && was.protection.Exchange?))
    case BrokerDown => after == before && was.protection.Exchange?
    case ExitFailed => AddsExit(before, after, was)
    case PositionState => AddsExit(before, after, was) && !was.Open()
    case _ => false
  }

  /** The position was open, and is closed by one new FILLED sell for all its lots, at the price and the commission
      the exchange executed it for. */
  ghost predicate Sold(v: World, w: World, pid: nat, trigger: Trigger) {
    && pid in v.positions && v.positions[pid].Open() && pid in w.positions
    && w.positions[pid].exit.Some? && w.positions[pid].exit.value.closeKey.Some?
    && var was, key := v.positions[pid], w.positions[pid].exit.value.closeKey.value;
    && key !in v.orders && key in w.orders && w.orders == v.orders[key := w.orders[key]]
    && w.orders[key].status.Filled? && w.orders[key].filled == was.lots && w.orders[key].price.Some?
    && w.positions == v.positions[pid := was.(
         exit := Some(ExitOf(w.orders, was, trigger, w.orders[key].price.value, Some(key), None)), protection := Local)]
    && Balances(w.positions[pid], w.orders) && AsExecuted(w.orders[key], w.broker.market, key)
  }

  lemma SoldOnceLocal(u: World, v: World, w: World, pid: nat, trigger: Trigger)
    requires Sold(v, w, pid, trigger) && v.orders == u.orders && OnlyProtection(u.positions, v.positions, pid)
    ensures Sold(u, w, pid, trigger)
  {
  }

  /** The triggers the bot may close on: its own, and the stop-loss only while it watches the price itself. */
  predicate Closable(p: Position, trigger: Trigger) {
    match trigger
    case TakeProfit => true
    case MaxAge => true
    case StopLoss => p.protection.Local?
    case External => false
  }

  /** The bot's own exit. Never evens an uneven ledger, never disturbs an even one. */
  method ClosePosition(bot: Bot, pid: nat, trigger: Trigger) returns (r: Outcome)
    requires bot.Valid()
    modifies bot
    ensures bot.Valid() && bot.Later() && bot.even == old(bot.even)
    ensures pid !in old(bot.positions) ==> r == Raised(Absent) && bot.TablesKept()
    ensures pid in old(bot.positions) ==>
              var was := old(bot.positions)[pid];
              && (trigger.StopLoss? && was.protection.Exchange? ==> r == Raised(IllegalTrigger) && bot.TablesKept())
              && (r.Fine? ==> r.pid == pid && Sold(old(bot.View()), bot.View(), pid, trigger))
              && (bot.obliging && was.Open() && was.lots > 0 && Closable(was, trigger) ==>
                    if was.lots <= bot.depth then r.Fine? else r == Raised(ExitFailed))
              && (r.Raised? ==>
                    && ExitFailure(old(bot.orders), bot.orders, was, trigger, r.fault)
                    && OnlyProtection(old(bot.positions), bot.positions, pid)
                    && bot.positions[pid].protection in {was.protection, Local})
              && (|| bot.orders == old(bot.orders)
                  || (AddsExit(old(bot.orders), bot.orders, was) && bot.positions[pid].protection.Local?))
              && (was.Open() ==> forall k :: k in bot.orders && k !in old(bot.orders) ==> PendingSale(bot.View(), k))
              && bot.stopRows == (if bot.positions[pid].protection.Local? && was.protection.Exchange?
                                  then EndedFor(old(bot.stopRows), pid, Withdrawn) else old(bot.stopRows))
    ensures old(Coherent(bot.positions, bot.stopRows)) ==> Coherent(bot.positions, bot.stopRows)
  {
    hide Coherent, Sold, PendingSale;
    if pid !in bot.positions {
      return Raised(Absent);
    }
    if trigger.StopLoss? && bot.positions[pid].protection.Exchange? {
      return Raised(IllegalTrigger);
    }
    if bot.positions[pid].protection.Exchange? {
      r := CancelStopToLocal(bot, pid);
      if r.Raised? {
        return;
      }
    }
    if trigger.External? {
      return Raised(IllegalTrigger);
    }
    ghost var v := bot.View();
    r := SellOut(bot, pid, trigger);
    if r.Fine? {
      SoldOnceLocal(old(bot.View()), v, bot.View(), pid, trigger);
    }
  }

  /** One exit order was added, for the whole position; unless it filled, it is for recovery to end. */
  ghost predicate AddsExit(before: map<Id, Order>, after: map<Id, Order>, p: Position) {
    exists k ::
      k !in before && k in after && after == before[k := after[k]]
      && after[k].ticker == p.ticker && after[k].side.Sell? && after[k].lots == p.lots
  }

  /** Exactly one sell order, for the whole position, then the close. */
  method SellOut(bot: Bot, pid: nat, trigger: Trigger) returns (r: Outcome)
    requires bot.Valid() && pid in bot.positions && !trigger.External?
    modifies bot
    ensures bot.Valid() && bot.Later() && bot.even == old(bot.even) && bot.stopRows == old(bot.stopRows)
    ensures AddsExit(old(bot.orders), bot.orders, old(bot.positions)[pid])
    ensures old(bot.positions)[pid].Open() ==> forall k :: k in bot.orders && k !in old(bot.orders) ==>
              PendingSale(bot.View(), k)
    ensures r.Raised? ==> bot.positions == old(bot.positions)
                          && (r.fault.ExitFailed? || (r.fault.PositionState? && !old(bot.positions)[pid].Open()))
    ensures r.Fine? ==> r.pid == pid && Sold(old(bot.View()), bot.View(), pid, trigger)
    ensures bot.obliging && old(bot.positions)[pid].Open() && old(bot.positions)[pid].lots > 0 ==>
              if old(bot.positions)[pid].lots <= bot.depth then r.Fine? else r == Raised(ExitFailed)
    ensures old(Coherent(bot.positions, bot.stopRows) && bot.positions[pid].protection.Local?) ==>
              Coherent(bot.positions, bot.stopRows)
  {
    var key := bot.NewKey();
    var sold := SubmitExit(bot, key, bot.positions[pid].ticker, bot.positions[pid].lots, trigger);
    if !sold {
      return Raised(ExitFailed);
    }
    label sold:
    r := FinishClose(bot, pid, key, trigger);
    bot.LaterPersists@sold();
    if old(Coherent(bot.positions, bot.stopRows) && bot.positions[pid].protection.Local?) {
      assert Owned(old(bot.positions)[pid], pid, bot.stopRows);
      KeepsCoherent(old(bot.positions), bot.stopRows, bot.positions, bot.stopRows, pid);
    }
  }

  /** A broker's record of a fired stop: which one, how many lots, and at what price. */
  datatype StopFill = StopFill(sid: nat, lots: nat, price: Option<real>, fee: Option<real>)

  /** Closes from an exchange-executed stop, through an order row no broker has seen. Even exactly
      when the fired stop covered the position's lots and no other position was closed on it. */
  method CloseExecutedStop(bot: Bot, pid: nat, fill: StopFill) returns (r: Outcome)
    requires bot.Valid()
    requires pid in bot.positions ==> FiredFor(bot.View(), pid, fill.sid)
    modifies bot
    ensures bot.Valid() && bot.Later() && bot.broker.market.Keys == old(bot.broker.market.Keys)
    ensures fill.price.None? ==> r == Raised(NoFill)
    ensures fill.price.Some? && pid !in old(bot.positions) ==> r == Raised(Absent)
    ensures fill.price.None? || pid !in old(bot.positions) ==> bot.TablesKept() && bot.even == old(bot.even)
    ensures fill.price.Some? && pid in old(bot.positions) ==>
              var was := old(bot.positions)[pid];
              && r == (if was.Open() then Fine(pid) else Raised(PositionState))
              && (r.Fine? ==>
                    && pid in bot.positions && bot.positions[pid].exit.Some?
                    && bot.positions[pid].exit.value.closeKey.Some?
                    && var key := bot.positions[pid].exit.value.closeKey.value;
                    && key !in old(bot.orders) && key !in bot.broker.market
                    && bot.orders == old(bot.orders)[key := Order(
                         was.ticker, Sell, Exit, was.lots, Some(StopLoss), Filled,
                         if fill.lots > 0 then fill.lots else was.lots, fill.price, fill.fee, Some(Theirs(fill.sid)))]
                    && bot.positions == old(bot.positions)[pid := was.(
                         exit := Some(ExitOf(bot.orders, was, StopLoss, fill.price.value, Some(key), None)),
                         protection := Local)]
                    && Balances(bot.positions[pid], bot.orders))
              && bot.even == (old(bot.even) && (was.Open() ==> was.lots == old(bot.broker).stops[fill.sid].lots))
              && bot.stopRows == ExecutedIn(old(bot.stopRows), was.protection)
    ensures old(Coherent(bot.positions, bot.stopRows)) ==> Coherent(bot.positions, bot.stopRows)
  {
    if fill.price.None? {
      return Raised(NoFill);
    }
    if pid !in bot.positions {
      return Raised(Absent);
    }
    DemoteExecuted(bot, pid);
    var key := RecordExecution(bot, bot.positions[pid], fill);
    var ok := bot.CloseRow(pid, StopLoss, fill.price.value, ByStop(key, fill.sid), None);
    r := if ok then Fine(pid) else Raised(PositionState);
  }

  function ExecutedIn(rows: map<Id, StopRow>, p: Protection): map<Id, StopRow> {
    if p.Exchange? && p.key in rows && rows[p.key].status.Standing()
      then rows[p.key := rows[p.key].(status := Executed)]
    else rows
  }

  lemma StandingIsOne(bot: Bot)
    requires bot.Valid()
    ensures OneStanding(bot.stopRows) && 0 !in bot.positions
  {
    assert Inv(bot.trace[|bot.log|]);
  }

  /** The exchange's execution ends the stop row and the position's EXCHANGE protection. */
  method DemoteExecuted(bot: Bot, pid: nat)
    requires bot.Valid() && pid in bot.positions
    modifies bot
    ensures bot.Valid() && bot.Onward() && bot.even == old(bot.even) && bot.orders == old(bot.orders)
    ensures bot.positions == old(bot.positions)[pid := old(bot.positions)[pid].(protection := Local)]
    ensures bot.stopRows == ExecutedIn(old(bot.stopRows), old(bot.positions)[pid].protection)
    ensures old(Coherent(bot.positions, bot.stopRows)) ==> Coherent(bot.positions, bot.stopRows)
  {
    StandingIsOne(bot);
    ghost var positions, rows := bot.positions, bot.stopRows;
    if bot.positions[pid].protection.Exchange? {
      var settled := bot.SettleStop(bot.positions[pid].protection.key, Executed);
      bot.SetStopProtection(pid, Local);
    }
    if Coherent(positions, rows) {
      ExecutionKeepsCoherent(positions, rows, pid, bot.positions[pid]);
    }
  }

  /** Files the execution under a key of the bot's own, settled at once. */
  method RecordExecution(bot: Bot, p: Position, fill: StopFill) returns (key: Id)
    requires bot.Valid()
    modifies bot
    ensures bot.Valid() && bot.Onward() && bot.even == old(bot.even)
    ensures bot.positions == old(bot.positions) && bot.stopRows == old(bot.stopRows)
    ensures key !in old(bot.orders) && key !in bot.broker.market
    ensures bot.orders == old(bot.orders)[key := Order(
              p.ticker, Sell, Exit, p.lots, Some(StopLoss), Filled,
              if fill.lots > 0 then fill.lots else p.lots, fill.price, fill.fee, Some(Theirs(fill.sid)))]
  {
    key := bot.NewKey();
    bot.RecordSubmitting(key, p.ticker, Sell, Exit, p.lots, Some(StopLoss));
    var settled := bot.SettleOrder(key, Filled, if fill.lots > 0 then fill.lots else p.lots, fill.price, fill.fee,
                                   Some(Theirs(fill.sid)));
  }

  // ------------------------------------------------------------------ recovery

  /** How resolving one unfinished order ended. */
  datatype Resolution = Resolved | Unresolved | Broken(fault: Fault)

  /** Books an exit fill discovered by recovery against the open position on its ticker. */
  method ApplyExitFill(bot: Bot, key: Id, pid: nat, trigger: Trigger) returns (r: Resolution)
    requires bot.Valid() && FreshFill(bot.View(), key) && bot.orders[key].side.Sell? && !trigger.External?
    requires bot.orders[key].filled > 0 && bot.orders[key].price.Some?
    requires pid in bot.positions && bot.positions[pid].Open() && bot.positions[pid].ticker == bot.orders[key].ticker
    modifies bot
    ensures bot.Valid() && bot.Later() && bot.orders == old(bot.orders)
    ensures bot.broker.market.Keys == old(bot.broker.market.Keys)
    ensures r == Resolved || r == Broken(BrokerDown)
    ensures bot.obliging ==> r.Resolved?
    ensures r.Broken? ==> bot.TablesKept() && bot.even == old(bot.even) && StandingOn(old(bot.stopRows), pid)
    ensures r.Resolved? ==>
              var was := old(bot.positions)[pid];
              && key in bot.broker.market && bot.broker.market[key].booked
              && bot.positions == old(bot.positions)[pid := was.(
                   exit := Some(ExitOf(bot.orders, was, trigger, bot.orders[key].price.value, Some(key), None)),
                   protection := Local)]
              && Balances(bot.positions[pid], bot.orders)
              && bot.stopRows == EndedFor(old(bot.stopRows), pid, Withdrawn)
              && bot.even == (old(bot.even) && was.lots == old(bot.orders[key]).filled)
    ensures old(Coherent(bot.positions, bot.stopRows)) ==> Coherent(bot.positions, bot.stopRows)
  {
    var cancelled := CancelStopToLocal(bot, pid);
    if cancelled.Raised? {
      return Broken(BrokerDown);
    }
    var closed := FinishClose(bot, pid, key, trigger);
    return Resolved;
  }

  /** The order's fill closed the position, as opposed to opening or shrinking one. */
  predicate ClosedBy(before: map<nat, Position>, after: map<nat, Position>, touched: Option<nat>) {
    touched.Some? && touched.value in before && touched.value in after && !after[touched.value].Open()
  }

  /** The exit sold no more than it asked for, and all of that or of the position. */
  predicate SoldOut(order: Order, was: Position) {
    order.filled <= order.lots && (order.filled == order.lots || order.filled >= was.lots)
  }

  /** What a discovered fill does to the tables, when it does anything. */
  ghost predicate Applied(v: World, w: World, key: Id, pid: nat, stopPct: real) {
    && key in w.orders && w.orders[key].price.Some? && w.orders[key].filled > 0
    && pid in w.positions
    && var order := w.orders[key];
    if order.side.Buy? then
      && BooksEntry(w.positions[pid], key, order, w.positions[pid].lotSize, stopPct)
      && OpenedFrom(v.positions, w.positions, v.stopRows, w.stopRows, pid,
                 OpenedPosition(order, key, w.positions[pid].lotSize, StopPrice(order.price.value, stopPct)))
    else
      && pid in v.positions && v.positions[pid].Open() && v.positions[pid].ticker == order.ticker
      && order.trigger.Some?
      && w.positions == v.positions[pid := v.positions[pid].(
           exit := Some(ExitOf(w.orders, v.positions[pid], order.trigger.value, order.price.value, Some(key), None)),
           protection := Local)]
      && w.stopRows == EndedFor(v.stopRows, pid, Withdrawn) && Balances(w.positions[pid], w.orders)
  }

  /** The one open position of a bare ticker is the bare one. */
  lemma BareIsOpen(bot: Bot, ticker: string, pid: nat)
    requires bot.Valid() && Bare(bot.View(), ticker)
    requires pid in bot.positions && bot.positions[pid].Open() && bot.positions[pid].ticker == ticker
    ensures !StandingOn(bot.stopRows, pid)
  {
    assert Inv(bot.trace[|bot.log|]);
  }

  /** The sale's fill has moved the position that was there for it. */
  predicate SaleBooked(v: World, w: World, key: Id) {
    (key in v.orders && v.orders[key].side.Sell? && v.orders[key].filled > 0 && v.orders[key].price.Some?
     && Bare(v, v.orders[key].ticker)) ==> key in w.broker.market && w.broker.market[key].booked
  }

  /** So a row settled in between leaves no sale behind. */
  lemma BookedIsNotPending(v: World, u: World, w: World, key: Id)
    requires key in v.orders && key in u.orders && SameRequest(v.orders[key], u.orders[key])
    requires u.positions == v.positions && u.stopRows == v.stopRows && SaleBooked(u, w, key)
    requires u.orders[key].price.Some? <==> u.orders[key].filled > 0
    requires key in w.broker.market ==>
               w.broker.market[key].filled == u.orders[key].filled && w.broker.market[key].side == u.orders[key].side
    ensures Bare(v, v.orders[key].ticker) ==> PendingSale(w, key)
  {
    if pid :| pid in v.positions && v.positions[pid].Open() && v.positions[pid].ticker == v.orders[key].ticker
              && !StandingOn(v.stopRows, pid) {
      assert Bare(u, u.orders[key].ticker);
    }
  }

  /** A settled row's fill has something to act on: for a whole entry a ticker with nothing open, for an
      exit a position. */
  predicate Takeable(row: Order, positions: map<nat, Position>) {
    && row.filled > 0 && row.price.Some?
    && if row.side.Buy? then row.status.Filled? && !OneOpenOn(positions, row.ticker)
       else OneOpenOn(positions, row.ticker)
  }

  /** The order's fill is in the row it touched: opened, closed or shrunk on its account. */
  predicate TakenInto(bot: Bot, key: Id, touched: Option<nat>)
    reads bot
  {
    touched.Some? ==>
      && key in bot.broker.market && bot.broker.market[key].booked && touched.value in bot.positions
      && (key in bot.orders && bot.orders[key].side.Buy? ==>
            bot.positions[touched.value].lotSize == bot.lotSizes(bot.orders[key].ticker))
  }

  /** Opens for a discovered entry unless the ticker is already open; closes for a discovered exit. */
  method ApplyDiscoveredFill(bot: Bot, key: Id, stopPct: real) returns (r: Resolution, touched: Option<nat>)
    requires bot.Valid() && FreshFill(bot.View(), key) && Formed(bot.orders[key])
    modifies bot
    ensures bot.Valid() && bot.Later() && bot.orders == old(bot.orders)
    ensures bot.broker.market.Keys == old(bot.broker.market.Keys)
    ensures r == Resolved || r == Broken(BrokerDown)
    ensures touched.None? ==> bot.positions == old(bot.positions) && bot.stopRows == old(bot.stopRows)
    ensures touched.Some? ==> (bot.orders[key].intent.Entry? <==> bot.orders[key].side.Buy?)
    ensures touched.Some? ==> r.Resolved? && Applied(old(bot.View()), bot.View(), key, touched.value, stopPct)
    ensures r.Resolved? && old(bot.orders[key]).status.Filled? ==>
              (touched.Some? <==> Takeable(old(bot.orders[key]), old(bot.positions)))
    ensures TakenInto(bot, key, touched) && (bot.obliging ==> r.Resolved?)
    ensures SaleBooked(old(bot.View()), bot.View(), key)
    ensures bot.even == (old(bot.even) && (ClosedBy(old(bot.positions), bot.positions, touched) ==>
              old(bot.positions)[touched.value].lots == old(bot.orders[key]).filled))
    ensures old(Coherent(bot.positions, bot.stopRows)) ==> Coherent(bot.positions, bot.stopRows)
  {
    var order := bot.orders[key];
    r, touched := Resolved, None;
    if order.filled == 0 || order.price.None? {
      return;
    }
    var present := bot.AlreadyOpen(order.ticker);
    if order.intent.Entry? && order.side.Buy? {
      if present.None? {
        var lot := bot.GetInstrument(order.ticker);
        if lot.None? {
          return Broken(BrokerDown), None;
        }
        var pid := OpenFromFill(bot, key, lot.value, stopPct);
        touched := Some(pid);
      }
    } else if order.intent.Exit? && order.side.Sell? && present.Some? && order.trigger.Some? {
      if Bare(bot.View(), order.ticker) {
        BareIsOpen(bot, order.ticker, present.value);
      }
      r := ApplyExitFill(bot, key, present.value, order.trigger.value);
      touched := if r.Resolved? then present else None;
    }
  }

  /** An exit that was ended early: what it sold comes off the position, or closes it when that is all of it. */
  method ApplyTerminalExit(bot: Bot, key: Id, stopPct: real) returns (r: Resolution, touched: Option<nat>)
    requires bot.Valid() && FreshFill(bot.View(), key) && Formed(bot.orders[key])
    modifies bot
    ensures bot.Valid() && bot.Later() && bot.orders == old(bot.orders)
    ensures bot.broker.market.Keys == old(bot.broker.market.Keys)
    ensures r == Resolved || r == Broken(BrokerDown)
    ensures touched.None? ==> bot.positions == old(bot.positions) && bot.stopRows == old(bot.stopRows)
    ensures touched.Some? ==>
              && r.Resolved? && touched.value in old(bot.positions) && old(bot.positions)[touched.value].Open()
              && var was, order := old(bot.positions)[touched.value], old(bot.orders[key]);
              && order.side.Sell? && was.ticker == order.ticker
              && if order.filled >= was.lots
                 then Applied(old(bot.View()), bot.View(), key, touched.value, stopPct)
                 else bot.positions == old(bot.positions)[touched.value := was.(lots := was.lots - order.filled)]
                      && bot.stopRows == old(bot.stopRows)
    ensures r.Resolved? && !old(bot.orders[key]).status.Filled? ==>
              (touched.Some? <==> Takeable(old(bot.orders[key]), old(bot.positions)))
    ensures TakenInto(bot, key, touched) && (bot.obliging ==> r.Resolved?)
    ensures SaleBooked(old(bot.View()), bot.View(), key)
    ensures bot.even == (old(bot.even) && (ClosedBy(old(bot.positions), bot.positions, touched) ==>
              old(bot.positions)[touched.value].lots == old(bot.orders[key]).filled))
    ensures old(Coherent(bot.positions, bot.stopRows)) ==> Coherent(bot.positions, bot.stopRows)
  {
    var order := bot.orders[key];
    r, touched := Resolved, None;
    if !order.intent.Exit? || !order.side.Sell? || order.filled == 0 || order.price.None? {
      return;
    }
    var present := bot.AlreadyOpen(order.ticker);
    if present.None? {
      return;
    }
    if order.filled >= bot.positions[present.value].lots {
      if order.trigger.Some? {
        if Bare(bot.View(), order.ticker) {
          BareIsOpen(bot, order.ticker, present.value);
        }
        r := ApplyExitFill(bot, key, present.value, order.trigger.value);
        touched := if r.Resolved? then present else None;
      }
    } else {
      bot.ShrinkRow(present.value, key, bot.positions[present.value].lots - order.filled);
      touched := present;
    }
  }

  /** Abandons a partial entry's remainder and opens what was bought. */
  method ResolvePartial(bot: Bot, key: Id, stopPct: real) returns (r: Resolution, touched: Option<nat>)
    requires bot.Valid() && key in bot.broker.market && key in bot.orders && bot.orders[key].intent.Entry?
    modifies bot
    ensures bot.Valid() && bot.Later() && bot.broker.market.Keys == old(bot.broker.market.Keys)
    ensures r.Unresolved? || old(bot.orders[key]).status.Terminal() ==> bot.TablesKept() && touched.None?
    ensures old(bot.orders[key]).status.Terminal() ==> r == Unresolved || r == Broken(OrderState)
    ensures key in bot.orders && bot.orders == old(bot.orders)[key := bot.orders[key]]
    ensures r.Resolved? ==> bot.orders[key].status.Terminal()
    ensures !r.Unresolved? && !old(bot.orders[key]).status.Terminal() ==>
              AsExecuted(bot.orders[key], bot.broker.market, key)
    ensures r.Resolved? ==> (touched.Some? <==> Takeable(bot.orders[key], old(bot.positions)))
    ensures TakenInto(bot, key, touched)
    ensures bot.obliging && !old(bot.orders[key]).status.Terminal() ==> r.Resolved?
    ensures touched.None? ==> bot.positions == old(bot.positions) && bot.stopRows == old(bot.stopRows)
    ensures touched.Some? ==> r.Resolved? && Applied(old(bot.View()), bot.View(), key, touched.value, stopPct)
    ensures bot.orders[key].side.Buy?
    ensures !ClosedBy(old(bot.positions), bot.positions, touched) && PendingSale(bot.View(), key)
    ensures bot.even == old(bot.even)
    ensures old(Coherent(bot.positions, bot.stopRows)) ==> Coherent(bot.positions, bot.stopRows)
  {
    hide Coherent, SaleBooked, AsExecuted, OpenedFrom, BooksEntry, EndedFor, Balances;
    MarketMatches(bot, key);
    var s := ResolvePartialEntry(bot, key);
    r, touched := if s.Pending? then Unresolved else Broken(OrderState), None;
    if s.Settled? {
      r, touched := ApplyBought(bot, key, stopPct);
    }
    MarketMatches(bot, key);
  }

  /** Opens what an entry cut short has bought. */
  method ApplyBought(bot: Bot, key: Id, stopPct: real) returns (r: Resolution, touched: Option<nat>)
    requires bot.Valid() && key in bot.orders && bot.orders[key].intent.Entry?
    requires AsExecuted(bot.orders[key], bot.broker.market, key)
    requires bot.orders[key].status == if bot.orders[key].filled > 0 then Filled else Cancelled
    requires !bot.broker.market[key].booked
    modifies bot
    ensures bot.Valid() && bot.Later() && bot.orders == old(bot.orders)
    ensures bot.broker.market.Keys == old(bot.broker.market.Keys)
    ensures AsExecuted(bot.orders[key], bot.broker.market, key)
    ensures r == Resolved || r == Broken(BrokerDown)
    ensures r.Resolved? ==> (touched.Some? <==> Takeable(bot.orders[key], old(bot.positions)))
    ensures TakenInto(bot, key, touched) && (bot.obliging ==> r.Resolved?)
    ensures touched.None? ==> bot.positions == old(bot.positions) && bot.stopRows == old(bot.stopRows)
    ensures touched.Some? ==> r.Resolved? && Applied(old(bot.View()), bot.View(), key, touched.value, stopPct)
    ensures !ClosedBy(old(bot.positions), bot.positions, touched) && bot.even == old(bot.even)
    ensures old(Coherent(bot.positions, bot.stopRows)) ==> Coherent(bot.positions, bot.stopRows)
  {
    MarketMatches(bot, key);
    r, touched := ApplyDiscoveredFill(bot, key, stopPct);
    bot.LaterPersists();
  }

  /** The three ways a resolved order moves a position: it opens one, shrinks one, where it sold fewer lots
      and did not fill, or closes one. */
  ghost predicate Moved(v: World, w: World, key: Id, pid: nat, stopPct: real) {
    && key in w.orders
    && if w.orders[key].side.Sell? && !w.orders[key].status.Filled? && pid in v.positions
          && w.orders[key].filled < v.positions[pid].lots
       then
         && v.positions[pid].Open() && v.positions[pid].ticker == w.orders[key].ticker && w.stopRows == v.stopRows
         && w.positions == v.positions[pid := v.positions[pid].(lots := v.positions[pid].lots - w.orders[key].filled)]
       else Applied(v, w, key, pid, stopPct)
  }

  /** A settled order's fill: all of it, or what was executed before the order ended. */
  method ApplyFinished(bot: Bot, key: Id, stopPct: real) returns (r: Resolution, touched: Option<nat>)
    requires bot.Valid() && FreshFill(bot.View(), key) && Formed(bot.orders[key])
    requires bot.orders[key].filled <= bot.orders[key].lots
    requires bot.orders[key].status.Filled? ==> bot.orders[key].filled == bot.orders[key].lots
    requires key in bot.broker.market && bot.broker.market[key].state.Done?
    modifies bot
    ensures bot.Valid() && bot.Later() && bot.orders == old(bot.orders)
    ensures bot.broker.market.Keys == old(bot.broker.market.Keys)
    ensures key in bot.broker.market && bot.broker.market[key].filled == old(bot.broker).market[key].filled
            && bot.broker.market[key].side == old(bot.broker).market[key].side
    ensures r == Resolved || r == Broken(BrokerDown)
    ensures touched.None? ==> bot.positions == old(bot.positions) && bot.stopRows == old(bot.stopRows)
    ensures touched.Some? ==> r.Resolved? && Moved(old(bot.View()), bot.View(), key, touched.value, stopPct)
    ensures ClosedBy(old(bot.positions), bot.positions, touched) ==>
              SoldOut(old(bot.orders[key]), old(bot.positions)[touched.value])
    ensures r.Resolved? ==> (touched.Some? <==> Takeable(old(bot.orders[key]), old(bot.positions)))
    ensures TakenInto(bot, key, touched) && (bot.obliging ==> r.Resolved?)
    ensures SaleBooked(old(bot.View()), bot.View(), key)
    ensures bot.even == (old(bot.even) && (ClosedBy(old(bot.positions), bot.positions, touched) ==>
              old(bot.positions)[touched.value].lots == old(bot.orders[key]).filled))
    ensures old(Coherent(bot.positions, bot.stopRows)) ==> Coherent(bot.positions, bot.stopRows)
  {
    if bot.orders[key].status.Filled? {
      r, touched := ApplyDiscoveredFill(bot, key, stopPct);
    } else {
      r, touched := ApplyTerminalExit(bot, key, stopPct);
    }
    bot.LaterPersists();
  }

  method ResolveFinished(bot: Bot, key: Id, status: OrderStatus, filled: nat, price: Option<real>, fee: Option<real>,
                         stopPct: real) returns (r: Resolution, touched: Option<nat>)
    requires bot.Valid() && status.Terminal() && key in bot.broker.market && bot.broker.market[key].state.Done?
    requires bot.broker.market[key].filled == filled && key in bot.orders
    requires status.Filled? ==> filled == bot.broker.market[key].lots
    requires price.Some? <==> filled > 0
    modifies bot
    ensures bot.Valid() && bot.Later() && bot.broker.market.Keys == old(bot.broker.market.Keys)
    ensures !r.Unresolved?
    ensures old(bot.orders[key]).status.Terminal() ==>
              r == Broken(OrderState) && bot.TablesKept() && touched.None? && bot.even == old(bot.even)
    ensures key in bot.orders && bot.orders == old(bot.orders)[key := bot.orders[key]]
    ensures !old(bot.orders[key]).status.Terminal() ==>
              && Carries(bot.orders[key], old(bot.orders[key]), status, filled, price, fee, None)
              && (r == Resolved || r == Broken(BrokerDown)) && (bot.obliging ==> r.Resolved?)
    ensures r.Resolved? ==> (touched.Some? <==> Takeable(bot.orders[key], old(bot.positions)))
    ensures TakenInto(bot, key, touched)
    ensures touched.None? ==> bot.positions == old(bot.positions) && bot.stopRows == old(bot.stopRows)
    ensures touched.Some? ==> r.Resolved? && Moved(old(bot.View()), bot.View(), key, touched.value, stopPct)
    ensures ClosedBy(old(bot.positions), bot.positions, touched) ==>
              SoldOut(bot.orders[key], old(bot.positions)[touched.value])
    ensures Bare(old(bot.View()), old(bot.orders[key]).ticker) && !old(bot.orders[key]).status.Terminal() ==>
              PendingSale(bot.View(), key)
    ensures bot.even == (old(bot.even) && (ClosedBy(old(bot.positions), bot.positions, touched) ==>
              old(bot.positions)[touched.value].lots == bot.orders[key].filled))
    ensures old(Coherent(bot.positions, bot.stopRows)) ==> Coherent(bot.positions, bot.stopRows)
  {
    hide Coherent, SaleBooked, PendingSale, Bare, SoldOut, Takeable, OpenedFrom, BooksEntry;
    var ok := SettleFinished(bot, key, status, filled, price, fee);
    if !ok {
      return Broken(OrderState), None;
    }
    ghost var settled := bot.View();
    MarketMatches(bot, key);
    r, touched := ApplyFinished(bot, key, stopPct);
    BookedIsNotPending(old(bot.View()), settled, bot.View(), key);
  }

  /** An order the exchange calls FILLED has every lot. */
  lemma FinishedWhole(bot: Bot, key: Id)
    requires bot.Valid() && key in bot.broker.market
    ensures StatusOf(bot.broker.market[key]).Filled? ==> bot.broker.market[key].filled == bot.broker.market[key].lots
    ensures StatusOf(bot.broker.market[key]).Terminal() ==> bot.broker.market[key].state.Done?
  {
    assert Inv(bot.trace[|bot.log|]);
  }

  /** Settles an order the exchange has never seen. */
  method NeverPlaced(bot: Bot, key: Id) returns (r: Resolution)
    requires bot.Valid() && key in bot.orders && key !in bot.broker.market
    modifies bot
    ensures bot.Valid() && bot.Later() && bot.even == old(bot.even)
    ensures bot.broker.market.Keys == old(bot.broker.market.Keys)
    ensures bot.positions == old(bot.positions) && bot.stopRows == old(bot.stopRows)
    ensures key in bot.orders && bot.orders == old(bot.orders)[key := bot.orders[key]]
    ensures if old(bot.orders[key]).status.Terminal() then r == Broken(OrderState) && bot.orders == old(bot.orders)
            else r == Resolved && Carries(bot.orders[key], old(bot.orders[key]), Rejected, 0, None, None, None)
    ensures PendingSale(bot.View(), key) && TakenInto(bot, key, None)
    ensures !ClosedBy(old(bot.positions), bot.positions, None)
    ensures r.Resolved? ==> !Takeable(bot.orders[key], old(bot.positions))
    ensures old(Coherent(bot.positions, bot.stopRows)) ==> Coherent(bot.positions, bot.stopRows)
  {
    var ok := bot.SettleOrder(key, Rejected, 0, None, None, None);
    r := if ok then Resolved else Broken(OrderState);
  }

  /** The broker says the order is over: finished, or never seen. */
  predicate Over(reply: StateReply) {
    reply.Unknown? || (reply.State? && reply.status.Terminal())
  }

  /** A live entry of which some lots are bought: the rest is abandoned. */
  predicate CutShort(order: Order, reply: StateReply) {
    reply.State? && !reply.status.Terminal() && order.intent.Entry? && reply.filled > 0
  }

  /** The row carries exactly the outcome the broker told, or that the order was never placed. */
  predicate Told(row: Order, was: Order, reply: StateReply) {
    match reply
    case Unknown => Carries(row, was, Rejected, 0, None, None, None)
    case State(status, filled, price, fee) => Carries(row, was, status, filled, price, fee, None)
    case NoState => false
  }

  /** Resolves one order by what the broker answers about it. `order` is the row as it was listed, perhaps
      before another section settled it: then nothing is written. No market order is ever posted. */
  method ResolveOne(bot: Bot, key: Id, order: Order, reply: StateReply, stopPct: real)
    returns (r: Resolution, touched: Option<nat>)
    requires bot.Valid() && key in bot.orders && SameRequest(order, bot.orders[key]) && Answers(reply, bot.broker, key)
    modifies bot
    ensures bot.Valid() && bot.Later() && bot.broker.market.Keys == old(bot.broker.market.Keys)
    ensures key in bot.orders && bot.orders == old(bot.orders)[key := bot.orders[key]]
    ensures r.Unresolved? || old(bot.orders[key]).status.Terminal() ==>
              bot.TablesKept() && touched.None? && bot.even == old(bot.even)
    ensures old(bot.orders[key]).status.Terminal() ==> r == Unresolved || r == Broken(OrderState)
    ensures r.Unresolved? ==> !Over(reply)
    ensures !Over(reply) && !CutShort(order, reply) ==> r.Unresolved?
    ensures !old(bot.orders[key]).status.Terminal() && Over(reply) ==>
              Told(bot.orders[key], old(bot.orders[key]), reply) && (r == Resolved || r == Broken(BrokerDown))
    ensures !old(bot.orders[key]).status.Terminal() && CutShort(order, reply) && !r.Unresolved? ==>
              AsExecuted(bot.orders[key], bot.broker.market, key)
    ensures r.Resolved? ==> (touched.Some? <==> Takeable(bot.orders[key], old(bot.positions)))
    ensures TakenInto(bot, key, touched)
    ensures bot.obliging && !old(bot.orders[key]).status.Terminal() && (Over(reply) || CutShort(order, reply)) ==>
              r.Resolved?
    ensures r.Resolved? ==> bot.orders[key].status.Terminal()
    ensures touched.None? ==> bot.positions == old(bot.positions) && bot.stopRows == old(bot.stopRows)
    ensures touched.Some? ==> r.Resolved? && Moved(old(bot.View()), bot.View(), key, touched.value, stopPct)
    ensures ClosedBy(old(bot.positions), bot.positions, touched) ==>
              SoldOut(bot.orders[key], old(bot.positions)[touched.value])
    ensures Bare(old(bot.View()), old(bot.orders[key]).ticker) && !old(bot.orders[key]).status.Terminal() ==>
              PendingSale(bot.View(), key)
    ensures bot.even == (old(bot.even) && (ClosedBy(old(bot.positions), bot.positions, touched) ==>
              old(bot.positions)[touched.value].lots == bot.orders[key].filled))
    ensures old(Coherent(bot.positions, bot.stopRows)) ==> Coherent(bot.positions, bot.stopRows)
  {
    hide Coherent, Applied, SoldOut, Bare, Takeable, AsExecuted;
    r, touched := Unresolved, None;
    match reply {
      case Unknown =>
        r := NeverPlaced(bot, key);
      case NoState =>
      case State(status, filled, price, fee) =>
        if status.Terminal() {
          FinishedWhole(bot, key);
          r, touched := ResolveFinished(bot, key, status, filled, price, fee, stopPct);
        } else if order.intent.Entry? && filled > 0 {
          r, touched := ResolvePartial(bot, key, stopPct);
        }
    }
  }

  // ------------------------------------------------------------------ one owner for every stop

  lemma PlacementKeepsCoherent(positions: map<nat, Position>, rows: map<Id, StopRow>, positions': map<nat, Position>,
                               rows': map<Id, StopRow>, pid: nat)
    requires Coherent(positions, rows) && !StandingOn(rows, pid)
    requires OnlyProtection(positions, positions', pid) && positions[pid].Open()
    requires AddsFailed(rows, rows', pid, positions'[pid].protection)
    requires FreshlyProtected(positions'[pid], pid, rows, rows') || (positions' == positions && !StandingOn(rows', pid))
    ensures Coherent(positions', rows')
  {
    assert positions[pid].protection.Local?;
    KeepsCoherent(positions, rows, positions', rows', pid);
  }

  lemma EndingKeepsCoherent(positions: map<nat, Position>, rows: map<Id, StopRow>, pid: nat, p: Position,
                            ending: StopStatus)
    requires Coherent(positions, rows) && pid in positions && p.protection.Local? && !ending.Standing()
    ensures Coherent(positions[pid := p], EndedFor(rows, pid, ending))
  {
    EndedFacts(rows, pid, ending);
    KeepsCoherent(positions, rows, positions[pid := p], EndedFor(rows, pid, ending), pid);
  }

  lemma ExecutionKeepsCoherent(positions: map<nat, Position>, rows: map<Id, StopRow>, pid: nat, p: Position)
    requires Coherent(positions, rows) && OneStanding(rows) && pid in positions && p.protection.Local?
    ensures Coherent(positions[pid := p], ExecutedIn(rows, positions[pid].protection))
  {
    var rows' := ExecutedIn(rows, positions[pid].protection);
    assert Owned(positions[pid], pid, rows);
    assert !StandingOn(rows', pid);
    KeepsCoherent(positions, rows, positions[pid := p], rows', pid);
  }

  /** Cancelling a stop keeps one owner per stop exactly when no row under its key stands, or the
      standing row belongs to the position it was said to. A stop as the broker lists it names no
      position (row 0). */
  lemma OrphaningKeepsCoherentIff(positions: map<nat, Position>, rows: map<Id, StopRow>, key: Id, owner: nat)
    requires Coherent(positions, rows) && OneStanding(rows)
    requires key in rows ==> rows[key].position in positions
    ensures Coherent(Demoted(positions, owner, key), EndedRow(rows, key, Orphaned))
            <==> (key in rows && rows[key].status.Standing() ==> rows[key].position == owner)
  {
    var positions', rows' := Demoted(positions, owner, key), EndedRow(rows, key, Orphaned);
    if key in rows && rows[key].status.Standing() {
      var q := rows[key].position;
      assert Owned(positions[q], q, rows) && positions[q].protection == Exchange(key);
      if owner == q {
        KeepsCoherent(positions, rows, positions', rows', q);
      } else {
        assert owner in positions ==> Owned(positions[owner], owner, rows);
        assert !Owned(positions'[q], q, rows');
      }
    } else {
      assert owner in positions ==> Owned(positions[owner], owner, rows);
    }
  }

  /** Adopting a stop without an identifier leaves a PLACING row nobody owns: coherence survives an
      adoption exactly when the broker named the stop, or the row could not be recorded at all. */
  lemma AdoptionKeepsCoherentIff(positions: map<nat, Position>, rows: map<Id, StopRow>, pid: nat, key: Id,
                                 sid: Option<nat>, lots: nat, price: real)
    requires Coherent(positions, rows) && pid in positions && positions[pid].Open()
    requires key !in rows && !StandingOn(rows, pid)
    ensures var row := StopRow(sid, pid, positions[pid].ticker, lots, price, if sid.Some? then Active else Placing);
            var adopted := positions[pid].(
                            protection := if sid.Some? then Exchange(key) else positions[pid].protection);
            Coherent(positions[pid := adopted], rows[key := row]) <==> sid.Some?
  {
    var row := StopRow(sid, pid, positions[pid].ticker, lots, price, if sid.Some? then Active else Placing);
    var adopted := positions[pid].(protection := if sid.Some? then Exchange(key) else positions[pid].protection);
    assert positions[pid].protection.Local?;
    if sid.Some? {
      KeepsCoherent(positions, rows, positions[pid := adopted], rows[key := row], pid);
    } else {
      assert rows[key := row][key].position == pid;
      assert pid in positions[pid := adopted] && !Owned(positions[pid := adopted][pid], pid, rows[key := row]);
    }
  }
}
