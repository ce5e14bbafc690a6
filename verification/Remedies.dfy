/** The remedies startup applies to what reconciliation found about stops.

    For a broker that accepts every call (`obliging`), the state the remedies lead to is worked out
    finding by finding: `Reached` says what the processed ones have changed so far.
 */
module Remedies {
  import opened Models
  import opened Protocol
  import opened Bots
  import opened Executor
  import opened Classification
  import opened Reconciliation

  // ------------------------------------------------------------------ coherent rows

  /** A broker stop and the row under its key are on the same ticker. */
  ghost predicate TickersAgree(rows: map<Id, StopRow>, stops: map<nat, BrokerStop>) {
    forall s :: s in stops && stops[s].key in rows ==> rows[stops[s].key].ticker == stops[s].ticker
  }

  ghost predicate Sane(w: World) {
    Coherent(w.positions, w.stopRows) && TickersAgree(w.stopRows, w.broker.stops)
  }

  /** A stop whose row stands belongs to the open position on its ticker, which names it. */
  lemma StandingRowNamed(w: World, sid: nat)
    requires Sane(w) && Linked(w) && OneStanding(w.stopRows) && sid in w.broker.stops
    requires w.broker.stops[sid].key in w.stopRows && w.stopRows[w.broker.stops[sid].key].status.Standing()
    ensures var pid := w.stopRows[w.broker.stops[sid].key].position;
            && pid in w.positions && w.positions[pid].Open() && w.positions[pid].ticker == w.broker.stops[sid].ticker
            && w.positions[pid].protection == Exchange(w.broker.stops[sid].key)
  {
    var k := w.broker.stops[sid].key;
    var pid := w.stopRows[k].position;
    assert Owned(w.positions[pid], pid, w.stopRows);
    assert StandingOn(w.stopRows, pid);
  }

  predicate RowStands(rows: map<Id, StopRow>, key: Id) {
    key in rows && rows[key].status.Standing()
  }

  // ------------------------------------------------------------------ effects

  predicate SameOrGone(s: BrokerStop, later: BrokerStop) {
    later == s || later == s.(state := Gone)
  }

  /** Exactly the listed stops were taken down; no row changed. */
  ghost predicate TookDown(w: World, x: World, sids: seq<nat>) {
    && x.positions == w.positions && x.stopRows == w.stopRows && x.broker.stops.Keys == w.broker.stops.Keys
    && forall s :: s in w.broker.stops ==>
         && SameOrGone(w.broker.stops[s], x.broker.stops[s])
         && (if s in sids then !x.broker.stops[s].state.Armed? else x.broker.stops[s] == w.broker.stops[s])
  }

  /** `n` is a stop for the position's own lots and price, and the one the position names. */
  ghost predicate Covers(w: World, pid: nat, n: nat, increments: map<string, Tick>) {
    && pid in w.positions && n in w.broker.stops
    && var p, s := w.positions[pid], w.broker.stops[n];
    && p.protection == Exchange(s.key) && s.ticker == p.ticker && s.lots == p.lots && s.state.Armed?
    && (p.ticker in increments ==> !IsMispriced(s.price, p.stop, increments[p.ticker]))
  }

  /** The position's own stop, if it named one, was taken down and a new stop stands for it. */
  ghost predicate Renewal(w: World, x: World, pid: nat, n: nat, increments: map<string, Tick>) {
    && OnlyProtection(w.positions, x.positions, pid) && Covers(x, pid, n, increments)
    && n !in w.broker.stops && x.broker.stops.Keys == w.broker.stops.Keys + {n}
    && (forall s :: s in w.broker.stops ==>
          && SameOrGone(w.broker.stops[s], x.broker.stops[s])
          && (x.broker.stops[s] != w.broker.stops[s] ==>
                w.positions[pid].protection == Exchange(w.broker.stops[s].key)))
    && (forall k :: k in x.stopRows && k !in w.stopRows ==> k.Ours?)
  }

  /** A live stop was bound to the position; the broker was not called. */
  ghost predicate Bound(w: World, x: World, pid: nat, sid: nat) {
    && pid in w.positions && sid in w.broker.stops && w.broker.stops[sid].key !in w.stopRows
    && var s := w.broker.stops[sid];
    && x.positions == w.positions[pid := w.positions[pid].(protection := Exchange(s.key))]
    && x.stopRows == w.stopRows[s.key := StopRow(Some(sid), pid, w.positions[pid].ticker, s.lots, s.price, Active)]
    && x.broker.stops == w.broker.stops
  }

  lemma TakenDownNamed(w: World, after: Broker, pid: nat)
    requires Sane(w) && Linked(w) && OneStanding(w.stopRows) && RowsNamed(w.stopRows, w.broker.stops)
    requires pid in w.positions && TakenDown(w.stopRows, pid, w.broker, after)
    ensures after.stops.Keys == w.broker.stops.Keys
    ensures forall s :: s in w.broker.stops ==>
              && SameOrGone(w.broker.stops[s], after.stops[s])
              && (after.stops[s] != w.broker.stops[s] ==>
                    w.positions[pid].protection == Exchange(w.broker.stops[s].key))
  {
    if after != w.broker {
      var k :| k in w.stopRows && w.stopRows[k].position == pid && w.stopRows[k].status.Standing()
        && w.stopRows[k].sid.Some?;
      assert after == Disarmed(w.broker, w.stopRows[k].sid.value);
      StandingRowNamed(w, w.stopRows[k].sid.value);
    }
  }

  lemma RenewedIsRenewal(bot: Bot, w: World, pid: nat) returns (n: nat)
    requires Sane(w) && Linked(w) && OneStanding(w.stopRows) && RowsNamed(w.stopRows, w.broker.stops)
    requires pid in w.positions && OnlyProtection(w.positions, bot.positions, pid)
    requires Renewed(bot, pid, w.stopRows, w.broker)
    requires FreshlyProtected(bot.positions[pid], pid, w.stopRows, bot.stopRows)
    requires AddsFailed(EndedFor(w.stopRows, pid, Withdrawn), bot.stopRows, pid, bot.positions[pid].protection)
    ensures Renewal(w, bot.View(), pid, n, bot.increments)
  {
    var between: Broker :| TakenDown(w.stopRows, pid, w.broker, between) && Issued(bot, pid, between.stops);
    TakenDownNamed(w, between, pid);
    n := bot.stopRows[bot.positions[pid].protection.key].sid.value;
  }

  lemma RenewalTickersAgree(w: World, x: World, pid: nat, n: nat, increments: map<string, Tick>)
    requires TickersAgree(w.stopRows, w.broker.stops) && StopsWritten(w.stopRows, w.broker.stops)
    requires Renewal(w, x, pid, n, increments)
    requires FreshlyProtected(x.positions[pid], pid, w.stopRows, x.stopRows)
    requires AddsFailed(EndedFor(w.stopRows, pid, Withdrawn), x.stopRows, pid, x.positions[pid].protection)
    ensures TickersAgree(x.stopRows, x.broker.stops)
  {
  }

  /** Cancel-then-place, for a position with an obliging broker. */
  method Replace(bot: Bot, pid: nat) returns (r: Outcome)
    requires bot.Valid() && pid in bot.positions
    modifies bot
    ensures bot.LotsStill()
    ensures bot.Valid() && bot.Later() && bot.orders == old(bot.orders)
    ensures OnlyProtection(old(bot.positions), bot.positions, pid)
    ensures bot.obliging && old(Sane(bot.View()) && bot.positions[pid].Open()) ==>
              r.Fine? && Sane(bot.View()) && exists n :: Renewal(old(bot.View()), bot.View(), pid, n, bot.increments)
  {
    ghost var w := bot.View();
    assert Inv(bot.trace[|bot.log|]);
    r := ReplaceStop(bot, pid);
    if bot.obliging && Sane(w) && w.positions[pid].Open() {
      assert Inv(bot.trace[|bot.log|]);
      ghost var n := RenewedIsRenewal(bot, w, pid);
      RenewalTickersAgree(w, bot.View(), pid, n, bot.increments);
    }
  }

  /** Only protection columns differ. */
  ghost predicate ProtectionsOnly(before: map<nat, Position>, after: map<nat, Position>) {
    && after.Keys == before.Keys
    && forall pid :: pid in before ==> after[pid] == before[pid].(protection := after[pid].protection)
  }

  /** The first listed stop an adjustment names, by the broker's identifier or by key. */
  function FindStop(stops: seq<LiveStop>, sid: nat, key: Id): (found: Option<LiveStop>)
    ensures found.Some? ==> found.value in stops && (found.value.sid == sid || found.value.key == key)
    ensures found.None? ==> forall s :: s in stops ==> s.sid != sid
  {
    if stops == [] then None
    else if stops[0].sid == sid || stops[0].key == key then Some(stops[0])
    else FindStop(stops[1..], sid, key)
  }

  /** Where each identifier and key is listed once, that stop is the one found. */
  lemma FindsListed(stops: seq<LiveStop>, held: map<nat, BrokerStop>, sid: nat, key: Id)
    requires ListsStops(stops, held) && KeysOnce(held) && LiveAt(held, sid)
    requires (key == held[sid].key || key == Theirs(sid))
    requires forall s :: s in held && held[s].key.Theirs? ==> held[s].key == Theirs(s)
    ensures FindStop(stops, sid, key) == Some(Listed(sid, held[sid]))
  {
    assert Listed(sid, held[sid]) in stops;
  }

  lemma TookDownSane(w: World, x: World, sids: seq<nat>)
    requires Sane(w) && TookDown(w, x, sids)
    ensures Sane(x)
  {
  }

  method CancelListed(bot: Bot, stop: LiveStop) returns (fault: Option<Fault>)
    requires bot.Valid()
    modifies bot
    ensures bot.LotsStill()
    ensures bot.Valid() && bot.Later() && bot.orders == old(bot.orders) && bot.positions == old(bot.positions)
    ensures bot.obliging && !RowStands(old(bot.stopRows), stop.key) ==>
              fault.None? && TookDown(old(bot.View()), bot.View(), [stop.sid])
  {
    var r := CancelOrphanedStop(bot, stop.key, Some(stop.sid), 0);
    fault := if r.Raised? then Some(r.fault) else None;
  }

  /** Cancels every identifier but the kept one; one that is no longer listed is passed over. */
  method ResolveDuplicate(bot: Bot, keep: nat, cancel: seq<nat>, stops: seq<LiveStop>) returns (fault: Option<Fault>)
    requires bot.Valid()
    modifies bot
    ensures bot.LotsStill()
    ensures bot.Valid() && bot.Later() && bot.orders == old(bot.orders) && bot.positions == old(bot.positions)
    ensures bot.obliging && keep !in cancel && Cancellable(cancel, stops, old(bot.stopRows)) ==>
              fault.None? && TookDown(old(bot.View()), bot.View(), cancel)
  {
    for i := 0 to |cancel|
      invariant bot.LotsStill()
      invariant bot.Valid() && bot.Later() && bot.orders == old(bot.orders) && bot.positions == old(bot.positions)
      invariant bot.obliging && keep !in cancel && Cancellable(cancel, stops, old(bot.stopRows)) ==>
                  TookDown(old(bot.View()), bot.View(), cancel[..i])
    {
      var stop := FindStop(stops, cancel[i], Theirs(cancel[i]));
      if cancel[i] != keep && stop.Some? {
        ghost var w := bot.View();
        fault := CancelListed(bot, stop.value);
        if bot.obliging && keep !in cancel && Cancellable(cancel, stops, old(bot.stopRows)) {
          TookDownMore(old(bot.View()), w, bot.View(), cancel, i);
        }
        if fault.Some? {
          return;
        }
      }
    }
    fault := None;
    assert cancel[..|cancel|] == cancel;
  }

  ghost predicate Cancellable(cancel: seq<nat>, stops: seq<LiveStop>, rows: map<Id, StopRow>) {
    forall i :: 0 <= i < |cancel| ==>
      var stop := FindStop(stops, cancel[i], Theirs(cancel[i]));
      stop.Some? && stop.value.sid == cancel[i] && !RowStands(rows, stop.value.key)
  }

  lemma TookDownMore(v: World, w: World, x: World, cancel: seq<nat>, i: nat)
    requires i < |cancel| && TookDown(v, w, cancel[..i]) && TookDown(w, x, [cancel[i]])
    ensures TookDown(v, x, cancel[..i + 1])
  {
    assert cancel[..i + 1] == cancel[..i] + [cancel[i]];
  }

  /** Binding needs a listed stop whose key has no row, and a position whose stop row does not stand. */
  method Adopt(bot: Bot, pid: nat, stop: LiveStop) returns (fault: Option<Fault>)
    requires bot.Valid() && pid in bot.positions
    requires stop.sid in bot.broker.stops && bot.broker.stops[stop.sid].key == stop.key
    modifies bot
    ensures bot.LotsStill()
    ensures bot.Valid() && bot.Later() && bot.orders == old(bot.orders)
    ensures OnlyProtection(old(bot.positions), bot.positions, pid)
    ensures bot.obliging && old(Adoptable(bot.View(), pid, stop)) ==>
              fault.None? && Bound(old(bot.View()), bot.View(), pid, stop.sid)
  {
    var r := AdoptExistingStop(bot, pid, stop.key, Some(stop.sid), stop.lots, stop.price);
    fault := if r.Raised? then Some(r.fault) else None;
  }

  ghost predicate Adoptable(w: World, pid: nat, stop: LiveStop) {
    && pid in w.positions && w.positions[pid].Open() && !StandingOn(w.stopRows, pid) && stop.key !in w.stopRows
    && stop.sid in w.broker.stops && stop == Listed(stop.sid, w.broker.stops[stop.sid])
    && stop.ticker == w.positions[pid].ticker
  }

  lemma BoundSane(w: World, x: World, pid: nat, sid: nat)
    requires Sane(w) && Bound(w, x, pid, sid) && w.positions[pid].Open() && !StandingOn(w.stopRows, pid)
    requires KeysOnce(w.broker.stops) && w.broker.stops[sid].ticker == w.positions[pid].ticker
    ensures Sane(x)
  {
    assert Owned(w.positions[pid], pid, w.stopRows);
    KeepsCoherent(w.positions, w.stopRows, x.positions, x.stopRows, pid);
  }

  // ------------------------------------------------------------------ one remedy

  /** What was listed is known to the broker ever after. */
  ghost predicate KnownStops(stops: seq<LiveStop>, held: map<nat, BrokerStop>) {
    forall s :: s in stops ==> s.sid in held && held[s.sid].key == s.key
  }

  /** The finding can be carried out as it stands. */
  ghost predicate Ready(w: World, f: Adjustment, held: set<nat>, stops: seq<LiveStop>) {
    match f
    case StopMispriced(_, pid) => pid in held && pid in w.positions && w.positions[pid].Open() && Sane(w)
    case StopMissized(_, pid) => pid in held && pid in w.positions && w.positions[pid].Open() && Sane(w)
    case StopAdoptable(_, pid, sid) =>
      var stop := FindStop(stops, sid, Theirs(sid));
      pid in held && stop.Some? && stop.value.sid == sid && Adoptable(w, pid, stop.value)
    case StopOrphan(_, sid, key) =>
      var stop := FindStop(stops, sid, key);
      stop.Some? && stop.value.sid == sid && !RowStands(w.stopRows, stop.value.key)
    case StopDuplicate(_, _, keep, cancel) => keep !in cancel && Cancellable(cancel, stops, w.stopRows)
    case StopMissing(_, _) => false
    case _ => true
  }

  /** What carrying it out does. */
  ghost predicate Remedied(w: World, x: World, f: Adjustment, increments: map<string, Tick>) {
    match f
    case StopMispriced(_, pid) => exists n :: Renewal(w, x, pid, n, increments)
    case StopMissized(_, pid) => exists n :: Renewal(w, x, pid, n, increments)
    case StopAdoptable(_, pid, sid) => Bound(w, x, pid, sid)
    case StopOrphan(_, sid, _) => TookDown(w, x, [sid])
    case StopDuplicate(_, _, _, cancel) => TookDown(w, x, cancel)
    case _ => TookDown(w, x, [])
  }

  method Remedy(bot: Bot, f: Adjustment, held: set<nat>, stops: seq<LiveStop>) returns (fault: Option<Fault>)
    requires bot.Valid() && held <= bot.positions.Keys && KnownStops(stops, bot.broker.stops)
    modifies bot
    ensures bot.LotsStill()
    ensures bot.Valid() && bot.Later() && bot.orders == old(bot.orders)
    ensures ProtectionsOnly(old(bot.positions), bot.positions)
    ensures bot.obliging && old(Ready(bot.View(), f, held, stops)) ==>
              fault.None? && Remedied(old(bot.View()), bot.View(), f, bot.increments)
    ensures bot.obliging && old(Ready(bot.View(), f, held, stops)) && f.Replaces() ==> Sane(bot.View())
  {
    hide Renewal, Bound, Adoptable, Coherent;
    fault := None;
    if f.Replaces() {
      if f.pid in held {
        fault := Reprotect(bot, f.pid);
      }
      return;
    }
    match f {
      case StopMissing(_, pid) =>
        if pid in held {
          fault := Protect(bot, pid);
        }
      case StopAdoptable(_, pid, sid) =>
        var stop := FindStop(stops, sid, Theirs(sid));
        if pid in held && stop.Some? {
          fault := Adopt(bot, pid, stop.value);
        }
      case StopOrphan(_, sid, key) =>
        var stop := FindStop(stops, sid, key);
        if stop.Some? {
          fault := CancelListed(bot, stop.value);
        }
      case StopDuplicate(_, _, keep, cancel) =>
        fault := ResolveDuplicate(bot, keep, cancel, stops);
      case _ =>
    }
  }

  /** `place_protective_stop`. */
  method Protect(bot: Bot, pid: nat) returns (fault: Option<Fault>)
    requires bot.Valid() && pid in bot.positions
    modifies bot
    ensures bot.LotsStill()
    ensures bot.Valid() && bot.Later() && bot.orders == old(bot.orders)
    ensures OnlyProtection(old(bot.positions), bot.positions, pid)
  {
    var lot := bot.GetInstrument(bot.positions[pid].ticker);
    if lot.None? {
      return Some(BrokerDown);
    }
    var r := PlaceStop(bot, pid);
    fault := if r.Raised? then Some(r.fault) else None;
  }

  method Reprotect(bot: Bot, pid: nat) returns (fault: Option<Fault>)
    requires bot.Valid() && pid in bot.positions
    modifies bot
    ensures bot.LotsStill()
    ensures bot.Valid() && bot.Later() && bot.orders == old(bot.orders)
    ensures OnlyProtection(old(bot.positions), bot.positions, pid)
    ensures bot.obliging && old(Sane(bot.View()) && bot.positions[pid].Open()) ==>
              fault.None? && Sane(bot.View())
              && exists n :: Renewal(old(bot.View()), bot.View(), pid, n, bot.increments)
  {
    var lot := bot.GetInstrument(bot.positions[pid].ticker);
    if lot.None? {
      return Some(BrokerDown);
    }
    var r := Replace(bot, pid);
    fault := if r.Raised? then Some(r.fault) else None;
  }
}
