/** Repair converges: what the remedies of one reconciliation leave for the next to find. */
module Repair {
  import opened Models
  import opened Protocol
  import opened Bots
  import opened Executor
  import opened Classification
  import opened Reconciliation
  import opened Remedies

  // ------------------------------------------------------------------ a plan of remedies

  ghost predicate CancelIn(fs: seq<Adjustment>, sid: nat) {
    exists f :: f in fs && ((f.StopDuplicate? && sid in f.cancel) || (f.StopOrphan? && f.sid == sid))
  }

  ghost predicate ReplacedIn(fs: seq<Adjustment>, pid: nat) {
    exists f :: f in fs && f.Replaces() && f.pid == pid
  }

  ghost predicate JudgedIn(fs: seq<Adjustment>, pid: nat) {
    exists f :: f in fs && f.Judgement() && f.pid == pid
  }

  ghost predicate OpenAt(v: World, pid: nat, ticker: string) {
    pid in v.positions && v.positions[pid].Open() && v.positions[pid].ticker == ticker
  }

  /** A duplicate to cancel: a live stop of the position's ticker that the position does not name. */
  ghost predicate Spare(v: World, pid: nat, ticker: string, sid: nat) {
    && LiveAt(v.broker.stops, sid) && v.broker.stops[sid].ticker == ticker && OpenAt(v, pid, ticker)
    && v.positions[pid].protection != Exchange(v.broker.stops[sid].key)
  }

  /** A live stop to bind to a LOCAL position: no local row carries its key. */
  ghost predicate Bindable(v: World, pid: nat, ticker: string, sid: nat) {
    && LiveAt(v.broker.stops, sid) && v.broker.stops[sid].ticker == ticker && OpenAt(v, pid, ticker)
    && v.positions[pid].protection.Local? && v.broker.stops[sid].key !in v.stopRows
  }

  ghost predicate Carriable(v: World, fs: seq<Adjustment>, f: Adjustment) {
    match f
    case StopDuplicate(t, pid, keep, cancel) => keep !in cancel && forall sid :: sid in cancel ==> Spare(v, pid, t, sid)
    case StopMispriced(t, pid) => OpenAt(v, pid, t)
    case StopMissized(t, pid) => OpenAt(v, pid, t)
    case StopAdoptable(t, pid, sid) => Bindable(v, pid, t, sid) && !CancelIn(fs, sid)
    case StopMissing(_, _) => false
    case StopOrphan(_, sid, key) =>
      && LiveAt(v.broker.stops, sid) && key == v.broker.stops[sid].key
      && !OneOpenOn(v.positions, v.broker.stops[sid].ticker)
    case _ => true
  }

  /** Every finding can be carried out, whatever the order of the others. */
  ghost predicate Plan(v: World, fs: seq<Adjustment>) {
    JudgedLast(fs) && forall i :: 0 <= i < |fs| ==> Carriable(v, fs, fs[i])
  }

  // ------------------------------------------------------------------ how far it got

  /** `n` was posted for the position after `v`. */
  ghost predicate PostedFor(v: World, w: World, pid: nat, n: nat, increments: map<string, Tick>) {
    n !in v.broker.stops && Covers(w, pid, n, increments)
  }

  ghost predicate PositionsReached(fs: seq<Adjustment>, v: World, w: World, increments: map<string, Tick>) {
    && ProtectionsOnly(v.positions, w.positions)
    && (forall pid :: pid in v.positions && !JudgedIn(fs, pid) ==> w.positions[pid] == v.positions[pid])
    && (forall pid :: pid in v.positions && ReplacedIn(fs, pid) ==> exists n :: PostedFor(v, w, pid, n, increments))
    && (forall f :: f in fs && f.StopAdoptable? ==>
          f.pid in v.positions && f.sid in v.broker.stops
          && w.positions[f.pid].protection == Exchange(v.broker.stops[f.sid].key))
  }

  ghost predicate StopsReached(fs: seq<Adjustment>, v: World, w: World, increments: map<string, Tick>) {
    && v.broker.stops.Keys <= w.broker.stops.Keys
    && (forall sid :: sid in v.broker.stops ==>
          && SameOrGone(v.broker.stops[sid], w.broker.stops[sid])
          && (CancelIn(fs, sid) ==> !w.broker.stops[sid].state.Armed?)
          && (w.broker.stops[sid] != v.broker.stops[sid] ==>
                CancelIn(fs, sid) || exists pid :: ReplacedIn(fs, pid) && OpenAt(v, pid, v.broker.stops[sid].ticker)))
    && (forall n :: n in w.broker.stops && n !in v.broker.stops ==>
          exists pid :: ReplacedIn(fs, pid) && OpenAt(v, pid, w.broker.stops[n].ticker)
                        && PostedFor(v, w, pid, n, increments))
  }

  ghost predicate RowsReached(fs: seq<Adjustment>, v: World, w: World) {
    forall k :: k in w.stopRows && k !in v.stopRows ==>
      k.Ours? || exists f :: f in fs && f.StopAdoptable? && f.sid in v.broker.stops && v.broker.stops[f.sid].key == k
  }

  ghost predicate Reached(fs: seq<Adjustment>, v: World, w: World, increments: map<string, Tick>) {
    PositionsReached(fs, v, w, increments) && StopsReached(fs, v, w, increments) && RowsReached(fs, v, w)
  }

  lemma NothingReached(v: World, increments: map<string, Tick>)
    ensures Reached([], v, v, increments)
  {
  }

  // ------------------------------------------------------------------ one more remedy

  lemma InMore(fs: seq<Adjustment>, f: Adjustment)
    ensures forall sid :: CancelIn(fs + [f], sid) <==>
                            CancelIn(fs, sid) || (f.StopDuplicate? && sid in f.cancel)
                              || (f.StopOrphan? && f.sid == sid)
    ensures forall pid :: ReplacedIn(fs + [f], pid) <==> ReplacedIn(fs, pid) || (f.Replaces() && f.pid == pid)
    ensures forall pid :: JudgedIn(fs + [f], pid) <==> JudgedIn(fs, pid) || (f.Judgement() && f.pid == pid)
  {
    assert f in fs + [f];
    forall g | g in fs ensures g in fs + [f] {}
  }

  /** Taking stops down, for a finding that is no judgement. */
  lemma CancelReached(fs: seq<Adjustment>, f: Adjustment, v: World, w: World, x: World, sids: seq<nat>,
                      increments: map<string, Tick>)
    requires Reached(fs, v, w, increments) && TookDown(w, x, sids) && !f.Judgement()
    requires forall sid :: sid in sids <==> (f.StopDuplicate? && sid in f.cancel) || (f.StopOrphan? && f.sid == sid)
    requires forall sid :: sid in sids ==> sid in v.broker.stops
    ensures Reached(fs + [f], v, x, increments)
  {
    InMore(fs, f);
    PostedStays(v, w, x, sids, increments);
  }

  lemma PostedStays(v: World, w: World, x: World, sids: seq<nat>, increments: map<string, Tick>)
    requires TookDown(w, x, sids) && forall sid :: sid in sids ==> sid in v.broker.stops
    ensures forall pid, n :: PostedFor(v, w, pid, n, increments) ==> PostedFor(v, x, pid, n, increments)
  {
  }

  /** Every stop a position names belongs to it alone. */
  lemma NamedOnce(w: World, sid: nat, p: nat, q: nat)
    requires Sane(w) && Linked(w) && sid in w.broker.stops && p in w.positions && q in w.positions
    requires w.positions[p].protection == Exchange(w.broker.stops[sid].key)
    requires w.positions[q].protection == Exchange(w.broker.stops[sid].key)
    ensures p == q && w.positions[p].ticker == w.broker.stops[sid].ticker
  {
    assert Owned(w.positions[p], p, w.stopRows) && Owned(w.positions[q], q, w.stopRows);
  }

  lemma PostedStaysRenewed(v: World, w: World, x: World, pid: nat, n: nat, increments: map<string, Tick>, q: nat,
                           m: nat)
    requires Sane(w) && Linked(w) && Renewal(w, x, pid, n, increments) && q != pid
    requires PostedFor(v, w, q, m, increments)
    ensures PostedFor(v, x, q, m, increments)
  {
    if w.positions[pid].protection == w.positions[q].protection {
      NamedOnce(w, m, pid, q);
    }
  }

  /** Replacing the stop of a position not judged before. */
  lemma RenewReached(fs: seq<Adjustment>, f: Adjustment, v: World, w: World, x: World, n: nat,
                     increments: map<string, Tick>)
    requires Reached(fs, v, w, increments) && f.Replaces() && Renewal(w, x, f.pid, n, increments)
    requires Sane(w) && Linked(w) && OpenAt(v, f.pid, f.ticker) && !JudgedIn(fs, f.pid)
    ensures Reached(fs + [f], v, x, increments)
  {
    InMore(fs, f);
    assert PostedFor(v, x, f.pid, n, increments);
    forall q, m | q != f.pid && PostedFor(v, w, q, m, increments) ensures PostedFor(v, x, q, m, increments) {
      PostedStaysRenewed(v, w, x, f.pid, n, increments, q, m);
    }
    RenewedPositions(fs, f, v, w, x, n, increments);
    RenewedStops(fs, f, v, w, x, n, increments);
  }

  lemma RenewedPositions(fs: seq<Adjustment>, f: Adjustment, v: World, w: World, x: World, n: nat,
                         increments: map<string, Tick>)
    requires PositionsReached(fs, v, w, increments) && f.Replaces() && Renewal(w, x, f.pid, n, increments)
    requires !JudgedIn(fs, f.pid) && PostedFor(v, x, f.pid, n, increments)
    requires forall q, m :: q != f.pid && PostedFor(v, w, q, m, increments) ==> PostedFor(v, x, q, m, increments)
    ensures PositionsReached(fs + [f], v, x, increments)
  {
    InMore(fs, f);
    forall g | g in fs + [f] && g.StopAdoptable?
      ensures g in fs && g.pid != f.pid
    {
    }
    forall q | q in v.positions && ReplacedIn(fs + [f], q) ensures exists m :: PostedFor(v, x, q, m, increments) {
      if q != f.pid {
        var m :| PostedFor(v, w, q, m, increments);
        assert PostedFor(v, x, q, m, increments);
      }
    }
  }

  lemma RenewedStops(fs: seq<Adjustment>, f: Adjustment, v: World, w: World, x: World, n: nat,
                     increments: map<string, Tick>)
    requires StopsReached(fs, v, w, increments) && f.Replaces() && Renewal(w, x, f.pid, n, increments)
    requires Sane(w) && Linked(w) && OpenAt(v, f.pid, f.ticker) && !JudgedIn(fs, f.pid)
    requires ProtectionsOnly(v.positions, w.positions) && PostedFor(v, x, f.pid, n, increments)
    requires forall q, m :: q != f.pid && PostedFor(v, w, q, m, increments) ==> PostedFor(v, x, q, m, increments)
    ensures StopsReached(fs + [f], v, x, increments)
  {
    InMore(fs, f);
    forall s | s in w.broker.stops && x.broker.stops[s] != w.broker.stops[s]
      ensures w.broker.stops[s].ticker == f.ticker
    {
      NamedOnce(w, s, f.pid, f.pid);
    }
    forall m | m in x.broker.stops && m !in v.broker.stops
      ensures exists q :: ReplacedIn(fs + [f], q) && OpenAt(v, q, x.broker.stops[m].ticker)
                          && PostedFor(v, x, q, m, increments)
    {
      if m == n {
        assert ReplacedIn(fs + [f], f.pid) && OpenAt(v, f.pid, x.broker.stops[n].ticker);
      } else {
        var q :| ReplacedIn(fs, q) && OpenAt(v, q, w.broker.stops[m].ticker) && PostedFor(v, w, q, m, increments);
        assert q != f.pid;
        assert ReplacedIn(fs + [f], q) && OpenAt(v, q, x.broker.stops[m].ticker);
      }
    }
  }

  /** Binding a stop to a position not judged before. */
  lemma BindReached(fs: seq<Adjustment>, f: Adjustment, v: World, w: World, x: World, increments: map<string, Tick>)
    requires Reached(fs, v, w, increments) && f.StopAdoptable? && Bound(w, x, f.pid, f.sid)
    requires f.sid in v.broker.stops && !JudgedIn(fs, f.pid)
    ensures Reached(fs + [f], v, x, increments)
  {
    forall q, m | q != f.pid && PostedFor(v, w, q, m, increments) ensures PostedFor(v, x, q, m, increments) {}
    assert v.broker.stops[f.sid].key == w.broker.stops[f.sid].key;
    BoundPositions(fs, f, v, w, x, increments);
    BoundStops(fs, f, v, w, x, increments);
    BoundRows(fs, f, v, w, x);
  }

  lemma BoundRows(fs: seq<Adjustment>, f: Adjustment, v: World, w: World, x: World)
    requires RowsReached(fs, v, w) && f.StopAdoptable? && Bound(w, x, f.pid, f.sid)
    requires f.sid in v.broker.stops && v.broker.stops[f.sid].key == w.broker.stops[f.sid].key
    ensures RowsReached(fs + [f], v, x)
  {
    assert f in fs + [f];
    forall k | k in x.stopRows && k !in v.stopRows && !k.Ours?
      ensures exists g :: g in fs + [f] && g.StopAdoptable? && g.sid in v.broker.stops && v.broker.stops[g.sid].key == k
    {
      if k != v.broker.stops[f.sid].key {
        var g :| g in fs && g.StopAdoptable? && g.sid in v.broker.stops && v.broker.stops[g.sid].key == k;
        assert g in fs + [f];
      }
    }
  }

  lemma BoundStops(fs: seq<Adjustment>, f: Adjustment, v: World, w: World, x: World, increments: map<string, Tick>)
    requires StopsReached(fs, v, w, increments) && f.StopAdoptable? && Bound(w, x, f.pid, f.sid) && !JudgedIn(fs, f.pid)
    requires forall q, m :: q != f.pid && PostedFor(v, w, q, m, increments) ==> PostedFor(v, x, q, m, increments)
    ensures StopsReached(fs + [f], v, x, increments)
  {
    InMore(fs, f);
    forall m | m in x.broker.stops && m !in v.broker.stops
      ensures exists q :: ReplacedIn(fs + [f], q) && OpenAt(v, q, x.broker.stops[m].ticker)
                          && PostedFor(v, x, q, m, increments)
    {
      var q :| ReplacedIn(fs, q) && OpenAt(v, q, w.broker.stops[m].ticker) && PostedFor(v, w, q, m, increments);
      assert q != f.pid;
      assert ReplacedIn(fs + [f], q) && OpenAt(v, q, x.broker.stops[m].ticker);
    }
  }

  lemma BoundPositions(fs: seq<Adjustment>, f: Adjustment, v: World, w: World, x: World, increments: map<string, Tick>)
    requires PositionsReached(fs, v, w, increments)
    requires f.StopAdoptable? && Bound(w, x, f.pid, f.sid) && f.sid in v.broker.stops && !JudgedIn(fs, f.pid)
    requires v.broker.stops[f.sid].key == w.broker.stops[f.sid].key
    requires forall q, m :: q != f.pid && PostedFor(v, w, q, m, increments) ==> PostedFor(v, x, q, m, increments)
    ensures PositionsReached(fs + [f], v, x, increments)
  {
    InMore(fs, f);
    forall q | q in v.positions && ReplacedIn(fs + [f], q) ensures exists m :: PostedFor(v, x, q, m, increments) {
      var m :| PostedFor(v, w, q, m, increments);
      assert q != f.pid;
    }
    forall g | g in fs + [f] && g.StopAdoptable?
      ensures g.pid in v.positions && g.sid in v.broker.stops
              && x.positions[g.pid].protection == Exchange(v.broker.stops[g.sid].key)
    {
      if g != f {
        assert g in fs && g.pid != f.pid;
      }
    }
  }

  // ------------------------------------------------------------------ the next remedy is ready

  lemma NotJudgedBefore(fs: seq<Adjustment>, i: nat)
    requires JudgedLast(fs) && i < |fs| && (fs[i].Judgement() || fs[i].StopDuplicate?)
    ensures !JudgedIn(fs[..i], fs[i].pid)
  {
  }

  /** A stop neither named by its ticker's open position nor on an open ticker has no standing row. */
  lemma NoRowStands(v: World, w: World, sid: nat)
    requires Sane(w) && Linked(w) && OneStanding(w.stopRows) && ProtectionsOnly(v.positions, w.positions)
    requires sid in v.broker.stops && sid in w.broker.stops && SameOrGone(v.broker.stops[sid], w.broker.stops[sid])
    requires forall q :: OpenAt(v, q, v.broker.stops[sid].ticker) ==>
                           w.positions[q].protection != Exchange(v.broker.stops[sid].key)
    ensures !RowStands(w.stopRows, v.broker.stops[sid].key)
  {
    var key := v.broker.stops[sid].key;
    if RowStands(w.stopRows, key) {
      StandingRowNamed(w, sid);
      assert OpenAt(v, w.stopRows[key].position, v.broker.stops[sid].ticker);
    }
  }

  ghost predicate Listing(v: World, stops: seq<LiveStop>, held: set<nat>) {
    && ListsStops(stops, v.broker.stops) && KeysOnce(v.broker.stops) && StopsWritten(v.stopRows, v.broker.stops)
    && OneOpen(v.positions) && forall pid :: pid in v.positions && v.positions[pid].Open() ==> pid in held
  }

  lemma FindsLive(v: World, stops: seq<LiveStop>, held: set<nat>, sid: nat, key: Id)
    requires Listing(v, stops, held) && LiveAt(v.broker.stops, sid)
    requires (key == v.broker.stops[sid].key || key == Theirs(sid))
    ensures FindStop(stops, sid, key) == Some(Listed(sid, v.broker.stops[sid]))
  {
    FindsListed(stops, v.broker.stops, sid, key);
  }

  lemma ReadyDuplicate(fs: seq<Adjustment>, i: nat, v: World, w: World, stops: seq<LiveStop>, held: set<nat>,
                       increments: map<string, Tick>)
    requires Plan(v, fs) && i < |fs| && fs[i].StopDuplicate? && Reached(fs[..i], v, w, increments)
    requires Sane(w) && Linked(w) && OneStanding(w.stopRows) && Listing(v, stops, held)
    ensures Ready(w, fs[i], held, stops)
  {
    var f := fs[i];
    assert Carriable(v, fs, f);
    NotJudgedBefore(fs, i);
    forall j | 0 <= j < |f.cancel|
      ensures var stop := FindStop(stops, f.cancel[j], Theirs(f.cancel[j]));
              stop.Some? && stop.value.sid == f.cancel[j] && !RowStands(w.stopRows, stop.value.key)
    {
      var sid := f.cancel[j];
      assert Spare(v, f.pid, f.ticker, sid);
      FindsLive(v, stops, held, sid, Theirs(sid));
      NoRowStands(v, w, sid);
    }
  }

  lemma ReadyOrphan(fs: seq<Adjustment>, i: nat, v: World, w: World, stops: seq<LiveStop>, held: set<nat>,
                    increments: map<string, Tick>)
    requires Plan(v, fs) && i < |fs| && fs[i].StopOrphan? && Reached(fs[..i], v, w, increments)
    requires Sane(w) && Linked(w) && OneStanding(w.stopRows) && Listing(v, stops, held)
    ensures Ready(w, fs[i], held, stops)
  {
    assert Carriable(v, fs, fs[i]);
    FindsLive(v, stops, held, fs[i].sid, fs[i].key);
    NoRowStands(v, w, fs[i].sid);
  }

  lemma ReadyAdoptable(fs: seq<Adjustment>, i: nat, v: World, w: World, stops: seq<LiveStop>, held: set<nat>,
                       increments: map<string, Tick>)
    requires Plan(v, fs) && i < |fs| && fs[i].StopAdoptable? && Reached(fs[..i], v, w, increments)
    requires Sane(w) && Listing(v, stops, held)
    ensures Ready(w, fs[i], held, stops)
  {
    var f := fs[i];
    assert Carriable(v, fs, f);
    FindsLive(v, stops, held, f.sid, Theirs(f.sid));
    NotJudgedBefore(fs, i);
    assert Owned(w.positions[f.pid], f.pid, w.stopRows);
    StopStillLive(fs, i, v, w, increments);
    KeyStillFree(fs, i, v, w, increments);
  }

  lemma StopStillLive(fs: seq<Adjustment>, i: nat, v: World, w: World, increments: map<string, Tick>)
    requires Plan(v, fs) && i < |fs| && fs[i].StopAdoptable? && StopsReached(fs[..i], v, w, increments)
    requires OneOpen(v.positions)
    requires Carriable(v, fs, fs[i])
    ensures w.broker.stops[fs[i].sid] == v.broker.stops[fs[i].sid]
  {
    NotJudgedBefore(fs, i);
    assert !CancelIn(fs[..i], fs[i].sid);
  }

  lemma KeyStillFree(fs: seq<Adjustment>, i: nat, v: World, w: World, increments: map<string, Tick>)
    requires Plan(v, fs) && i < |fs| && fs[i].StopAdoptable? && RowsReached(fs[..i], v, w) && OneOpen(v.positions)
    requires KeysOnce(v.broker.stops) && StopsWritten(v.stopRows, v.broker.stops)
    requires Carriable(v, fs, fs[i])
    ensures v.broker.stops[fs[i].sid].key !in w.stopRows
  {
    var key := v.broker.stops[fs[i].sid].key;
    NotJudgedBefore(fs, i);
    forall g | g in fs[..i] && g.StopAdoptable?
      ensures g.sid in v.broker.stops && v.broker.stops[g.sid].key != key
    {
      var j :| 0 <= j < i && fs[j] == g;
      assert Carriable(v, fs, fs[j]);
      assert JudgedIn(fs[..i], g.pid);
    }
  }

  lemma ReadyAt(fs: seq<Adjustment>, i: nat, v: World, w: World, stops: seq<LiveStop>, held: set<nat>,
                increments: map<string, Tick>)
    requires Plan(v, fs) && i < |fs| && Reached(fs[..i], v, w, increments)
    requires Sane(w) && Linked(w) && OneStanding(w.stopRows) && Listing(v, stops, held)
    ensures Ready(w, fs[i], held, stops)
  {
    assert Carriable(v, fs, fs[i]);
    if fs[i].StopDuplicate? {
      ReadyDuplicate(fs, i, v, w, stops, held, increments);
    } else if fs[i].StopOrphan? {
      ReadyOrphan(fs, i, v, w, stops, held, increments);
    } else if fs[i].StopAdoptable? {
      ReadyAdoptable(fs, i, v, w, stops, held, increments);
    }
  }

  lemma ReachedMore(fs: seq<Adjustment>, i: nat, v: World, w: World, x: World, stops: seq<LiveStop>, held: set<nat>,
                    increments: map<string, Tick>)
    requires Plan(v, fs) && i < |fs| && Reached(fs[..i], v, w, increments) && Remedied(w, x, fs[i], increments)
    requires Ready(w, fs[i], held, stops) && Sane(w) && Linked(w) && KeysOnce(w.broker.stops)
    requires fs[i].Replaces() ==> Sane(x)
    ensures Reached(fs[..i + 1], v, x, increments) && Sane(x)
  {
    var f := fs[i];
    assert Carriable(v, fs, f) && fs[..i + 1] == fs[..i] + [f];
    if f.Replaces() {
      NotJudgedBefore(fs, i);
      var n :| Renewal(w, x, f.pid, n, increments);
      RenewReached(fs[..i], f, v, w, x, n, increments);
    } else if f.StopAdoptable? {
      NotJudgedBefore(fs, i);
      BindReached(fs[..i], f, v, w, x, increments);
      BoundSane(w, x, f.pid, f.sid);
    } else {
      var sids := if f.StopDuplicate? then f.cancel else if f.StopOrphan? then [f.sid] else [];
      TookDownSane(w, x, sids);
      CancelReached(fs[..i], f, v, w, x, sids, increments);
    }
  }

  // ------------------------------------------------------------------ the remedies, in order

  /** Every finding in turn; a refusal ends startup. */
  method ApplyRemedies(bot: Bot, fs: seq<Adjustment>) returns (fault: Option<Fault>)
    requires bot.Valid()
    modifies bot
    ensures bot.LotsStill()
    ensures bot.Valid() && bot.Later() && bot.orders == old(bot.orders)
    ensures ProtectionsOnly(old(bot.positions), bot.positions)
    ensures bot.obliging && old(Sane(bot.View()) && Plan(bot.View(), fs)) ==>
              fault.None? && Sane(bot.View()) && Reached(fs, old(bot.View()), bot.View(), bot.increments)
  {
    fault := None;
    ghost var v, planned := bot.View(), bot.obliging && Sane(bot.View()) && Plan(bot.View(), fs);
    if forall i :: 0 <= i < |fs| ==> !fs[i].AboutStops() {
      NothingToDo(fs, v, bot.increments);
      return;
    }
    assert Inv(bot.trace[|bot.log|]);
    var rows := ListOpen(bot);
    var listed := ListStopOrders(bot);
    if listed.None? {
      return Some(BrokerDown);
    }
    fault := ApplyEach(bot, fs, set n | n in rows :: n.pid, listed.value, v, planned);
  }

  method ApplyEach(bot: Bot, fs: seq<Adjustment>, held: set<nat>, stops: seq<LiveStop>, ghost v: World,
                   ghost planned: bool)
    returns (fault: Option<Fault>)
    requires bot.Valid() && held <= bot.positions.Keys && KnownStops(stops, bot.broker.stops)
    requires planned ==> bot.obliging && bot.View() == v && Sane(v) && Plan(v, fs) && Listing(v, stops, held)
    modifies bot
    ensures bot.LotsStill()
    ensures bot.Valid() && bot.Later() && bot.orders == old(bot.orders)
    ensures ProtectionsOnly(old(bot.positions), bot.positions)
    ensures planned ==> fault.None? && Sane(bot.View()) && Reached(fs, v, bot.View(), bot.increments)
  {
    fault := None;
    NothingReached(v, bot.increments);
    for i := 0 to |fs|
      invariant bot.LotsStill()
      invariant bot.Valid() && bot.Later() && bot.orders == old(bot.orders)
      invariant ProtectionsOnly(old(bot.positions), bot.positions) && KnownStops(stops, bot.broker.stops)
      invariant fault.None? && (planned ==> Sane(bot.View()) && Reached(fs[..i], v, bot.View(), bot.increments))
    {
      fault := RemedyAt(bot, fs, i, held, stops, v, planned);
      if fault.Some? {
        return;
      }
    }
    assert fs[..|fs|] == fs;
  }

  method RemedyAt(bot: Bot, fs: seq<Adjustment>, i: nat, held: set<nat>, stops: seq<LiveStop>, ghost v: World,
                  ghost planned: bool)
    returns (fault: Option<Fault>)
    requires bot.Valid() && held <= bot.positions.Keys && i < |fs| && KnownStops(stops, bot.broker.stops)
    requires planned ==> bot.obliging && Plan(v, fs) && Listing(v, stops, held)
    requires planned ==> Sane(bot.View()) && Reached(fs[..i], v, bot.View(), bot.increments)
    modifies bot
    ensures bot.LotsStill()
    ensures bot.Valid() && bot.Later() && bot.orders == old(bot.orders)
    ensures ProtectionsOnly(old(bot.positions), bot.positions)
    ensures planned ==> fault.None? && Sane(bot.View()) && Reached(fs[..i + 1], v, bot.View(), bot.increments)
    ensures KnownStops(stops, bot.broker.stops)
  {
    ghost var w := bot.View();
    assert Inv(bot.trace[|bot.log|]);
    if planned {
      ReadyAt(fs, i, v, w, stops, held, bot.increments);
    }
    fault := Remedy(bot, fs[i], held, stops);
    bot.LaterPersists();
    if planned {
      ReachedMore(fs, i, v, w, bot.View(), stops, held, bot.increments);
    }
  }

  lemma NothingToDo(fs: seq<Adjustment>, v: World, increments: map<string, Tick>)
    requires forall i :: 0 <= i < |fs| ==> !fs[i].AboutStops()
    ensures Reached(fs, v, v, increments)
  {
  }

  // ------------------------------------------------------------------ findings make a plan

  /** A reading of the open rows and the live stops of `v`. */
  ghost predicate Reads(v: World, rows: seq<Numbered>, stops: seq<LiveStop>) {
    && ListsOpen(rows, v.positions) && ListsStops(stops, v.broker.stops)
    && OneOpen(v.positions) && KeysOnce(v.broker.stops) && StopsWritten(v.stopRows, v.broker.stops)
  }

  lemma ReadStop(v: World, rows: seq<Numbered>, stops: seq<LiveStop>, s: LiveStop)
    requires Reads(v, rows, stops) && s in stops
    ensures LiveAt(v.broker.stops, s.sid) && v.broker.stops[s.sid].key == s.key
    ensures v.broker.stops[s.sid].ticker == s.ticker
    ensures s.key.Theirs? ==> s.key == Theirs(s.sid)
  {
  }

  /** A position names at most one listed stop. */
  lemma NamedIsOne(v: World, rows: seq<Numbered>, stops: seq<LiveStop>, p: Position, r: LiveStop, s: LiveStop)
    requires Reads(v, rows, stops) && r in stops && s in stops && Named(p, r) && Named(p, s)
    ensures r == s
  {
    ReadStop(v, rows, stops, r);
    ReadStop(v, rows, stops, s);
    assert r.sid == s.sid;
  }

  lemma RowIsOpen(v: World, rows: seq<Numbered>, stops: seq<LiveStop>, n: Numbered)
    requires Reads(v, rows, stops) && n in rows
    ensures OpenAt(v, n.pid, n.row.ticker) && v.positions[n.pid] == n.row
  {
  }

  /** A listed stop of the position's ticker, other than the kept one, is spare. */
  lemma OthersAreSpare(v: World, rows: seq<Numbered>, stops: seq<LiveStop>, n: Numbered, sid: nat)
    requires Reads(v, rows, stops) && n in rows
    requires var mine := OnTicker(stops, n.row.ticker);
             mine != [] && sid in SidsExcept(mine, KeepStop(n.row, mine))
    ensures Spare(v, n.pid, n.row.ticker, sid)
  {
    var mine := OnTicker(stops, n.row.ticker);
    var k := KeepStop(n.row, mine);
    OnTickerDistinct(stops, n.row.ticker);
    ExceptFrom(mine, k, sid);
    var r :| r in mine && r.sid == sid;
    ReadStop(v, rows, stops, r);
    RowIsOpen(v, rows, stops, n);
    ExceptHas(mine, k, r);
    if n.row.protection == Exchange(r.key) {
      var j :| 0 <= j < |mine| && mine[j] == r;
      NamedIsOne(v, rows, stops, n.row, r, mine[k]);
    }
  }

  lemma KeptNotCancelled(v: World, rows: seq<Numbered>, stops: seq<LiveStop>, increments: map<string, Tick>,
                         corrections: seq<Adjustment>, n: Numbered)
    requires Reads(v, rows, stops) && n in rows && OnTicker(stops, n.row.ticker) != []
    requires forall f :: f in corrections ==> !f.AboutStops()
    ensures var mine := OnTicker(stops, n.row.ticker);
            !CancelIn(corrections + Findings(rows, stops, increments), mine[KeepStop(n.row, mine)].sid)
  {
    var mine := OnTicker(stops, n.row.ticker);
    var s := mine[KeepStop(n.row, mine)];
    assert s in mine && KeptBy(n, stops, s);
    var found := Findings(rows, stops, increments);
    StopsArePartitioned(rows, stops, increments, s);
    forall f | f in corrections + found
      ensures !(f.StopDuplicate? && s.sid in f.cancel) && !(f.StopOrphan? && f.sid == s.sid)
    {
      if f in found {
        var i :| 0 <= i < |found| && found[i] == f;
      }
    }
  }

  /** Nothing is missing, and what is to be adopted has no local row. */
  ghost predicate Adoptive(v: World, found: seq<Adjustment>) {
    forall f :: f in found ==>
      && !f.StopMissing?
      && (f.StopAdoptable? ==> f.sid in v.broker.stops && v.broker.stops[f.sid].key !in v.stopRows)
  }

  lemma DuplicateIsCarriable(v: World, rows: seq<Numbered>, stops: seq<LiveStop>, fs: seq<Adjustment>, n: Numbered)
    requires Reads(v, rows, stops) && n in rows && OnTicker(stops, n.row.ticker) != []
    ensures var mine := OnTicker(stops, n.row.ticker);
            var k := KeepStop(n.row, mine);
            Carriable(v, fs, StopDuplicate(n.row.ticker, n.pid, mine[k].sid, SidsExcept(mine, k)))
  {
    var mine := OnTicker(stops, n.row.ticker);
    var k := KeepStop(n.row, mine);
    OnTickerDistinct(stops, n.row.ticker);
    ExceptHas(mine, k, mine[k]);
    forall sid | sid in SidsExcept(mine, k) ensures Spare(v, n.pid, n.row.ticker, sid) {
      OthersAreSpare(v, rows, stops, n, sid);
    }
  }

  lemma AdoptableIs(n: Numbered, mine: seq<LiveStop>, increments: map<string, Tick>, f: Adjustment)
    requires f in FindingsFor(n, mine, increments) && f.StopAdoptable?
    ensures mine != [] && n.row.protection.Local? && f.sid == mine[KeepStop(n.row, mine)].sid
  {
  }

  lemma MissingIs(n: Numbered, mine: seq<LiveStop>, increments: map<string, Tick>, f: Adjustment)
    requires f in FindingsFor(n, mine, increments) && f.StopMissing?
    ensures mine == [] && n.row.protection.Exchange?
  {
  }

  lemma DueIsCarriable(v: World, rows: seq<Numbered>, stops: seq<LiveStop>, increments: map<string, Tick>,
                       corrections: seq<Adjustment>, n: Numbered, f: Adjustment)
    requires Reads(v, rows, stops) && n in rows && f in FindingsFor(n, OnTicker(stops, n.row.ticker), increments)
    requires Adoptive(v, [f]) && forall g :: g in corrections ==> !g.AboutStops()
    ensures Carriable(v, corrections + Findings(rows, stops, increments), f)
  {
    var mine := OnTicker(stops, n.row.ticker);
    DueKinds(n, mine, increments, f);
    RowIsOpen(v, rows, stops, n);
    assert f in [f];
    if f.StopDuplicate? {
      DuplicateIsCarriable(v, rows, stops, corrections + Findings(rows, stops, increments), n);
    } else if f.StopAdoptable? {
      AdoptableIs(n, mine, increments, f);
      KeptNotCancelled(v, rows, stops, increments, corrections, n);
      ReadStop(v, rows, stops, mine[KeepStop(n.row, mine)]);
    }
  }

  lemma FindingsMakePlan(v: World, rows: seq<Numbered>, stops: seq<LiveStop>, increments: map<string, Tick>,
                         corrections: seq<Adjustment>)
    requires Reads(v, rows, stops) && Adoptive(v, Findings(rows, stops, increments))
    requires forall f :: f in corrections ==> !f.AboutStops()
    ensures Plan(v, corrections + Findings(rows, stops, increments))
  {
    var found := Findings(rows, stops, increments);
    JudgedAtMostOnce(rows, stops, increments);
    assert forall a :: 0 <= a < |corrections| ==> corrections[a] in corrections;
    JudgedLastConcat(corrections, found);
    forall i | 0 <= i < |corrections + found| ensures Carriable(v, corrections + found, (corrections + found)[i]) {
      var f := (corrections + found)[i];
      if i >= |corrections| {
        assert f in found;
        FindingIsCarriable(v, rows, stops, increments, corrections, f);
      } else {
        assert f in corrections;
      }
    }
  }

  lemma FindingIsCarriable(v: World, rows: seq<Numbered>, stops: seq<LiveStop>, increments: map<string, Tick>,
                           corrections: seq<Adjustment>, f: Adjustment)
    requires Reads(v, rows, stops) && Adoptive(v, [f]) && f in Findings(rows, stops, increments)
    requires forall f :: f in corrections ==> !f.AboutStops()
    ensures Carriable(v, corrections + Findings(rows, stops, increments), f)
  {
    FindingsHas(rows, stops, increments, f);
    if i :| 0 <= i < |rows| && f in Due(stops, increments)(rows[i]) {
      DueIsCarriable(v, rows, stops, increments, corrections, rows[i], f);
    } else {
      var j :| 0 <= j < |stops| && IsOrphan(rows, stops, stops[j])
        && f == StopOrphan(stops[j].ticker, stops[j].sid, stops[j].key);
      ReadStop(v, rows, stops, stops[j]);
      OrphanIsUnopened(rows, stops, stops[j]);
      UnopenedInTable(v, rows, stops, stops[j].ticker);
    }
  }

  lemma UnopenedInTable(v: World, rows: seq<Numbered>, stops: seq<LiveStop>, t: string)
    requires Reads(v, rows, stops)
    ensures OneOpenOn(v.positions, t) <==> OpenOn(rows, t)
  {
    if OneOpenOn(v.positions, t) {
      var pid :| pid in v.positions && v.positions[pid].Open() && v.positions[pid].ticker == t;
      var i :| 0 <= i < |rows| && rows[i] == Numbered(pid, v.positions[pid]);
    }
    if i :| 0 <= i < |rows| && rows[i].row.ticker == t {
      assert rows[i] in rows;
    }
  }

  // ------------------------------------------------------------------ what is left to find

  /** A pass: `v` was read, and every finding remedied. */
  ghost predicate Passed(v: World, w: World, rows: seq<Numbered>, stops: seq<LiveStop>, increments: map<string, Tick>,
                         corrections: seq<Adjustment>) {
    && Reads(v, rows, stops) && Adoptive(v, Findings(rows, stops, increments))
    && (forall f :: f in corrections ==> !f.AboutStops())
    && Reached(corrections + Findings(rows, stops, increments), v, w, increments)
  }

  /** A stop live afterwards was live before and not cancelled, or was posted for a replaced position. */
  lemma LiveNext(v: World, w: World, rows: seq<Numbered>, stops: seq<LiveStop>, increments: map<string, Tick>,
                 corrections: seq<Adjustment>, sid: nat)
    requires Passed(v, w, rows, stops, increments, corrections) && LiveAt(w.broker.stops, sid)
    ensures var fs := corrections + Findings(rows, stops, increments);
            if sid in v.broker.stops
            then LiveAt(v.broker.stops, sid) && w.broker.stops[sid] == v.broker.stops[sid] && !CancelIn(fs, sid)
            else exists q :: ReplacedIn(fs, q) && OpenAt(v, q, w.broker.stops[sid].ticker)
  {
    var fs := corrections + Findings(rows, stops, increments);
    assert StopsReached(fs, v, w, increments);
    if sid !in v.broker.stops {
      var q :| ReplacedIn(fs, q) && OpenAt(v, q, w.broker.stops[sid].ticker) && PostedFor(v, w, q, sid, increments);
    }
  }

  lemma UnopenedIsCancelled(v: World, rows: seq<Numbered>, stops: seq<LiveStop>, increments: map<string, Tick>,
                            corrections: seq<Adjustment>, sid: nat)
    requires Reads(v, rows, stops) && LiveAt(v.broker.stops, sid) && !OneOpenOn(v.positions, v.broker.stops[sid].ticker)
    ensures CancelIn(corrections + Findings(rows, stops, increments), sid)
  {
    var s := Listed(sid, v.broker.stops[sid]);
    UnopenedInTable(v, rows, stops, s.ticker);
    OrphanIsUnopened(rows, stops, s);
    FindingsHas(rows, stops, increments, StopOrphan(s.ticker, sid, s.key));
    assert StopOrphan(s.ticker, sid, s.key) in corrections + Findings(rows, stops, increments);
  }

  lemma LiveOnOpenNext(v: World, w: World, rows: seq<Numbered>, stops: seq<LiveStop>, increments: map<string, Tick>,
                       corrections: seq<Adjustment>, sid: nat)
    requires Passed(v, w, rows, stops, increments, corrections) && LiveAt(w.broker.stops, sid)
    ensures OneOpenOn(w.positions, w.broker.stops[sid].ticker)
  {
    var t := w.broker.stops[sid].ticker;
    LiveNext(v, w, rows, stops, increments, corrections, sid);
    if sid in v.broker.stops && !OneOpenOn(v.positions, t) {
      UnopenedIsCancelled(v, rows, stops, increments, corrections, sid);
    }
    StaysOpen(v, w, t);
  }

  lemma StaysOpen(v: World, w: World, t: string)
    requires ProtectionsOnly(v.positions, w.positions)
    ensures (exists q :: OpenAt(v, q, t)) ==> OneOpenOn(w.positions, t)
    ensures OneOpenOn(v.positions, t) ==> OneOpenOn(w.positions, t)
  {
    if OneOpenOn(v.positions, t) {
      var q :| q in v.positions && v.positions[q].Open() && v.positions[q].ticker == t;
      assert OpenAt(v, q, t);
    }
    if q :| OpenAt(v, q, t) {
      assert q in w.positions && w.positions[q].Open();
    }
  }

  /** A judgement of a position is among the findings due to its row. */
  lemma JudgedByRow(v: World, rows: seq<Numbered>, stops: seq<LiveStop>, increments: map<string, Tick>,
                    corrections: seq<Adjustment>, n: Numbered, f: Adjustment)
    requires Reads(v, rows, stops) && n in rows && f.Judgement() && f.pid == n.pid
    requires forall g :: g in corrections ==> !g.AboutStops()
    ensures f in corrections + Findings(rows, stops, increments) <==> f in Due(stops, increments)(n)
  {
    FindingsHas(rows, stops, increments, f);
    if i :| 0 <= i < |rows| && f in Due(stops, increments)(rows[i]) {
      DueKinds(rows[i], OnTicker(stops, rows[i].row.ticker), increments, f);
      var j :| 0 <= j < |rows| && rows[j] == n;
    }
  }

  /** The stop a replaced position names is the one the next reading keeps, and nothing is wrong with it. */
  lemma ReplacedNext(v: World, w: World, rows: seq<Numbered>, stops: seq<LiveStop>, increments: map<string, Tick>,
                     n: Numbered, m: nat, f: Adjustment)
    requires Reads(w, rows, stops) && n in rows && PostedFor(v, w, n.pid, m, increments)
    requires f in Due(stops, increments)(n) && w.broker.stops[m].lots > 0
    ensures f.StopDuplicate?
  {
    var mine := OnTicker(stops, n.row.ticker);
    var s := Listed(m, w.broker.stops[m]);
    assert LiveAt(w.broker.stops, m) && s in stops && s in mine;
    var j :| 0 <= j < |mine| && mine[j] == s;
    var k := KeepStop(n.row, mine);
    assert Named(n.row, mine[j]);
    NamedIsOne(w, rows, stops, n.row, s, mine[k]);
  }

  /** A position that was not replaced has only its kept stop left. */
  lemma OnlyKeptNext(v: World, w: World, rows: seq<Numbered>, stops: seq<LiveStop>, increments: map<string, Tick>,
                     corrections: seq<Adjustment>, n: Numbered, sid: nat)
    requires Passed(v, w, rows, stops, increments, corrections) && n in rows
    requires !ReplacedIn(corrections + Findings(rows, stops, increments), n.pid)
    requires LiveAt(w.broker.stops, sid) && w.broker.stops[sid].ticker == n.row.ticker
    ensures var mine := OnTicker(stops, n.row.ticker);
            mine != [] && mine[KeepStop(n.row, mine)] == Listed(sid, w.broker.stops[sid])
  {
    var fs := corrections + Findings(rows, stops, increments);
    LiveNext(v, w, rows, stops, increments, corrections, sid);
    RowIsOpen(v, rows, stops, n);
    assert sid in v.broker.stops;
    var s := Listed(sid, v.broker.stops[sid]);
    KeptOrCancelled(n, stops, increments, s);
    var due := Due(stops, increments)(n);
    forall j | 0 <= j < |due| && due[j].StopDuplicate? ensures s.sid !in due[j].cancel {
      FindingsHas(rows, stops, increments, due[j]);
      assert due[j] in fs;
    }
  }

  lemma KeptStaysNext(v: World, w: World, rows: seq<Numbered>, stops: seq<LiveStop>, increments: map<string, Tick>,
                      corrections: seq<Adjustment>, n: Numbered)
    requires Passed(v, w, rows, stops, increments, corrections) && n in rows
    requires !ReplacedIn(corrections + Findings(rows, stops, increments), n.pid) && OnTicker(stops, n.row.ticker) != []
    ensures var mine := OnTicker(stops, n.row.ticker);
            var kept := mine[KeepStop(n.row, mine)];
            LiveAt(w.broker.stops, kept.sid) && kept == Listed(kept.sid, w.broker.stops[kept.sid])
  {
    var mine := OnTicker(stops, n.row.ticker);
    var kept := mine[KeepStop(n.row, mine)];
    assert kept in mine;
    KeptNotCancelled(v, rows, stops, increments, corrections, n);
    RowIsOpen(v, rows, stops, n);
    ReadStop(v, rows, stops, kept);
    assert StopsReached(corrections + Findings(rows, stops, increments), v, w, increments);
  }

  /** With one stop left the findings are those about the kept one. */
  lemma OneStopLeft(w: World, rows: seq<Numbered>, stops: seq<LiveStop>, increments: map<string, Tick>, n: Numbered,
                    sid: nat)
    requires Reads(w, rows, stops) && n in rows && LiveAt(w.broker.stops, sid)
    requires w.broker.stops[sid].ticker == n.row.ticker
    requires forall r :: LiveAt(w.broker.stops, r) && w.broker.stops[r].ticker == n.row.ticker ==> r == sid
    ensures Due(stops, increments)(n) == KeptFinding(n, Listed(sid, w.broker.stops[sid]), increments)
  {
    var mine := OnTicker(stops, n.row.ticker);
    OnTickerDistinct(stops, n.row.ticker);
    assert Listed(sid, w.broker.stops[sid]) in stops && Listed(sid, w.broker.stops[sid]) in mine;
    forall j | 0 <= j < |mine| ensures mine[j] == Listed(sid, w.broker.stops[sid]) {
      assert mine[j] in mine;
      ReadStop(w, rows, stops, mine[j]);
    }
    assert |mine| > 1 ==> mine[0].sid != mine[1].sid;
  }

  lemma NoStopLeft(w: World, rows: seq<Numbered>, stops: seq<LiveStop>, increments: map<string, Tick>, n: Numbered)
    requires Reads(w, rows, stops) && n.row.protection.Local?
    requires forall r :: LiveAt(w.broker.stops, r) ==> w.broker.stops[r].ticker != n.row.ticker
    ensures Due(stops, increments)(n) == []
  {
    var mine := OnTicker(stops, n.row.ticker);
    if mine != [] {
      assert mine[0] in mine;
      ReadStop(w, rows, stops, mine[0]);
    }
  }

  /** A judgement of the kept stop was among the findings, so an unreplaced one was adopted. */
  lemma KeptJudged(v: World, w: World, rows: seq<Numbered>, stops: seq<LiveStop>, increments: map<string, Tick>,
                   corrections: seq<Adjustment>, n: Numbered, kept: LiveStop)
    requires Passed(v, w, rows, stops, increments, corrections) && n in rows
    requires !ReplacedIn(corrections + Findings(rows, stops, increments), n.pid)
    requires KeptFinding(n, kept, increments) != [] && KeptFinding(n, kept, increments)[0] in Due(stops, increments)(n)
    requires kept in stops
    ensures KeptFinding(n, kept, increments)[0].StopAdoptable? && n.pid in w.positions
    ensures w.positions[n.pid].protection == Exchange(kept.key)
  {
    var f := KeptFinding(n, kept, increments)[0];
    JudgedByRow(v, rows, stops, increments, corrections, n, f);
    assert f in corrections + Findings(rows, stops, increments);
    ReadStop(v, rows, stops, kept);
  }

  lemma KeptUnjudged(v: World, w: World, rows: seq<Numbered>, stops: seq<LiveStop>, increments: map<string, Tick>,
                     corrections: seq<Adjustment>, n: Numbered)
    requires Passed(v, w, rows, stops, increments, corrections) && n in rows
    requires forall f :: f in Due(stops, increments)(n) ==> !f.Judgement()
    ensures n.pid in w.positions && w.positions[n.pid] == n.row
  {
    var fs := corrections + Findings(rows, stops, increments);
    RowIsOpen(v, rows, stops, n);
    forall f | f in fs && f.Judgement() ensures f.pid != n.pid {
      if f.pid == n.pid {
        JudgedByRow(v, rows, stops, increments, corrections, n, f);
      }
    }
    assert !JudgedIn(fs, n.pid);
  }

  /** Judged against the protection it has after the pass, the kept stop is in order. */
  lemma KeptInOrder(v: World, w: World, rows: seq<Numbered>, stops: seq<LiveStop>, increments: map<string, Tick>,
                    corrections: seq<Adjustment>, n: Numbered)
    requires Passed(v, w, rows, stops, increments, corrections) && n in rows
    requires !ReplacedIn(corrections + Findings(rows, stops, increments), n.pid) && OnTicker(stops, n.row.ticker) != []
    ensures n.pid in w.positions
    ensures var mine := OnTicker(stops, n.row.ticker);
            KeptFinding(Numbered(n.pid, w.positions[n.pid]), mine[KeepStop(n.row, mine)], increments) == []
  {
    var mine := OnTicker(stops, n.row.ticker);
    var kept := mine[KeepStop(n.row, mine)];
    assert kept in mine;
    RowIsOpen(v, rows, stops, n);
    if KeptFinding(n, kept, increments) != [] {
      KeptIsDue(n, mine, increments);
      KeptJudged(v, w, rows, stops, increments, corrections, n, kept);
      AdoptedInOrder(n, kept, increments, w.positions[n.pid]);
    } else {
      NoJudgementDue(n, mine, increments);
      KeptUnjudged(v, w, rows, stops, increments, corrections, n);
    }
  }

  lemma KeptIsDue(n: Numbered, mine: seq<LiveStop>, increments: map<string, Tick>)
    requires mine != []
    ensures forall f :: f in KeptFinding(n, mine[KeepStop(n.row, mine)], increments) ==>
              f in FindingsFor(n, mine, increments)
  {
  }

  lemma AdoptedInOrder(n: Numbered, kept: LiveStop, increments: map<string, Tick>, after: Position)
    requires KeptFinding(n, kept, increments) != [] && KeptFinding(n, kept, increments)[0].StopAdoptable?
    requires after == n.row.(protection := after.protection) && after.protection.Exchange?
    ensures KeptFinding(Numbered(n.pid, after), kept, increments) == []
  {
  }

  lemma NoJudgementDue(n: Numbered, mine: seq<LiveStop>, increments: map<string, Tick>)
    requires mine != [] && KeptFinding(n, mine[KeepStop(n.row, mine)], increments) == []
    ensures forall f :: f in FindingsFor(n, mine, increments) ==> !f.Judgement()
  {
  }

  lemma UnreplacedNext(v: World, w: World, rows: seq<Numbered>, stops: seq<LiveStop>, increments: map<string, Tick>,
                       corrections: seq<Adjustment>, rows': seq<Numbered>, stops': seq<LiveStop>, n': Numbered)
    requires Passed(v, w, rows, stops, increments, corrections) && Reads(w, rows', stops') && n' in rows'
    requires !ReplacedIn(corrections + Findings(rows, stops, increments), n'.pid)
    ensures Due(stops', increments)(n') == []
  {
    var n := Numbered(n'.pid, v.positions[n'.pid]);
    assert n in rows && n.row.ticker == n'.row.ticker;
    var mine := OnTicker(stops, n.row.ticker);
    if mine == [] {
      NothingMissing(v, w, rows, stops, increments, corrections, n);
      forall r | LiveAt(w.broker.stops, r) ensures w.broker.stops[r].ticker != n.row.ticker {
        if w.broker.stops[r].ticker == n.row.ticker {
          OnlyKeptNext(v, w, rows, stops, increments, corrections, n, r);
        }
      }
      NoStopLeft(w, rows', stops', increments, n');
    } else {
      var kept := mine[KeepStop(n.row, mine)];
      assert kept in mine;
      KeptStaysNext(v, w, rows, stops, increments, corrections, n);
      KeptInOrder(v, w, rows, stops, increments, corrections, n);
      forall r | LiveAt(w.broker.stops, r) && w.broker.stops[r].ticker == n.row.ticker ensures r == kept.sid {
        OnlyKeptNext(v, w, rows, stops, increments, corrections, n, r);
      }
      OneStopLeft(w, rows', stops', increments, n', kept.sid);
    }
  }

  lemma NothingMissing(v: World, w: World, rows: seq<Numbered>, stops: seq<LiveStop>, increments: map<string, Tick>,
                       corrections: seq<Adjustment>, n: Numbered)
    requires Passed(v, w, rows, stops, increments, corrections) && n in rows && OnTicker(stops, n.row.ticker) == []
    ensures n.row.protection.Local? && n.pid in w.positions && w.positions[n.pid] == n.row
  {
    var i :| 0 <= i < |rows| && rows[i] == n;
    FindingsHas(rows, stops, increments, StopMissing(n.row.ticker, n.pid));
    KeptUnjudged(v, w, rows, stops, increments, corrections, n);
  }

  lemma NextDue(v: World, w: World, rows: seq<Numbered>, stops: seq<LiveStop>, increments: map<string, Tick>,
                corrections: seq<Adjustment>, rows': seq<Numbered>, stops': seq<LiveStop>, n': Numbered, f: Adjustment)
    requires Passed(v, w, rows, stops, increments, corrections) && Reads(w, rows', stops') && Linked(w)
    requires n' in rows' && f in Due(stops', increments)(n')
    ensures f.StopDuplicate? && f.pid == n'.pid && ReplacedIn(corrections + Findings(rows, stops, increments), f.pid)
  {
    DueKinds(n', OnTicker(stops', n'.row.ticker), increments, f);
    if ReplacedIn(corrections + Findings(rows, stops, increments), n'.pid) {
      var m :| PostedFor(v, w, n'.pid, m, increments);
      ReplacedNext(v, w, rows', stops', increments, n', m, f);
    } else {
      UnreplacedNext(v, w, rows, stops, increments, corrections, rows', stops', n');
    }
  }

  lemma NoOrphanNext(v: World, w: World, rows: seq<Numbered>, stops: seq<LiveStop>, increments: map<string, Tick>,
                     corrections: seq<Adjustment>, rows': seq<Numbered>, stops': seq<LiveStop>, s: LiveStop)
    requires Passed(v, w, rows, stops, increments, corrections) && Reads(w, rows', stops') && s in stops'
    ensures !IsOrphan(rows', stops', s)
  {
    ReadStop(w, rows', stops', s);
    LiveOnOpenNext(v, w, rows, stops, increments, corrections, s.sid);
    UnopenedInTable(w, rows', stops', s.ticker);
    OrphanIsUnopened(rows', stops', s);
  }

  /** After a pass the only findings left are duplicates of positions whose stop it replaced. */
  lemma NextFindings(v: World, w: World, rows: seq<Numbered>, stops: seq<LiveStop>, increments: map<string, Tick>,
                     corrections: seq<Adjustment>, rows': seq<Numbered>, stops': seq<LiveStop>)
    requires Passed(v, w, rows, stops, increments, corrections) && Reads(w, rows', stops') && Linked(w)
    ensures forall f :: f in Findings(rows', stops', increments) ==>
              f.StopDuplicate? && ReplacedIn(corrections + Findings(rows, stops, increments), f.pid)
  {
    forall f | f in Findings(rows', stops', increments)
      ensures f.StopDuplicate? && ReplacedIn(corrections + Findings(rows, stops, increments), f.pid)
    {
      FindingsHas(rows', stops', increments, f);
      if j :| 0 <= j < |stops'| && IsOrphan(rows', stops', stops'[j]) {
        NoOrphanNext(v, w, rows, stops, increments, corrections, rows', stops', stops'[j]);
      }
      var i :| 0 <= i < |rows'| && f in Due(stops', increments)(rows'[i]);
      NextDue(v, w, rows, stops, increments, corrections, rows', stops', rows'[i], f);
    }
  }
}
