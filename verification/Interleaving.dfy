/** Executor sections under every interleaving: the trading loop, the shutdown drain and any other task,
    each with its place in the locks and what it does next, the exchange at any moment, and crashes.

    Database and broker calls are made only inside a section. A post reads neither the row nor the
    exchange: it goes out because the section recorded the order last. That it is still unsettled and
    unseen by then, and that every call is a legal step of `Protocol`, is what is proved here.
 */
module Interleaving {
  import opened Models
  import opened Protocol
  import opened Runs
  import L = Locks

  /** What a section holds of the order it is about. */
  datatype OrderPart =
    | NoOrder
    | Recorded(key: Id, row: Order)   // written ahead, to be posted next
    | Sent(key: Id)                   // posted, the answer awaited
    | Listed(key: Id)                 // taken from a listing, however old
    | Answered(key: Id)               // the exchange said it is finished, or never seen
    | Settled(key: Id)                // settled by this very section

  /** And of the stop it is placing. */
  datatype StopPart = NoStop | Placing(key: Id, row: StopRow)

  datatype Section = Section(order: OrderPart, stop: StopPart)

  datatype System = System(locks: L.Locks, sections: map<L.Task, Section>, world: World)

  /** One awaited call of a section. */
  datatype Move =
    | Record(key: Id, row: Order)
    | Post(arrives: bool)
    | File(status: OrderStatus, filled: nat, price: Option<real>, fee: Option<real>, brokerId: Option<Id>)
    | TakeUp(key: Id)
    | Cancel
    | Learn
    | Settle(status: OrderStatus, filled: nat, price: Option<real>, fee: Option<real>)
    | Book(booking: Action)
    | RecordStop(key: Id, stopRow: StopRow)
    | PostStop(arrives: bool, sid: nat, created: int, held: real)
    | Other(other: Action)

  datatype Event =
    | Lock(task: L.Task, step: L.Step)
    | Act(task: L.Task, move: Move)
    | Outside(a: Action)
    | Startup(a: Action)
    | Crash

  // ------------------------------------------------------------------ what each call does

  /** A market order reaches the exchange as the section wrote it down, whatever is there already. */
  function AfterPost(w: World, key: Id, row: Order): World {
    w.(broker := w.broker.(market := w.broker.market[key :=
        MarketOrder(row.ticker, row.side, row.lots, Live, 0, 0.0, None, false)]))
  }

  function AfterPostStop(w: World, key: Id, row: StopRow, sid: nat, created: int, held: real): World {
    w.(broker := w.broker.(stops := w.broker.stops[sid :=
        BrokerStop(key, row.ticker, row.lots, held, created, Armed, false)]))
  }

  /** What the database itself refuses: a row that is absent or settled. */
  predicate Settleable(w: World, key: Id, status: OrderStatus) {
    key in w.orders && !w.orders[key].status.Terminal() && status.Terminal()
  }

  function AfterSettle(w: World, key: Id, status: OrderStatus, filled: nat, price: Option<real>, fee: Option<real>,
                       brokerId: Option<Id>): World
    requires key in w.orders
  {
    w.(orders := w.orders[key := SettledRow(w.orders[key], status, filled, price, fee, brokerId)])
  }

  /** What the program looks at, and the database insists on, before a settled fill moves a position. */
  predicate BookingPasses(w: World, key: Id, a: Action) {
    && key in w.orders && w.orders[key].filled > 0 && Books(a) == Some(key)
    && match a
       case OpenRow(pid, _, _, _) =>
         && 0 < pid && pid !in w.positions && w.orders[key].side.Buy? && w.orders[key].price.Some?
         && !OneOpenOn(w.positions, w.orders[key].ticker)
       case CloseRow(pid, exit, _) =>
         && pid in w.positions && w.positions[pid].Open() && w.positions[pid].ticker == w.orders[key].ticker
         && w.orders[key].side.Sell? && exit.closeKey == Some(key)
       case ShrinkRow(pid, _, n) =>
         && pid in w.positions && w.positions[pid].Open() && w.positions[pid].ticker == w.orders[key].ticker
         && w.orders[key].side.Sell? && 0 < n
       case _ => false
  }

  function Marked(b: Broker, key: Id): Broker {
    if key in b.market then Booked(b, key) else b
  }

  function AfterBooking(w: World, key: Id, a: Action): World
    requires BookingPasses(w, key, a)
  {
    var after :=
      match a
      case OpenRow(pid, _, lotSize, stop) => SetPosition(w, pid, OpenedPosition(w.orders[key], key, lotSize, stop))
      case CloseRow(pid, exit, _) => SetPosition(w, pid, w.positions[pid].(exit := Some(exit), protection := Local))
      case ShrinkRow(pid, _, n) => SetPosition(w, pid, w.positions[pid].(lots := n));
    after.(broker := Marked(w.broker, key))
  }

  /** Calls about stops and protection that are not posts. */
  predicate IsOther(a: Action) {
    a.Protect? || a.ActivateStop? || a.SettleStop? || a.CancelStop? || (a.CloseRow? && a.cause.ByStop?)
  }

  predicate IsExchange(a: Action) {
    a.Fill? || a.Finish? || a.Fire? || a.ForeignTrade? || a.ForeignStop?
  }

  /** Reconciliation runs once, before anything else does. */
  predicate IsStartup(a: Action) {
    a.AdoptRow? || a.AdjustRow? || a.SettleStop? || (a.CloseRow? && a.cause.ByOwner?)
  }

  /** A new key, and the row as the section builds it. */
  predicate Recordable(w: World, key: Id, row: Order) {
    key.Ours? && key !in w.orders && row.status.Submitting? && Formed(row)
  }

  /** The database refuses a known key, an absent position, and a second standing row of one. */
  predicate Placeable(w: World, key: Id, row: StopRow) {
    && key !in w.stopRows && row.position in w.positions && !StandingOn(w.stopRows, row.position)
    && row.ticker == w.positions[row.position].ticker && row.status.Placing? && row.sid.None?
  }

  /** What the database refuses of the other calls, and what the broker's answer said before them: that
      the stop carries the key, or that it has fired. */
  predicate Accepted(w: World, a: Action) {
    match a
    case Protect(pid, _) => pid in w.positions
    case ActivateStop(k, sid) =>
      k in w.stopRows && w.stopRows[k].status.Standing() && sid in w.broker.stops && w.broker.stops[sid].key == k
    case SettleStop(k, ending) => k in w.stopRows && w.stopRows[k].status.Standing() && !ending.Standing()
    case CancelStop(_) => true
    case CloseRow(pid, exit, ByStop(k, sid)) =>
      && pid in w.positions && w.positions[pid].Open() && FiredFor(w, pid, sid)
      && k in w.orders && exit.closeKey == Some(k)
    case _ => false
  }

  function AfterOther(w: World, a: Action): World
    requires Accepted(w, a)
  {
    if a.CloseRow? then
      var closed := SetPosition(w, a.pid, w.positions[a.pid].(exit := Some(a.exit), protection := Local));
      closed.(broker := w.broker.(stops := w.broker.stops[a.cause.sid := w.broker.stops[a.cause.sid].(booked := true)]))
    else Apply(w, a)
  }

  // ------------------------------------------------------------------ what a section may do next

  predicate CanMove(w: World, s: Section, move: Move) {
    match move
    case Record(key, row) => s.order.NoOrder? && Recordable(w, key, row)
    case Post(_) => s.order.Recorded?
    case File(status, _, _, _, _) => s.order.Recorded? && Settleable(w, s.order.key, status)
    case TakeUp(key) => s.order.NoOrder? && key in w.orders
    case Cancel => s.order.Sent? || s.order.Listed?
    case Learn =>
      // the exchange tells the truth: never seen, or finished
      && (s.order.Sent? || s.order.Listed?)
      && (s.order.key in w.broker.market ==> w.broker.market[s.order.key].state.Done?)
    case Settle(status, filled, _, _) =>
      s.order.Answered? && Settleable(w, s.order.key, status) && (filled > 0 ==> s.order.key in w.broker.market)
    case Book(a) => s.order.Settled? && BookingPasses(w, s.order.key, a)
    case RecordStop(key, row) => s.stop.NoStop? && Placeable(w, key, row)
    case PostStop(_, sid, _, _) => s.stop.Placing? && sid !in w.broker.stops
    case Other(a) =>
      // closing on an executed stop is a section of its own, not part of settling another order
      s.stop.NoStop? && IsOther(a) && Accepted(w, a) && (a.CloseRow? ==> s.order.NoOrder?)
  }

  /** What the section holds afterwards, and the world. */
  function Moved(w: World, s: Section, move: Move): (Section, World)
    requires CanMove(w, s, move)
  {
    match move
    case Record(key, row) => (s.(order := Recorded(key, row)), Apply(w, RecordSubmitting(key, row)))
    case Post(arrives) =>
      (s.(order := Sent(s.order.key)), if arrives then AfterPost(w, s.order.key, s.order.row) else w)
    case File(status, filled, price, fee, brokerId) =>
      (s.(order := NoOrder), AfterSettle(w, s.order.key, status, filled, price, fee, brokerId))
    case TakeUp(key) => (s.(order := Listed(key)), w)
    case Cancel => (s, Apply(w, CancelOrder(s.order.key)))
    case Learn => (s.(order := Answered(s.order.key)), w)
    case Settle(status, filled, price, fee) =>
      (s.(order := Settled(s.order.key)), AfterSettle(w, s.order.key, status, filled, price, fee, None))
    case Book(a) => (s.(order := NoOrder), AfterBooking(w, s.order.key, a))
    case RecordStop(key, row) =>
      (s.(stop := if key.Ours? then StopPart.Placing(key, row) else NoStop), Apply(w, RecordPlacing(key, row)))
    case PostStop(arrives, sid, created, held) =>
      (s.(stop := NoStop), if arrives then AfterPostStop(w, s.stop.key, s.stop.row, sid, created, held) else w)
    case Other(a) => (s, AfterOther(w, a))
  }

  predicate CanHappen(s: System, e: Event) {
    match e
    case Lock(t, step) => L.Can(s.locks, t, step)
    case Act(t, move) => t in s.sections && CanMove(s.world, s.sections[t], move)
    case Outside(a) => IsExchange(a) && Enabled(s.world, a)
    case Startup(a) => s.sections == map[] && IsStartup(a) && Enabled(s.world, a)
    case Crash => true
  }

  function Happen(s: System, e: Event): System
    requires CanHappen(s, e)
  {
    match e
    case Lock(t, step) =>
      var locks := L.Do(s.locks, t, step);
      var sections := if locks.At(t).Inside? then s.sections[t := Section(NoOrder, NoStop)] else s.sections - {t};
      System(locks, sections, s.world)
    case Act(t, move) =>
      var after := Moved(s.world, s.sections[t], move);
      s.(sections := s.sections[t := after.0], world := after.1)
    case Outside(a) => s.(world := Apply(s.world, a))
    case Startup(a) => s.(world := Apply(s.world, a))
    case Crash => System(L.FREE, map[], s.world)
  }

  // ------------------------------------------------------------------ what every schedule keeps

  /** What a section holds is still so. */
  predicate Holds(w: World, s: Section) {
    && (match s.order
        case NoOrder => true
        case Recorded(key, row) =>
          key in w.orders && w.orders[key] == row && row.status.Submitting? && key !in w.broker.market
        case Sent(key) => key in w.orders
        case Listed(key) => key in w.orders
        case Answered(key) => key in w.orders && (key in w.broker.market ==> w.broker.market[key].state.Done?)
        case Settled(key) =>
          && key in w.orders && w.orders[key].status.Terminal()
          && (w.orders[key].filled > 0 ==> key in w.broker.market)
          && (key in w.broker.market ==> w.broker.market[key].state.Done? && !w.broker.market[key].booked))
    && (s.stop.Placing? ==>
          && s.stop.key.Ours? && s.stop.key in w.stopRows && w.stopRows[s.stop.key] == s.stop.row
          && s.stop.row.status.Placing? && Unseen(w.broker.stops, s.stop.key))
  }

  ghost predicate Good(s: System) {
    && L.Held(s.locks) && Inv(s.world)
    && (forall t: L.Task :: t in s.sections <==> s.locks.At(t).Inside?)
    && (forall t :: t in s.sections ==> Holds(s.world, s.sections[t]))
  }

  /** The step of `Protocol` a call is, if it touches the world. */
  function StepOf(s: Section, move: Move): Option<Action> {
    match move
    case Record(key, row) => Some(RecordSubmitting(key, row))
    case Post(arrives) => if arrives && s.order.Recorded? then Some(PostMarket(s.order.key)) else None
    case File(status, filled, price, fee, id) =>
      if s.order.Recorded? then Some(SettleOrder(s.order.key, status, filled, price, fee, id)) else None
    case Cancel => if s.order.Sent? || s.order.Listed? then Some(CancelOrder(s.order.key)) else None
    case Settle(status, filled, price, fee) =>
      if s.order.Answered? then Some(SettleOrder(s.order.key, status, filled, price, fee, None)) else None
    case Book(a) => Some(a)
    case RecordStop(key, row) => Some(RecordPlacing(key, row))
    case PostStop(arrives, sid, created, held) =>
      if arrives && s.stop.Placing? then Some(Action.PostStop(s.stop.key, sid, created, held)) else None
    case Other(a) => Some(a)
    case _ => None
  }

  function EventStep(s: System, e: Event): Option<Action> {
    match e
    case Act(t, move) => if t in s.sections then StepOf(s.sections[t], move) else None
    case Outside(a) => Some(a)
    case Startup(a) => Some(a)
    case _ => None
  }

  ghost predicate IsStepOrNone(v: World, a: Option<Action>, w: World) {
    if a.Some? then IsStep(v, a.value, w) else w == v
  }

  // ------------------------------------------------------------------ each call is a legal step

  lemma PostIsLegal(w: World, s: Section, move: Move)
    requires Inv(w) && Holds(w, s) && CanMove(w, s, move) && (move.Post? || move.PostStop?)
    ensures IsStepOrNone(w, StepOf(s, move), Moved(w, s, move).1) && Holds(Moved(w, s, move).1, Moved(w, s, move).0)
  {
  }

  lemma SettlementIsLegal(w: World, s: Section, move: Move)
    requires Inv(w) && Holds(w, s) && CanMove(w, s, move) && (move.File? || move.Settle?)
    ensures IsStepOrNone(w, StepOf(s, move), Moved(w, s, move).1) && Holds(Moved(w, s, move).1, Moved(w, s, move).0)
  {
  }

  lemma BookingIsLegal(w: World, s: Section, a: Action)
    requires Inv(w) && Holds(w, s) && CanMove(w, s, Book(a))
    ensures IsStep(w, a, Moved(w, s, Book(a)).1) && Holds(Moved(w, s, Book(a)).1, Moved(w, s, Book(a)).0)
  {
    var key := s.order.key;
    assert Bookable(w, key, w.orders[key].side);
  }

  lemma RecordIsLegal(w: World, s: Section, move: Move)
    requires Inv(w) && Holds(w, s) && CanMove(w, s, move) && (move.Record? || move.RecordStop?)
    ensures IsStepOrNone(w, StepOf(s, move), Moved(w, s, move).1) && Holds(Moved(w, s, move).1, Moved(w, s, move).0)
  {
    if move.RecordStop? && move.key.Ours? {
      RecordedUnseen(w, move.key);
    }
  }

  lemma RecordedUnseen(w: World, key: Id)
    requires Inv(w) && key.Ours? && key !in w.stopRows
    ensures Unseen(w.broker.stops, key)
  {
  }

  lemma AskingIsLegal(w: World, s: Section, move: Move)
    requires Inv(w) && Holds(w, s) && CanMove(w, s, move) && (move.TakeUp? || move.Cancel? || move.Learn?)
    ensures IsStepOrNone(w, StepOf(s, move), Moved(w, s, move).1) && Holds(Moved(w, s, move).1, Moved(w, s, move).0)
  {
  }

  lemma OtherIsLegal(w: World, s: Section, a: Action)
    requires Inv(w) && Holds(w, s) && CanMove(w, s, Other(a))
    ensures IsStep(w, a, Moved(w, s, Other(a)).1) && Holds(Moved(w, s, Other(a)).1, Moved(w, s, Other(a)).0)
  {
    assert Apply(w, a).orders == w.orders && Apply(w, a).broker.market == w.broker.market;
  }

  /** A post goes out for a row that is still unsettled, to an exchange that has not seen its key; a fill is
      applied once it is settled and finished, and was not applied before. */
  lemma MoveIsLegal(w: World, s: Section, move: Move)
    requires Inv(w) && Holds(w, s) && CanMove(w, s, move)
    ensures IsStepOrNone(w, StepOf(s, move), Moved(w, s, move).1) && Holds(Moved(w, s, move).1, Moved(w, s, move).0)
  {
    match move
    case Post(_) => PostIsLegal(w, s, move);
    case PostStop(_, _, _, _) => PostIsLegal(w, s, move);
    case File(_, _, _, _, _) => SettlementIsLegal(w, s, move);
    case Settle(_, _, _, _) => SettlementIsLegal(w, s, move);
    case Book(a) => BookingIsLegal(w, s, a);
    case Other(a) => OtherIsLegal(w, s, a);
    case Record(_, _) => RecordIsLegal(w, s, move);
    case RecordStop(_, _) => RecordIsLegal(w, s, move);
    case _ => AskingIsLegal(w, s, move);
  }

  /** What the exchange does leaves what a section holds. */
  lemma ExchangeLeaves(w: World, s: Section, a: Action)
    requires Holds(w, s) && IsExchange(a) && Enabled(w, a)
    ensures Holds(Apply(w, a), s)
  {
  }

  lemma LockKeeps(s: System, t: L.Task, step: L.Step)
    requires Good(s) && L.Can(s.locks, t, step)
    ensures Good(Happen(s, Lock(t, step)))
  {
    L.StepKeepsHeld(s.locks, t, step);
  }

  lemma ActKeeps(s: System, t: L.Task, move: Move)
    requires Good(s) && CanHappen(s, Act(t, move))
    ensures IsStepOrNone(s.world, StepOf(s.sections[t], move), Happen(s, Act(t, move)).world)
    ensures Good(Happen(s, Act(t, move)))
  {
    MoveIsLegal(s.world, s.sections[t], move);
    OnlyOneInside(s, t);
    if StepOf(s.sections[t], move).Some? {
      StepKeepsInv(s.world, StepOf(s.sections[t], move).value);
    }
  }

  lemma ExchangeKeeps(s: System, a: Action)
    requires Good(s) && CanHappen(s, Outside(a))
    ensures Good(Happen(s, Outside(a)))
  {
    StepKeepsInv(s.world, a);
    forall t | t in s.sections ensures Holds(Apply(s.world, a), s.sections[t]) {
      ExchangeLeaves(s.world, s.sections[t], a);
    }
  }

  lemma EventKeeps(s: System, e: Event)
    requires Good(s) && CanHappen(s, e)
    ensures IsStepOrNone(s.world, EventStep(s, e), Happen(s, e).world) && Good(Happen(s, e))
  {
    match e
    case Lock(t, step) => LockKeeps(s, t, step);
    case Act(t, move) => ActKeeps(s, t, move);
    case Outside(a) => ExchangeKeeps(s, a);
    case Startup(a) => StepKeepsInv(s.world, a);
    case Crash =>
  }

  lemma OnlyOneInside(s: System, t: L.Task)
    requires Good(s) && t in s.sections
    ensures forall u :: u in s.sections ==> u == t
  {
  }

  // ------------------------------------------------------------------ schedules

  ghost function Next(): (System, Event, System) -> bool {
    (s, e, r) => CanHappen(s, e) && r == Happen(s, e)
  }

  /** Nobody holds a lock at first; the tables and the account may be any sound ones. */
  ghost predicate Schedule(states: seq<System>, events: seq<Event>) {
    Steps(Next(), states, events) && states[0].locks == L.FREE && states[0].sections == map[] && Inv(states[0].world)
  }

  function Any(): (System, Event) -> bool {
    (s, e) => true
  }

  lemma ScheduleIsGood(states: seq<System>, events: seq<Event>, i: nat)
    requires Schedule(states, events) && i <= |events|
    ensures Good(states[i])
  {
    forall s, e | CanHappen(s, e) && Good(s) ensures Good(Happen(s, e)) {
      EventKeeps(s, e);
    }
    Kept(Next(), Any(), s => Good(s), states, events, 0, i);
  }

  /** So every schedule is a run of `Protocol`, with pauses. */
  lemma EventIsLegal(states: seq<System>, events: seq<Event>, i: nat)
    requires Schedule(states, events) && i < |events|
    ensures CanHappen(states[i], events[i]) && Good(states[i])
    ensures IsStepOrNone(states[i].world, EventStep(states[i], events[i]), states[i + 1].world)
    ensures states[i + 1] == Happen(states[i], events[i])
  {
    ScheduleIsGood(states, events, i);
    assert Next()(states[i], events[i], states[i + 1]);
    EventKeeps(states[i], events[i]);
  }

  lemma SchedulePersists(states: seq<System>, events: seq<Event>, i: nat, j: nat)
    requires Schedule(states, events) && i <= j <= |events|
    ensures Persists(states[i].world, states[j].world)
  {
    var was := states[i].world;
    ScheduleIsGood(states, events, i);
    PersistsReflexive(was);
    forall s, e | CanHappen(s, e) && Good(s) && Persists(was, s.world)
      ensures Good(Happen(s, e)) && Persists(was, Happen(s, e).world)
    {
      EventKeeps(s, e);
      if EventStep(s, e).Some? {
        PersistsOneMore(was, s.world, EventStep(s, e).value);
      }
    }
    Kept(Next(), Any(), s => Good(s) && Persists(was, s.world), states, events, i, j);
  }

  /** The key an event posts, whether or not the post arrives. */
  function Posts(s: System, e: Event): Option<Id> {
    if e.Act? && e.move.Post? && e.task in s.sections && s.sections[e.task].order.Recorded?
    then Some(s.sections[e.task].order.key) else None
  }

  /** Under every schedule: when an order is posted, its row is still the one written ahead of it,
      unsettled, and the exchange has never seen its key. */
  lemma PostsAreFresh(states: seq<System>, events: seq<Event>, i: nat, key: Id)
    requires Schedule(states, events) && i < |events| && Posts(states[i], events[i]) == Some(key)
    ensures key in states[i].world.orders && states[i].world.orders[key].status.Submitting?
    ensures states[i].world.orders[key] == states[i].sections[events[i].task].order.row
    ensures key !in states[i].world.broker.market && !IsSettled(states[i].world, key)
  {
    ScheduleIsGood(states, events, i);
  }

  predicate IsSettled(w: World, key: Id) {
    key in w.orders && w.orders[key].status.Terminal()
  }

  predicate Settles(a: Option<Action>, key: Id) {
    a.Some? && a.value.SettleOrder? && a.value.key == key
  }

  /** No order settled by one task, as never placed or otherwise, is posted afterwards by another. */
  lemma NeverPostedOnceSettled(states: seq<System>, events: seq<Event>, i: nat, j: nat, key: Id)
    requires Schedule(states, events) && i < |events| && j < |events|
    requires Settles(EventStep(states[i], events[i]), key) && Posts(states[j], events[j]) == Some(key)
    ensures j < i
  {
    SettlesForGood(states, events, i, key);
    PostsAreFresh(states, events, j, key);
    if i < j {
      SchedulePersists(states, events, i + 1, j);
      SettledStays(states[i + 1].world, states[j].world, key);
    } else if i == j {
      PostIsNoSettlement(states[i], events[i], key);
    }
  }

  lemma SettlesForGood(states: seq<System>, events: seq<Event>, i: nat, key: Id)
    requires Schedule(states, events) && i < |events| && Settles(EventStep(states[i], events[i]), key)
    ensures !IsSettled(states[i].world, key) && IsSettled(states[i + 1].world, key)
  {
    EventIsLegal(states, events, i);
    SettlementSettles(states[i].world, EventStep(states[i], events[i]).value, states[i + 1].world, key);
  }

  lemma SettlementSettles(v: World, a: Action, w: World, key: Id)
    requires IsStep(v, a, w) && Settles(Some(a), key)
    ensures !IsSettled(v, key) && IsSettled(w, key)
  {
  }

  lemma SettledStays(v: World, w: World, key: Id)
    requires Persists(v, w) && IsSettled(v, key)
    ensures IsSettled(w, key)
  {
  }

  lemma PostIsNoSettlement(s: System, e: Event, key: Id)
    requires Posts(s, e) == Some(key)
    ensures !Settles(EventStep(s, e), key)
  {
  }

  /** The order whose fill an event applies to a position. */
  function Applies(s: System, e: Event): Option<Id> {
    if EventStep(s, e).Some? then Books(EventStep(s, e).value) else None
  }

  /** However stale the listing the drain works from, a fill is applied at most once, and after its row
      has settled. */
  lemma AppliedOnce(states: seq<System>, events: seq<Event>, i: nat, j: nat, key: Id)
    requires Schedule(states, events) && i <= j < |events|
    requires Applies(states[i], events[i]) == Some(key) && Applies(states[j], events[j]) == Some(key)
    ensures i == j && key in states[i].world.orders && states[i].world.orders[key].status.Terminal()
  {
    AppliesOneFill(states, events, i, key);
    if i < j {
      AppliesOneFill(states, events, j, key);
      SchedulePersists(states, events, i + 1, j);
      BookedStays(states[i + 1].world, states[j].world, key);
    }
  }

  lemma AppliesOneFill(states: seq<System>, events: seq<Event>, i: nat, key: Id)
    requires Schedule(states, events) && i < |events| && Applies(states[i], events[i]) == Some(key)
    ensures key in states[i].world.orders && states[i].world.orders[key].status.Terminal()
    ensures !IsBooked(states[i].world, key) && IsBooked(states[i + 1].world, key)
  {
    EventIsLegal(states, events, i);
    BookingBooks(states[i].world, EventStep(states[i], events[i]).value, states[i + 1].world, key);
  }

  predicate IsBooked(w: World, key: Id) {
    key in w.broker.market && w.broker.market[key].booked
  }

  lemma BookedStays(v: World, w: World, key: Id)
    requires Persists(v, w) && IsBooked(v, key)
    ensures IsBooked(w, key)
  {
    assert Becomes(v.broker.market[key], w.broker.market[key]);
  }

  lemma BookingBooks(v: World, a: Action, w: World, key: Id)
    requires IsStep(v, a, w) && Books(a) == Some(key)
    ensures key in v.orders && v.orders[key].status.Terminal() && !IsBooked(v, key) && IsBooked(w, key)
  {
  }

  // ------------------------------------------------------------------ one position per fill

  /** The order an event writes a new position for. */
  function TakesFor(s: System, e: Event): Option<Id> {
    if EventStep(s, e).Some? then Takes(EventStep(s, e).value) else None
  }

  /** A position written for the order's fill has closed, and the order is still unresolved. */
  ghost predicate ClosedUnresolved(w: World, key: Id) {
    ClosedCarrier(w, key) && !IsSettled(w, key)
  }

  /** A position is written for the order's fill although, by then, one for it has closed while the order
      was unresolved. */
  ghost predicate TakenLate(states: seq<System>, events: seq<Event>, i: nat, key: Id)
    requires i < |events| < |states|
  {
    && TakesFor(states[i], events[i]) == Some(key)
    && exists j {:trigger states[j]} :: 0 <= j <= i && ClosedUnresolved(states[j].world, key)
  }

  ghost predicate NeverTakenLate(states: seq<System>, events: seq<Event>, n: nat, key: Id)
    requires n <= |events| < |states|
  {
    forall i :: 0 <= i < n ==> !TakenLate(states, events, i, key)
  }

  ghost predicate HoldsSettled(s: System, t: L.Task, key: Id) {
    t in s.sections && s.sections[t].order == OrderPart.Settled(key)
  }

  /** A section that holds a settled order held it before the last event, or has just settled it; either
      way no position for it has closed in that event. */
  lemma SettledWas(s: System, e: Event, t: L.Task, key: Id)
    requires Good(s) && CanHappen(s, e) && HoldsSettled(Happen(s, e), t, key)
    ensures ClosedCarrier(Happen(s, e).world, key) <==> ClosedCarrier(s.world, key)
    ensures HoldsSettled(s, t, key) || !IsSettled(s.world, key)
  {
    if e.Act? {
      ActingTask(s, e, t, key);
      SectionKeepsCarriers(s.world, s.sections[t], e.move, key);
    } else {
      hide Good;
      WaitingTask(s, e, t, key);
    }
  }

  lemma WaitingTask(s: System, e: Event, t: L.Task, key: Id)
    requires CanHappen(s, e) && !e.Act? && HoldsSettled(Happen(s, e), t, key)
    ensures HoldsSettled(s, t, key) && Happen(s, e).world.positions == s.world.positions
  {
  }

  lemma ActingTask(s: System, e: Event, t: L.Task, key: Id)
    requires Good(s) && CanHappen(s, e) && e.Act? && HoldsSettled(Happen(s, e), t, key)
    ensures e.task == t && t in s.sections && Moved(s.world, s.sections[t], e.move).0.order == OrderPart.Settled(key)
  {
    OnlyOneInside(s, e.task);
  }

  lemma SectionKeepsCarriers(w: World, s: Section, move: Move, key: Id)
    requires CanMove(w, s, move) && Moved(w, s, move).0.order == OrderPart.Settled(key)
    ensures ClosedCarrier(Moved(w, s, move).1, key) <==> ClosedCarrier(w, key)
    ensures s.order == OrderPart.Settled(key) || !IsSettled(w, key)
  {
    var after := Moved(w, s, move).1;
    if move.Other? && move.other.Protect? {
      assert forall p :: p in w.positions ==> after.positions[p].openKey == w.positions[p].openKey
                                              && after.positions[p].Open() == w.positions[p].Open();
    } else {
      assert after.positions == w.positions;
    }
  }

  /** A section that settled an order found every closed position for it closed before the settlement. */
  lemma {:induction false} SettledFoundClosed(states: seq<System>, events: seq<Event>, i: nat, t: L.Task, key: Id)
    returns (j: nat)
    requires Schedule(states, events) && i <= |events|
    requires HoldsSettled(states[i], t, key) && ClosedCarrier(states[i].world, key)
    ensures j <= i && ClosedUnresolved(states[j].world, key)
  {
    hide Good, Inv, CanHappen, ClosedCarrier, IsStepOrNone;
    EventIsLegal(states, events, i - 1);
    SettledWas(states[i - 1], events[i - 1], t, key);
    if IsSettled(states[i - 1].world, key) {
      j := SettledFoundClosed(states, events, i - 1, t, key);
    } else {
      j := i - 1;
    }
  }

  /** Whoever writes a position for a fill finds an earlier one closed exactly if one closed while the order
      was unresolved. */
  lemma TakingFindsClosedIff(states: seq<System>, events: seq<Event>, i: nat, key: Id)
    requires Schedule(states, events) && i < |events| && TakesFor(states[i], events[i]) == Some(key)
    ensures ClosedCarrier(states[i].world, key) <==> TakenLate(states, events, i, key)
  {
    EventIsLegal(states, events, i);
    if ClosedCarrier(states[i].world, key) {
      var step := EventStep(states[i], events[i]).value;
      var j: nat := i;
      if step.OpenRow? {
        OpeningFollowsSettlement(states[i], events[i], key);
        j := SettledFoundClosed(states, events, i, events[i].task, key);
      } else {
        AdoptionIsUnresolved(states[i].world, step, key);
      }
      assert ClosedUnresolved(states[j].world, key);
    }
    if j :| 0 <= j <= i && ClosedUnresolved(states[j].world, key) {
      SchedulePersists(states, events, j, i);
      ClosedStays(states[j].world, states[i].world, key);
    }
  }

  lemma OpeningFollowsSettlement(s: System, e: Event, key: Id)
    requires CanHappen(s, e) && TakesFor(s, e) == Some(key) && EventStep(s, e).value.OpenRow?
    ensures e.Act? && HoldsSettled(s, e.task, key)
  {
  }

  lemma AdoptionIsUnresolved(w: World, a: Action, key: Id)
    requires Enabled(w, a) && Takes(a) == Some(key) && !a.OpenRow?
    ensures !IsSettled(w, key)
  {
  }

  lemma ClosedStays(v: World, w: World, key: Id)
    requires PositionsPersist(v, w) && ClosedCarrier(v, key)
    ensures ClosedCarrier(w, key)
  {
    var p :| p in v.positions && v.positions[p].openKey == key && !v.positions[p].Open();
    assert p in w.positions;
  }

  /** Adoption counted too, an order's fill becomes at most one position if and only if none is written for
      it once an earlier one has closed while the order was unresolved: an opening is the settling
      section's own, so it finds what was open at the settlement still open. */
  lemma {:induction false} OnePositionIff(states: seq<System>, events: seq<Event>, n: nat, key: Id)
    requires Schedule(states, events) && n <= |events| && Carriers(states[0].world.positions, key) == {}
    ensures |Carriers(states[n].world.positions, key)| <= 1 <==> NeverTakenLate(states, events, n, key)
  {
    if n > 0 {
      OnePositionIff(states, events, n - 1, key);
      EventIsLegal(states, events, n - 1);
      EventTakesOnce(states[n - 1], events[n - 1], states[n], key);
      if TakesFor(states[n - 1], events[n - 1]) == Some(key) {
        TakingFindsClosedIff(states, events, n - 1, key);
      }
      NotTakenOnceMore(states, events, n, key);
    }
  }

  lemma EventTakesOnce(s: System, e: Event, r: System, key: Id)
    requires Good(s) && IsStepOrNone(s.world, EventStep(s, e), r.world)
    ensures TakesFor(s, e) != Some(key) ==> Carriers(r.world.positions, key) == Carriers(s.world.positions, key)
    ensures TakesFor(s, e) == Some(key) ==> (|Carriers(r.world.positions, key)| <= 1 <==> !ClosedCarrier(s.world, key))
    ensures |Carriers(s.world.positions, key)| <= |Carriers(r.world.positions, key)|
  {
    if EventStep(s, e).Some? {
      OneMorePosition(s.world, EventStep(s, e).value, r.world, key);
    }
  }

  lemma NotTakenOnceMore(states: seq<System>, events: seq<Event>, n: nat, key: Id)
    requires 0 < n <= |events| < |states|
    ensures NeverTakenLate(states, events, n, key) <==>
            NeverTakenLate(states, events, n - 1, key) && !TakenLate(states, events, n - 1, key)
  {
  }

  // ------------------------------------------------------------------ without the locks

  /** Without the locks it is not so: of two sections inside at once, one settles as never placed what
      the other has recorded, and the other still posts it. */
  lemma UnlockedPostFollowsSettlement() returns (w: World, recorder: Section, drain: Section)
    ensures Inv(w) && Holds(w, recorder) && Holds(w, drain)
    ensures var settle := Settle(Rejected, 0, None, None);
            && CanMove(w, drain, Learn) && CanMove(w, Moved(w, drain, Learn).0, settle)
            && var after := Moved(w, Moved(w, drain, Learn).0, settle).1;
            && CanMove(after, recorder, Post(true)) && IsSettled(after, recorder.order.key)
  {
    var key := Ours(0);
    w := World(map[key := ENTERING], map[], map[], Broker(map[], map[], map[]));
    recorder, drain := Section(Recorded(key, ENTERING), NoStop), Section(Listed(key), NoStop);
  }

  ghost predicate StaysInside(states: seq<System>, t: L.Task, i: nat, j: nat)
    requires i <= j < |states|
  {
    forall n {:trigger states[n]} :: i <= n <= j ==> t in states[n].sections
  }

  /** From a task's entering to its leaving nobody else calls the database or the broker, and no crash or
      reconciliation falls in between: only the exchange moves. */
  lemma SectionIsAlone(states: seq<System>, events: seq<Event>, t: L.Task, i: nat, n: nat, j: nat)
    requires Schedule(states, events) && i <= n < j <= |events| && StaysInside(states, t, i, j)
    ensures events[n].Act? ==> events[n].task == t
    ensures !events[n].Startup? && !events[n].Crash?
    ensures !events[n].Act? && !events[n].Outside? ==> states[n + 1].world == states[n].world
  {
    EventIsLegal(states, events, n);
    OnlyOneInside(states[n], t);
    assert t in states[n + 1].sections;
  }

  lemma OneMoreOrNone(trace: seq<World>, log: seq<Action>, a: Option<Action>, w: World)
    returns (trace': seq<World>, log': seq<Action>)
    requires IsRun(trace, log) && IsStepOrNone(trace[|log|], a, w)
    ensures IsRun(trace', log') && trace'[0] == trace[0] && trace'[|log'|] == w
  {
    trace', log' := trace, log;
    if a.Some? {
      OneMore(trace, log, a.value, w);
      trace', log' := trace + [w], log + [a.value];
    }
  }

  /** The run of `Protocol` a schedule amounts to. */
  lemma {:induction false} ScheduleIsRun(states: seq<System>, events: seq<Event>, n: nat)
    returns (trace: seq<World>, log: seq<Action>)
    requires Schedule(states, events) && n <= |events|
    ensures IsRun(trace, log) && trace[0] == states[0].world && trace[|log|] == states[n].world
  {
    if n == 0 {
      trace, log := [states[0].world], [];
    } else {
      trace, log := ScheduleIsRun(states, events, n - 1);
      EventIsLegal(states, events, n - 1);
      trace, log := OneMoreOrNone(trace, log, EventStep(states[n - 1], events[n - 1]), states[n].world);
    }
  }
}
