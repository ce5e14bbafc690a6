/** Ticker locks, the global lock and the registry lock, under every interleaving of any number of
    tasks: the trading loop, the shutdown drain, and whatever else enters the executor.
 */
module Locks {
  import opened Models

  type Task = nat

  /** Where a task stands in `async with registry: ...; async with lock, global_lock: ...`. */
  datatype Place =
    | Outside
    | AtRegistry(ticker: string)
    | Registering(ticker: string)
    | AtTicker(ticker: string)
    | AtGlobal(ticker: string)
    | Inside(ticker: string)

  datatype Locks = Locks(registry: Option<Task>, tickers: map<string, Option<Task>>, global: Option<Task>,
                         places: map<Task, Place>)
  {
    function At(t: Task): Place {
      if t in places then places[t] else Outside
    }

    function Put(t: Task, p: Place): Locks {
      this.(places := places[t := p])
    }
  }

  const FREE := Locks(None, map[], None, map[])

  datatype Step = Ask(ticker: string) | Acquire | Register | Leave

  /** A step a task can take now: a lock is acquired only while nobody holds it. Leaving covers an
      exception and a cancellation as much as a normal exit. */
  predicate Can(s: Locks, t: Task, step: Step) {
    match step
    case Ask(_) => s.At(t).Outside?
    case Acquire =>
      (match s.At(t)
       case AtRegistry(_) => s.registry.None?
       case AtTicker(k) => k in s.tickers && s.tickers[k].None?
       case AtGlobal(_) => s.global.None?
       case _ => false)
    case Register => s.At(t).Registering?
    case Leave => !s.At(t).Outside?
  }

  function Do(s: Locks, t: Task, step: Step): Locks
    requires Can(s, t, step)
  {
    match step
    case Ask(k) => s.Put(t, AtRegistry(k))
    case Acquire =>
      (match s.At(t)
       case AtRegistry(k) => s.(registry := Some(t)).Put(t, Registering(k))
       case AtTicker(k) => s.(tickers := s.tickers[k := Some(t)]).Put(t, AtGlobal(k))
       case AtGlobal(k) => s.(global := Some(t)).Put(t, Inside(k))
       case _ => s)
    case Register =>
      // the lock object is created on first use; the registry lock is released here
      var k := s.At(t).ticker;
      var tickers := if k in s.tickers then s.tickers else s.tickers[k := None];
      s.(registry := None, tickers := tickers).Put(t, AtTicker(k))
    case Leave =>
      (match s.At(t)
       case Registering(_) => s.(registry := None).Put(t, Outside)
       case AtGlobal(k) => s.(tickers := s.tickers[k := None]).Put(t, Outside)
       case Inside(k) => s.(tickers := s.tickers[k := None], global := None).Put(t, Outside)
       case _ => s.Put(t, Outside))
  }

  /** Each lock is held by exactly the one whose place says so. */
  ghost predicate Held(s: Locks) {
    && (forall t: Task :: s.registry == Some(t) <==> s.At(t).Registering?)
    && (forall t: Task :: s.global == Some(t) <==> s.At(t).Inside?)
    && (forall t: Task, k :: (k in s.tickers && s.tickers[k] == Some(t))
                       <==> (s.At(t) == AtGlobal(k) || s.At(t) == Inside(k)))
    && (forall t: Task :: s.At(t).AtTicker? ==> s.At(t).ticker in s.tickers)
  }

  datatype Event = Event(task: Task, step: Step)

  /** A schedule: steps of any number of tasks in any order. */
  ghost predicate Schedule(states: seq<Locks>, events: seq<Event>) {
    && |states| == |events| + 1 && states[0] == FREE
    && (forall i {:trigger events[i]} :: 0 <= i < |events| ==>
          Can(states[i], events[i].task, events[i].step)
          && states[i + 1] == Do(states[i], events[i].task, events[i].step))
  }

  lemma AcquiringKeepsHeld(s: Locks, t: Task)
    requires Held(s) && Can(s, t, Acquire)
    ensures Held(Do(s, t, Acquire))
  {
  }

  lemma LeavingKeepsHeld(s: Locks, t: Task)
    requires Held(s) && Can(s, t, Leave)
    ensures Held(Do(s, t, Leave))
  {
  }

  lemma StepKeepsHeld(s: Locks, t: Task, step: Step)
    requires Held(s) && Can(s, t, step)
    ensures Held(Do(s, t, step))
  {
    match step
    case Ask(_) =>
    case Acquire => AcquiringKeepsHeld(s, t);
    case Register =>
    case Leave => LeavingKeepsHeld(s, t);
  }

  lemma {:induction false} ScheduleKeepsHeld(states: seq<Locks>, events: seq<Event>, i: nat)
    requires Schedule(states, events) && i <= |events|
    ensures Held(states[i])
  {
    if i > 0 {
      ScheduleKeepsHeld(states, events, i - 1);
      StepKeepsHeld(states[i - 1], events[i - 1].task, events[i - 1].step);
    }
  }

  /** Executor sections are mutually exclusive, on all tickers together. */
  lemma MutualExclusion(states: seq<Locks>, events: seq<Event>, i: nat, t: Task, u: Task)
    requires Schedule(states, events) && i <= |events|
    requires states[i].At(t).Inside? && states[i].At(u).Inside?
    ensures t == u
  {
    ScheduleKeepsHeld(states, events, i);
  }

  /** Who moves next: follow whoever holds the lock being waited for. The ticker lock is
      always taken before the global one, so the chain has at most two links. */
  lemma SomeoneCanMove(states: seq<Locks>, events: seq<Event>, i: nat, waiting: Task) returns (next: Task, step: Step)
    requires Schedule(states, events) && i <= |events| && !states[i].At(waiting).Outside?
    ensures Can(states[i], next, step) && !states[i].At(next).Outside?
    ensures step == Acquire || step == Register || (step == Leave && states[i].At(next).Inside?)
  {
    ScheduleKeepsHeld(states, events, i);
    var s := states[i];
    next := waiting;
    if s.At(next).AtRegistry? && s.registry.Some? {
      next := s.registry.value;
    }
    if s.At(next).AtTicker? && s.tickers[s.At(next).ticker].Some? {
      next := s.tickers[s.At(next).ticker].value;
    }
    if s.At(next).AtGlobal? && s.global.Some? {
      next := s.global.value;
    }
    step := if s.At(next).Inside? then Leave else if s.At(next).Registering? then Register else Acquire;
  }
}
