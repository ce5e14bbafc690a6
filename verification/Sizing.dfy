/** Position sizing, the entry gate, and what a run of approved entries can add up to. */
module Sizing {
  import opened Collections
  import opened Models

  function Least(a: real, b: real): real {
    if a <= b then a else b
  }

  function Budget(capital: real, sizePct: real): real {
    capital * sizePct / 100.0
  }

  function LotCost(lot: nat, price: real): real {
    lot as real * price
  }

  /** The smallest of budget, headroom and spendable cash. */
  function Bound(capital: real, cash: real, sizePct: real, openCost: real, reservePct: real): real {
    Least(Least(Budget(capital, sizePct), capital - openCost), cash * (100.0 - reservePct) / 100.0)
  }

  function WholeLots(bound: real, lotCost: real): int {
    if lotCost <= 0.0 || bound < lotCost then 0 else (bound / lotCost).Floor
  }

  function SizePosition(price: real, lot: nat, capital: real, cash: real, sizePct: real, openCost: real,
                        reservePct: real): int {
    WholeLots(Bound(capital, cash, sizePct, openCost, reservePct), LotCost(lot, price))
  }

  predicate Pays(bound: real, lotCost: real, lots: nat) {
    lots as real * lotCost <= bound
  }

  /** The largest whole number of lots the bound pays for, and none where it pays for none. */
  lemma LargestAffordable(bound: real, lotCost: real)
    requires lotCost > 0.0
    ensures var lots := WholeLots(bound, lotCost);
            && lots >= 0 && (lots > 0 ==> Pays(bound, lotCost, lots))
            && forall n: nat :: n > 0 && Pays(bound, lotCost, n) ==> n <= lots
  {
    if bound >= lotCost {
      Quotient(bound, lotCost);
    }
    forall n: nat | n > 0 && Pays(bound, lotCost, n) ensures n <= WholeLots(bound, lotCost) {
      AtLeastOne(n, lotCost);
      NoMoreThanQuotient(n, bound, lotCost);
    }
  }

  lemma Quotient(bound: real, lotCost: real)
    requires 0.0 < lotCost <= bound
    ensures (bound / lotCost).Floor >= 1 && (bound / lotCost).Floor as real * lotCost <= bound
  {
    var q := bound / lotCost;
    assert q * lotCost == bound;
    assert q < 1.0 ==> (1.0 - q) * lotCost > 0.0;
    var n := q.Floor as real;
    assert (q - n) * lotCost >= 0.0;
  }

  lemma AtLeastOne(n: nat, lotCost: real)
    requires n > 0 && lotCost > 0.0
    ensures n as real * lotCost >= lotCost
  {
    assert (n as real - 1.0) * lotCost >= 0.0;
  }

  lemma NoMoreThanQuotient(n: nat, bound: real, lotCost: real)
    requires lotCost > 0.0 && n as real * lotCost <= bound
    ensures n <= (bound / lotCost).Floor
  {
    var q, m := bound / lotCost, n as real;
    assert q * lotCost == bound;
    assert m > q ==> (m - q) * lotCost > 0.0;
  }

  // ------------------------------------------------------------------ the gate

  datatype Config = Config(capital: real, sizePct: real, reservePct: real, maxOpen: nat)

  datatype Holding = Holding(ticker: string, lots: nat, lotSize: nat, entry: real)

  datatype Portfolio = Portfolio(cash: real, positions: seq<Holding>)

  datatype Signal = Signal(ticker: string, side: Side, price: real)

  datatype Circumstances = Circumstances(lot: nat, trading: bool, cooldown: bool, sessionOpen: bool, halted: bool)

  datatype Reason =
    | Halted | SessionClosed | NotTrading | DuplicateTicker | MaxPositions | Cooldown
    | InsufficientCash | Exposure | ZeroLots

  datatype Decision = Approved(lots: nat) | Declined(reason: Reason)

  function CostOf(p: Holding): real {
    LotCost(p.lots * p.lotSize, p.entry)
  }

  function OpenCost(positions: seq<Holding>): real {
    SumOf(positions, CostOf)
  }

  predicate Holds(positions: seq<Holding>, ticker: string) {
    exists i :: 0 <= i < |positions| && positions[i].ticker == ticker
  }

  function Check(s: Signal, state: Portfolio, at: Circumstances, c: Config): Decision {
    if at.halted then Declined(Halted)
    else if !at.sessionOpen then Declined(SessionClosed)
    else if !at.trading then Declined(NotTrading)
    else if Holds(state.positions, s.ticker) then Declined(DuplicateTicker)
    else if |state.positions| >= c.maxOpen then Declined(MaxPositions)
    else if at.cooldown then Declined(Cooldown)
    else if state.cash < LotCost(at.lot, s.price) then Declined(InsufficientCash)
    else if c.capital - OpenCost(state.positions) < LotCost(at.lot, s.price) then Declined(Exposure)
    else if s.side != Buy then Declined(ZeroLots)
    else
      var lots := SizePosition(s.price, at.lot, c.capital, state.cash, c.sizePct, OpenCost(state.positions),
                               c.reservePct);
      if lots > 0 then Approved(lots) else Declined(ZeroLots)
  }

  /** What an approved entry adds when it is booked at the reference price. */
  function Entered(s: Signal, lots: nat, at: Circumstances): Holding {
    Holding(s.ticker, lots, at.lot, s.price)
  }

  /** An approval fits under every bound at once. */
  lemma ApprovalFits(s: Signal, state: Portfolio, at: Circumstances, c: Config)
    requires Check(s, state, at, c).Approved?
    ensures var lots := Check(s, state, at, c).lots;
            && !Holds(state.positions, s.ticker) && |state.positions| < c.maxOpen && lots > 0
            && 0.0 < CostOf(Entered(s, lots, at)) <= Budget(c.capital, c.sizePct)
            && OpenCost(state.positions) + CostOf(Entered(s, lots, at)) <= c.capital
            && CostOf(Entered(s, lots, at)) <= state.cash * (100.0 - c.reservePct) / 100.0
  {
    hide LotCost, WholeLots, Budget;
    var bound := Bound(c.capital, state.cash, c.sizePct, OpenCost(state.positions), c.reservePct);
    SizedCost(bound, at.lot, s.price);
    LeastOfAll(Budget(c.capital, c.sizePct), c.capital - OpenCost(state.positions),
               state.cash * (100.0 - c.reservePct) / 100.0);
  }

  lemma LeastOfAll(a: real, b: real, c: real)
    ensures Least(Least(a, b), c) <= a && Least(Least(a, b), c) <= b && Least(Least(a, b), c) <= c
  {
  }

  lemma SizedCost(bound: real, lot: nat, price: real)
    requires WholeLots(bound, LotCost(lot, price)) > 0
    ensures 0.0 < LotCost(WholeLots(bound, LotCost(lot, price)) * lot, price) <= bound
  {
    var lotCost := LotCost(lot, price);
    var lots := WholeLots(bound, lotCost);
    LargestAffordable(bound, lotCost);
    LotsTimesLot(lots, lot, price);
    AtLeastOne(lots, lotCost);
  }

  lemma LotsTimesLot(lots: nat, lot: nat, price: real)
    ensures LotCost(lots * lot, price) == lots as real * LotCost(lot, price)
  {
    assert (lots * lot) as real == lots as real * lot as real;
    var a, b := lots as real, lot as real;
    assert (a * b) * price == a * (b * price);
  }

  // ------------------------------------------------------------------ why an entry is declined

  /** So many lots cost no more than one budget, than what is left of the capital, and than the cash beside the
      reserve. */
  predicate Fits(n: nat, s: Signal, state: Portfolio, at: Circumstances, c: Config) {
    var cost := (n * at.lot) as real * s.price;
    && cost * 100.0 <= c.capital * c.sizePct && OpenCost(state.positions) + cost <= c.capital
    && cost * 100.0 <= state.cash * (100.0 - c.reservePct)
  }

  /** The reasons that apply, each by itself. */
  ghost predicate Applies(r: Reason, s: Signal, state: Portfolio, at: Circumstances, c: Config) {
    match r
    case Halted => at.halted
    case SessionClosed => !at.sessionOpen
    case NotTrading => !at.trading
    case DuplicateTicker => exists p :: p in state.positions && p.ticker == s.ticker
    case MaxPositions => |state.positions| >= c.maxOpen
    case Cooldown => at.cooldown
    case InsufficientCash => state.cash < at.lot as real * s.price
    case Exposure => c.capital < OpenCost(state.positions) + at.lot as real * s.price
    case ZeroLots =>
      || s.side.Sell? || at.lot as real * s.price <= 0.0
      || forall n: nat :: n > 0 ==> !Fits(n, s, state, at, c)
  }

  /** The order in which the reasons take precedence. */
  const PRIORITY: seq<Reason> :=
    [Halted, SessionClosed, NotTrading, DuplicateTicker, MaxPositions, Cooldown, InsufficientCash, Exposure, ZeroLots]

  /** The gate gives the first reason that applies, whatever else does; an entry no reason applies to is approved
      for the largest number of lots that fits. */
  lemma FirstReasonGiven(s: Signal, state: Portfolio, at: Circumstances, c: Config)
    ensures match Check(s, state, at, c)
            case Declined(r) =>
              exists i :: 0 <= i < |PRIORITY| && PRIORITY[i] == r && Applies(r, s, state, at, c)
                          && forall j :: 0 <= j < i ==> !Applies(PRIORITY[j], s, state, at, c)
            case Approved(lots) =>
              && (forall r :: !Applies(r, s, state, at, c)) && lots > 0 && Fits(lots, s, state, at, c)
              && forall n: nat :: n > 0 && Fits(n, s, state, at, c) ==> n <= lots
  {
    hide WholeLots, Fits, SumOf;
    HoldsTicker(state.positions, s.ticker);
    LargestFits(s, state, at, c);
    match Check(s, state, at, c)
    case Declined(r) =>
      var i := Place(r);
      assert PRIORITY[i] == r;
    case Approved(_) =>
  }

  /** Where a reason stands in the order. */
  function Place(r: Reason): (i: nat)
    ensures i < |PRIORITY| && PRIORITY[i] == r
  {
    match r
    case Halted => 0
    case SessionClosed => 1
    case NotTrading => 2
    case DuplicateTicker => 3
    case MaxPositions => 4
    case Cooldown => 5
    case InsufficientCash => 6
    case Exposure => 7
    case ZeroLots => 8
  }

  lemma HoldsTicker(positions: seq<Holding>, ticker: string)
    ensures Holds(positions, ticker) <==> exists p :: p in positions && p.ticker == ticker
  {
    if p :| p in positions && p.ticker == ticker {
      var i :| 0 <= i < |positions| && positions[i] == p;
    }
  }

  lemma LargestFits(s: Signal, state: Portfolio, at: Circumstances, c: Config)
    ensures var lots := SizePosition(s.price, at.lot, c.capital, state.cash, c.sizePct, OpenCost(state.positions),
                                     c.reservePct);
            if LotCost(at.lot, s.price) <= 0.0 then lots == 0
            else
              && lots >= 0 && (lots > 0 ==> Fits(lots, s, state, at, c))
              && forall n: nat :: n > 0 && Fits(n, s, state, at, c) ==> n <= lots
  {
    hide LotCost, WholeLots;
    var bound := Bound(c.capital, state.cash, c.sizePct, OpenCost(state.positions), c.reservePct);
    var lotCost := LotCost(at.lot, s.price);
    if lotCost > 0.0 {
      LargestAffordable(bound, lotCost);
      forall n: nat ensures Fits(n, s, state, at, c) <==> Pays(bound, lotCost, n) {
        FitsIffPays(n, s, state, at, c);
      }
    } else {
      assert WholeLots(bound, lotCost) == 0 by {
        NoneAffordable(bound, lotCost);
      }
    }
  }

  lemma NoneAffordable(bound: real, lotCost: real)
    requires lotCost <= 0.0
    ensures WholeLots(bound, lotCost) == 0
  {
  }

  lemma FitsIffPays(n: nat, s: Signal, state: Portfolio, at: Circumstances, c: Config)
    ensures Fits(n, s, state, at, c) <==>
            Pays(Bound(c.capital, state.cash, c.sizePct, OpenCost(state.positions), c.reservePct),
                 LotCost(at.lot, s.price), n)
  {
    hide OpenCost, LotCost;
    var cost := LotCost(n * at.lot, s.price);
    LotsTimesLot(n, at.lot, s.price);
    InUnits(n, at.lot, s.price);
    Hundredth(cost, c.capital * c.sizePct);
    Hundredth(cost, state.cash * (100.0 - c.reservePct));
    WithinLeast(cost, Budget(c.capital, c.sizePct), c.capital - OpenCost(state.positions),
                state.cash * (100.0 - c.reservePct) / 100.0);
  }

  lemma InUnits(n: nat, lot: nat, price: real)
    ensures LotCost(n * lot, price) == (n * lot) as real * price
  {
  }

  lemma WithinLeast(x: real, a: real, b: real, c: real)
    ensures x <= Least(Least(a, b), c) <==> x <= a && x <= b && x <= c
  {
  }

  lemma Hundredth(a: real, b: real)
    ensures a * 100.0 <= b <==> a <= b / 100.0
  {
  }

  // ------------------------------------------------------------------ runs of entries

  /** What happens to the portfolio: an approved entry booked at its reference price, a position
      leaving, or cash moving for any other reason. */
  datatype Event =
    | Enter(signal: Signal, circumstances: Circumstances)
    | Leave(index: nat)
    | CashMoves(cash: real)

  predicate Happens(state: Portfolio, e: Event, c: Config) {
    match e
    case Enter(s, at) => Check(s, state, at, c).Approved?
    case Leave(i) => i < |state.positions|
    case CashMoves(_) => true
  }

  function After(state: Portfolio, e: Event, c: Config): Portfolio
    requires Happens(state, e, c)
  {
    match e
    case Enter(s, at) =>
      var entered := Entered(s, Check(s, state, at, c).lots, at);
      Portfolio(state.cash - CostOf(entered), state.positions + [entered])
    case Leave(i) => state.(positions := state.positions[..i] + state.positions[i + 1..])
    case CashMoves(cash) => state.(cash := cash)
  }

  /** Cost within the capital, count within the maximum, tickers distinct, each within one budget. */
  ghost predicate WithinLimits(state: Portfolio, c: Config) {
    && OpenCost(state.positions) <= c.capital && |state.positions| <= c.maxOpen
    && (forall i, j :: 0 <= i < j < |state.positions| ==> state.positions[i].ticker != state.positions[j].ticker)
    && EachWithinBudget(state.positions, c)
  }

  ghost predicate EachWithinBudget(positions: seq<Holding>, c: Config) {
    forall i :: 0 <= i < |positions| ==> 0.0 <= CostOf(positions[i]) <= Budget(c.capital, c.sizePct)
  }

  lemma LeavingCosts(positions: seq<Holding>, i: nat)
    requires i < |positions|
    ensures OpenCost(positions) == OpenCost(positions[..i] + positions[i + 1..]) + CostOf(positions[i])
  {
    SumOfConcat(positions[..i], positions[i..], CostOf);
    SumOfConcat(positions[..i], positions[i + 1..], CostOf);
    assert positions[..i] + positions[i..] == positions;
    assert positions[i..][1..] == positions[i + 1..];
  }

  lemma EnteringCosts(positions: seq<Holding>, p: Holding)
    ensures OpenCost(positions + [p]) == OpenCost(positions) + CostOf(p)
  {
    SumOfConcat(positions, [p], CostOf);
    assert SumOf([p], CostOf) == CostOf(p) + SumOf([], CostOf) by {
      assert [p][1..] == [];
    }
  }

  /** One more position adds its units at its entry price. */
  lemma CostsAddUp(positions: seq<Holding>, p: Holding)
    ensures OpenCost(positions + [p]) == OpenCost(positions) + (p.lots * p.lotSize) as real * p.entry
    ensures OpenCost([]) == 0.0
  {
    EnteringCosts(positions, p);
  }

  lemma EventKeepsLimits(state: Portfolio, e: Event, c: Config)
    requires WithinLimits(state, c) && Happens(state, e, c)
    ensures WithinLimits(After(state, e, c), c)
  {
    match e
    case Enter(s, at) =>
      ApprovalFits(s, state, at, c);
      var entered := Entered(s, Check(s, state, at, c).lots, at);
      EnteringCosts(state.positions, entered);
    case Leave(i) => LeavingCosts(state.positions, i);
    case CashMoves(_) =>
  }

  ghost predicate IsHistory(states: seq<Portfolio>, events: seq<Event>, c: Config) {
    && |states| == |events| + 1
    && (forall i {:trigger events[i]} :: 0 <= i < |events| ==>
          Happens(states[i], events[i], c) && states[i + 1] == After(states[i], events[i], c))
  }

  /** Whatever is approved, in whatever order, the limits hold throughout. */
  lemma {:induction false} HistoryKeepsLimits(states: seq<Portfolio>, events: seq<Event>, c: Config, i: nat)
    requires IsHistory(states, events, c) && WithinLimits(states[0], c) && i <= |events|
    ensures WithinLimits(states[i], c)
  {
    if i > 0 {
      HistoryKeepsLimits(states, events, c, i - 1);
      EventKeepsLimits(states[i - 1], events[i - 1], c);
    }
  }

  // ------------------------------------------------------------------ the configuration cross-check

  lemma {:induction false} SumWithinBudgets(positions: seq<Holding>, cost: Holding -> real, budget: real)
    requires forall i :: 0 <= i < |positions| ==> cost(positions[i]) <= budget
    ensures SumOf(positions, cost) <= |positions| as real * budget
  {
    if positions != [] {
      SumWithinBudgets(positions[1..], cost, budget);
      OneMoreBudget(|positions| - 1, |positions|, budget);
    }
  }

  lemma OneMoreBudget(n: nat, m: nat, budget: real)
    requires m == n + 1
    ensures m as real * budget == n as real * budget + budget
  {
  }

  /** Where the maximum number of full positions fits the capital, headroom never narrows a position
      below its budget: only cash can. */
  lemma HeadroomNeverBinds(state: Portfolio, c: Config)
    requires c.capital > 0.0 && c.sizePct >= 0.0 && c.maxOpen as real * c.sizePct <= 100.0
    requires WithinLimits(state, c) && |state.positions| < c.maxOpen
    ensures c.capital - OpenCost(state.positions) >= Budget(c.capital, c.sizePct)
    ensures Bound(c.capital, state.cash, c.sizePct, OpenCost(state.positions), c.reservePct)
            == Least(Budget(c.capital, c.sizePct), state.cash * (100.0 - c.reservePct) / 100.0)
  {
    var budget := Budget(c.capital, c.sizePct);
    SumWithinBudgets(state.positions, CostOf, budget);
    FullBookFits(c.capital, c.sizePct, c.maxOpen, budget);
    RoomFor(|state.positions|, c.maxOpen, OpenCost(state.positions), c.capital, budget);
  }

  lemma RoomFor(n: nat, m: nat, cost: real, capital: real, budget: real)
    requires n < m && budget >= 0.0 && cost <= n as real * budget && m as real * budget <= capital
    ensures capital - cost >= budget
  {
    OneMoreBudget(n, n + 1, budget);
    MoreBudgets(n + 1, m, budget);
  }

  lemma FullBookFits(capital: real, sizePct: real, maxOpen: nat, budget: real)
    requires capital > 0.0 && sizePct >= 0.0 && maxOpen as real * sizePct <= 100.0 && budget == Budget(capital, sizePct)
    ensures budget >= 0.0 && maxOpen as real * budget <= capital
  {
    var m := maxOpen as real;
    assert (100.0 - m * sizePct) * capital >= 0.0;
    assert m * (capital * sizePct) == (m * sizePct) * capital;
    assert capital * sizePct >= 0.0;
  }

  lemma MoreBudgets(n: nat, m: nat, budget: real)
    requires n <= m && budget >= 0.0
    ensures n as real * budget <= m as real * budget
  {
    assert (m as real - n as real) * budget >= 0.0;
  }
}
