# Verified model of the trading bot

This project models a trading bot that keeps its orders, positions and standing stops in a local database and trades
through a broker that keeps its own. It proves what the bot relies on when it is stopped at any moment: no order is sent
twice, no settled fill is applied twice (a fill taken up by adoption can be, and it is shown when), every stop has one
owner, lots are conserved, and a restart finds its way back.

## The protocol

`Protocol` holds the two sides as one `World`: the three tables (orders, positions, stop rows) and the broker (market
orders by key, stops, lots per ticker). Every committed write, every request that reaches the broker, and every move of
the exchange or of the account's owner is one `Action` with a guard (`Enabled`) and an effect (`Apply`). A run is any
sequence of enabled steps, so every crash point is a prefix of one, and a restart continues it (`CrashJoinsRuns`).

`Bots.Bot` is the bot as an object: its tables and its account are fields, each awaited call is a method, and each method
notes the steps it takes in a ghost log that `Valid` keeps a legal run. Before and after each call the exchange may fill,
finish, fire and list stops at will, replies may be lost, and posts may or may not arrive. `Executor`, `Reconciliation`,
`Remedies`, `Repair`, `Sessions` and `Startup` are the program's own procedures written over those calls, in its order and
with its branches. `Runs` holds the induction over runs that the simulated exchange and the schedules share.

`Locks` has the executor's three kinds of lock under every interleaving of any number of tasks. `Interleaving` puts the
sections inside them: each task has its place in the locks and what it holds of the order it is about, calls are made only
inside, a post checks nothing, and crashes and the exchange come at any moment. That every call is then a legal step, and
that nobody else's falls between two calls of a section, is proved; it is what lets `Executor` be read one section at a time.

The ledger of a ticker (`Gap`) is broker lots minus open lots, minus the fills no position accounts for yet, plus
executed stops not booked yet. `Imbalance` counts the fills of unresolved exits only, as recovery does; the two differ
by the exits that settled without moving a position (`LostExits`). A crash between the settlement of an exit and its
booking does lose one, until reconciliation corrects the row. `even` records that every step so far left the ledger
alone; `Sessions` shows that trading cycles, with the shutdown drain beside them, leave both alone and lose no exit,
as long as the log is `Uncontested`: no order is recorded on a ticker where one is still in flight, and no exit where
nothing is open, which the program does not itself enforce.

What the broker answers about holdings, operations, executed stops, the state of an order, the lots an account can pay
for and commissions is an input of the procedures that ask, and their results are stated for every answer.

`obliging` is a scenario: the broker accepts and answers every call, executes up to `depth` lots of a market order as it
arrives, holds stops within a tick of the price asked, names stops by the key it was sent, and the exchange otherwise
stands still. It says what the procedures must achieve and not only what they may do: how entries and exits end, what
recovery leaves on file, that startup completes, and that repair converges (`Startup.RepairInTwoPasses`); the last two
for portfolios that are true of the account. The rows, their lots and the holdings may be any: what the broker holds
less or more of is corrected, what it no longer holds is closed on the operations feed or reported, and what it holds
besides is adopted or reported foreign. There `Sane` says that every position is LOCAL without a standing row or
EXCHANGE on its own ACTIVE row and that a stop and the row under its key are on the same ticker, and `Repairable`, asked
of the rows as reconciliation leaves them, that no protected position lacks a stop altogether and no adoptable stop's
key already has a row; `Amenable` says beforehand when that will be so.

## The kernels

`Classification` (which stop is kept, cancelled or orphaned), `Sales` (the exit price read off the operations feed),
`Exchanges` (the simulated exchange), `CandleCaches`, `Pnl` (stored figures and late commissions), `Redaction`, `Macd`,
`Drawdowns`, `Sizing` (with the entry gate), `Calendars` and `Connections` (nested transactions). Objects the program
updates in place are classes whose methods are tied to functions of their state; the laws are lemmas about those functions.

Money and prices are exact reals, instants and dates are integers, and an instrument is known by its ticker.

## Where the code says less than its documentation

- Two positions can carry one fill: a holding adopted on an entry whose outcome is still unknown, sold before the entry
  settles, is opened again when it does (`zarabot/broker/reconcile.py:245-265` with
  `zarabot/execution/orders.py:898-932`). `AdoptedFillTakenTwice` is such a run and `Interleaving.OnePositionIff` the exact
  condition.
- A stop listed by the broker names no position, so cancelling one never demotes an owner
  (`zarabot/execution/orders.py:334-340` with `zarabot/broker/client.py:1130`): `OrphaningKeepsCoherentIff` gives the
  exact condition, and reconciliation meets it because it never cancels the stop a position names.
- A run of the commission backfill that stops between a fee and its figure is not made good later: the fee is no longer
  missing, so the figure is never rewritten (`Pnl.Books.Backfill`).
- Secrets that begin or end with a star or contain three in a row, secrets in keys of logged mappings that are not texts,
  and names of log attributes are outside what redaction covers (`RemovedIffSafe`, `CleanedHoldsIffLeaks`,
  `LogRecord.Filter`).
- The simulated exchange can be overdrawn by a minimum commission, exactly on sales that do not cover it, and forgets lots
  sold beyond the holding (`SmallSaleOverdraws`, `SaleSolventIff`, `StopSolventIff`, `RunMovesLots`).
- The one-pass drawdown need not be the largest fall once equity may be negative, by however little
  (`LargestFallIffNoDebt`).

## Model

| member | source | states |
|---|---|---|
| `Protocol.RunKeepsInv` | zarabot/db/connection.py:88-126 | Each database call commits on its own, so a crash leaves a prefix of the steps; after every prefix of every run each order and stop key the broker has seen is on disk with the same request, no key stands for two stops, one position is open per ticker and one stop row stands per position. |
| `Protocol.CrashJoinsRuns` | zarabot/db/connection.py:109-124 | A run cut by a crash and the run of the restarted process are one run again, so what is proved of runs holds across any number of crashes. |
| `Protocol.RunPersists` | zarabot/db/orders.py:148-155 | What an order row requested never changes and a terminal row never changes at all; finished broker orders and fired or cancelled stops stay as they are; a booking is never taken back. |
| `Protocol.SettledCarries` | zarabot/db/orders.py:133-178 | A settled row keeps what was requested and carries the status, the lots, the price and the commission it was settled with, and the broker identifier where one was given. |
| `Protocol.MarketPostedOnce` | zarabot/execution/orders.py:617-633 | A market key reaches the broker at most once in a whole run, crashes included, and only while its row is on disk and not terminal. |
| `Protocol.StopPostedOnce` | zarabot/execution/orders.py:237-247 | The same for stop keys: posted at most once, after a standing local row. |
| `Protocol.FillAppliedOnce` | zarabot/execution/orders.py:804-823 | At most one step of a run opens, closes or shrinks a position on account of an order, and by then its row is terminal; adoption is counted by `Interleaving.OnePositionIff`. |
| `Protocol.AdoptedFillTakenTwice` | zarabot/broker/reconcile.py:245-265 | A concrete run from nothing at all in which the fill of an unanswered entry is adopted, sold, and then opened a second time with nothing held. |
| `Protocol.StopAppliedOnce` | zarabot/execution/orders.py:698-750 | One execution of an exchange stop closes a position at most once. |
| `Protocol.StepMovesGap` | zarabot/execution/orders.py:850-895 | The exact effect of every step on the lot ledger of every ticker: broker lots less open lots, less fills that moved no position yet, plus executed stops not yet booked. |
| `Protocol.LedgerMovesIffUneven` | zarabot/broker/reconcile.py:268-309 | A step leaves every ticker's ledger as it was if and only if it is even: a correction of lots, an adoption, an owner's trade, or a booking whose lots differ from the fill moves it. |
| `Protocol.EvenRunKeepsLedger` | zarabot/execution/orders.py:753-932 | Lots are conserved over whole runs of even steps, at every crash point and on every ticker. |
| `Protocol.ImbalanceIsGapLessLost` | zarabot/execution/orders.py:753-782 | The equation with the fills of UNRESOLVED exits only differs from that ledger by exactly the lots of exits that settled for good and moved no position. |
| `Protocol.EvenRunLosesExits` | zarabot/execution/orders.py:753-932 | Over a run of even steps that equation moves by exactly the lots of the exits lost on the way. |
| `Locks.ScheduleKeepsHeld` | zarabot/execution/orders.py:132-141 | Under every interleaving of any number of tasks each lock is held by exactly the one whose place in the acquisition says so. |
| `Locks.MutualExclusion` | zarabot/execution/orders.py:140-141 | No two tasks are inside executor sections at once, whatever their tickers. |
| `Locks.SomeoneCanMove` | zarabot/execution/orders.py:133-141 | Ticker lock before global lock never deadlocks: whenever a task waits, some task can acquire, register or leave. |
| `Interleaving.EventIsLegal` | zarabot/execution/orders.py:132-141 | Under every schedule of tasks, sections, exchange moves, reconciliation at startup and crashes, every call is a legal step of the protocol or touches nothing, though the calls are guarded only by what the database refuses and what the exchange answered: a post looks at neither the row nor the exchange, and a booking not at whether the fill was booked before. |
| `Interleaving.ScheduleIsRun` | zarabot/execution/orders.py:132-141 | So each schedule amounts to a run of the protocol between the same worlds, and all that is proved of runs holds of schedules. |
| `Interleaving.PostsAreFresh` | zarabot/execution/orders.py:453-465 | At each post the row is still the one written ahead of it, SUBMITTING, and the exchange has never seen its key. |
| `Interleaving.NeverPostedOnceSettled` | zarabot/execution/orders.py:617-633 | No order that one task settled, for instance the drain as never placed from a stale listing, is posted by another afterwards. |
| `Interleaving.AppliedOnce` | zarabot/execution/orders.py:785-823 | A fill is applied to a position at most once and after its row has settled, whatever listing the resolver works from. |
| `Interleaving.OnePositionIff` | zarabot/broker/reconcile.py:245-265 | Adoption counted too, an order's fill becomes at most one position if and only if none is written for it once an earlier one has closed while the order was unresolved; under every schedule. |
| `Interleaving.SectionIsAlone` | zarabot/execution/orders.py:140-141 | From a task's entering to its leaving nobody else writes or calls the broker: only the exchange moves. |
| `Interleaving.UnlockedPostFollowsSettlement` | zarabot/execution/orders.py:132-141 | Without the locks it fails, on a concrete pair of sections: one settles as never placed what the other then posts. |
| `Bots.Bot.LaterPersists` | zarabot/db/connection.py:109-124 | Between any two states of a bot's run rows persist and settled ones are as they were, whatever ran in between. |
| `Bots.Bot.NewKey` | zarabot/execution/orders.py:238-238 | A new key is carried by no order row and no stop row. |
| `Bots.Bot.RecordSubmitting` | zarabot/db/orders.py:86-130 | The row is on disk as SUBMITTING, and the broker has not seen its key, before anything is sent. |
| `Bots.Bot.SettleOrder` | zarabot/db/orders.py:133-178 | Succeeds exactly on a known, non-terminal row and replaces its outcome columns; the broker identifier is kept where none is given. Asked only of orders the exchange has finished with or never seen. |
| `Bots.Bot.AlreadyOpen` | zarabot/execution/orders.py:151-155 | The one open position on a ticker, or none. |
| `Bots.Bot.OpenRow` | zarabot/db/positions.py:178-238 | One new LOCAL position from the order row's fill; the ledger stays even exactly when the row's lots are the broker's. |
| `Bots.Bot.CloseRow` | zarabot/db/positions.py:282-378 | Closes exactly an open row and returns it to LOCAL without a key; the stored figure and the two commissions on record make up what the sale brought less what the purchase cost, column by column; even exactly when the lots closed are those of the fill or the executed stop. |
| `Bots.Bot.ShrinkRow` | zarabot/db/positions.py:544-575 | Writes the unsold remainder of a partial exit; even exactly when the reduction is the fill. |
| `Bots.Bot.AdjustRow` | zarabot/db/positions.py:544-575 | Writes the broker's lot count onto an open row and nothing else. |
| `Bots.Bot.AdoptRow` | zarabot/db/positions.py:471-541 | One new LOCAL position on a ticker that had none open, pointing at an unresolved entry for it; no stop row stands for it. |
| `Bots.Bot.SetStopProtection` | zarabot/db/positions.py:241-279 | Changes the protection columns of one row only. |
| `Bots.Bot.RecordPlacing` | zarabot/db/stop_orders.py:72-106 | Succeeds exactly when the key is new and no stop row of the position stands; a key of the bot's own is then unknown to the broker. |
| `Bots.Bot.ActivateStop` | zarabot/db/stop_orders.py:109-128 | Records the broker identifier of the stop that carries this key. |
| `Bots.Bot.SettleStop` | zarabot/db/stop_orders.py:131-155 | Succeeds exactly on a standing row and ends it. |
| `Bots.Bot.ActiveForPosition` | zarabot/db/stop_orders.py:158-172 | The single standing row of a position, or none; there are never two. |
| `Bots.Bot.PostMarketOrder` | zarabot/broker/client.py:962-1011 | Only the posted key can appear at the broker; a positive reply is the exchange's own record, lots, price and commission, with a price exactly when lots were executed; a refusal means an order finished with nothing executed, or none. |
| `Bots.Bot.GetOrderState` | zarabot/broker/client.py:1299-1372 | The answer is the exchange's record at that moment, status, lots, price and commission, or that it has never seen the key, or there is none. |
| `Bots.Bot.CancelOrder` | zarabot/broker/client.py:1074-1098 | An acknowledged cancel leaves no live order under the key. |
| `Bots.Bot.PostStopLoss` | zarabot/broker/client.py:1014-1053 | A returned identifier names a new broker stop carrying the key; an unanswered post may stand all the same. |
| `Bots.Bot.CancelStopOrder` | zarabot/broker/client.py:1056-1071 | An acknowledged cancel leaves the stop unarmed, already executed or cancelled ones included. |
| `Executor.PlaceStop` | zarabot/execution/orders.py:232-282 | Returns at once for an EXCHANGE position with a standing row; otherwise, after at most three attempts, either one new ACTIVE row for the position's own lots and price and EXCHANGE on its key, or three FAILED rows and no change; keeps one owner per stop. |
| `Executor.Attempt` | zarabot/execution/orders.py:237-268 | One attempt: refused only when a row stands, else it ends ACTIVE and named by the position, or FAILED. |
| `Executor.CancelStopToLocal` | zarabot/execution/orders.py:353-371 | Nothing local changes unless the exchange acknowledged; then the standing row is CANCELLED and the position LOCAL; keeps one owner per stop. |
| `Executor.ReplaceStop` | zarabot/execution/orders.py:343-350 | The row-named stop is cancelled and a fresh one stands for the stored lots and price, or the position is left LOCAL; keeps one owner per stop. |
| `Executor.AdoptExistingStop` | zarabot/execution/orders.py:294-317 | Fails exactly when the key has a row, a row stands, or the broker gave no identifier; otherwise the position is EXCHANGE on that key with one ACTIVE row. |
| `Executor.CancelOrphanedStop` | zarabot/execution/orders.py:320-340 | The stop is cancelled first; then its row, if standing, is ORPHANED and only an open owner that names it is demoted; row 0 never is. |
| `Executor.ResolvePartialEntry` | zarabot/execution/orders.py:195-229 | Writes nothing without the broker's re-read; otherwise the row is FILLED with the lots, price and commission of a finished order, or CANCELLED with none; with an obliging broker it is settled with the lots executed before the cancel. |
| `Executor.OpenPosition` | zarabot/execution/orders.py:418-524 | For every answer about how many lots the account can pay for: refused while the ticker is open, one order is on record for what was asked clamped to that, and a success is one new position with the lots and price the exchange executed, the instrument's lot size, and a stop the given percentage of the price below it; failure leaves positions and stop rows alone. With an obliging broker it opens what the exchange executes at once, and fails only where that is nothing. The ledger stays even and one owner per stop is kept. |
| `Executor.StopPriceIsAt` | zarabot/execution/orders.py:146-146 | The stop price is the given percentage of the fill below it. |
| `Executor.StopStandsBelow` | zarabot/execution/orders.py:146-146 | So for a percentage between 0 and 100 the stop stands above zero and below what was paid. |
| `Executor.SubmitEntry` | zarabot/execution/orders.py:464-522 | Without a fault the settled row carries what the broker's finished order executed and its fill has not been booked; with an obliging broker the entry is what the exchange executes at once, a partial fill included, and nothing executed is left to recovery. |
| `Executor.FinishClose` | zarabot/execution/orders.py:374-415 | Closes exactly when the order has a price and the row is open, at that price. |
| `Executor.ClosePosition` | zarabot/execution/orders.py:599-695 | STOP_LOSS on EXCHANGE is refused untouched; success is one new FILLED order for all lots closing the row, whose stored figure balances with the executed price and the commissions; any failure leaves the row open, LOCAL or as it was, with nothing submitted where the trigger was refused or the stop could not be withdrawn, and the one sell on record otherwise. With an obliging broker an open position is closed exactly when the exchange executes all its lots at once. The ledger stays even and one owner per stop is kept. |
| `Executor.CloseExecutedStop` | zarabot/execution/orders.py:698-750 | Closes through an order row no broker has seen, at the broker's price, after ending the stop row, and the stored figure balances; raises on a missing price, row or open status; even exactly when the fired stop covered the position's lots. |
| `Executor.ApplyDiscoveredFill` | zarabot/execution/orders.py:898-932 | A discovered entry opens only where nothing is open, a discovered exit closes the open position of its ticker; all the cases in which nothing is done; a sale that found its unprotected position leaves no fill unbooked; even exactly when a close matches the fill. |
| `Executor.ApplyTerminalExit` | zarabot/execution/orders.py:850-895 | A terminal exit closes when it sold the position's lots or more, otherwise shrinks it to the remainder and leaves its stop rows alone. |
| `Executor.ResolveOne` | zarabot/execution/orders.py:785-847 | For every answer about the order: it is left unresolved only without an answer or while it is live and no partly filled entry; an order that is over is settled with exactly the status, lots, price and commission told, or as never placed, and its fill moves one position exactly where there was something for it: nothing open for an entry, the open position for an exit. An entry cut short carries what the exchange executed. It posts no market order and writes nothing for an order already terminal; a sale whose position stood there unprotected is booked or stays unresolved; keeps one owner per stop. |
| `Executor.OrphaningKeepsCoherentIff` | zarabot/execution/orders.py:332-340 | Cancelling a stop keeps one owner per stop if and only if its row does not stand or belongs to the stated owner. |
| `Executor.AdoptionKeepsCoherentIff` | zarabot/execution/orders.py:297-308 | Adopting a stop keeps one owner per stop if and only if the broker named the stop. |
| `Sessions.TryEntry` | zarabot/execution/orders.py:418-524 | An entry says how it went by what it leaves on record, the lots it asked for and those it opened included, and where it submitted nothing, or found no order in flight on the ticker, it keeps the session invariant: one order in flight per ticker, each exit in flight has its open position and matches its lots, stop rows and broker stops match them too, and every sale that moved no position belongs to an unresolved row. |
| `Sessions.TryExit` | zarabot/execution/orders.py:599-695 | The same for an exit, whose position must still be open. |
| `Sessions.UncontestedFound` | zarabot/execution/orders.py:418-524 | A stretch of the log that recorded one order, with none in flight on its ticker when it did, found none there at its start; for an exit, something open. |
| `Sessions.Resolve` | zarabot/execution/orders.py:785-847 | Resolving one order touches its row and positions of its ticker only, keeps the session invariant and leaves the ledger even: a close always matches its fill, and an exit never settles with a fill left unbooked. Where the broker answers, an order it had finished or never seen ends with exactly its record on file and its fill in a position. |
| `Sessions.ResolveUnfinished` | zarabot/execution/orders.py:753-782 | The whole recovery pass from a stale listing; alone or with the shutdown drain's sections in between it keeps invariant and ledger, and with any other task it is still legal. Alone with a broker that answers it does not fail, and every order the broker had finished or never seen ends with exactly its record on file; the fill of one that was alone in flight on its ticker is in a position, opened, closed or shrunk by it, wherever there was something for it. |
| `Sessions.ListUnresolved` | zarabot/db/orders.py:269-279 | Lists exactly the non-terminal rows, each once, as they are. |
| `Sessions.SalesStillPending` | zarabot/execution/orders.py:850-932 | A stretch of a run whose new rows account for what they sold loses no exit. |
| `Sessions.Drain` | zarabot/app/shutdown.py:36-50 | Any number of the drain's sections, from listings as old as one likes, keep invariant and ledger and leave EXCHANGE positions alone. |
| `Sessions.CloseFired` | zarabot/execution/orders.py:698-750 | Closing on an executed stop keeps invariant and ledger. |
| `Sessions.CloseExecuted` | zarabot/app/loops.py:204-264 | For every answer to the question which stops have executed: a listed EXCHANGE position is closed exactly when its own standing row names one of them, and every other is as it was, with the drain in between too; only an execution without a price, or no answer at all, ends the pass; invariant and ledger are kept. |
| `Sessions.SubmitExits` | zarabot/app/loops.py:310-345 | Exactly what the exit rules call for among the listed positions not skipped is tried, once and in order, each attempt in a stretch of the log that shows how it went; a failed exit or a refused stop-loss is passed over and any other fault ends the pass; as long as nothing submitted was contested, invariant and ledger are kept. |
| `Sessions.SoldAreClosed` | zarabot/app/loops.py:310-345 | What the pass sold is closed, then and ever after. |
| `Sessions.EvaluateEntries` | zarabot/app/loops.py:514-611 | Signals are tried in order, each in a stretch of the log that shows how it went; a ticker already opened in the pass is not tried again, refusals are passed over and any other fault ends the pass; as long as nothing submitted was contested, invariant and ledger are kept. |
| `Sessions.TradingCycle` | zarabot/app/loops.py:626-672 | The cycle's order of steps, with the drain's sections between its own or none: unless a fault ended it, all exits called for and, where allowed, all signals were tried on the positions it listed, and with a broker that answers every listed position whose stop had executed was closed on it. Alone with such a broker the orders that were over are recovered first, and a fault has its reason in an execution without a price or in the last exit or entry tried. As long as no order was recorded on a ticker with one in flight, and no exit where nothing was open, the session invariant and the ledger are kept. |
| `Sessions.LedgerKept` | zarabot/execution/orders.py:753-932 | Between sections, on every ticker, broker lots stay open lots plus fills of entries that opened nothing, minus fills of unresolved exits, minus executed stops nothing was closed on, up to what the equation was off by before. |
| `Sessions.MatchedLedger` | zarabot/execution/orders.py:850-932 | Under the session invariant no exit is lost, so the ledger with unresolved exits only is the whole ledger. |
| `Sessions.NothingIsMatched` | zarabot/app/loops.py:626-672 | The session invariant holds before the first order. |
| `Sessions.Session` | zarabot/app/loops.py:626-672 | Over any number of cycles, with the drain beside them or not, each on its own stretch of the log and as `TradingCycle` says: as long as no order was recorded on a ticker with one in flight, and no exit where nothing was open, the ledger of every ticker stays what it was. |
| `Classification.KeepStop` | zarabot/broker/reconcile.py:317-325 | The kept stop is one the position names, if any is, else an oldest one. |
| `Classification.StopAdjustments` | zarabot/broker/reconcile.py:391-511 | The two loops with their claimed set find exactly what is due to each open position and each orphan. |
| `Classification.FindingsHas` | zarabot/broker/reconcile.py:398-502 | Every finding is due to one open position or one orphan, and all of those are found. |
| `Classification.StopsArePartitioned` | zarabot/broker/reconcile.py:391-511 | With distinct identifiers and one open position per ticker, every broker stop is exactly one of kept, duplicate to cancel, orphan. |
| `Classification.CancelsTheRest` | zarabot/broker/reconcile.py:401-415 | What is cancelled as a duplicate is everything on the ticker but the kept stop. |
| `Classification.KeptOrCancelled` | zarabot/broker/reconcile.py:401-415 | A stop on a position's ticker is kept exactly when it is not in the cancel list. |
| `Classification.OrphanedIff` | zarabot/broker/reconcile.py:488-502 | A stop is reported an orphan exactly when no position is open on its ticker. |
| `Classification.JudgedAtMostOnce` | zarabot/broker/reconcile.py:419-487 | Each position gets at most one of MISPRICED, MISSIZED, ADOPTABLE, MISSING, and its duplicates come before it. |
| `Sales.ResolvesIffSold` | zarabot/broker/reconcile.py:89-101 | The feed resolves the exit exactly when it holds an executed sale of the instrument. |
| `Sales.PriceWithinSales` | zarabot/broker/reconcile.py:102-117 | The exit price lies between the lowest and highest price of the sales. |
| `Sales.SaleWeighsIn` | zarabot/broker/reconcile.py:102-106 | One more sale moves the average price by its absolute quantity: price times quantity adds up to what the sales brought. |
| `Sales.CommissionAddsUp` | zarabot/broker/reconcile.py:107-117 | An operation that is no sale adds its commission exactly when it is listed under one, and changes neither price nor time; until one is, the commission is zero. |
| `Sales.UnitsCancel` | zarabot/broker/reconcile.py:83-87 | Price, time and fee are the same whether quantities are lots or shares. |
| `Reconciliation.IndexByTicker` | zarabot/broker/reconcile.py:55-60 | The index keeps the last entry of each named ticker. |
| `Reconciliation.IndexIsListing` | zarabot/broker/reconcile.py:55-60 | With distinct tickers the index loses no named holding. |
| `Reconciliation.CloseExternally` | zarabot/broker/reconcile.py:122-180 | The position is closed EXTERNAL at the feed's price and fee, its stored figure balancing with them, with its standing stop row EXECUTED, exactly when the feed holds its sale; otherwise it is left open and reported; keeps one owner per stop. |
| `Reconciliation.CorrectRows` | zarabot/broker/reconcile.py:531-536 | Every listed row ends level with its holding, closed at the feed's sale, or reported unresolved; of stop rows only statuses change; nothing is written when rows and holdings agree already. |
| `Reconciliation.RecognisingOrders` | zarabot/broker/reconcile.py:245-265 | Of any listing of unresolved orders, maps exactly the tickers with an entry among them to the first such entry. |
| `Reconciliation.RecogniseHoldings` | zarabot/broker/reconcile.py:538-549 | An unknown holding becomes a LOCAL position with its lots, its average price, the instrument's lot size and a stop the given percentage below, exactly when an unfinished entry of the bot's own accounts for it, and is reported foreign otherwise; other rows are untouched. |
| `Reconciliation.ListStopOrders` | zarabot/broker/client.py:1110-1141 | Each live stop once, with what the broker holds. |
| `Reconciliation.PriceIncrements` | zarabot/broker/reconcile.py:354-388 | Only readable, positive tick sizes of the asked tickers. |
| `Reconciliation.UnstoppedTicksIrrelevant` | zarabot/broker/reconcile.py:551-561 | Tick sizes of tickers without a listed stop do not influence the findings. |
| `Reconciliation.ReconcileHoldings` | zarabot/broker/reconcile.py:522-549 | After it every holding is an open row with its lots or reported foreign, only holdings without an open row are reported so, and every open row has its holding's lots or is reported unresolved; a second pass over the same holdings and feed would change nothing, and a pass over rows that are level already does not; keeps one owner per stop. |
| `Reconciliation.Reconcile` | zarabot/broker/reconcile.py:522-573 | The same for the whole pass and every portfolio the broker may answer with, followed by the findings of a reading of the rows it left and of stops listed meanwhile; sends the broker no request of any kind; keeps one owner per stop. |
| `Remedies.FindsListed` | zarabot/app/startup.py:341-361 | An adjustment's identifier or key finds exactly the listed stop it was made for. |
| `Remedies.ResolveDuplicate` | zarabot/app/startup.py:364-388 | Takes down exactly the listed duplicates and never the kept stop. |
| `Remedies.Replace` | zarabot/execution/orders.py:343-350 | With an accepting broker exactly the stop the position named is taken down and one new stop covers it. |
| `Remedies.Remedy` | zarabot/app/startup.py:421-459 | The remedy of each kind of finding; only protection columns change. |
| `Repair.ApplyRemedies` | zarabot/app/startup.py:414-459 | Only protection columns change; with an accepting broker every finding of a plan is carried out and the state reached is known for every position and stop. |
| `Repair.FindingsMakePlan` | zarabot/app/startup.py:421-459 | The findings of any reading can all be carried out, in order, when none is missing and what is to be adopted has no local row. |
| `Repair.NextFindings` | zarabot/broker/reconcile.py:391-511 | After a pass the only findings left are duplicates of positions whose stop it replaced. |
| `Startup.Start` | zarabot/app/startup.py:721-726 | From any state satisfying the table invariants, and for every portfolio the broker may answer with: if startup completes without foreign holdings allowed, every holding of it has exactly one open position with its lots, and every other open position has no sale in the feed and was reported EXIT_UNRESOLVED; against the account itself where the answer was true of it. It refuses as foreign only if some holding has no open position. With an obliging broker it never aborts in recovery: at its end every order that was unfinished, and that the broker had finished or never seen, is terminal with the broker's status, lots, price and commission, and when recovery was over the fill of one alone on its ticker was in a position. With nothing beyond repair once recovered it does not abort in reconciliation either, and nothing is left to be found wrong with any stop but duplicates of what was replaced. |
| `Startup.Restart` | zarabot/app/startup.py:685-726 | The same from the state any crash left, as one continued run. |
| `Startup.ReconcileAndRemedy` | zarabot/app/startup.py:724-725 | Completed, it leaves each holding of the portfolio open with its lots or reported foreign and unrecognised, every other open row unexplained by the feed. With an obliging broker and nothing beyond repair it does complete, and no reading of the stops then finds anything but duplicates of stops it replaced. |
| `Startup.ReconciledMatches` | zarabot/app/startup.py:596-618 | Refusing on a foreign holding is what makes the match complete. |
| `Startup.Pass` | zarabot/app/startup.py:724-725 | From any rows, one reconcile-then-remedy pass levels them with the account and, when the findings can be carried out, leaves at most duplicates of positions it replaced. |
| `Startup.CleanIff` | zarabot/broker/reconcile.py:391-511 | A reading finds nothing if and only if each live stop is the only one of its ticker and covers the open position there, its lots and to within a tick its price, on record as EXCHANGE, and none that is on record is missing. |
| `Startup.AmenableIsRepairable` | zarabot/broker/reconcile.py:391-511 | What reconciliation leaves can be repaired whenever, beforehand, each protected position it will not close has some live stop on its ticker, and no live stop with a local row is on the ticker of an unprotected position or of a holding it may adopt. |
| `Startup.RepairInTwoPasses` | zarabot/app/startup.py:724-725 | From any rows, and however the holdings are listed each time, two passes suffice: another reconciliation of the same account changes nothing, no reading of the stops finds anything wrong with any, and each live stop is the only one of its ticker and covers the open position there. |
| `Exchanges.RunConservesCash` | sandbox/exchange.py:177-196 | Over every run with fresh keys cash is what it was plus all sales' proceeds and minus all purchases' costs, executed stops included. |
| `Exchanges.RunMovesLots` | sandbox/exchange.py:182-195 | Held lots exceed bought minus sold by exactly the lots sold without being held, so they agree exactly while nothing is oversold. |
| `Exchanges.RunSolvent` | sandbox/exchange.py:324-333 | Cash never goes negative while every priced sale and every fired stop pays its own fee. |
| `Exchanges.SaleSolventIff` | sandbox/exchange.py:177-196 | A priced sale leaves cash non-negative from every non-negative start if and only if its turnover covers its fee. |
| `Exchanges.StopSolventIff` | sandbox/exchange.py:198-248 | The same for a fired stop. |
| `Exchanges.SmallSaleOverdraws` | sandbox/exchange.py:73-74 | The minimum commission can drive cash below zero on a small sale. |
| `Exchanges.FiresAtMostOnce` | sandbox/exchange.py:198-248 | No stop fires twice in a run, whatever phases are walked. |
| `Exchanges.FillWithinBar` | sandbox/exchange.py:213-220 | A stop fires on a bar not checked before that reached it, at most at its price and the open, at least at the low of a well-formed bar. |
| `Exchanges.NeverInItsOwnBar` | sandbox/exchange.py:204-215 | No stop fires in the bar it was posted in. |
| `Exchanges.SameAnswers` | sandbox/exchange.py:269-294 | Candles, last price and maximum lots are the same under any future. |
| `Exchanges.FillSeesOnlyNextOpen` | sandbox/exchange.py:318-341 | What a market order does depends on the bars only through whether there is a next one, and its open. |
| `Exchanges.CursorBars` | sandbox/exchange.py:118-140 | The current bar is the last listed that has begun, the next one the first that has not. |
| `Exchanges.PostedInFigures` | sandbox/exchange.py:318-341 | An order with a next bar is filled whole, at its open moved against the trader by the slippage percentage, for the larger of the tariff's percentage of price times units and its minimum, and the cash moves by exactly that; it is refused exactly when a purchase costs more than the cash. |
| `Exchanges.NeverForTheTrader` | sandbox/exchange.py:250-259 | With slippage and prices not negative a purchase fills at the open or above and a sale at it or below. |
| `Exchanges.FiredInFigures` | sandbox/exchange.py:213-237 | A stop that fires sells its lots at the lower of its price and the open, less that commission. |
| `Exchanges.LargestMaxLots` | sandbox/exchange.py:289-294 | The maximum is the largest number of lots the cash pays for at the last close; of a debt, the truncated one. |
| `Exchanges.NoLookAhead` | sandbox/exchange.py:118-175 | Two backtests whose bars agree up to an instant go through the same accounts while they look no further. |
| `Exchanges.SimulatedExchange.FireStops` | sandbox/exchange.py:198-248 | Fires the standing stops in insertion order and marks the bars entered. |
| `Exchanges.SimulatedExchange.Advance` | sandbox/exchange.py:167-175 | Moves the cursor and phase and fires, keeping every current bar checked. |
| `Exchanges.SimulatedExchange.PostMarketOrder` | sandbox/exchange.py:296-341 | Refuses non-positive lots, unknown instruments and unfunded purchases; prices at the next open; leaves the order live when history ran out. |
| `Exchanges.SimulatedExchange.ApplyFill` | sandbox/exchange.py:177-196 | The account after a fill. |
| `Exchanges.SimulatedExchange.PostStopLoss` | sandbox/exchange.py:354-377 | Records the stop, or refuses it; an earlier record under the key is overwritten. |
| `Exchanges.SimulatedExchange.CancelOrder` | sandbox/exchange.py:349-352 | Cancels a live order only. |
| `Exchanges.SimulatedExchange.CancelStopOrder` | sandbox/exchange.py:379-382 | Marks the stop cancelled whatever its status. |
| `CandleCaches.CandleCache.Load` | sandbox/data.py:130-162 | Returns exactly the source's candles in the range, ascending and distinct, and leaves the file equal to the source over the wider interval, from any earlier loads; a failure writes nothing and a covered range asks nobody. |
| `CandleCaches.CandleCache.Extend` | sandbox/data.py:142-152 | The file and the fetched gaps cover the wider interval without a hole, on either side or both. |
| `CandleCaches.Merge` | sandbox/data.py:119-123 | One candle per timestamp, the last written, ascending. |
| `CandleCaches.AscendingUnique` | sandbox/data.py:119-127 | An ascending list of candles is determined by its members. |
| `Pnl.NoFeeIsMeasured` | zarabot/ops/commissions.py:85-103 | An answer without the broker's figure needs a listed trade of the order, and a zero needs every such trade settled and uncharged. |
| `Pnl.ChargesAddUp` | zarabot/ops/commissions.py:85-103 | One more commission listed under a trade of the order adds exactly its amount to the answer; the broker's own figure wins over any listing, and without a record of the order there is no answer. |
| `Pnl.LateFeeStepsOutIff` | zarabot/db/positions.py:321-329 | Filling in an unknown fee leaves a closed position's stored figure right if and only if the fee is zero or the position does not refer to the order. |
| `Pnl.Books.Close` | zarabot/db/positions.py:282-378 | A close writes trigger, price, order and commission, and a figure that makes up, with the commissions on record, what the sale brought less what the purchase cost. |
| `Pnl.StoredAddUp` | zarabot/db/positions.py:166-175 | Over any number of closes, kept in step, the stored figures add up to what the sales brought less what the purchases cost less the commissions on record. |
| `Pnl.InStepIffBalances` | zarabot/db/positions.py:166-175 | A figure is in step with the current fees if and only if it balances. |
| `Pnl.Books.RecomputeRealised` | zarabot/db/positions.py:422-468 | Brings a closed position's figure in step with current fees, so that it balances, EXTERNAL from its stored fee; rewriting one in step changes nothing. |
| `Pnl.Books.RecordCommission` | zarabot/db/orders.py:186-201 | Writes a fee onto exactly a terminal row. |
| `Pnl.Books.ListMissing` | zarabot/db/orders.py:231-249 | Exactly the FILLED rows of the period without a fee, each once. |
| `Pnl.Books.AlertOnce` | zarabot/ops/commissions.py:154-159 | One alert per order for ever, with the first moment kept. |
| `Pnl.Books.Backfill` | zarabot/ops/commissions.py:127-165 | For every answer of the broker: exactly the missing fees it resolves are written, as many as it says; who was stale, unanswered and not yet told of is alerted about, and nobody else; every closed position such a fee belongs to balances afterwards, the others are as they were, and what was in step stays so. A figure that was already out of step with no fee missing is left as it is. |
| `Redaction.Redact` | zarabot/logging_setup.py:35-39 | The loop is the sequential replacement. |
| `Redaction.NothingFormed` | zarabot/logging_setup.py:35-39 | Replacement forms no text without a star at either end or a mask inside that was not there. |
| `Redaction.SafeSecretGone` | zarabot/logging_setup.py:35-39 | A secret without a star at either end or a mask inside is gone from the result whatever the other secrets are. |
| `Redaction.RemovedIffSafe` | zarabot/logging_setup.py:35-39 | A secret is removed from every text, whatever the other secrets are, if and only if it neither begins nor ends with a star nor contains three in a row. |
| `Redaction.NoSecretLeft` | zarabot/logging_setup.py:35-39 | Where every secret is of that kind none is left, not even one a later replacement could have formed. |
| `Redaction.StarredSecretReformed` | zarabot/logging_setup.py:13-39 | With three stars at the end of a secret it is formed again, on a concrete input. |
| `Redaction.CleanedHoldsNothing` | zarabot/logging_setup.py:42-63 | With keys that are texts, or hold nothing, no redacted value holds such a secret, values cut off at the depth bound included. |
| `Redaction.CleanedHoldsIffLeaks` | zarabot/logging_setup.py:42-63 | A redacted value holds such a secret if and only if a key that is not a text holds it above the depth bound and no later entry is logged under that key or under the key of a table it is in. |
| `Redaction.LogRecord.Filter` | zarabot/logging_setup.py:71-95 | After the filter message and exception text hold no such secret, and an attribute value holds one exactly if a key that is not a text lets it through; attribute names are left as they are; a clean record is unchanged. |
| `Macd.Average` | zarabot/strategies/macd_trend.py:29-41 | The loop computes the seeded average series. |
| `Macd.AveragesIff` | zarabot/strategies/macd_trend.py:29-41 | It is the one series that starts with the mean of the first values and moves two parts in `period + 1` of the way to each next one. |
| `Macd.EmaWithin` | zarabot/strategies/macd_trend.py:36-41 | No average leaves the range of its inputs. |
| `Macd.EmaMapped` | zarabot/strategies/macd_trend.py:36-41 | The averages follow any change of price units and zero. |
| `Macd.SeriesAlign` | zarabot/strategies/macd_trend.py:63-66 | From 35 closes on, line and signal align with at least two values. |
| `Macd.Evaluate` | zarabot/strategies/macd_trend.py:51-75 | All indices are in range, and it buys exactly on a crossing of a series that is long enough and not constant. |
| `Macd.BuysOnCrossing` | zarabot/strategies/macd_trend.py:51-75 | On at least 35 closes that are not all the same, it buys exactly where the difference of the 12 and the 26 average was at or below its own 9 average a bar ago and is above it now. |
| `Macd.DecisionInvariant` | zarabot/strategies/macd_trend.py:51-75 | The decision is the same for closes k*c + d with k > 0. |
| `Drawdowns.Drawdown` | sandbox/backtest.py:213-221 | The loop computes the one-pass figure. |
| `Drawdowns.WorstIsLargestFall` | sandbox/backtest.py:213-221 | For non-negative equity it is the largest fall between any two points, attained or zero. |
| `Drawdowns.DebtFallsFurtherFromLess` | sandbox/backtest.py:213-221 | For every debt there is a series no deeper in debt on which it is not. |
| `Drawdowns.LargestFallIffNoDebt` | sandbox/backtest.py:213-221 | It is the largest fall of every series that stays above a bound if and only if the bound is not negative. |
| `Sizing.LargestAffordable` | zarabot/risk/sizing.py:54-66 | The largest whole number of lots the bound pays for. |
| `Sizing.FirstReasonGiven` | zarabot/risk/gate.py:45-104 | The gate gives the first reason that applies in its fixed order of precedence, and approves an entry no reason applies to, for the largest number of lots that fits the budget, the capital left and the spendable cash. |
| `Sizing.CostsAddUp` | zarabot/risk/gate.py:30-42 | What the positions cost adds up unit by unit at their entry prices. |
| `Sizing.ApprovalFits` | zarabot/risk/gate.py:62-104 | An approval fits under the count, the budget, the capital, the spendable cash, and no held ticker. |
| `Sizing.HistoryKeepsLimits` | zarabot/risk/gate.py:68-85 | Over any run of approved entries booked at reference price, exits and cash movements, cost stays within the capital, count within the maximum, tickers distinct. |
| `Sizing.HeadroomNeverBinds` | zarabot/risk/sizing.py:57-60 | When the maximum number of full budgets fits the capital, headroom never narrows a position below its budget. |
| `Calendars.Calendar` | zarabot/market/session.py:119-150 | One entry per known date, oldest first, the latest observation of each. |
| `Calendars.LiveWins` | zarabot/market/session.py:144-147 | Of history and live window, the live entry wins. |
| `Calendars.TradingDaysBetween` | zarabot/clock.py:34-59 | Refuses an inverted range; otherwise the number of distinct trading dates after the first day and up to the last. |
| `Calendars.DaysAddUp` | zarabot/clock.py:51-59 | Counts add up over any instant in between. |
| `Calendars.CountsLatestTradingDates` | zarabot/market/session.py:129-147 | Over the calendar exactly the dates last observed as trading days with a start are counted, once each. |
| `Calendars.UncoveredDaysUncounted` | zarabot/market/session.py:153-161 | Days before the earliest recorded one are never counted. |
| `Connections.Connection.Transaction` | zarabot/db/connection.py:88-126 | All or nothing at the outermost exit; a nested scope joins it. |
| `Connections.Connection.Run` | zarabot/db/connection.py:97-99 | Nothing is durable while the work is going on, however deep the nesting. |
| `Connections.NestingIsErased` | zarabot/db/connection.py:97-99 | A nested scope means the same as its work written in the outer one. |
| `Connections.SwallowedFailureKeepsWrites` | zarabot/db/connection.py:97-111 | A failure swallowed inside does not undo what the failed scope wrote. |

## Left out

- The broker's transport: gRPC, quotations, enumerations, retries and rate limits. A call succeeds with the exchange's own
  record, fails, or goes unanswered.
- How the broker may mislead: state replies are truthful, FILLED means every lot executed, an order refused at its post
  executed nothing, an acknowledged cancel stops further fills, a not-found key is not delivered later, and a stop carries
  the key it was posted with.
- Alerts, log events, Telegram, cool-downs and halts, except the once-only commission alert; a crash between that alert and
  its mark can repeat it.
- Failing database writes other than integrity refusals: a write that fails is a crash before it.
- The event loop beyond lock acquisition and what may run between awaited calls; sleeps, back-off and supervision.
- Event rows, take-profit targets, and the order of listings (`ORDER BY`): listings come in any order, and where the first
  match wins it is the first of that order.
- The exit rules, strategies other than the MACD crossing, and daily-loss measurement: any exits may be called for and any
  signals tried, and whether entries are allowed is an input.
- Sessions.TradingCycle: nothing is promised of the ledger once a submission was contested, which the program allows.
- Sessions.ResolveUnfinished: which of several unresolved orders on one ticker ends up in the position is not said, nor what
  becomes of an order still live, beyond what `Executor.ResolveOne` says of each.
- Startup.Start: that nothing is beyond repair is asked of the state recovery leaves, which is the state found where nothing
  was unresolved.
- Sessions.Session: starts from a state in which the session invariant holds, such as the empty one. Startup does not
  establish it: a reading without findings does not imply that a standing row covers its position's lots when the stop it
  names is gone and another covers them.
- Interleaving.ScheduleIsRun: sections whose process stops mid-way are covered by crashes; cancellation of a single task
  is a leave at any point.
- Startup.RepairInTwoPasses: assumes the scenario above with a feed that answers alike each time; a missing stop whose row
  still stands is not repaired, because `_place_stop` returns at once for it.
- Exchanges.RunConservesCash: assumes fresh keys, since a reused key overwrites its record.
- Exchanges.RunMovesLots: `average_price`, which every purchase overwrites, is recorded but nothing is stated about it.
- CandleCaches.CandleCache.Load: covers start not after end, one ticker and interval, and files that carry their interval;
  files written before that, and the parquet encoding, are not part of this model.
- Pnl.Books.Backfill: a position closed while a run is under way, and orders settled after the position that refers to them
  was closed.
- Redaction.LogRecord.Filter: formatting of arguments and tracebacks happens before it and is not modelled.
- Sizing.HistoryKeepsLimits: entries are booked at their reference price; slippage between sizing and fill is not modelled.
- Calendars.TradingDaysBetween: the Moscow date of an instant is any function of it.
- Locks.SomeoneCanMove: fairness of waiting is not modelled.
- The machine-learned strategy, weekly reports, backups, heartbeats, configuration parsing and the repository's own tooling.
