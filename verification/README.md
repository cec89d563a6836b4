# Verified model of the bot's trading core

The bot trades five-minute up/down markets. It is a set of tasks that share a position store, broadcast
and mpsc queues and watch channels; no single task states the guarantees the whole is meant to give.
This project models those tasks, the dry-run exchange, market rotation and the streaming indicators, and
proves what every run keeps.

## How it is laid out

- **The event machine.** `Protocol` is one state machine whose events are the tasks' atomic steps: the
  executor, the order-status poller, persistence, the bankroll task, settlement and the redeem poller,
  over one store, append-only queues with a cursor per receiver, and watch values with a "changed" flag
  per receiver. Any enabled event may come next. Whatever the store, the exchange or the relayer may
  answer is an argument of the event, failures included; a broadcast receiver may lag at any time.
- **The invariants.** `OrderSafety` holds for every run without any assumption. `SettleSafety` needs that no
  delivered resolution picks a position announced before (`PicksNew`, a guard on the stored rows and the
  announcements so far). `Lifecycle`, `Money` and `Solvency` draw the whole-run results from them, and
  `Witnesses` holds runs from start-up that show their conditions are needed, and one whole life of a position.
- **The tasks as code.** `ExecutorTask`, `PollerTask`, `PersistenceTask`, `BankrollTask`,
  `SettlementTask` and `RedeemTask` are classes whose methods are the tasks' loop bodies, with their local
  variables as fields. `SharedWorld.World` holds what they share. Each method is proved to perform exactly
  its own machine events, in order, with its fields agreeing with the machine state, while at every await
  the other tasks may make any steps: `World.Await` promises its caller nothing more than that.
  `Deployment` restates the whole-run theorems about the shared state those methods leave behind.
- **The dry run.** `DryRun` puts the machine and the simulated exchange side by side: the exchange's own
  steps give every order reply and payout, and everything else may come in between.
- **The rest.** `Store` (SQL table and in-memory store), `Bankroll`, `SimExchange`, `MarketRotation`,
  `ResolutionPrices`, `MarketData`, `DecisionCenter`, `Candles`/`Momentum`, `Ema`, `Rsi`, `Volatility`,
  `TickTrend`, `Obi` and `Composite` follow the source files of the same names. Update-in-place code is a
  class or a loop proved against a function; the properties are lemmas about that function.

Decimals and floats are exact reals; timestamps are integers; integer division truncates as the source's does.

## Where a promise turned out to need a condition

- **Lifecycle.** No task calls the declared transition function. While no delivery picks an announced
  position, every status write of a run is a stay or a declared edge *exactly when* each stored redemption
  comes after the stored settlement. Nothing enforces that order: `Witnesses.ConfirmationCanComeFirst` is a
  run that breaks it.
- **Repeated resolution.** A market found already resolved is announced again by every round of its window
  (`FoundResolvedAgain`); resolutions come once *exactly when* no reached round announces a slug again.
  A repeated delivery can get a position announced a second time *exactly when* some announced position of
  that market has its settlement not stored and is not redeemed (`SettledAgainIff`);
  `RepeatedResolutionSettlesTwice` is a run from start-up in which that happens. A delivery that picks up a
  position left Settling by a failed redemption, and never announced, is no such repetition.
- **No negative amounts.** In every reachable state the owed amount is the payouts due and not paid less
  those paid before they were due, and it is non-negative *exactly when* the second sum does not exceed the
  first; likewise for the other two amounts (`Solvency.SolventIff`). Nothing makes the bankroll task consume
  a settlement before its redemption: `OwedCanGoNegative` is a run from start-up that ends at −10.
- **Money in play.** Settlement takes off price × shares ordered, fills add price × size matched. Once the
  queues drain, money in play is the open positions' cost exactly when every settled position was filled in
  full and none was taken over from an earlier session, whose account is not stored. Against the dry-run
  exchange the first always holds (`DryRun.SettlesInFull`); `CarriedLossGoesNegative` breaks the second.
- **The exchange's second critical section** panics exactly when the book crosses and another step took
  the same order while the lock was released; never over a run in which no status or cancel call begins
  while a status call on the same order is in flight.
- **Its balance** is negative exactly when the resting orders hold more than the virtual bankroll.
- **Limit price.** For a tick of 1/n: above the ask exactly when the ask is below the last grid price. The
  0.95 guard is enough *exactly for* ticks of 1/20 and finer (`GuardSufficesIff`); at 0.1 an ask of 0.92
  gets a limit of 0.9. For any positive tick, the cap below 1 survives the rounding exactly when the price
  before rounding is below the half tick above the last whole tick under the cap, a tie going down when that
  tick is even (`CapHoldsIff`); an ask of 0.2 at a tick of 0.35 gets 0.7.
- **Prefetch.** The prefetched slug is that of the window after the one containing the fetch, so never the
  window that directly follows the round.

## Where code and documentation differ (the model follows the code)

- `libs/pm-strategy/src/indicators/tick_trend.rs:8-14` promises a signal "when the direction is
  consistent"; the code never compares the majority direction with the net move (lines 76-83).
- `libs/pm-strategy/src/indicators/momentum.rs:30-36` gives +1 for accelerating and -1 otherwise; the code
  returns the opposite whenever the latest candle is flat or falling.
- `libs/pm-strategy/src/indicators/rsi.rs:54` says a reading needs `period` closes; the code counts
  changes, so it needs one more.
- `libs/pm-core/src/tasks/market_rotation.rs:115` calls the prefetched market the next round's.
- `adapters/src/sqlite_store.rs:157-168` returns Redeemed rows among the open positions, `adapters/src/mock_store.rs:80-91` does not.

## Model

| member | source | states |
|---|---|---|
| OrderSafety.AtMostOneTerminalUpdate | libs/pm-core/src/tasks/order_status_poller.rs:28-101 | in every run no position gets two Filled/Rejected/Cancelled messages, whatever the exchange, the store and the other tasks do |
| OrderSafety.NoReturnToSubmitted | libs/pm-core/src/tasks/executor.rs:119-127 | a step that leaves a row Submitted found it Submitted: no fill, rejection or cancellation is ever overwritten by Submitted |
| OrderSafety.OrderWritesFollowLifecycle | libs/pm-core/src/tasks/persistence.rs:33-51 | every order update persistence stores finds its row Submitted, so it is a declared edge, in every run |
| OrderSafety.ExecutorWritesAgree | libs/pm-core/src/tasks/executor.rs:123-136 | the executor's own two writes find their row Submitted, where both store implementations do the same |
| OrderSafety.FailedPlacementIsNeverPolled | libs/pm-core/src/tasks/executor.rs:129-137 | a position whose placement failed is never tracked, polled or given a terminal update, however long the run goes on |
| OrderSafety.SlotStep | libs/pm-core/src/tasks/executor.rs:95-137 | under any policy: a failed placement frees a pending slot without the fallback, and a claim succeeds exactly from an empty slot |
| OrderSafety.ClaimNeverRefused | apps/pm-bot/src/main.rs:43-51 | under the policy the bot starts with, in every run a row just inserted finds the slot still empty: the refused-claim branch is never taken |
| OrderSafety.AtMostOnePlacementPerRotation | libs/pm-core/src/tasks/executor.rs:34-139 | between two consumed rotations at most one placement succeeds, and the slot is only ever Empty or Pending |
| Protocol.ResolvedOnceIff | libs/pm-core/src/tasks/settlement.rs:231-251 | a run handles each resolution once exactly when its deliveries are of pairwise different markets not resolved before, whatever else happens in it |
| State.PositionEdgeIff | libs/pm-core/src/state.rs:119-131 | a position moves one stage at a time, and a rejected, cancelled or lost one no further |
| Lifecycle.StepLegalIffOrdered | libs/pm-core/src/state.rs:119-131 | one step keeps every row on its status or a declared edge exactly when it is not a redemption stored before the settlement |
| Lifecycle.LifecycleIffOrdered | libs/pm-core/src/state.rs:119-131 | for every run whose deliveries pick no announced position: all status writes follow the declared lifecycle if and only if each stored redemption comes after the stored settlement |
| Witnesses.ConfirmationCanComeFirst | libs/pm-core/src/tasks/redeem_status_poller.rs:52-64 | that order is not automatic: a run from start-up exists in which the redeem poller confirms before persistence stores the win |
| Lifecycle.SettledAndConfirmedOnce | libs/pm-core/src/tasks/redeem_status_poller.rs:49-92 | while no delivery picks an announced position: each position is announced settled at most once and confirmed redeemed at most once, for the payout its settlement owes; positions left Settling may be picked up again |
| SettleSafety.OnceIsNew | libs/pm-core/src/tasks/settlement.rs:231-251 | every run that handles each market's resolution once meets that condition |
| Lifecycle.SettledAgainIff | libs/pm-core/src/tasks/settlement.rs:83-94 | from any such state, delivering a market's resolution has a continuation, itself picking nothing announced, that ends with a position announced twice if and only if some announced position of that market has its settlement not stored and is not Redeemed |
| Witnesses.RepeatedResolutionSettlesTwice | libs/pm-core/src/tasks/market_rotation.rs:66-72 | a run from start-up in which a market announced resolved twice has a position settled and announced twice |
| Lifecycle.TallyNeverOvercounts | adapters/src/sqlite_store.rs:228-250 | in every intermediate state wins ≤ resolved, and neither count includes anything not announced or already counted at start |
| Lifecycle.TallySets | adapters/src/sqlite_store.rs:228-250 | once settlements are stored, the rows counted as wins and as resolved are exactly those announced plus those counted at start |
| Lifecycle.TallyIsRaceProof | libs/pm-core/src/tasks/persistence.rs:62-90 | once settlements are stored, (wins, resolved) grew by exactly (winners announced, positions announced), whenever the Redeemed writes landed |
| Money.TotalIsStartPlusPnl | libs/pm-core/src/tasks/bankroll.rs:29-74 | in every state of every lossless run: bankroll + in play + owed = opening bankroll + profit and loss of the settlements consumed |
| Money.DrainedMoney | libs/pm-core/src/state.rs:168-181 | with queues drained: in play = cost of filled, unsettled positions, plus the shortfalls of partly filled settled ones, less the settled cost of positions taken over from an earlier session; owed = payouts of won, unconfirmed ones |
| Money.NoShortfallIff | libs/pm-core/src/tasks/settlement.rs:99-104 | when fills never exceed orders, the shortfalls vanish if and only if every settled position was filled in full |
| Money.NothingCarriedIff | libs/pm-core/src/tasks/settlement.rs:83-94 | settlements costing something, the carried-over cost vanishes if and only if no settled position was in the database at start-up |
| Money.InPlayIsOpenCostIff | libs/pm-core/src/tasks/settlement.rs:99-104 | money in play is exactly the open positions' cost if and only if every settled position was filled in full and none was taken over from an earlier session |
| Witnesses.CarriedLossGoesNegative | libs/pm-core/src/state.rs:173-176 | a run from start-up with a filled row in the database: the loss is settled, all queues are drained, nothing is open, and money in play is −4 |
| Solvency.AccountMeans | libs/pm-core/src/state.rs:168-181 | in every state of every lossless run, drained or not: in play = fills consumed and not taken off, less costs taken off before or without their fill, plus shortfalls; owed = payouts due and not paid, less those paid before they were due |
| Solvency.SolventIff | libs/pm-core/src/state.rs:168-181 | in every such state each amount is non-negative if and only if what went early does not exceed what is outstanding (for the bankroll: fills do not exceed opening bankroll plus payouts) |
| Solvency.OwedInOrder | libs/pm-core/src/tasks/bankroll.rs:68-72 | while no redemption has overtaken its settlement, owed is the sum of the payouts due and not paid, non-negative when no payout is negative |
| Witnesses.OwedCanGoNegative | libs/pm-core/src/tasks/bankroll.rs:54-72 | a lossless run from start-up with one resolution that reaches owed = −10: the redemption is consumed while the settlement waits |
| Bankroll.BankrollState.UpdateOnFill | libs/pm-core/src/state.rs:168-171 | moves the cost from bankroll to money in play |
| Bankroll.BankrollState.UpdateOnSettlement | libs/pm-core/src/state.rs:173-176 | takes the cost out of play and adds cost plus profit to what is about to be redeemed |
| Bankroll.BankrollState.UpdateOnRedemption | libs/pm-core/src/state.rs:178-181 | moves the payout from about-to-be-redeemed to bankroll |
| Bankroll.BankrollState.Run | libs/pm-core/src/tasks/bankroll.rs:29-74 | the loop leaves the account the fold of the messages received |
| Bankroll.MoneyIsConserved | libs/pm-core/src/state.rs:168-181 | over any events in any order the three components sum to the start plus realized profit and loss |
| Bankroll.OrderDoesNotMatter | libs/pm-core/src/tasks/bankroll.rs:29-74 | any two arrival orders of the same events end in the same account |
| Bankroll.AnyOrderTotals | libs/pm-core/src/tasks/bankroll.rs:29-74 | in any order of arrival, at every moment: in play is the open costs less those settled early, owed the outstanding payouts less those paid early |
| Bankroll.NonNegativeIff | libs/pm-core/src/state.rs:168-181 | in any order, each component is non-negative if and only if what went early does not exceed what is outstanding (bankroll: fills within start plus payouts) |
| Bankroll.TotalsAreLedgers | libs/pm-core/src/state.rs:168-181 | when each position's events come fill, settle, redeem: in play is the sum of open costs and owed the sum of outstanding payouts, at every point |
| Bankroll.NeverNegative | libs/pm-core/src/state.rs:168-181 | the corollary for that order: with the start covering all fills, no component is negative at any point |
| Bankroll.OutOfOrderGoesNegative | libs/pm-core/src/tasks/bankroll.rs:68-72 | a redemption consumed before its settlement makes the owed amount negative for a while, yet the final account is the same |
| SharedWorld.World.GiveWay | libs/pm-core/src/tasks/executor.rs:28-41 | whatever other tasks do during an await, this task's own state is untouched, queues only grow, and none of the steps taken is its own |
| SharedWorld.OthersLeaveAlone | libs/pm-core/src/tasks/executor.rs:25-41 | any steps of other tasks leave a task's local variables and receivers alone and only extend the queues |
| SharedWorld.OthersKeepRows | libs/pm-core/src/tasks/executor.rs:88-127 | whatever the others do, no row disappears or changes the terms it was entered on, and only the executor gives out order ids |
| ExecutorTask.Executor.OnMarketChanged | libs/pm-core/src/tasks/executor.rs:34-42 | any publication, status-only ones included, empties and sends the slot; exactly the Rotate step |
| ExecutorTask.Executor.OnIntent | libs/pm-core/src/tasks/executor.rs:45-141 | a position is entered exactly when the policy admits the intent, some outcome has its name and the store takes the row; its row and the token sent are those of the least such outcome, with the market's slug and strike and the intent's size and limit; the exchange is called only from an empty slot, its answer queued and stored; every port answer, any interleaving |
| Protocol.FindsFirst | libs/pm-core/src/tasks/executor.rs:56-66 | the search finds the first outcome of the name, and nothing exactly when none has it |
| ExecutorTask.Executor.Claim | libs/pm-core/src/tasks/executor.rs:97-137 | from the claim on: an occupied slot stays as it is; an empty one ends Pending after a placement and Empty after a refusal |
| PollerTask.Poller.OnSlotChanged | libs/pm-core/src/tasks/order_status_poller.rs:31-38 | Pending(p) adds exactly p to the awaited positions, any other slot value changes nothing; the tracked ones stay; exactly the SeeSlot step |
| PollerTask.Poller.OnTick | libs/pm-core/src/tasks/order_status_poller.rs:40-100 | awaited positions whose stored row, as the fetch is answered, is not settled, rejected or cancelled and has an order id move to the tracked ones; every tracked order is asked about exactly once and every reply queued; exactly those reported filled, rejected or cancelled are dropped; no fetch while nothing is awaited |
| Witnesses.WholeLife | libs/pm-core/src/tasks/order_status_poller.rs:28-101 | a run from start-up takes one position through every task: drafted, entered, placed, noticed, resolved, polled, filled, stored, settled as won, redeemed and paid, from 100 to 106 |
| PollerTask.Poller.Scan | libs/pm-core/src/tasks/order_status_poller.rs:46-54 | the scan moves exactly the awaited positions whose open row has an order id |
| PersistenceTask.Persister.OnOrderUpdate | libs/pm-core/src/tasks/persistence.rs:24-52 | one message, one persist step: a fill stores Filled and its price, a rejection Rejected, a cancellation Cancelled, in the row the others left and no other; Submitted or a failed write changes nothing |
| PersistenceTask.Persister.OnSettled | libs/pm-core/src/tasks/persistence.rs:53-91 | one persist step: a win or loss stores that status and its profit; the tally is read only after a successful write, may fail to be read, and is otherwise the two counts over the rows as they then stand |
| BankrollTask.Banker.OnOrderUpdate | libs/pm-core/src/tasks/bankroll.rs:36-52 | a fill moves price × size from bankroll to in play, other messages leave the account alone; exactly one machine step |
| BankrollTask.Banker.OnSettled | libs/pm-core/src/tasks/bankroll.rs:54-66 | the account takes the cost out of play and cost plus profit into owed; exactly one machine step |
| BankrollTask.Banker.OnRedeemed | libs/pm-core/src/tasks/bankroll.rs:68-72 | the account moves the payout from owed to bankroll; exactly one machine step |
| Settling.WinnerIs | libs/pm-core/src/tasks/settlement.rs:32-45 | the catalog's verdict stands whatever the price; without one there is a winner exactly when strike and price exist, Up exactly above the strike |
| Settling.WinsIff | libs/pm-core/src/tasks/settlement.rs:97 | a position wins exactly when its outcome is the winner's name letter by letter, ASCII letters in either case |
| Settling.OneSideWins | libs/pm-core/src/tasks/settlement.rs:32-45 | on the price fallback exactly one side of an up/down market wins, in any casing; a tie goes to the down side |
| SettlementTask.Settler.OnTick | libs/pm-core/src/tasks/settlement.rs:216-229 | the buffer is the newest 50 of all ticks received so far |
| SettlementTask.Settler.OnCutoff | libs/pm-core/src/tasks/settlement.rs:236-242 | the snapshot becomes the newest price at or before the close among the newest 50 ticks received, or none |
| SettlementTask.Settler.OnResolved | libs/pm-core/src/tasks/settlement.rs:243-251 | uses up the snapshot; by the catalog's verdict or else the price, each filled or settling position of the market, as stored when the query is answered, is announced once if marked: won at payout less cost if its outcome is the winner's name, ASCII case aside, and redeeming succeeds, else lost at its cost; redemptions with a transaction id are handed over |
| SettlementTask.EveryRowAnnounced | libs/pm-core/src/tasks/settlement.rs:91-192 | when no store or redeem call fails, every row of the snapshot is announced, Won exactly if its outcome is the winner's name, ASCII case aside |
| SettlementTask.Settler.SettleMarketPositions | libs/pm-core/src/tasks/settlement.rs:51-193 | no winner or no store: nothing happens; otherwise the announcements and hand-overs stated for OnResolved, by exactly its own steps |
| SettlementTask.Settler.SettleOne | libs/pm-core/src/tasks/settlement.rs:91-192 | one position: skipped if the marker fails, lost at full cost, or won at payout minus cost; left Settling if redeeming fails |
| RedeemTask.RedeemPoller.OnPending | libs/pm-core/src/tasks/redeem_status_poller.rs:35-42 | the pending redemption is tracked with its payout |
| RedeemTask.RedeemPoller.OnTick | libs/pm-core/src/tasks/redeem_status_poller.rs:44-93 | every tracked redemption is asked about exactly once; those answered Confirmed, and no others, are sent on once each with their payout; those answered Confirmed or Failed, and no others, are dropped |
| RedeemTask.RedeemPoller.Check | libs/pm-core/src/tasks/redeem_status_poller.rs:50-88 | Confirmed: the store write, then the announcement of the tracked payout even if the store refused; Failed: dropped and nothing said; any other reply or a failed call: nothing |
| Deployment.QueuesAreSafe | libs/pm-core/src/tasks/order_status_poller.rs:28-101 | whatever calls the task classes have made from start-up: one terminal update per position in the queue, one placement per rotation |
| Deployment.SettlementsAreSafe | libs/pm-core/src/tasks/settlement.rs:91-192 | and, no delivery having picked an announced position: one settlement and one confirmation per position, confirmed at what is owed |
| Deployment.AccountAddsUp | libs/pm-core/src/tasks/bankroll.rs:29-74 | and, no receiver lagging: the bankroll task's account is the opening bankroll plus consumed profit and loss |
| Store.SqliteStore.InsertPosition | adapters/src/sqlite_store.rs:70-99 | a new id, above all earlier ones, holding the record |
| Store.SqliteStore.UpdatePosition | adapters/src/sqlite_store.rs:101-155 | the named row alone changes, and of it only the status and the order id, fill price or profit the update carries; an id without a row changes nothing |
| Store.SqliteStore.OpenPositions | adapters/src/sqlite_store.rs:157-227 | exactly the rows not Won, Lost, Rejected or Cancelled |
| Store.SqliteStore.SuccessRateCounts | adapters/src/sqlite_store.rs:228-250 | the numbers of Won-or-Redeemed rows and of those plus Lost rows |
| Store.MockStore.InsertPosition | adapters/src/mock_store.rs:29-40 | appends under the next id |
| Store.MockStore.UpdatePosition | adapters/src/mock_store.rs:42-78 | edits the same columns of the record of that id, except that an order id leaves the status alone; fails and changes nothing when there is none |
| Store.MockStore.OpenPositions | adapters/src/mock_store.rs:80-91 | exactly the records Submitted, Filled or Settling |
| Store.MockStore.SuccessRateCounts | adapters/src/mock_store.rs:93-117 | the same two counts as the SQL query |
| Store.UpdatesAgreeIff | adapters/src/mock_store.rs:42-78 | the two stores differ on an update exactly when an order id is recorded for a row past Submitted |
| Store.OpenSetsAgreeIff | adapters/src/sqlite_store.rs:157-168 | the two open sets agree exactly when no row is Redeemed; what settlement picks agrees always |
| SimExchange.OrderIdInjective | adapters/src/sim_market_client.rs:87-91 | minted ids are never equal for different counters |
| SimExchange.TransactionIdInjective | adapters/src/sim_market_client.rs:263-286 | nor are transaction ids |
| SimExchange.SimMarketClient.RestOrder | adapters/src/sim_market_client.rs:117-148 | the section under the lock: reserves limit × shares and rests the order under the id minted before |
| SimExchange.SimMarketClient.PlaceOrder | adapters/src/sim_market_client.rs:109-148 | mint and section with nothing between: a fresh id, the reservation taken, the order resting |
| SimExchange.SimMarketClient.BeginStatus | adapters/src/sim_market_client.rs:150-186 | unknown order: Cancelled; alwaysFill: filled at once in full at its limit; younger than the latency: Submitted; else on to the second section; the ledger changes accordingly and no more |
| SimExchange.SimMarketClient.EndStatus | adapters/src/sim_market_client.rs:187-237 | fills exactly when a price is cached and is at most a buy's limit or at least a sell's, for all shares at the limit, releasing the reservation; otherwise nothing changes; the failed `unwrap` exactly when it would fill an order that is gone |
| SimExchange.SimMarketClient.OrderStatus | adapters/src/sim_market_client.rs:150-238 | an undisturbed call always ends in an answer: a fill exactly under alwaysFill or past the latency against the cached ask (a buy) or bid (a sell) of the order's token |
| SimExchange.SimMarketClient.CancelOrder | adapters/src/sim_market_client.rs:240-248 | the order is gone and its price × shares back in the balance; unknown ids change nothing |
| SimExchange.SimMarketClient.Redeem | adapters/src/sim_market_client.rs:263-286 | pays one unit per share under the transaction id of a counter used once |
| SimExchange.BooksBalance | adapters/src/sim_market_client.rs:56-64 | over any interleaving: balance + reserved = virtual bankroll, reserved = sum of limit × shares over resting orders, ids all minted |
| SimExchange.MintedIsNew | adapters/src/sim_market_client.rs:109-148 | after any run, whatever ran between an order's mint and its insertion, the insertion overwrites no resting order |
| SimExchange.GoneForGood | adapters/src/sim_market_client.rs:205-238 | an order put to rest and then filled or cancelled never rests again, whatever follows |
| SimExchange.BalanceForgetsFills | adapters/src/sim_market_client.rs:207-215 | two histories leaving the same reservations leave the same balance: fills are not debited |
| SimExchange.PanicsIffTakenMeanwhile | adapters/src/sim_market_client.rs:186-212 | the `unwrap` fails exactly when the cached price is no worse than the limit and another step took the order between the two sections |
| SimExchange.SolePollerIsSafe | adapters/src/sim_market_client.rs:186-212 | over any run in which no status or cancel call begins while a status call on the same order is in flight, no `unwrap` ever fails, whatever else interleaves |
| SimExchange.OverlappingCallsPanic | adapters/src/sim_market_client.rs:186-212 | two overlapping calls on one crossing order do end in the panic |
| SimExchange.FillsAreFull | adapters/src/sim_market_client.rs:205-238 | whatever ran between mint and insertion and since: a status call fills exactly under alwaysFill, or past the latency gate with a cached price no worse than the intent's limit, then for all its shares at that limit; a second section that does not fill leaves the ledger unchanged |
| SimExchange.BalanceNegativeIff | adapters/src/sim_market_client.rs:56-64 | after any run the balance is negative if and only if the resting orders hold more than the virtual bankroll |
| SimExchange.BalanceCanGoNegative | adapters/src/sim_market_client.rs:109-148 | one order makes it so exactly when it costs more than the virtual bankroll |
| DryRun.BotRuns | adapters/src/sim_market_client.rs:108-286 | the bot's side of any run against the exchange, the status call in two sections, is a run of the event machine |
| DryRun.FillsMatchRows | libs/pm-core/src/tasks/order_status_poller.rs:57-97 | over any such run the exchange never panics, its books balance, and every fill announced is for exactly the shares in the position's row at the row's limit price |
| DryRun.WinsPayShares | adapters/src/sim_market_client.rs:263-286 | every win announced in such a run paid one unit per share of its row |
| DryRun.SettlesInFull | libs/pm-core/src/tasks/settlement.rs:99-104 | so every settled position was filled in full, with no assumption on sizes, and all shortfalls vanish |
| DryRun.DryInPlay | libs/pm-core/src/state.rs:168-181 | a dry run with drained queues ends with money in play equal to the open positions' cost less the settled cost of positions taken over |
| MarketRotation.WindowContains | libs/pm-core/src/clock.rs:21-28 | the current window contains now, and is the only aligned one that does |
| State.MarketEdgeIff | libs/pm-core/src/state.rs:74-95 | a market moves one stage at a time or straight from Pending to Resolved, never back |
| MarketRotation.PrefetchSkipsAWindow | libs/pm-core/src/tasks/market_rotation.rs:115-121 | the prefetched window starts at least two intervals after the round's, and exactly two unless the fetch is late |
| MarketRotation.RotationTask.RunRound | libs/pm-core/src/tasks/market_rotation.rs:45-163 | what a round publishes and announces, exactly, for every catalog answer and every cancellation: the first market found; unless already resolved its Open, TradingCutoff and Resolving records with the cutoff announced in between; the first record called resolved, announced; the prefetched market, if any, by a round that finishes |
| MarketRotation.RanAdds | libs/pm-core/src/tasks/market_rotation.rs:45-163 | each round adds a paired piece of the stream for its own market, with a resolution exactly if its market is found resolved or its polls turn resolved before the cancellation |
| MarketRotation.RotationTask.RunOpenRound | libs/pm-core/src/tasks/market_rotation.rs:74-163 | the same from the first publication of an unresolved market on |
| MarketRotation.RotationTask.RunToCutoff | libs/pm-core/src/tasks/market_rotation.rs:74-140 | none of the four expected transitions can fail; the cutoff is announced for the market as published at cutoff |
| MarketRotation.RotationTask.Run | libs/pm-core/src/tasks/market_rotation.rs:13-30 | the lifecycle stream is a prefix of (Resolved or TradingCutoff(s) Resolved(s))*, for every catalog and every cancellation; the resolutions on it are those of the announcing rounds up to the first unfinished one, so no market's comes twice if and only if no such slug repeats |
| MarketRotation.FoundResolvedAgain | libs/pm-core/src/tasks/market_rotation.rs:66-72 | n rounds that find one market resolved announce it n times |
| ResolutionPrices.ResolutionPrice | libs/pm-core/src/tasks/settlement.rs:17-22 | the backwards scan finds the newest tick at or before the cutoff |
| ResolutionPrices.NewestIff | libs/pm-core/src/tasks/settlement.rs:17-22 | a price comes back exactly when some tick is at or before the cutoff, and it is the last such tick's |
| ResolutionPrices.BufferIsRing | libs/pm-core/src/tasks/settlement.rs:216-229 | over any inputs the buffer is the 50 newest ticks received |
| ResolutionPrices.BufferRefinesHistory | libs/pm-core/src/tasks/settlement.rs:14-22 | a price from the buffer is the full history's price; they differ exactly when the deciding tick has left the buffer |
| ResolutionPrices.NewestIsLatest | libs/pm-core/src/tasks/settlement.rs:16-22 | with ticks in time order the chosen tick splits the history at the cutoff and is latest before it |
| ResolutionPrices.LateScanAgrees | libs/pm-core/src/tasks/settlement.rs:244-247 | a scan at resolution that still succeeds equals the cutoff snapshot if all later ticks are past the cutoff |
| ResolutionPrices.SnapshotBelongsToMarket | libs/pm-core/src/tasks/settlement.rs:234-251 | for any interleaving of ticks with a paired stream, the snapshot used at a resolution was taken at that market's own cutoff |
| ResolutionPrices.ResolutionPriceIsHistorical | libs/pm-core/src/tasks/settlement.rs:243-247 | every price used at a resolution is the newest tick at or before the cutoff over the whole tick history |
| MarketData.AssetIdsForMarket | libs/pm-core/src/tasks/market_data.rs:13-21 | the market's token ids, sorted |
| MarketData.SortSorts | libs/pm-core/src/tasks/market_data.rs:19-20 | the sorted list is in order |
| MarketData.LeqIff | libs/pm-core/src/tasks/market_data.rs:19-20 | that order is the lexicographic one: a beginning comes before the whole, otherwise the first difference decides |
| MarketData.IdsEqualIff | libs/pm-core/src/tasks/market_data.rs:62-75 | two markets' id lists are equal exactly when their tokens are the same, repeats counted, order ignored |
| MarketData.MarketDataTask.OnMarketChanged | libs/pm-core/src/tasks/market_data.rs:62-92 | afterwards the ids are the market's tokens in order; if they were before, nothing changes; if not, the cache is empty and the feed is connected with them, or absent when there are none |
| MarketData.MarketDataTask.OnBook | libs/pm-core/src/tasks/market_data.rs:95-118 | the token's entry is replaced and no other |
| MarketData.MarketDataTask.OnFeedError | libs/pm-core/src/tasks/market_data.rs:95-118 | the feed and the ids are dropped, the cache is kept |
| MarketData.CacheAgreesWithSubscription | libs/pm-core/src/tasks/market_data.rs:38-118 | while a feed is live, cached tokens are subscribed and the cache is the last-write-wins fold of the updates since the last rebuild |
| MarketData.RepublicationKeepsIff | libs/pm-core/src/tasks/market_data.rs:62-92 | while a feed is live, a publication leaves everything alone exactly when the tokens are the same, and otherwise clears the cache |
| MarketData.ErrorLeavesStaleBooks | libs/pm-core/src/tasks/market_data.rs:95-118 | after a feed error stale books stay until the next publication with a token, even of the same market |
| DecisionCenter.DecisionCenter.OnTick | libs/pm-core/src/tasks/decision_center.rs:48-184 | an intent goes out exactly when every gate is passed, on the cached ask of the first outcome of the decided name; its size is the sizing's raised to the market minimum, its limit that of this ask |
| State.ReadsBack | libs/pm-core/src/state.rs:195-213 | a token's last update is read back, its ask to a buyer and its bid to a seller, and no other token's prices change |
| DecisionCenter.LimitIsNearest | libs/pm-core/src/tasks/decision_center.rs:147-156 | for any ask and positive tick the limit is the multiple of the tick nearest to one tick above the ask, or to one below 1 if that is less |
| DecisionCenter.RoundsToNearest | libs/pm-core/src/tasks/decision_center.rs:149-155 | rounding takes a nearest integer, the even one of two |
| DecisionCenter.LimitOnGrid | libs/pm-core/src/tasks/decision_center.rs:149-156 | for tick 1/n: a whole number of ticks, at most one tick below 1, at most 1.5 ticks above the ask, above the ask exactly when the ask is below the last grid price |
| DecisionCenter.LimitIsMarketable | libs/pm-core/src/tasks/decision_center.rs:117-156 | for n ≥ 20 and 0 < ask < 0.95: ask < limit ≤ 1 − tick and limit − ask ≤ 1.5 ticks |
| DecisionCenter.GuardSufficesIff | libs/pm-core/src/tasks/decision_center.rs:117-156 | the 0.95 guard ensures a limit above the ask for every ask if and only if n ≥ 20 |
| DecisionCenter.CoarseTickMissesIff | libs/pm-core/src/tasks/decision_center.rs:117-156 | at any tick 1/n the limit exceeds the ask exactly when the ask is under n − 1 ticks |
| DecisionCenter.CoarseTickMisses | libs/pm-core/src/tasks/decision_center.rs:117-156 | an ask of 0.92 at a tick of 0.1 passes the guard and gets a limit of 0.9 |
| DecisionCenter.CapHoldsIff | libs/pm-core/src/tasks/decision_center.rs:147-155 | for every ask and positive tick the documented cap of one tick below 1 survives the rounding exactly when the price before rounding is below the half tick above the last whole tick under the cap (or on it, that tick being even) |
| DecisionCenter.CapCanFail | libs/pm-core/src/tasks/decision_center.rs:147-155 | it fails for ask 0.2 at tick 0.35 (limit 0.7) and for ask 0.5 at tick 0.4 (limit 0.8) |
| DecisionCenter.NonPositiveTick | libs/pm-core/src/tasks/decision_center.rs:149-155 | a tick that is not positive gives an unrounded limit at or below the ask |
| DecisionCenter.CrossesLaterAsk | adapters/src/sim_market_client.rs:194-198 | an order at that limit passes the exchange's cross test for any later ask no higher than the original |
| Candles.CandleAggregator.OnTick | libs/pm-strategy/src/indicators/candle.rs:53-101 | one step of the streaming aggregation; a candle comes back exactly when a tick starts another bucket |
| Candles.StreamingEqualsBatch | libs/pm-strategy/src/indicators/candle.rs:53-101 | closed history = summaries of the last max(cap, 1) completed maximal equal-bucket runs; the candle in progress summarises the current run |
| Candles.RunsExist | libs/pm-strategy/src/indicators/candle.rs:53-101 | every tick sequence has a cut into maximal equal-bucket runs |
| Candles.TruncDivIs | libs/pm-strategy/src/indicators/candle.rs:54-66 | bucket numbers divide towards zero |
| Candles.AlignedIff | libs/pm-strategy/src/indicators/candle.rs:54-66 | a candle's start is the aligned bucket start of its tick exactly for times at or after the epoch or on a boundary |
| Candles.CapOnlyForgets | libs/pm-strategy/src/indicators/candle.rs:78-84 | a smaller capacity keeps exactly the newest candles of a larger one and the same candle in progress |
| Momentum.MomentumIff | libs/pm-strategy/src/indicators/momentum.rs:11-28 | the sign of the last two bodies taken together, none before there are two |
| Momentum.AccelerationReading | libs/pm-strategy/src/indicators/momentum.rs:40-62 | the code agrees with its documented sign exactly when the latest candle rises, and returns the opposite otherwise |
| Momentum.ThreeCandlesSuffice | libs/pm-strategy/src/indicators/momentum.rs:11-62 | history of three (two) gives the unbounded history's acceleration (momentum); below three acceleration is always 0 |
| Ema.Ema.Update | libs/pm-strategy/src/indicators/ema.rs:24-33 | value and count follow the fold of the samples fed |
| Ema.UpdateMoves | libs/pm-strategy/src/indicators/ema.rs:14-33 | the first sample is the average; each later one moves it 2 / (period + 1) of the way |
| Ema.CrossoverSign | libs/pm-strategy/src/indicators/ema.rs:52-61 | the sign over the two folds, 0 until both are warm |
| Ema.WithinSamples | libs/pm-strategy/src/indicators/ema.rs:24-33 | the average stays within any bounds its samples keep |
| Ema.CrossoverRisingIff | libs/pm-strategy/src/indicators/ema.rs:52-61 | on non-decreasing closes, shorter period first: never -1, and +1 exactly when warm and some close rose |
| Ema.CrossoverFallingIff | libs/pm-strategy/src/indicators/ema.rs:52-61 | on non-increasing closes: never +1, and -1 exactly when warm and some close fell |
| Rsi.Rsi.Update | libs/pm-strategy/src/indicators/rsi.rs:34-52 | one Wilder step, seeded by the first change |
| Rsi.WilderStep | libs/pm-strategy/src/indicators/rsi.rs:34-52 | the first change seeds both averages, each later one enters with weight 1 / period |
| Rsi.ReadingIsShare | libs/pm-strategy/src/indicators/rsi.rs:54-70 | a reading is the average gain's share of gain plus loss, in percent |
| Rsi.ReadingIff | libs/pm-strategy/src/indicators/rsi.rs:34-70 | over any closes: a reading exactly after more than `period` of them, in [0, 100], 100 exactly when none fell, 0 exactly when one fell and none rose |
| Volatility.VolEstimator.Update | libs/pm-strategy/src/model/vol.rs:37-51 | between strides only the counter moves; on one, with two positive prices, the variance becomes alpha × squared log return + (1 − alpha) × variance |
| Volatility.StrideIsSubsampling | libs/pm-strategy/src/model/vol.rs:37-51 | a strided estimator equals the unstrided one fed every stride-th tick |
| Volatility.SampledAt | libs/pm-strategy/src/model/vol.rs:38-41 | the i-th sample is tick (i + 1)·stride and there are ⌊t/stride⌋ of them |
| Volatility.UpdateCount | libs/pm-strategy/src/model/vol.rs:37-51 | on positive prices max(0, ⌊t/stride⌋ − 1) updates after t ticks |
| Volatility.VarianceBounded | libs/pm-strategy/src/model/vol.rs:42-48 | for alpha in [0, 1] the variance stays in [0, bound] for any bound on the squared returns, whatever prices arrive |
| TickTrend.TickTrend.Push | libs/pm-strategy/src/indicators/tick_trend.rs:31-36 | the buffer is the last `window` prices ever pushed |
| TickTrend.TickTrend.Signal | libs/pm-strategy/src/indicators/tick_trend.rs:44-84 | non-zero exactly with enough samples, six tenths of the moves one way and a net move beyond 0.005 % of the oldest price, signed by the net move |
| TickTrend.CountMoves | libs/pm-strategy/src/indicators/tick_trend.rs:53-62 | the loop counts the positions that end a rise and those that end a fall |
| TickTrend.SignalConsistentIff | libs/pm-strategy/src/indicators/tick_trend.rs:8-14 | on positive prices a signal has 60 % of the moves behind it exactly when the net change goes the way most moves went |
| TickTrend.MajorityCanBeOverruled | libs/pm-strategy/src/indicators/tick_trend.rs:75-83 | two falls and one larger rise give an upward signal |
| Obi.MultiExchangeObi.OnSnapshot | libs/pm-strategy/src/model/obi.rs:64-73 | only the named exchange's tracker takes the snapshot and its volume |
| Obi.RefreshedBy | libs/pm-strategy/src/model/obi.rs:19-29 | a book with volume moves the smoothed imbalance alpha of the way to (bids − asks) / (bids + asks), an empty one not; its volume is the weight |
| Obi.MultiExchangeObi.DriftNudge | libs/pm-strategy/src/model/obi.rs:78-96 | the loops compute the weighted mean, or the plain one below the volume threshold |
| Obi.NudgeIs | libs/pm-strategy/src/model/obi.rs:78-96 | in closed form over the three exchanges: the volume-weighted mean of imbalance × drift bound while there is volume, else the plain mean |
| Obi.SmoothedInRange | libs/pm-strategy/src/model/obi.rs:19-29 | over any snapshots with non-negative volumes each smoothed imbalance stays in [−1, 1] and each weight non-negative |
| Obi.NudgeIsMean | libs/pm-strategy/src/model/obi.rs:78-96 | on both branches the nudge lies within any bounds the exchanges' own nudges keep |
| Obi.NudgeInRange | libs/pm-strategy/src/model/obi.rs:35-96 | over any snapshots the nudge stays within ±max_drift |
| Obi.SilentExchangeDropsOut | libs/pm-strategy/src/model/obi.rs:64-96 | from an exchange's empty book until its next snapshot, whatever the others send: its imbalance is kept, its weight is 0, and while the others have volume the nudge is the one computed without it |
| Composite.CompositeStrategy.Evaluate | libs/pm-strategy/src/strategy/composite.rs:146-282 | the streaming state is the one the valid (price, time) history determines, and the decision a function of that history and the clock; invalid prices touch nothing |
| Composite.ClosesAreRunEnds | libs/pm-strategy/src/strategy/composite.rs:162-166 | averages and RSI are fed the last price of each completed bucket run, whatever the history capacity |
| Composite.ScoreIs | libs/pm-strategy/src/strategy/composite.rs:175-241 | each of the six signals enters the score once, with its own sign and weight, at periods 9, 21 and 14 |
| Composite.DeltaIs | libs/pm-strategy/src/strategy/composite.rs:179-200 | the window delta is the weight of the first tier whose threshold the displacement from the strike passes, with its sign |
| Composite.RsiVotes | libs/pm-strategy/src/strategy/composite.rs:216-236 | above 75 votes down, below 25 up, otherwise and without a reading not at all |
| Composite.EnterIff | libs/pm-strategy/src/strategy/composite.rs:250-281 | enters exactly with more than danger_zone_secs and at most entry_window_secs left and enough score; the confidence is the absolute score over norm, up to 1, at least min_confidence, and the direction the score's sign, never a zero score |
| Composite.TimeLeftAtEntry | libs/pm-core/src/strategy.rs:20-22 | at an entry strictly more than danger_zone_secs × 1000 ms remain, and less than one second over the entry window |
| Composite.HistoryOfThreeSuffices | libs/pm-strategy/src/strategy/composite.rs:168-211 | any two capacities of at least three give the same decision |
| Composite.DeltaMonotone | libs/pm-strategy/src/strategy/composite.rs:179-200 | with descending tier weights the window-delta contribution never falls as the spot rises and has the displacement's sign, whatever the thresholds |
| Composite.FallingVotes | libs/pm-strategy/src/strategy/composite.rs:202-241 | on a history that never rises momentum, crossover and trend never vote up; a warm RSI votes up after any fall, and down when all closes are equal |
| Composite.RisingVotes | libs/pm-strategy/src/strategy/composite.rs:202-241 | on a history that never falls momentum, crossover and trend never vote down, and the RSI, once warm, always does |

## Left out

- Atomic steps: the end of an exchange call and the send that follows it (placing, polling, redeeming) are one event, as are reading the open positions and starting to settle; every other await separates two events.
- SharedWorld.World.Await: its body does nothing; the tasks rely only on its contract, which allows any steps of the others. Scheduling fairness is not modelled.
- Liveness: watch values coalesce and polling may never succeed, so no claim says an order is eventually tracked, settled or redeemed.
- Closed channels: a send whose receivers are gone, which ends the executor, poller and redeem loops, and cancellation of every task but rotation.
- Intents that change nothing (rejected by the policy, no market, no such outcome) are no events of the machine; the executor class covers those branches.
- The event machine alone lets an exchange answer with any price and size, so its money results carry the size as a condition; `DryRun` discharges it for the simulated exchange, not for the live one. Other clients of one simulated exchange are left out there.
- Integer widths: the id counter, tick counter and sizes are unbounded; wrap-around of 32-bit and 64-bit counters is not modelled.
- Decimal and floating-point rounding, infinities and not-a-number values: exact reals throughout. `ln` is a parameter; `sqrt`, and with it the annualized volatility, is left out.
- Row columns that no property needs: condition id, submission and update times; the transaction id of a tracked redemption.
- The dry-run taker fee (adapters/src/sim_market_client.rs:98-105): computed at a fill and then not used by the source.
- Case folding in settlement compares ASCII letters only, as the source does.
- The declared position transition function and the slot's `fill` are called by no task; the former appears as the edge relation the lifecycle theorem is about.
- Order cancelling is called by no task; the exchange model includes it, the bot's machine does not.
- Market resolution data: that a catalog answers with the market it was asked for is an assumption of the rotation model.
- Sizing models, the basic and quant strategies, drift and probability formulas: the decision center takes any sizing function and any strategy decision.
- Web sockets, HTTP, signing, on-chain calls, SQL text encoding, configuration, logging, heartbeats, price-feed forwarding, the explorer and the offline recovery binary.
