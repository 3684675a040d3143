# Order-path verification

A Dafny model of a trading bot for binary prediction markets and of the paper venue it trades on,
with proofs about whole runs. Money, prices and shares are exact reals; `quantize` is an exact
floor, ceiling or round-half-even on a grid. Objects that the bot updates in place are classes, and
each of their methods is proved equal to a function of the old state; the theorems are then about
those functions and about every sequence of steps built from them.

- **Order path.** `PaperExchange` (the venue), `ExecutionEngine` (order records, duplicate
  detection, invariant checks), `Portfolio` (cash, cost basis, profit) and `TradingCore` (the part of
  the decision step that moves money) refine `PaperVenue`, `Execution`, `Accounting` and `OrderPath`.
  `Intents` joins the engine's order building to the venue's acceptance test.
  `OrderPath` states the invariant that couples the venue's ledger with the portfolio's;
  `DeliverStep`, `VenueStep`, `SubmitStep` and `SettleStep` prove that each kind of step keeps it, and
  `OrderPathProof` that it holds in every reachable state; `PolledState` says what is left to do right
  after a poll. `FillChecks` and `VenueTerms` put the engine's checks and the venue's single operations
  in their users' terms, `LedgerFacts` the portfolio's. `Delivery` proves that the polled queue and
  the history query together deliver every event exactly once. `Submission` cuts `execute` at every
  point where a process can die and proves that a decision is submitted at most once.
- **Limits over runs.** `RiskEngine` makes every check of an entry and an exit, `Rates` keeps the
  pruned deques, `DailyLoss` ties the daily limit to the first mark of the UTC day, `Exposure` proves the exposure limit over whole runs of the order path up to
  rounding dust and `ExposureOnGrid` exactly on the venue's grids. `EntryCover` replaces what the
  protocol assumes of submissions by what the risk engine checks, with a balance reserve. `EdgeEngine`
  computes the candidate of a book, `Decisions` joins it to the risk engine's verdict, and `Trades`
  works out one trade step by step; the concrete runs in `OverdrawRun`, `OffGridRun` and `SettledSale`
  are built from them.
- **Lazy matching.** `LazyMatching` shows that matching late is matching on time on a fixed book;
  `LazyDriver` says exactly when the replay driver keeps to that, and `DecisionStep` exactly when the
  several orders of one step do.
- **Market data.** `OrderBook` and `ClobMessages` refine the incremental book to a last-write-wins
  log, `BookStamps` says from stamps and levels alone which messages a book takes and when it stays
  usable, `AbortedEvents` exactly which malformed events can leave a crossed book behind,
  `PriceSeries` refines the segment-wise average to a per-millisecond sum.
- **Lifecycle and replay.** `Lifecycle`, `StateMachine`, `HaltJournal` and `LifecycleRuns` cover the
  state machine, the kill switch and the halt history rebuilt from the audit log. `Replay` has the
  reader, the clock and the schedule of a replayed session, `ReplayRun` the loop and the order of its
  actions, `ReplayVenue` the books an order is matched on.

Where the obvious claim is not what the code does, the code is kept and the exact condition proved:
the fee reserve at the limit price (`FeeReserve`, `OverdrawRun`), a rounded cost basis that dips below
zero (`Accounting`) and the exposure limit it then lets through (`OffGridRun`), the watchdog's cancel
of an order that is already due (`LazyDriver`), the second order of a step when nothing delays the
first (`DecisionStep`), a market settled under a sale (`SettledSale`), a snapshot that carries an
unsupported tick size (`OrderBook`), an aborted price-change event (`AbortedEvents`), a kill request in
a manual-only halt (`Lifecycle`), and a halt stamped zero (`HaltJournal`). The docstring of the state
machine says that any state can move to KILL_SWITCH; the code refuses that automatically in a
manual-only HALTED, and the model follows the code.

Run `dafny verify dfyconfig.toml` to check everything.

## Model

| member | source | states |
|---|---|---|
| `OrderPathProof.InvariantOverRuns` | src/polymarket_bot/app/core.py:216-238 | over every interleaving of clock, books, submissions with lost calls or replies, arrivals, cancels, polls, history queries, operator verdicts and settlements, the whole order-path invariant holds |
| `OrderPathProof.LedgersCoupled` | src/polymarket_bot/adapters/paper_exchange.py:184-323 | in every reachable state the venue's cash and each position equal the portfolio's plus the effect of exactly the fills not yet delivered; no invariant violation is recorded, no fill refused, cash never negative |
| `OrderPathProof.IdleLedgersAgree` | src/polymarket_bot/app/core.py:401-406 | with no open order the two ledgers are equal in cash and token by token, and nothing is pending at the venue |
| `OrderPathProof.ClosedOrderHoldsVenueTotal` | src/polymarket_bot/execution/engine.py:297-319 | a closed order's filled shares are exactly the total the venue filled for it |
| `OrderPathProof.StepKeepsInv` | src/polymarket_bot/app/core.py:216-238 | each single step the protocol allows keeps the invariant |
| `OrderPathProof.AdvanceKeeps` | src/polymarket_bot/adapters/paper_exchange.py:184-191 | matching all arrivals keeps the coupling, and what is queued is exactly what was logged since |
| `OrderPathProof.PollKeeps` | src/polymarket_bot/adapters/paper_exchange.py:157-160 | a poll followed by apply_events delivers everything, all of it valid, and leaves the queue empty |
| `OrderPathProof.FoundIsStream` | src/polymarket_bot/execution/engine.py:325-338 | what the history query finds for an order is exactly that order's own events, in order |
| `OrderPathProof.ResolveKeeps` | src/polymarket_bot/execution/engine.py:321-341 | applying a history query keeps the invariant however much of it was already delivered by polling |
| `DeliverStep.DeliverKeepsCore` | src/polymarket_bot/execution/engine.py:239-295 | any gap-free arrival, new or repeated, keeps the coupling, the cash and share cover and the portfolio's acceptance |
| `VenueStep.MatchKeepsCore` | src/polymarket_bot/adapters/paper_exchange.py:218-312 | one order's match keeps the coupling |
| `VenueStep.CancelKeepsCore` | src/polymarket_bot/adapters/paper_exchange.py:133-149 | a cancel of any id, pending or not, keeps the coupling |
| `SubmitStep.SubmitStepKeepsCore` | src/polymarket_bot/execution/engine.py:175-236 | a submission keeps the invariant whether its call is lost, its reply is lost, or it is refused, rejected or accepted |
| `SettleStep.SettleKeepsCore` | src/polymarket_bot/app/core.py:319-356 | settling both ledgers keeps them coupled: the venue's payout is the portfolio's |
| `SettledSale.SettlingUnderASaleRaises` | src/polymarket_bot/app/core.py:319-356 | a failing run: an approved exit is on its way when its market settles; both ledgers drop the shares, the venue still matches the sale and the next poll raises |
| `SettleStep.CloseKeepsCore` | src/polymarket_bot/execution/engine.py:346-357 | closing an order that never reached the venue keeps the invariant |
| `PolledState.NothingOnItsWayAfterPoll` | src/polymarket_bot/app/core.py:222-223 | because the step polls before it settles, no fill is on its way, on any token, when a market is settled |
| `TradingCore.TradingCore.PollExecution` | src/polymarket_bot/app/core.py:280-289 | the objects together take exactly the protocol's poll step |
| `TradingCore.TradingCore.SettleOne` | src/polymarket_bot/app/core.py:336-343 | portfolio and venue settle together, a legal protocol step right after a poll: the condition's positions are gone and cash has grown by the winning shares |
| `TradingCore.TradingCore.MaybeReconcile` | src/polymarket_bot/app/core.py:401-445 | runs only when due and idle; in every reachable state it then passes, lists nothing and resets the failure count |
| `TradingCore.TradingCore.Step` | src/polymarket_bot/app/core.py:216-227 | one poll, one settlement for each resolved market, one lookup for each order then UNKNOWN: every position of a resolved market is closed, the venue drops both its tokens, both cash balances grow by exactly the winning shares held after the poll and nothing else moves; the two ledgers are then equal; stuck are exactly the unknown orders without venue events past the timeout; the reconciliation stamp moves exactly when it was due and no order open |
| `PolledState.PolledLedgersAgree` | src/polymarket_bot/app/core.py:280-289 | right after a poll the two ledgers are equal in cash and on every token, whatever orders are open |
| `PolledState.LookupChangesNothing` | src/polymarket_bot/app/core.py:298-312 | a lookup in the same step finds exactly the order's own events, all delivered before, and changes nothing |
| `PolledState.SettleIsExact` | src/polymarket_bot/app/core.py:319-356 | a settlement after a poll is a legal step that removes exactly the condition's positions and pays exactly the winning shares |
| `TradingCore.TradingCore.ResolveUnknowns` | src/polymarket_bot/app/core.py:298-312 | exactly one lookup for each UNKNOWN order; reported stuck are exactly those the venue has no event of and whose record is older than the timeout |
| `TradingCore.TradingCore.LookUp` | src/polymarket_bot/execution/engine.py:321-341 | one lookup right after a poll changes nothing and is late exactly without venue events and past the timeout |
| `Reconciler.Reconciler.Compare` | src/polymarket_bot/reconciliation/reconciler.py:55-94 | a token in either map and not ignored, absent counting as zero, is listed exactly when the two sides differ by more than the tolerance, cash and foreign orders likewise; ok exactly when the snapshot is complete and nothing is listed |
| `Reconciler.DifferencesListed` | src/polymarket_bot/reconciliation/reconciler.py:63-74 | a difference above the tolerance on any token of either side is owed a mismatch and makes the comparison fail |
| `ReconciledState.ReconciliationPasses` | src/polymarket_bot/app/core.py:401-425 | in every reachable state without open orders the comparison finds no mismatch at any tolerance |
| `Delivery.EveryFillBookedOnce` | src/polymarket_bot/execution/engine.py:253-295 | over any interleaving and overlap of the two channels, what is booked per order is exactly its fills between the old and the new mark, once each and in order |
| `Delivery.SameMarksSameEngine` | src/polymarket_bot/execution/engine.py:239-244 | two deliveries that reach the same point leave the same orders and fills: the end state of any overlapping delivery is that of the single in-order one |
| `Delivery.TraceKeepsTrack` | src/polymarket_bot/execution/engine.py:239-244 | after any interleaving each record is what its delivered prefix gives, and no violation was recorded |
| `Delivery.RepeatIsIgnored` | src/polymarket_bot/execution/engine.py:258-259 | a repeated fill or update changes nothing and books nothing |
| `Delivery.NextIsApplied` | src/polymarket_bot/execution/engine.py:264-319 | the next event of an order moves its record by exactly that event |
| `MatchBlocks.MatchIsBlock` | src/polymarket_bot/adapters/paper_exchange.py:218-312 | a match emits its fills and then one update, and books in cash and shares exactly what it emits |
| `MatchBlocks.BlockIsSound` | src/polymarket_bot/adapters/paper_exchange.py:234-312 | nothing a match emits can trip the engine: limit kept, no overfill or overspend, terminal total equals the fills |
| `MatchBlocks.CompleteIsFullyFilled` | src/polymarket_bot/execution/engine.py:377-385 | what the venue calls complete, the engine calls fully filled |
| `MatchBlocks.FinalStatus` | src/polymarket_bot/execution/engine.py:310-312 | once a match is applied, the engine has the order FILLED exactly when something was filled and its own test says fully, else CANCELLED |
| `Intents.AcceptedExactly` | src/polymarket_bot/adapters/paper_exchange.py:81-131 | an order is accepted exactly when its type, token and tick are right and it is covered with the fee at its limit, one minus the limit times the rate and the multiplier a dollar; it is then queued last, due after latency, jitter and taker delay; a refusal changes only the count |
| `Intents.BuiltExactly` | src/polymarket_bot/execution/engine.py:134-173 | an order is built exactly from an allowed decision at most three seconds old, unused, for a token and outcome of the market, with a positive size and a rounded limit between 0 and 1; it carries the decision's terms at that limit |
| `Intents.BuiltFitsTheVenue` | src/polymarket_bot/execution/engine.py:134-173 | a built limit is within a tick of, and never past, what was approved; the venue can refuse it only for money or shares |
| `Intents.TickIsGrid` | src/polymarket_bot/risk/engine.py:449-450 | the tick test holds exactly for whole numbers of ticks |
| `MatchBlocks.BlockWithinReserve` | src/polymarket_bot/adapters/paper_exchange.py:276-283 | a match never takes more cash than budget times one plus the whole stressed fee rate plus a quantum a level |
| `Matching.NearOptimalBuy` | src/polymarket_bot/adapters/paper_exchange.py:235-248 | the buy loop gets within one 0.01-share lot of the most shares any allocation within sizes, limit and budget can get |
| `Matching.BuyCostBound` | src/polymarket_bot/adapters/paper_exchange.py:235-283 | it spends at most the budget, and with fees at most the budget grown by the rate plus one quantum a fill |
| `Matching.SellFillsExactly` | src/polymarket_bot/adapters/paper_exchange.py:249-260 | the sell loop sells the lesser of the order and the depth within its limit |
| `Matching.BuyWalkKeeps` | src/polymarket_bot/adapters/paper_exchange.py:235-248 | lots come from distinct levels within size and limit, and budget is conserved |
| `Matching.SellWalkKeeps` | src/polymarket_bot/adapters/paper_exchange.py:249-260 | the same for sells, with shares conserved |
| `Domain.TakerFeeBounds` | src/polymarket_bot/domain/market.py:35-52 | a taker fee is never negative and at most the rate on the notional plus one quantum |
| `FeeReserve.ReserveFallsShort` | src/polymarket_bot/adapters/paper_exchange.py:118-126 | for every positive rate, one level at any price below the limit that is one over a whole number, its size in whole share lots, makes a buy of whole cents cost more than the reserve at the limit price |
| `FeeReserve.ReserveHoldsExactlyWithoutFees` | src/polymarket_bot/adapters/paper_exchange.py:118-126 | for an order of whole cents the reserve covers every decimal book if and only if the market's fee rate is zero |
| `FeeReserve.ReserveOnTicksExactly` | src/polymarket_bot/adapters/paper_exchange.py:118-126 | on each tick size the venue allows: above the lowest tick the reserve covers every book of the market if and only if the rate is zero; on the lowest tick, if and only if the fee of the whole budget is a whole number of fee quanta |
| `EntryCover.ApprovedIsCovered` | src/polymarket_bot/risk/engine.py:316-323 | in every reachable state an approved entry is covered once the balance reserve holds, for every open order and for the new one, the whole stressed rate on its budget and a fee quantum a level |
| `EntryCover.ApprovedExitIsHeld` | src/polymarket_bot/risk/engine.py:401-409 | in every reachable state an exit that passes the reduce-only check sells no more than the venue holds of the token, though the check looks at the portfolio |
| `EntryCover.ApprovedExitIsAccepted` | src/polymarket_bot/adapters/paper_exchange.py:127-130 | so the venue has no ground to refuse the order built from it |
| `EntryCover.GuardedRunIsEnabled` | src/polymarket_bot/risk/engine.py:316-323 | a run whose entries and exits pass the risk engine, with such a reserve and cash for the exits' fees, is a run of the protocol: neither cover nor the absence of open orders is assumed, and the whole invariant holds at its end |
| `OverdrawRun.ApprovedEntryCanOverdraw` | src/polymarket_bot/adapters/paper_exchange.py:118-126 | a failing run: at the default policy an entry decided on a deep book at a half is approved and accepted, the book falls to a tenth while it is on its way, and the match leaves the venue with negative cash and the portfolio refusing the fill |
| `EdgeEngine.EveryShareClears` | src/polymarket_bot/signals/edge.py:130-170 | whatever the walk buys, the conservative edge is at least the minimum less one fee quantum a level spread over the shares and the rounding of the lower bound, and the edge at the worst price lacks that rounding at most |
| `EdgeEngine.EdgeIs` | src/polymarket_bot/signals/edge.py:130-170 | the conservative edge is the lower bound less average price, fees and buffer a share, and less half the spread and the fee at the bid for the chance of an early exit; the worst case is no better |
| `EdgeEngine.PassingIsTradeable` | src/polymarket_bot/signals/edge.py:122-200 | a passing candidate stands on a two-sided book inside the spread limit, on an estimate without conflict, with something to buy and every limit of the policy cleared |
| `EdgeWalk.ReachExactly` | src/polymarket_bot/signals/edge.py:62-68 | a sorted book is walked exactly as far as price, fee and buffer a share stay within the limit |
| `Decisions.OnDeepBook` | src/polymarket_bot/signals/edge.py:109-234 | what a book of a hundred shares at 0.49 and at 0.50 gives the defaults: a passing candidate of ten dollars at a half, fifty dollars deep, without slippage, its edges above the minimum |
| `Decisions.EntryIsDecided` | src/polymarket_bot/risk/engine.py:316-346 | on that book an entry of ten dollars, or of the room under the exposure limit, is allowed by the risk engine looking at a desk with nothing open |
| `VenueRuns.PrunedRecordIsExact` | src/polymarket_bot/adapters/paper_exchange.py:193-216 | match times never decrease over a run and the pruned use record answers every later query as the full fill history would |
| `VenueRuns.NeverBeyondDisplay` | src/polymarket_bot/adapters/paper_exchange.py:201-213 | after each match own use at every touched level within the replenish window is at most the displayed size or what was already used |
| `LazyMatching.LazyIsEager` | src/polymarket_bot/adapters/paper_exchange.py:184-191 | advancing once gives the same venue as advancing at every earlier moment, each order's due time included |
| `LazyDriver.LazyDriverIsEager` | src/polymarket_bot/app/replay_engine.py:78-101 | over a run of venue calls with nothing due at any call that does not advance, submissions, settlements and cancels alike, lazy and eager matching end in the same state, and so after every prefix |
| `LazyDriver.BareCancelIsEagerExactly` | src/polymarket_bot/watchdog/watchdog.py:223-225 | one cancel of everything with no advance before it gives what an eagerly matched venue gives, on every book and schedule, if and only if no pending order is due |
| `LazyDriver.LazyDriverIsEagerExactly` | src/polymarket_bot/app/core.py:222-232 | over a whole run lazy and eager matching agree, whatever books stand at the calls that do not advance and whatever the schedules, if and only if nothing is due at any of those calls |
| `LazyDriver.OnlyCancelsMeetDueOrders` | src/polymarket_bot/app/core.py:222-232 | when submissions and settlements follow their step's poll at its moment and every order has a positive delay, only a cancel can meet a due order |
| `LazyDriver.DelayedDriverIsEagerExactly` | src/polymarket_bot/app/replay_engine.py:78-101 | so lazy and eager matching then agree if and only if nothing is due at any cancel |
| `DecisionStep.StepIsEagerExactly` | src/polymarket_bot/app/core.py:230-232 | on the book as it stands, any number of orders submitted in one step with no advance in between leave what matching between them leaves if and only if each gets the verdict it would then get |
| `DecisionStep.SecondBuyIsRefusedEagerly` | src/polymarket_bot/adapters/paper_exchange.py:81-107 | a failing input: with no delay two buys of one step are both accepted, where the match of the first would leave too little cash for the second |
| `DecisionStep.SaleDoesNotPayInItsStep` | src/polymarket_bot/adapters/paper_exchange.py:81-107 | and the other way round: a buy behind a sale is refused, though the sale would have paid for it |
| `LazyDriver.DueOrderIsCancelled` | src/polymarket_bot/watchdog/watchdog.py:223-225 | a failing input: an accepted order, due before the watchdog's cancel, is cancelled unfilled where a venue advanced first buys for ten dollars |
| `LazyMatching.EarlierAdvanceIsAbsorbed` | src/polymarket_bot/adapters/paper_exchange.py:186-188 | an earlier advance changes nothing of what a later one gives |
| `PaperExchange.PaperExchange.Submit` | src/polymarket_bot/adapters/paper_exchange.py:81-107 | counts, refuses with no order, or appends exactly one pending order due after latency, jitter and taker delay |
| `PaperExchange.PaperExchange.Cancel` | src/polymarket_bot/adapters/paper_exchange.py:133-149 | removes the one pending order and logs its cancellation, or reports it not open |
| `PaperExchange.PaperExchange.CancelAll` | src/polymarket_bot/adapters/paper_exchange.py:151-155 | cancels every order pending at the call, in order |
| `PaperExchange.PaperExchange.PollEvents` | src/polymarket_bot/adapters/paper_exchange.py:157-160 | advances, hands over the queue and empties it |
| `PaperExchange.PaperExchange.FindOrdersSince` | src/polymarket_bot/adapters/paper_exchange.py:162-168 | every logged event of the token since the time, in order |
| `PaperExchange.PaperExchange.Advance` | src/polymarket_bot/adapters/paper_exchange.py:184-191 | matches due orders oldest first, stamped at arrival |
| `PaperExchange.PaperExchange.AvailableLevels` | src/polymarket_bot/adapters/paper_exchange.py:193-213 | displayed size less recent own use, pruning in place what it looked at |
| `PaperExchange.PaperExchange.Match` | src/polymarket_bot/adapters/paper_exchange.py:218-312 | the loops leave exactly the specified lots, bookings and events |
| `PaperExchange.PaperExchange.WalkAsks` | src/polymarket_bot/adapters/paper_exchange.py:235-248 | the buy loop computes the buy walk and its completeness |
| `PaperExchange.PaperExchange.WalkBids` | src/polymarket_bot/adapters/paper_exchange.py:249-260 | the sell loop computes the sell walk and its completeness |
| `PaperExchange.PaperExchange.Settle` | src/polymarket_bot/adapters/paper_exchange.py:314-319 | pays one per winning share and drops both tokens |
| `FillChecks.NoViolationExactly` | src/polymarket_bot/execution/engine.py:239-319 | over any events, new violations are recorded exactly when some event was not clean at its turn: of a known order, and a first fill on its side and token, no worse than its limit and within its size, or a closing update with the applied total |
| `FillChecks.CleanKeepsWithin` | src/polymarket_bot/execution/engine.py:264-280 | while no violation is added, every order stays within its size and every fill booked on it is within its limit |
| `FillChecks.TotalsAreBooked` | src/polymarket_bot/execution/engine.py:281-295 | an order's shares, money and fees are those it had and the fills booked on it, over any events |
| `FillChecks.FillSettlesStatus` | src/polymarket_bot/execution/engine.py:281-294 | a booked fill is booked once, takes its order out of UNKNOWN, LIVE and SUBMITTING, and touches no other order |
| `FillChecks.UpdateSettlesStatus` | src/polymarket_bot/execution/engine.py:297-319 | an update moves its own order alone, and only while that is open; a cancelled order whose size is used up counts as filled |
| `ExecutionEngine.SubmissionOutcome` | src/polymarket_bot/execution/engine.py:175-236 | one new order with nothing filled: UNKNOWN when the reply was lost, LIVE under the id of the venue's new pending order, or REJECTED when the venue took none |
| `VenueTerms.LevelShows` | src/polymarket_bot/adapters/paper_exchange.py:193-213 | over any run, a level shows an arriving order its displayed size less every share we took there in the last replenish window |
| `VenueTerms.FeeOfFill` | src/polymarket_bot/adapters/paper_exchange.py:276-300 | a fill's fee is shares times rate times price times its complement, rounded up to the next hundred-thousandth, times the multiplier |
| `VenueTerms.AllOrNothing` | src/polymarket_bot/adapters/paper_exchange.py:258-262 | fill-or-kill is filled to less than one lot or not at all |
| `VenueTerms.PartialFillsStand` | src/polymarket_bot/adapters/paper_exchange.py:258-262 | any other order keeps whatever the walk over the levels got it |
| `VenueTerms.CancelledExactly` | src/polymarket_bot/adapters/paper_exchange.py:133-149 | a cancelled order leaves the queue, the rest in order, reported CANCELLED with nothing filled; any other id changes nothing |
| `Decimals.TiesGoEven` | src/polymarket_bot/portfolio/portfolio.py:133 | a tie goes to the even multiple |
| `Accounting.Conservation` | src/polymarket_bot/portfolio/portfolio.py:102-184 | after any fills, settlements and marks, cash plus open cost less realised profit is the initial cash, and realised profit is that of closed trades plus open positions |
| `Accounting.PeakNeedsRealisedProfit` | src/polymarket_bot/portfolio/portfolio.py:187-204 | peak equity never exceeds initial cash plus the best realised profit so far |
| `Accounting.LossStreak` | src/polymarket_bot/portfolio/portfolio.py:161-184 | over any run the consecutive-loss count and the last loss time are those of the closed trades |
| `Accounting.CostNeverNegative` | src/polymarket_bot/portfolio/portfolio.py:129-137 | with prices, sizes and fees on their grids, cost basis stays non-negative through any rounding |
| `Accounting.PartialSaleExactly` | src/polymarket_bot/portfolio/portfolio.py:129-137 | off the grid, a partial sale keeps the cost non-negative exactly when the pro-rata cost does not round past the last grid point |
| `Accounting.OffGridCostCanGoNegative` | src/polymarket_bot/portfolio/portfolio.py:129-137 | a failing run: two fills from a fresh ledger, a dust buy and a partial sale, both accepted, that end with a negative cost basis |
| `Portfolio.Portfolio.ApplyFill` | src/polymarket_bot/portfolio/portfolio.py:102-144 | in-place booking equals the specified ledger, refusing unaffordable buys and oversells unchanged |
| `Portfolio.Portfolio.Settle` | src/polymarket_bot/portfolio/portfolio.py:146-159 | the loop closes exactly the condition's open positions and pays the winning ones |
| `Portfolio.Portfolio.ClosePosition` | src/polymarket_bot/portfolio/portfolio.py:161-184 | the closed trade carries the position's totals; losses count up, a gain resets |
| `Portfolio.Portfolio.MarkToMarket` | src/polymarket_bot/portfolio/portfolio.py:187-204 | marks with a bid move, others stay; gains count only once realised; the daily baseline moves exactly when the UTC day does, 86,400,000 ms |
| `LedgerFacts.BuyBooks` | src/polymarket_bot/portfolio/portfolio.py:104-128 | a buy is refused exactly beyond the cash and a millionth; it takes price times shares plus the fee out of cash and into the cost |
| `LedgerFacts.SaleBooks` | src/polymarket_bot/portfolio/portfolio.py:129-144 | a sale is refused exactly beyond what is held; the cost that leaves is all of it with the last share, else the pro-rata part within half a ten-billionth, and what is left of the proceeds is realised |
| `LedgerFacts.BuyAddsToEntry` | src/polymarket_bot/portfolio/portfolio.py:121-126 | a buy adds its shares, its cost with the fee and the fee to what the position took in, and nothing to what it brought in |
| `LedgerFacts.LastSaleIsTrade` | src/polymarket_bot/portfolio/portfolio.py:141-184 | the last sale closes a trade with the position's shares, whole cost, everything it brought in and its fees; profit is the difference, and a loss counts up |
| `DailyLoss.BaselineIsFirstMark` | src/polymarket_bot/portfolio/portfolio.py:199-203 | over any run the start-of-day equity is the risk equity of the first mark of the current UTC day, or the starting cash when no mark has crossed midnight; marks within a day leave it alone |
| `DailyLoss.AllowedOnlyWithinDay` | src/polymarket_bot/risk/engine.py:131-150 | an allowed entry has lost less than the daily limit since that mark, in money and as a share of it |
| `DailyLoss.MarkValues` | src/polymarket_bot/portfolio/portfolio.py:187-204 | equity is cash plus every share at its bid, or at the last bid seen; the peak is the highest risk equity |
| `DailyLoss.RiskEquityLeavesGainsOut` | src/polymarket_bot/portfolio/portfolio.py:192-198 | risk equity is equity less every unrealised gain |
| `Portfolio.Portfolio.ExposureUsd` | src/polymarket_bot/portfolio/portfolio.py:206-208 | the open cost basis |
| `ExecutionEngine.ExecutionEngine.LoadOpenOrders` | src/polymarket_bot/execution/engine.py:84-103 | two loops leave every open row UNKNOWN in memory and store, every stored decision used, every exchange id known |
| `ExecutionEngine.ExecutionEngine.OpenOrders` | src/polymarket_bot/execution/engine.py:106-107 | the open orders in insertion order |
| `ExecutionEngine.ExecutionEngine.UnknownOrders` | src/polymarket_bot/execution/engine.py:109-110 | the unknown orders in insertion order |
| `ExecutionEngine.ExecutionEngine.PendingBuy` | src/polymarket_bot/execution/engine.py:115-120 | the unspent part of every open buy, summed |
| `ExecutionEngine.ExecutionEngine.PendingSells` | src/polymarket_bot/execution/engine.py:122-128 | by token, the unsold part of every open sell, summed |
| `ExecutionEngine.ExecutionEngine.Execute` | src/polymarket_bot/execution/engine.py:175-236 | refuses unchanged, or stores, submits at most once and records the reply or its loss |
| `ExecutionEngine.ExecutionEngine.ApplyEvents` | src/polymarket_bot/execution/engine.py:239-244 | events in order; the first fill the portfolio refuses ends the loop |
| `ExecutionEngine.ExecutionEngine.RecordFill` | src/polymarket_bot/execution/engine.py:253-294 | checks, violations, duplicate test and record of one fill |
| `ExecutionEngine.ExecutionEngine.ApplyFill` | src/polymarket_bot/execution/engine.py:253-295 | and passes it to the portfolio only if it was booked |
| `ExecutionEngine.ExecutionEngine.ApplyUpdate` | src/polymarket_bot/execution/engine.py:297-319 | terminal records stay; a terminal total that differs is a violation |
| `ExecutionEngine.ExecutionEngine.ResolveOne` | src/polymarket_bot/execution/engine.py:325-343 | applies the order's own events or says whether it is stuck past the timeout |
| `ExecutionEngine.ExecutionEngine.MarkResolved` | src/polymarket_bot/execution/engine.py:346-357 | closes the order as cancelled |
| `Submission.AtMostOnce` | src/polymarket_bot/execution/engine.py:175-236 | over any run with crashes at any point, the provider is called at most once per decision and only for an intent stored by then |
| `Submission.CalledOnlyWhenStored` | src/polymarket_bot/execution/engine.py:180-196 | whenever it is called, the row is stored as SUBMITTING and no order is UNKNOWN |
| `Submission.OpenWithinLimit` | src/polymarket_bot/execution/engine.py:178-179 | open orders, in memory and in the store, never exceed the limit, restarts included |
| `Submission.ClosedForGood` | src/polymarket_bot/execution/engine.py:297-319 | no closed order is ever open again, in any continuation of any run |
| `Submission.RestartFailsClosed` | src/polymarket_bot/execution/engine.py:84-103 | after a crash every open row is UNKNOWN and every stored decision used |
| `ExposureOnGrid.ExposureBoundOnGrid` | src/polymarket_bot/risk/engine.py:316-330 | over any run whose entries the risk engine approved and whose book prices, sizes, sells and stressed fee quantum are on the venue's grids, open cost plus pending buys never exceeds the exposure limit plus fees paid, exactly |
| `ExposureOnGrid.CostsOnGridOverRuns` | src/polymarket_bot/portfolio/portfolio.py:129-137 | in every state of such a run each fill the venue made is on the grids and each cost basis on the accounting grid and not negative |
| `OffGridRun.LimitPassedOffGrid` | src/polymarket_bot/risk/engine.py:316-330 | a failing run off the grids: every order decided and approved on the book of the moment, every step enabled, no fee paid, and open cost plus pending buys above the limit |
| `Exposure.ExposureBound` | src/polymarket_bot/risk/engine.py:316-330 | on any inputs at all the same bound holds up to half an accounting step for each position open at an entry |
| `Exposure.NoDebtOnGrid` | src/polymarket_bot/portfolio/portfolio.py:129-137 | positions whose costs are on the grid and not negative have none of it |
| `Exposure.FillCost` | src/polymarket_bot/portfolio/portfolio.py:118-139 | a buy adds at most its cost to the open cost basis, a sell nothing, whatever the rounding |
| `Exposure.FilledWithinBudget` | src/polymarket_bot/execution/engine.py:271-280 | no prefix of an order's events fills a buy beyond its budget |
| `RiskEngine.EvaluateEntry` | src/polymarket_bot/risk/engine.py:168-378 | every check of every section is made, and it is allowed exactly when all pass; then size, with open cost, pending buys and the fee at the limit, is within every cap |
| `RiskEngine.EntryIsTimely` | src/polymarket_bot/risk/engine.py:177-242 | an allowed entry finds the bot in its mode's state, nothing unknown or stopped, streams, books, references and reconciliation fresh, time enough left, cooldowns over and no order on the token |
| `RiskEngine.EntryIsPriced` | src/polymarket_bot/risk/engine.py:244-293 | it is priced on a tick inside the band, within spread, slippage, liquidity and uncertainty limits, with a known fee of at most a fifth and both edges at the minimum |
| `RiskEngine.EntryIsSized` | src/polymarket_bot/risk/engine.py:295-340 | its size is whole cents, at least a dollar and the market's least shares, within every cap, and with its fee at the limit within the cash above reserve and pending buys |
| `RiskEngine.ExitIsTimely` | src/polymarket_bot/risk/engine.py:381-428 | an allowed exit is priced on a tick, of the least size, on a book fresh enough for the policy, in a state the policy lets exits through, at less than twice the entries' rate |
| `RiskEngine.EntriesOnlyWithinLosses` | src/polymarket_bot/risk/engine.py:131-146 | an allowed entry means equity above the daily loss limit, in money and as a share, and above the drawdown limit |
| `RiskEngine.LosingStreakStopsEntries` | src/polymarket_bot/risk/engine.py:185-193 | over any run of the ledger, once as many trades in a row as allowed have closed at a loss, no entry is allowed |
| `RiskEngine.SizeWithinCaps` | src/polymarket_bot/risk/engine.py:316-327 | a positive size is within candidate, order, position, exposure and cash caps |
| `RiskEngine.SizeIsLargest` | src/polymarket_bot/risk/engine.py:326-327 | and is the largest whole number of cents within the scaled cap |
| `RiskEngine.EntriesKeepEveryLimit` | src/polymarket_bot/risk/engine.py:355-357 | over a run, one approved entry more than a limit always spans more than its minute, hour or day |
| `RiskEngine.EvaluateExit` | src/polymarket_bot/risk/engine.py:381-446 | an exit is allowed exactly when state, switch, rate, market and freshness checks pass and it sells some and never more than what is held and not already being sold |
| `Decimals.FloorIsLargest` | src/polymarket_bot/risk/engine.py:116-117 | the largest tick multiple at most the price |
| `Decimals.CeilIsLeast` | src/polymarket_bot/risk/engine.py:120-121 | the least tick multiple at least the price |
| `Rates.GateIsSlidingWindow` | src/polymarket_bot/risk/rates.py:25-36 | a count below the limit at each look is equivalent to limit plus one consecutive events spanning more than the window |
| `Rates.RateTracker.View` | src/polymarket_bot/risk/rates.py:25-36 | pruning from the front, the counts are those of the full history |
| `Rates.RateTracker.Record` | src/polymarket_bot/risk/rates.py:21-23 | appends to the right deque and remembers the market's last submission |
| `Rates.PrunedCountsTheSame` | src/polymarket_bot/risk/rates.py:25-29 | what was dropped can never count again |
| `Rates.RecoveryLimiter.TryRecover` | src/polymarket_bot/app/core.py:482-506 | recovers only below the limit of the past hour and with no blocker left |
| `Rates.RecoveriesSpanAnHour` | src/polymarket_bot/app/core.py:482-497 | any limit plus one automatic recoveries span more than an hour |
| `ClobMessages.RunSound` | src/polymarket_bot/market/clob_messages.py:106-210 | after any well-typed events every book has prices in (0,1), positive sizes, and is uncrossed while valid |
| `ClobMessages.RunRefines` | src/polymarket_bot/market/clob_messages.py:140-180 | after any events every book equals the last accepted snapshot with later accepted levels folded in, last write winning at each price |
| `ClobMessages.FromFreshBooks` | src/polymarket_bot/market/clob_messages.py:106-210 | from the start of a connection every book is sound and is exactly what its own log of accepted snapshots and levels says |
| `ClobMessages.InvalidUntilSnapshot` | src/polymarket_bot/market/orderbook.py:81-82 | an invalid book stays unusable through everything but a full snapshot of its own |
| `ClobMessages.ApplyPriceChanges` | src/polymarket_bot/market/clob_messages.py:146-180 | the interleaved batch leaves each book as if its own entries had come alone, checked once at the end |
| `ClobMessages.ApplyMarketEvent` | src/polymarket_bot/market/clob_messages.py:106-210 | each kind of event changes the books it concerns and no other |
| `AbortedEvents.AbortIsSafeExactly` | src/polymarket_bot/market/clob_messages.py:147-149 | an event aborted by a non-object entry keeps every sound book sound if and only if no other token's readable entries are all well formed and leave liquidity added |
| `AbortedEvents.HarmfulCrosses` | src/polymarket_bot/market/clob_messages.py:147-149 | otherwise a one-level book it leaves valid and crossed |
| `OrderBook.AcceptedSnapshotDecides` | src/polymarket_bot/market/orderbook.py:56-66 | an accepted snapshot leaves the book valid exactly when it is uncrossed, even with a tick size that alone would invalidate it |
| `BookStamps.SnapshotTakenExactly` | src/polymarket_bot/market/orderbook.py:48-66 | after any events, a readable snapshot is ignored exactly when a usable book has taken a stamp newer than it by more than the tolerance; any other replaces both ladders and the stamp, valid exactly when uncrossed, or with a bad level invalidates |
| `BookStamps.PriceChangeTakenExactly` | src/polymarket_bot/market/clob_messages.py:146-180 | after any events, a usable book takes its own levels up to the first bad one, none when the event is older than its newest stamp by more than the tolerance, and stays usable exactly when none was bad or late, the event was not cut short on its account, and its sides and the last echo agree |
| `BookStamps.PriceChangeAtPrice` | src/polymarket_bot/market/orderbook.py:93-97 | a book still usable shows at every price the last of its own entries for it, else what it showed before |
| `BookStamps.OtherEventsExactly` | src/polymarket_bot/market/clob_messages.py:181-209 | every other event leaves all ladders alone and touches only the book it names: unreadable ones and unsupported ticks make it unusable |
| `BookStamps.HoldsWhatItTook` | src/polymarket_bot/market/orderbook.py:39-103 | from the start of a connection a book holds exactly what it has taken, under the newest stamp of it |
| `BookStamps.StampNeverFallsFar` | src/polymarket_bot/market/orderbook.py:83-101 | a book that stays usable never goes back in time by more than the tolerance |
| `OrderBook.OrderBookState.ApplyFullSnapshot` | src/polymarket_bot/market/orderbook.py:39-66 | on a usable book a stamp more than the tolerance before its own is ignored; malformed invalidates, else both ladders and the stamp are replaced |
| `OrderBook.OrderBookState.ApplyDelta` | src/polymarket_bot/market/orderbook.py:68-103 | on a usable book a stamp more than the tolerance before its own invalidates; a good level is written or removed, any other invalidates |
| `OrderBook.OrderBookState.CheckTop` | src/polymarket_bot/market/orderbook.py:105-114 | invalid when the exchange's echo is not our best price |
| `OrderBook.OrderBookState.SetTick` | src/polymarket_bot/market/orderbook.py:116-120 | only the allowed tick sizes |
| `OrderBook.OrderBookState.CheckBookCrossed` | src/polymarket_bot/market/orderbook.py:122-126 | invalid exactly when some bid is at or above some ask |
| `OrderBook.OrderBookState.Snapshot` | src/polymarket_bot/market/orderbook.py:129-142 | complete, strictly sorted best first, uncrossed, in range; nothing when invalid |
| `PriceSeries.PriceSeries.TrailingAverage` | src/polymarket_bot/data/reference_prices.py:417-442 | the segment loop equals the per-millisecond sum of the latest tick at each instant over the covered milliseconds |
| `PriceSeries.AverageWithin` | src/polymarket_bot/data/reference_prices.py:417-442 | the average lies between the least and greatest contributing value |
| `PriceSeries.CoverageIsShare` | src/polymarket_bot/data/reference_prices.py:442 | covered milliseconds never exceed the interval |
| `PriceSeries.EvictionChangesNothing` | src/polymarket_bot/data/reference_prices.py:115-128 | eviction changes no answer from the oldest retained tick onwards |
| `PriceSeries.EvictionKeepsAverage` | src/polymarket_bot/data/reference_prices.py:417-442 | nor any average or coverage of an interval starting there |
| `PriceSeries.PriceSeries.Add` | src/polymarket_bot/data/reference_prices.py:111-117 | refuses a tick no later than the newest; evicts exactly what is older than the age limit |
| `PriceSeries.PriceSeries.Latest` | src/polymarket_bot/data/reference_prices.py:119-120 | the newest tick ever accepted |
| `PriceSeries.PriceSeries.FindAtOrBefore` | src/polymarket_bot/data/reference_prices.py:122-128 | the latest tick at or before the time |
| `PriceSeries.PriceSeries.Within` | src/polymarket_bot/data/reference_prices.py:138-139 | the ticks observed in the closed interval |
| `Lifecycle.TransitionIsSafe` | src/polymarket_bot/lifecycle/state_machine.py:114-160 | trading only from SYNCING, LIVE only authorized, a manual-only stop left only by an operator, authorization stored exactly while LIVE |
| `Lifecycle.HaltAlwaysStops` | src/polymarket_bot/lifecycle/state_machine.py:162-184 | a halt is never refused and leaves a state that cannot open positions |
| `Lifecycle.KillRefusedExactly` | src/polymarket_bot/lifecycle/state_machine.py:132-137 | an automatic kill request is refused exactly in a manual-only HALTED |
| `Lifecycle.EnteredExactly` | src/polymarket_bot/lifecycle/state_machine.py:26-35 | which requests move the machine, by target: each state is entered exactly from the states listed, LIVE only authorized, with an operator out of KILL_SWITCH and manual-only halts |
| `Lifecycle.HaltRecoversExactly` | src/polymarket_bot/lifecycle/state_machine.py:26-35 | after a halt the bot trades again by itself, through SYNCING, exactly when the halt did not ask for an operator |
| `StateMachine.BotStateMachine.Transition` | src/polymarket_bot/lifecycle/state_machine.py:114-160 | in-place move, both listeners called in order, or nothing changed |
| `StateMachine.BotStateMachine.HaltNow` | src/polymarket_bot/lifecycle/state_machine.py:162-184 | never refused |
| `StateMachine.KillSwitchControl.Engage` | src/polymarket_bot/lifecycle/kill_switch.py:66-88 | engaged whatever happens; the machine's refusal is raised exactly in a manual-only HALTED |
| `StateMachine.KillSwitchControl.SyncFromPersistence` | src/polymarket_bot/lifecycle/kill_switch.py:90-95 | an engaged switch forces KILL_SWITCH at startup |
| `StateMachine.KillSwitchControl.Reset` | src/polymarket_bot/lifecycle/kill_switch.py:97-112 | only with phrase, note and operator; then disengaged and never back to trading |
| `LifecycleRuns.NoEntryUntilReset` | src/polymarket_bot/risk/engine.py:157 | between an engage and the next reset no entry is allowed, whatever happens in between |
| `LifecycleRuns.EngageStopsExactly` | src/polymarket_bot/lifecycle/kill_switch.py:79-86 | after an engage the machine is in KILL_SWITCH or DEAD except exactly when held in a manual-only HALTED |
| `LifecycleRuns.StoppedUntilOperator` | src/polymarket_bot/lifecycle/state_machine.py:134-137 | a manual-only stop holds through any run without an operator's call |
| `LifecycleRuns.TradingOnlyFromSyncing` | src/polymarket_bot/lifecycle/state_machine.py:26-35 | in every reachable state trading is entered only from SYNCING |
| `LifecycleRuns.RebuiltIsJournal` | src/polymarket_bot/monitoring/halt_history.py:65-111 | the history rebuilt from the log has exactly one row per halt with the journal's cause, recovery start and downtime |
| `LifecycleRuns.OpenHaltWhileStopped` | src/polymarket_bot/lifecycle/halt_journal.py:71-106 | an open halt throughout HALTED and KILL_SWITCH, none in PAPER or LIVE |
| `HaltJournal.ChangeKeepsAgreement` | src/polymarket_bot/app/build.py:82-96 | both listeners' records of one change together keep rebuilt history and journal in agreement |
| `HaltJournal.EveryHaltWellTimed` | src/polymarket_bot/lifecycle/halt_journal.py:71-125 | over any changes every halt is numbered and stamped when it began, linked to the open one it took over from, and has a downtime, counted from its beginning, exactly once trading resumed |
| `HaltJournal.ZeroStampExactly` | src/polymarket_bot/monitoring/halt_history.py:96-100 | a halt gets one row exactly when its stamp, or else its record's stamp is zero too, survives the zero fallback |
| `HaltJournal.HaltJournal.OnChange` | src/polymarket_bot/lifecycle/halt_journal.py:71-125 | journal content, appended record, and a history of the last fifty halts |
| `HaltJournal.HaltHistory` | src/polymarket_bot/monitoring/halt_history.py:29-121 | the loop computes the fold and returns its newest rows |
| `Replay.NoLookahead` | src/polymarket_bot/app/replay_engine.py:73-101 | sessions that agree on a message prefix do exactly the same, clock moves, matches, messages and ticks, until the first difference can be known |
| `Replay.ClockNeverRefuses` | src/polymarket_bot/domain/clock.py:53-57 | over any recording the clock is never asked to go backwards |
| `Replay.EveryMessageDelivered` | src/polymarket_bot/app/replay_engine.py:91-97 | every message is delivered once, in order |
| `Replay.ReadInOrder` | src/polymarket_bot/data/replay.py:46-80 | whatever is on disk, what is yielded never goes back in time |
| `Replay.IterMessages` | src/polymarket_bot/data/replay.py:46-80 | yields up to the first error and reports it; bot records are skipped |
| `Replay.ReadExactly` | src/polymarket_bot/data/replay.py:46-80 | the reader goes up to the first line it cannot pass, says what is wrong with it, and yields all the market data before it |
| `ReplayRun.RunReplay` | src/polymarket_bot/app/replay_engine.py:73-101 | each message is applied once, in order, directly after the clock was moved to it and the venue matched; a tick comes, once, at every beat after the first message while a message is still to come or the tail lasts, after all messages up to its time and before all later ones, and nothing else happens |
| `ReplayVenue.MatchedOnTheBookBefore` | src/polymarket_bot/app/replay_engine.py:82-86 | whatever the ticks do, an order placed at a tick is matched, at its due time, on the books made of exactly the messages from before its due time, and of those up to that tick when it took no time to arrive |
| `ReplayVenue.WaitsUntilDue` | src/polymarket_bot/adapters/paper_exchange.py:184-191 | until then it waits, unless it is cancelled |
| `Replay.SimulatedClock.AdvanceTo` | src/polymarket_bot/domain/clock.py:53-57 | refuses exactly a step back; both readings move together |
| `EdgeWalk.WalkAsks` | src/polymarket_bot/signals/edge.py:52-79 | one pass gives the buy walk on the levels within reach and their depth |
| `EdgeWalk.MarginalIncreases` | src/polymarket_bot/signals/edge.py:65 | price plus fee plus buffer strictly increases with price for rates up to one |
| `EdgeWalk.DepthIsComplete` | src/polymarket_bot/signals/edge.py:65-68 | so stopping early loses nothing: the depth is that of every affordable level |
| `EdgeWalk.AllInCostBounded` | src/polymarket_bot/signals/edge.py:69-79 | all-in cost is at most the marginal limit on every share plus one fee quantum a level |

## Left out

- OrderPathProof.InvariantOverRuns: holds for runs in which each submission is for a token with no open order and is covered by the portfolio's cash with its whole fee reserve, and each settlement is of a market with no sell pending, because the match itself rechecks neither cash nor holdings; `OrderPath.Enabled` states these assumptions, `EntryCover.GuardedRunIsEnabled` discharges those on submissions, and `SettledSale` shows the one on settlements is needed.
- EntryCover.GuardedRunIsEnabled: the balance reserve covers the fees of open orders, which the policy's default of zero does not; exits ask in addition for cash for the fees by which sales of dust can exceed their proceeds, which the code does not check. The candidate and the marks an approval looks at are any; equity is not tied to the ledger's marks.
- OrderPathProof.LedgersCoupled: no crash between `insert_fill` and the saving of its record; restarts are in `Submission`, on the engine alone.
- OrderPathProof.ClosedOrderHoldsVenueTotal: the paper venue only; the live venue is not part of this model.
- TradingCore.TradingCore.Step: the moving of money only; marks, loss limits, the halt on stuck orders, evidence, lifecycle, exits, entries, proposals, diagnostics and publishing around these calls are left out, and a step's awaits are one atomic action. Which markets are resolved, each once, is an input.
- Exposure.ExposureBound: on inputs off the grids the bound carries half a unit of the tenth decimal per open position; `OffGridRun.LimitPassedOffGrid` shows that some such allowance is needed, and `ExposureOnGrid.ExposureBoundOnGrid` that on the grids none is.
- RiskEngine.EvaluateEntry: edges and probabilities are floats there and exact reals here; how the snapshot and health fields are computed is left out.
- Reconciler.Reconciler.Compare: the order in which mismatches are listed, and their severity texts.
- Submission.AtMostOnce: within one store; the store is a pair of maps with unique keys for intent and decision, and a fill's insertion and its record are saved together.
- LazyDriver.LazyDriverIsEager: holds under the guard that nothing is due at a call that does not advance, which the driver itself does not ensure; `LazyDriver.LazyDriverIsEagerExactly` shows the guard is exact. When the watchdog acts is an input.
- LazyDriver.OnlyCancelsMeetDueOrders: the replay's clock, which stands still during a step; with a running clock an order can come due between the poll and a submission.
- EdgeEngine.EveryShareClears: edges and probabilities are floats there and exact reals here; the rejection of the worse of two passing sides is left out.
- ClobMessages.ApplyMarketEvent: JSON decoding, REST payload checks, statistics and returned timestamps are left out; REST books are full-snapshot events.
- HaltJournal.HaltHistory: categories, incident snapshots, ISO formatting and the rounding of downtime to a tenth of a second are left out; the open halt is the last element of the history rather than a shared object.
- ReplayRun.RunReplay: the reader is run to its first error before the schedule; file access and message contents are left out, and an unfinished session has no tail.
- BookStamps.PriceChangeTakenExactly: for a tolerance that is not negative; the code sets none other. A recorded stamp of zero counts as none, as it does there.
- ReplayVenue.MatchedOnTheBookBefore: the books are any function of the delivered messages and a tick's calls any submissions, cancels and settlements around its poll.
- PriceSeries.PriceSeries.TrailingAverage: values are exact; plausibility checks, volatility and suspect marking use floats and are left out.
- StateMachine.KillSwitchControl.Reset: the note and the operator's name come in already stripped; the flag's storage always succeeds and only the sentinel's write can fail.
- Decimal's 28 significant digits: products and quotients are exact.
- Fee schedule exponents other than one.
- Random ids: orders and fills are numbered, so that ids are fresh by construction.
- Texts that no decision depends on: market slugs, window ends, liquidity flags, update details, error messages, audit hashes.
- Order and record identity: positions, records and books inside dictionaries are values, except in `ClobMessages`, where the books are separate objects.
- Network and live venue, SQLite and file formats, command line, metrics, LLM review, promotion gates, live lock and compliance: outside this model.
- Fair value, volatility, features and exit rules: float arithmetic; what they decide is an input here.
- The core's request to leave SYNCING once reconciled and unblocked: one guarded call of the modelled transition.
- Thread locks and the stall-detector thread: each watchdog action and core step is atomic.
