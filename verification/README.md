# Verified models of the trading framework

Dafny models of the five parts of the framework where a mistake costs money, with proofs of what each promises.
Prices, quantities, times and histogram values are exact reals or unbounded integers; tolerances that the code
spells out (`1e-12`, the MACD and price epsilons) are kept.

| Part | Files |
|---|---|
| MACD triple-divergence detector | `Histogram`, `Segmentation`, `Waves`, `Legs`, `Search`, `Triplets`, `Detector`, `RepeatedSignal` |
| Order semantics, exchange gateway, automatic execution router | `ExecutionModels`, `OrderSemantics`, `Gateway`, `RouterCalls`, `RouterSteps`, `Router` |
| Trade lifecycle of the strategy framework | `Lifecycle`, `TradeEngine` |
| Live candles: backfill, storage, polling, feed | `MarketData`, `KlineStore`, `CandleRuns`, `Polling`, `Feed` (with `Arithmetic`) |
| Fund reservations and repayment | `Reservations`, `Repay` |
| Concurrent executions over one keyed store | `IdempotencyKeys`, `Orchestrator` |

`dafny verify dfyconfig.toml` checks everything.

## How the parts are modelled

**Detector.** The loops are methods over a history `seq<Bar>`; each is proved equal to a function, and the function is
tied to a description that leaves no freedom. A cut of the histogram is described by where a wave opens
(`Waves.SplitRule`) and by first-best extremes, and `Waves.CutUnique` shows that only one list fits. The bottom and top
halves of the source are mirror images; they are modelled once, with the sign as a parameter and `Beats` for the
comparison that mirrors.

**Router.** The exchange is an adversary (`Gateway.Exchange`): every reply is arbitrary, and its ledgers record each
market order, protection call, id check and read. Each `Route` call is summarised by a ghost `Call`, and `RouterSteps`
says what a call may do to the books and ledgers (`State`) before and after it; in particular the cover a call claims
for its order is read off the ledgers. The class invariant says that the router's books, budget and duplicate set follow
from the calls alone, and the whole-run results are lemmas about lists of calls.

**Trade lifecycle.** A `Trade` holds a context and the broker's page of orders for it; an order's reference is its
position on that page. The broker may refuse an order (`refusals` counts how often), end a working one in any way at
any time, and reports each final status once, a trade's entry fill before any fill that leaves it. A cancelled order is
no longer alive. Position sizes, stop moves, confirmation closes and routed signals are inputs. `Strategy.Run` drives
any list of such events.

**Candles.** A stream's polls, the store and the feed are classes; the exchange's answers are inputs, and the
contiguous-grid assumption is a predicate on them (`Polling.FetchesGrid`, `KlineStore.Serves`).

**Orchestrator.** Executions are interleaved as a state machine over the steps between two awaits. The reservation is
one step; its two database statements are modelled as well, to show why it must be.

## What the models show about the code

* For a non-negative `macd_eps` the first-shortening test never holds on two bars in a row, so the one-bar gap guard of
  the detector is dead code; for a negative one it does (`Detector.NeverTwiceInARow`), and a signal of another structure
  that the guard stops wipes the key and price remembered for its direction. A signal that fires then repeats the last
  event at no better price exactly when the memory was wiped and the signal is such a repeat
  (`Detector.StaleExactly`). That happens: under any negative `macd_eps`, with the other defaults, there is a history
  of bars on which one structure is signalled at 10 and two bars later at 20 (`RepeatedSignal.Replay`). For a
  non-negative one it never does (`Detector.TripleDivergence.Detect`).
* `real_short_position` is not always the exchange's net short. A short operation with a well placed stop or target can
  leave something behind that is not booked: an entry whose id check raises stays sold and is reported FAILED
  (`RouterSteps.UncheckedShortDrifts`), a fail-safe close of a close doubles it, a repaid retry whose protection is
  refused is not closed (`RouterCalls.LeaksExactly`). The two agree after every call of a run exactly when no call leaked
  (`RouterCalls.AgreesExactly`). The operations that cannot leak, whatever the exchange answers, are all those of a task
  that cannot sell short (no automatic trading, no short capability, or no notional to trade), and otherwise those
  that do not touch the short position, ask for no protection, or are refused for their price or for where their stop or
  target is (`RouterCalls.KeepsBooksExactly`). Without retries and protected closes, two facts of the exchange's ledgers
  suffice (`Router.AutoExecutionRouter.ExposureAgreesByLedgers`).
* `route` raises, and leaves the operation marked as seen without an outcome, exactly when a read of the exchange that it
  decides by (a balance, margin readiness, the order size) raises, and then nothing was sent
  (`Router.AutoExecutionRouter.Route`). A failing balance read falls back to the configuration when it caps the leverage,
  and is reported as FAILED when it describes a borrow block.
* An accepted stop replacement does not refresh the remembered protection order id: the next stop move of that trade
  names the order that was already replaced (`RouterSteps.NextMoveNamesReplaced`).
* A short entry is not checked against the reserved budget, only charged to it (`RouterSteps.ShortIsOnlyCharged`): one
  of more than what remains can be submitted, and then nothing remains (`RouterSteps.OverBudgetShort`).
* A trade that carries a signal event gives all its operations the same identity. Once its entry was routed, its exit
  and its break-even move are skipped as duplicates (`Router.AutoExecutionRouter.OneOperationPerSignal`).
* A pending replacement can be lost in two ways (`TradeEngine.Strategy.Run`): the trade it waits for was cancelled, as
  when an entry fails before it filled, or that trade is opening without an entry order, because the computed size was
  zero. Such a trade can neither fill nor fail. In both cases the replacement is never taken up and never cleared, so
  every later one is blocked, and in the second every later entry is refused too. In all other cases a bar, or an order
  that has not been reported yet, can still move the trade it waits for (`TradeEngine.Strategy.NotLostCanMove`); one
  scheduled for a filled trade is never stranded by a cancellation.
* A trailing stop moves the price that closes are held against, but not the standing stop order
  (`Lifecycle.Trade.Protect`).
* `ExecutionStateCol.reserve` reads, then writes. Two executions of one intent that interleave there both reach the
  gateway (`Orchestrator.SplitReservationSendsTwice`). For given executions, every interleaving sends each key at most
  once exactly when intents that share a key find it in the store from the start (`Orchestrator.SendsOnceExactly`);
  and a run in which no write acts on a stale read sends no key twice whatever the store (`Orchestrator.AtMostOnce`).
  A gateway that raises leaves its key reserved for good, and so does a reservation that raises after its write; a
  save that raises after its write leaves the result in the store.
* Idempotency keys of arbitrary intents can coincide when ids contain a colon (`IdempotencyKeys.KeysCanCollide`). Those
  that the framework builds (orders, protections, fail-safe closes and break-even moves) do not: keys are equal exactly
  when operation, form and kind are (`IdempotencyKeys.BuiltKeysIdentify`). Role and symbol are no part of them.
* A poll whose oldest candle is later than the one after the last published candle leaves a gap that no later poll fills
  (`Polling.SkippedForGood`); otherwise there is none. A first poll that finds no closed candle makes the next one
  publish everything it fetched (`Polling.FirstCandles`).
* `AccountFundReservationCol.reserve` returns a task's active row for the asset whatever account it was made on.

## Model

| member | source | states |
|---|---|---|
| Segmentation.Unique | src/trader/strategy/macd_triple_divergence.py:275-351 | a rule and a range fix the segmentation: two that fit are equal |
| Segmentation.GreedyIsSegmentation | src/trader/strategy/macd_triple_divergence.py:275-351 | one left-to-right pass that opens a piece whenever the rule fires yields the segmentation |
| Waves.ExtremeIsFirstLargest | src/trader/strategy/macd_triple_divergence.py:275-351 | a wave's histogram extreme is the first bar of largest magnitude among all its bars, near-zero ones included |
| Waves.StartsOrdered | src/trader/strategy/macd_triple_divergence.py:245-356 | the waves of a list are ordered and disjoint |
| Waves.SuffixIsWaveList | src/trader/strategy/macd_triple_divergence.py:750-754 | a window of the latest waves is again a list of well-formed, back-to-back waves |
| Waves.CutUnique | src/trader/strategy/macd_triple_divergence.py:245-356 | the declarative description of the cut (contiguous from the first bar off zero, split exactly at a sign flip or at a re-expansion after fading since the running extreme, first-best extremes) has exactly one solution |
| Waves.ScanBar | src/trader/strategy/macd_triple_divergence.py:275-351 | the loop body is one step of the scan over waves, current wave and split readiness |
| Waves.StepOk | src/trader/strategy/macd_triple_divergence.py:275-351 | one step keeps the scan describing the unique cut of the bars read so far |
| Waves.BuildRecentWaves | src/trader/strategy/macd_triple_divergence.py:245-356 | the pass returns that unique cut of the recent bars before the current one, and nothing for fewer than three bars |
| Legs.BestPrice | src/trader/strategy/macd_triple_divergence.py:431-438 | the directional price extreme is attained in the range and no bar of it goes further |
| Legs.MergeExtremes | src/trader/strategy/macd_triple_divergence.py:473-508 | merging two waves of a sign keeps histogram and price extremes the first best over everything spanned |
| Legs.KeptMeaning | src/trader/strategy/macd_triple_divergence.py:795-816 | the filter keeps the first wave of the sign, then each one not weak next to the one kept before, and always the latest |
| Legs.FilteredSameSignWaves | src/trader/strategy/macd_triple_divergence.py:795-816 | the loop computes that selection |
| Legs.NextLegsOk | src/trader/strategy/macd_triple_divergence.py:836-867 | adding a kept wave (append, merge or skip) keeps all legs well formed, apart, and price-advancing between neighbours |
| Legs.LatestLegsOk | src/trader/strategy/macd_triple_divergence.py:836-867 | so do all the legs of a list: extremes are first best, and legs that are neighbours, or troughs with only a tiny opposite wave between them, strictly advance the price |
| Legs.LegsOrdered | src/trader/strategy/macd_triple_divergence.py:836-867 | legs are ordered and disjoint, in positions and in bars |
| Legs.LastOnes | src/trader/strategy/macd_triple_divergence.py:867-867 | the final slice keeps a suffix, of the requested length when that is positive |
| Legs.AddWave | src/trader/strategy/macd_triple_divergence.py:840-865 | the loop body is that addition |
| Legs.LatestSameSignWaves | src/trader/strategy/macd_triple_divergence.py:836-867 | filter, loop and slice together compute the legs |
| Triplets.WaveSpanIndices | src/trader/strategy/macd_triple_divergence.py:643-663 | the lookup by identity, then by start and end, with its error as None |
| Triplets.SpanOfLeg | src/trader/strategy/macd_triple_divergence.py:643-663 | the lookup never fails for a leg, merged or not, and finds exactly the block it covers |
| Triplets.SpanOfWindowLeg | src/trader/strategy/macd_triple_divergence.py:643-663 | a leg of a window is found in the window and, shifted, in the full list |
| Triplets.FindBoundary | src/trader/strategy/macd_triple_divergence.py:869-889 | the look-back stops at the latest leg that the newest one does not beat |
| Triplets.CandidatesOf | src/trader/strategy/macd_triple_divergence.py:869-889 | candidates are again well-formed, ordered, advancing legs |
| Triplets.PriceDivergenceCandidates | src/trader/strategy/macd_triple_divergence.py:869-889 | the method computes them |
| Triplets.SameSignSegmentCount | src/trader/strategy/macd_triple_divergence.py:818-834 | the count is the number of runs of the sign in the window |
| Triplets.SinceLastPivot | src/trader/strategy/macd_triple_divergence.py:615-641 | the stretch starts after the last pivot before the trigger, or at the leg's start |
| Triplets.TripletSound | src/trader/strategy/macd_triple_divergence.py:756-790 | any triplet a window yields is three ordered, disjoint legs of the sign with strictly shrinking magnitude and strictly progressing prices, all found by the span lookup in window and list; with a trigger, its price test holds |
| Search.LastHit | src/trader/strategy/macd_triple_divergence.py:1044-1066 | the search result is at the largest start that yields a triplet: no shorter suffix does |
| Triplets.SearchDown | src/trader/strategy/macd_triple_divergence.py:1044-1066 | the loop over growing suffixes stops at the largest start that yields a triplet |
| Triplets.FindTriplet | src/trader/strategy/macd_triple_divergence.py:1044-1090 | it returns the triplet of the shortest suffix that has any |
| Triplets.FoundSound | src/trader/strategy/macd_triple_divergence.py:1044-1090 | what the search finds is sound in the above sense |
| Detector.NeverTwiceInARow | src/trader/strategy/macd_triple_divergence.py:358-381 | the first-shortening test excludes two consecutive bars for every history exactly when macd_eps is not negative |
| Detector.SignalSound | src/trader/strategy/macd_triple_divergence.py:1092-1150 | every signal rests on a first shortening bar, a sound triplet of the bar's waves, the trigger price test and a strong enough latest leg |
| Detector.SignalUnique | src/trader/strategy/macd_triple_divergence.py:1092-1190 | a history and a direction admit one answer |
| Detector.Evaluate | src/trader/strategy/macd_triple_divergence.py:1092-1150 | the detection before its memory computes that answer from the unique wave cut |
| Detector.FreshAppend | src/trader/strategy/macd_triple_divergence.py:1109-1130 | an event that beats the last one of its structure by more than the tolerance keeps the event list fresh |
| Detector.GapGuardIdle | src/trader/strategy/macd_triple_divergence.py:1109-1130 | for a non-negative macd_eps, whenever the shortening test holds, the last event of the direction is at least two bars back |
| Detector.SpacedAppend | src/trader/strategy/macd_triple_divergence.py:1109-1130 | an event past the gap guard keeps the events of a direction two bars apart at least, for any macd_eps |
| Detector.StaleExactly | src/trader/strategy/macd_triple_divergence.py:1109-1130 | a signal the memory lets pass fails to beat the last event of its structure exactly when the memory was wiped to its bar alone and the signal repeats that event |
| Detector.EventAppend | src/trader/strategy/macd_triple_divergence.py:1109-1150 | a signal that is neither a repeat nor within the gap extends the event list without breaking its invariants |
| Detector.TripleDivergence.constructor | src/trader/strategy/macd_triple_divergence.py:117-160 | for any parameters the run starts with no events and an empty memory |
| Detector.TripleDivergence.Detect | src/trader/strategy/macd_triple_divergence.py:1092-1210 | over any run, for any parameters, a direction fires exactly when the bar shows a signal that is neither a repeat of the same structure at no better price nor within a bar of the last; a fired signal is stale exactly when the memory was wiped and it repeats the last event; for a non-negative macd_eps neither the gap nor staleness ever occurs |
| Detector.TripleDivergence.Remember | src/trader/strategy/macd_triple_divergence.py:1109-1150 | the memory becomes the fired event; another structure makes it forget key and price before the gap guard is asked; a repeat leaves it alone |
| RepeatedSignal.OnlyShowsHere | src/trader/strategy/macd_triple_divergence.py:1092-1150 | whatever the detector finds on three successive bars of a given history: one structure at 10, another one, the first again at 20 |
| RepeatedSignal.Replay | src/trader/strategy/macd_triple_divergence.py:1092-1150 | for every negative macd_eps, the other parameters at their defaults and any minimum length from 10 bars on: asked for longs on every bar, the detector signals the same structure twice, the second time at a higher low |
| OrderSemantics.FirstNumber | src/trader/execution/order_semantics.py:167-175 | the first value that is present and positive, None exactly when there is none |
| OrderSemantics.SelectionMeaning | src/trader/execution/order_semantics.py:21-110 | an operation is refused exactly when its stop or target is on the wrong side of its price; otherwise protection is asked for exactly when wanted, for the order's side and quantity |
| Gateway.SubmitMarket | src/trader/execution/gateways.py:400-459 | one market order is logged, accepted exactly when the exchange returned an order id |
| Gateway.PlaceProtection | src/trader/execution/gateways.py:274-319 | accepted only with non-empty ids that the exchange knows; the ledgers tell which call and check it was |
| Gateway.ReplaceProtection | src/trader/execution/gateways.py:321-374 | nothing is sent without the id of the order to replace |
| RouterCalls.OrdersOf | src/trader/live/auto_execution.py:793-884 | a call sends at most two market orders |
| RouterCalls.NetShortAppend | src/trader/live/auto_execution.py:499-614 | the net short of a ledger is additive |
| RouterCalls.ExposureSplits | src/trader/live/auto_execution.py:499-614 | conservation: the exchange's net short is what was booked plus what calls not reported as submitted left behind |
| RouterCalls.AgreesExactly | src/trader/live/auto_execution.py:499-614 | over any run books and exchange agreed after every call exactly when no call left anything behind unbooked |
| RouterCalls.KeepsBooksExactly | src/trader/live/auto_execution.py:355-614 | before a call, for every task and policy: an operation can leave nothing behind exactly when the task cannot sell short, or the operation does not touch the short position, asks for no protection, or has no price or a misplaced stop or target |
| RouterCalls.BooksAgree | src/trader/live/auto_execution.py:943-1040 | over any run without retries, protected closes, failed fail-safe closes or raising id checks, the books equal the exchange's net short |
| RouterCalls.LeaksExactly | src/trader/live/auto_execution.py:943-1040 | which calls leave something behind: short ones not reported as submitted with an unchecked protection, a fail-safe close that failed or doubled a close, or an accepted retry |
| RouterCalls.SubmittedMeansCovered | src/trader/live/auto_execution.py:983-1026 | a protected entry is reported SUBMITTED only if accepted, covered and bracketed |
| RouterCalls.RefusedMeansClosed | src/trader/live/auto_execution.py:1254-1271 | off the retry path a call whose protection is refused carries the closing order for the same quantity |
| RouterSteps.RefusalClosesOnLedger | src/trader/live/auto_execution.py:1254-1271 | off the retry path, a protection that the exchange's ledgers show refused or unknown is followed on them by the fail-safe close of the accepted order, and the call is reported as failed |
| RouterSteps.Drifts | src/trader/live/auto_execution.py:499-614 | books and exchange drift apart by exactly what a call leaves behind, and not at all for an operation that cannot leak |
| RouterSteps.UncheckedShortDrifts | src/trader/live/auto_execution.py:983-1026 | a short entry with a raising id check on the exchange's ledger is reported as failed and leaves the exchange shorter than the books |
| RouterSteps.NextMoveNamesReplaced | src/trader/live/auto_execution.py:885-941 | of two accepted stop moves in a row without ids of their own, the second asks to replace the order the first one replaced |
| RouterSteps.ShortIsOnlyCharged | src/trader/live/auto_execution.py:499-568 | the reserved budget never stops a short entry; a submitted one is charged to it |
| RouterSteps.OverBudgetShort | src/trader/live/auto_execution.py:499-589 | a short entry of more than the remaining budget can be submitted and leaves a remainder of zero |
| RouterSteps.OnePerSignal | src/trader/utils/operation_state.py:11-31 | over any list of calls only the first operation that carries a trade's signal event can send anything |
| RouterSteps.FollowsExtend | src/trader/live/auto_execution.py:187-195 | one more call keeps the books, the budget, the seen identities and the ledgers in step with the list of calls |
| RouterCalls.BudgetExtend | src/trader/live/auto_execution.py:570-589 | one call keeps spending plus remainder within the budget and its tolerances |
| RouterCalls.EntriesWithinBudget | src/trader/live/auto_execution.py:377-472 | n submitted long entries of a task that never sells short total at most the budget plus n tolerances |
| RouterCalls.IdentitiesExtend | src/trader/live/auto_execution.py:187-195 | the seen set grows by the call's identity, and no identity sends twice |
| Router.AutoExecutionRouter.Settle | src/trader/live/auto_execution.py:836-884 | after an answered order: protection, and the fail-safe close of the same side and quantity when it is refused; the cover is what the ledgers show |
| Router.AutoExecutionRouter.SubmitSpot | src/trader/live/auto_execution.py:793-884 | at most one market order and its close, for the given quantity, reported as the replies demand |
| Router.AutoExecutionRouter.SubmitMargin | src/trader/live/auto_execution.py:943-1040 | the same on margin, with the borrow-block path for entries |
| Router.AutoExecutionRouter.Choose | src/trader/live/auto_execution.py:801-835 | the order with its protection for the operation's side and quantity, or the selection error that refuses it |
| Router.AutoExecutionRouter.SettleMargin | src/trader/live/auto_execution.py:975-1040 | a refused borrow takes the block path, anything else the usual settlement; the ledgers grow by exactly the orders of the call |
| Router.AutoExecutionRouter.HandleMarginBorrowBlock | src/trader/live/auto_execution.py:1042-1122 | the policy decides between failing, skipping and a single repaid retry |
| Router.AutoExecutionRouter.RetryEntry | src/trader/live/auto_execution.py:1122-1180 | the retry sends one more order and reports SUBMITTED only when it and its protection hold |
| Router.AutoExecutionRouter.LongGate | src/trader/live/auto_execution.py:377-472 | a long entry is stopped only for a reason that holds, and opens for the capped notional over the price, within the reserved budget |
| Router.AutoExecutionRouter.RouteRealLong | src/trader/live/auto_execution.py:377-472 | books, budget and position after a long entry |
| Router.AutoExecutionRouter.ExitGate | src/trader/live/auto_execution.py:474-497 | a sale is stopped only when the position is unknown or the exchange refuses its size |
| Router.AutoExecutionRouter.RouteRealExit | src/trader/live/auto_execution.py:474-497 | a sale is of the known long position, which is then gone |
| Router.AutoExecutionRouter.ShortGate | src/trader/live/auto_execution.py:499-545 | the same for a short entry, without the budget |
| Router.AutoExecutionRouter.RouteRealShort | src/trader/live/auto_execution.py:499-568 | a submitted short is booked and charged in full |
| Router.AutoExecutionRouter.CloseGate | src/trader/live/auto_execution.py:591-614 | a close is stopped only without a booked short, without margin, or when its size is refused |
| Router.AutoExecutionRouter.RouteRealShortClose | src/trader/live/auto_execution.py:591-614 | a close is of the whole booked short, which is then gone |
| Router.AutoExecutionRouter.ChooseReplacement | src/trader/live/auto_execution.py:1231-1240 | the replacement names the given protection order, else the one remembered for the trade |
| Router.AutoExecutionRouter.RouteRealRiskUpdate | src/trader/live/auto_execution.py:885-941 | a stop move sends no market order and does not touch the remembered ids; what reaches the exchange is the replacement of the given or remembered order, at the first price given, for the whole position, and it is reported as the ledgers say |
| Router.AutoExecutionRouter.Route | src/trader/live/auto_execution.py:187-195 | an exception escapes exactly when the last read of the exchange raised outside every handler, and then nothing was sent; otherwise one outcome, at most two market orders, none for a duplicate or in manual mode; the ledgers tell the cover of every call; a protected entry is SUBMITTED only when covered; a task that cannot sell short sends no short or close order; the exchange drifts from the books by what the call leaves behind, and not at all when the operation cannot leak; a skip gives a reason that held, resting on the last answer of the exchange where it needs one |
| Router.AutoExecutionRouter.ExposureAgrees | src/trader/live/auto_execution.py:499-614 | over any run of benign calls real_short_position is the net short of the exchange's accepted orders |
| Router.AutoExecutionRouter.ExposureAgreesByLedgers | src/trader/live/auto_execution.py:499-614 | over any run under a policy that does not repay, without protected closes, it is so if the exchange accepted every fail-safe close and no id check on its ledger raised |
| Router.AutoExecutionRouter.SafeOperationsAgree | src/trader/live/auto_execution.py:499-614 | over any run of operations that cannot leak, whatever the exchange answered, it is so after every call |
| Router.AutoExecutionRouter.ExposureAgreesExactly | src/trader/live/auto_execution.py:499-614 | and in general after every call exactly when no call leaked |
| Router.AutoExecutionRouter.EntriesAffordable | src/trader/live/auto_execution.py:570-589 | over any run of a task that never sells short, submitted long entries stay within the reserved budget and the remainder is never negative |
| Router.AutoExecutionRouter.OneOperationPerSignal | src/trader/live/auto_execution.py:187-195 | over any run of the router, an exit or a stop move that carries the signal event of an operation routed before is skipped quietly |
| Lifecycle.OneProtectionOfAKind | src/trader/strategy/backtrader_adapter.py:52-137 | at most one stop and one take-profit work for a trade, it is the remembered one, and none once the trade is over |
| Lifecycle.FilledIsOpen | src/trader/strategy/base_strategy.py:213-223 | after a delivered entry fill the trade is open, and an unreported exit order means it is closing for a requested reason |
| Lifecycle.ProtectionWithdrawn | src/trader/strategy/backtrader_adapter.py:52-74 | cancelling the remembered stop and take-profit leaves none working |
| Lifecycle.ClosedFits | src/trader/strategy/base_strategy.py:338-342 | withdrawing both on a fill leaves only orders a closed trade may have |
| Lifecycle.ClosingFits | src/trader/strategy/base_strategy.py:1098-1120 | so does withdrawing them for an exit order, with or without the paired stop |
| Lifecycle.Trade.Start | src/trader/strategy/lifecycle.py:137-168 | a new trade, cancelled at once on a banned key bar |
| Lifecycle.Trade.CancelStop | src/trader/strategy/backtrader_adapter.py:52-62 | a working stop is cancelled, a dead one forgotten |
| Lifecycle.Trade.PlaceOrReplaceStop | src/trader/strategy/backtrader_adapter.py:76-106 | the old stop is withdrawn and the new one stands at the current stop price; nothing happens without a position |
| Lifecycle.Trade.PlaceOrReplaceTakeProfit | src/trader/strategy/backtrader_adapter.py:108-137 | the same for the take-profit |
| Lifecycle.Trade.OpenEntry | src/trader/strategy/backtrader_adapter.py:19-41 | the entry order and, if it exists, a stop at the trade's stop price |
| Lifecycle.Trade.MarkEntryFilled | src/trader/strategy/lifecycle.py:217-225 | the trade becomes active at the fill price with a stop price, falling back to the key bar |
| Lifecycle.Trade.EntryFilled | src/trader/strategy/base_strategy.py:229-246 | an entry fill activates the trade and leaves stop and take-profit standing at their prices unless the broker refuses |
| Lifecycle.Trade.ExitFilled | src/trader/strategy/base_strategy.py:247-342 | an exit, stop or take-profit fill closes the trade with the reason that order stands for, and withdraws the protection |
| Lifecycle.Trade.ProtectionEnded | src/trader/strategy/base_strategy.py:343-381 | a stop or take-profit that ended is forgotten only if it is the current one |
| Lifecycle.Trade.EntryFailed | src/trader/strategy/base_strategy.py:383-403 | a failed entry cancels the trade and its stop |
| Lifecycle.Trade.ExitFailed | src/trader/strategy/base_strategy.py:405-413 | a failed exit returns the trade to active, its reason still pending |
| Lifecycle.Trade.Hear | src/trader/strategy/base_strategy.py:181-415 | what each remaining notification means; those of a closed trade change nothing |
| Lifecycle.Trade.ConfirmEntry | src/trader/strategy/base_strategy.py:1021-1096 | an opposing signal, a closed account or a refuting close drops the trade; a confirming close opens it |
| Lifecycle.Trade.ClosePosition | src/trader/strategy/backtrader_adapter.py:43-50 | protection is withdrawn, except a stop paired with the exit order, and the trade closes only if an exit order exists |
| Lifecycle.Trade.RequestExit | src/trader/strategy/base_strategy.py:675-747 | only an active or confirming trade can be asked to exit, a banned key refuses, the reason is recorded, and an unconfirmed exit withdraws all protection |
| Lifecycle.Trade.ConfirmExit | src/trader/strategy/base_strategy.py:1098-1139 | the close decides between closing, returning to active with the key refused, and waiting |
| Lifecycle.Trade.KeepProtection | src/trader/strategy/base_strategy.py:1217-1225 | missing protection is put back, working protection left alone |
| Lifecycle.Trade.Protect | src/trader/strategy/base_strategy.py:1141-1225 | on an active bar a break-even move re-places the stop at its price, a trailing move does not touch the order, a broken trailing stop asks for the exit, otherwise protection stands at the end |
| TradeEngine.Strategy.EnterTrade | src/trader/strategy/base_strategy.py:544-673 | the two refusals, the id, the ban, the status, who becomes active, and the entry order with its stop unless the broker refuses |
| TradeEngine.Strategy.Enter | src/trader/strategy/base_strategy.py:869-893 | a routed entry adds one trade, which takes the active slot unless its key bar is banned |
| TradeEngine.Strategy.ExitTrade | src/trader/strategy/base_strategy.py:675-747 | an exit request reaches the referenced or the active trade and no other |
| TradeEngine.Strategy.ScheduleReplacement | src/trader/strategy/base_strategy.py:907-977 | scheduled exactly when a live trade is active and no replacement waits; the active trade is asked to exit at once, and without confirmation its successor exists |
| TradeEngine.Strategy.OpenPendingReplacement | src/trader/strategy/base_strategy.py:979-1014 | only the close of the replaced trade takes the replacement up, existing or reserved |
| TradeEngine.Strategy.CloseTrade | src/trader/strategy/base_strategy.py:247-342 | a closing fill frees the active slot and hands over |
| TradeEngine.Strategy.FailEntry | src/trader/strategy/base_strategy.py:383-403 | a failed entry frees the active slot only; a replacement waiting for that trade is stranded |
| TradeEngine.Strategy.NotifyOrder | src/trader/strategy/base_strategy.py:181-415 | every notification keeps the invariants and has the outcome its order and status call for |
| TradeEngine.Strategy.ProcessTradeEngine | src/trader/strategy/base_strategy.py:1016-1225 | one bar touches only the active trade, and not even that while it is opening or closing; what it does depends on the status; a dropped trade's key bar is banned |
| TradeEngine.Strategy.Run | src/trader/strategy/base_strategy.py:146-415 | over any run: CLOSED and CANCELLED are absorbing, every live trade is the active one or the replacement, every closed trade has entry price, exit price and reason and nothing pending; an active trade opening without an order stays the active one; a replacement that waits for it or for a cancelled trade is never taken up or cleared, one scheduled for a filled trade never strands |
| TradeEngine.Strategy.NotLostCanMove | src/trader/strategy/base_strategy.py:979-1014 | any other pending replacement waits for the active trade, which is not over, and whose entry or exit order, when it needs one, exists and is still to be reported |
| MarketData.KlineUpdateBuffer.Accept | src/trader/live/market_data.py:85-104 | on every run the set and scan agree with one watermark per stream, and nothing accepted is at or before a closed candle of its stream |
| MarketData.LatestClosedIsNewest | src/trader/live/market_data.py:107-110 | it is the newest grid candle that has ended |
| MarketData.MissingCounts | src/trader/live/market_data.py:125-128 | the missing count is the number of whole steps to the last closed candle |
| MarketData.PlanCoversTheGap | src/trader/live/market_data.py:113-148 | NONE exactly when nothing is missing, RANGE over exactly the gap when it fits the cap, else truncated LATEST |
| KlineStore.MergedTimes | src/trader/database/kline.py:76-105 | exactly the stored and offered times are stored afterwards |
| KlineStore.MergedKeeps | src/trader/database/kline.py:92-99 | no stored row is overwritten |
| KlineStore.MergedTakesFirst | src/trader/database/kline.py:88-99 | a new time gets the first candle offered for it |
| KlineStore.ContiguousCount | src/trader/database/kline.py:76-105 | a contiguous store of n steps has n + 1 rows |
| KlineStore.RangesJoin | src/trader/live/market_data.py:140-148 | a grid range and the next one make one range |
| KlineStore.BackfillCompletes | src/trader/live/runtime.py:99-105 | if the exchange serves the planned range, the store becomes contiguous through the last closed candle, keeps its rows and grows by the planned number |
| KlineStore.KlineCol.GetLatestKline | src/trader/database/kline.py:60-67 | the row of the greatest open time, None exactly when empty |
| KlineStore.KlineCol.AddKlines | src/trader/database/kline.py:76-105 | the loop merges the candles and returns the number of new rows |
| KlineStore.StartupCompletes | src/trader/live/runtime.py:99-105 | for a contiguous store: nothing is planned exactly when it is up to date, and if the planned range is served the store reaches the last closed candle by exactly the planned number of new rows |
| KlineStore.KlineCol.Startup | src/trader/live/runtime.py:99-105 | the plan follows from the newest row, nothing is fetched for NONE, the count is of new rows, and a contiguous store is completed in that sense |
| Feed.LiveKlineDataFeed.Start | src/trader/live/feed.py:47-54 | a start resets what is reported and leaves the queue |
| Feed.LiveKlineDataFeed.MarkLive | src/trader/live/feed.py:59-62 | the marker is queued and later bars are live |
| Feed.LiveKlineDataFeed.PutKline | src/trader/live/feed.py:72-78 | a bar is accepted exactly when its open time is new, and tagged by whether a marker came before |
| Feed.LiveKlineDataFeed.TakeItem | src/trader/live/feed.py:96-105 | one item leaves the queue; a marker turns the phase live |
| Feed.LiveKlineDataFeed.Load | src/trader/live/feed.py:80-113 | the next bar in order is delivered past any markers; otherwise the queue is empty, and it ends only when stopped |
| Feed.DeliveryIsFifo | src/trader/live/feed.py:72-113 | delivered and waiting bars are, in order, the accepted ones |
| Feed.EachOpenTimeOnce | src/trader/live/feed.py:72-78 | no open time is accepted, hence delivered, twice |
| Feed.MarkerSeparates | src/trader/live/feed.py:59-113 | warmup bars precede every marker, live bars have one before them |
| Feed.QueuedWithMeaning | src/trader/live/feed.py:72-78 | bars put one by one are queued in their order, each exactly when no earlier one or waiting item has its open time |
| Feed.BacktraderLiveRunner.Start | src/trader/live/backtrader_runtime.py:115-122 | the first start queues exactly the new warmup bars, in order, and then the marker; a second is refused |
| CandleRuns.InsertAscends | src/trader/live/stream.py:615-619 | inserting a new time keeps the candles ascending |
| CandleRuns.ClosedKlinesMeaning | src/trader/live/stream.py:615-619 | exactly the fetched candles that have closed remain |
| CandleRuns.ClosedKlinesAscend | src/trader/live/stream.py:615-619 | and in ascending order |
| CandleRuns.NewAfterMeaning | src/trader/live/stream.py:592-597 | exactly those after the last published one are new |
| CandleRuns.AscendingIsRun | src/trader/live/stream.py:592-597 | ascending candles at the times of a grid run are that run, one by one |
| Polling.NextPollIsLeast | src/trader/live/stream.py:599-610 | with the latest open time L known, the next poll is the least L + delay + k·duration after now, k at least 1 |
| Polling.NextPollIsLater | src/trader/live/stream.py:599-610 | without one it is still after now, by at most a duration and the delay |
| Polling.PublishContinues | src/trader/live/stream.py:575-597 | a poll that reaches back to the next candle publishes exactly the grid run up to the newest closed candle |
| Polling.PublishSkips | src/trader/live/stream.py:575-597 | one that does not starts beyond it |
| Polling.SkippedForGood | src/trader/live/stream.py:546-597 | and no later poll, whatever it fetches, publishes the skipped candle |
| Polling.RunIsGapless | src/trader/live/stream.py:546-597 | over any run of polls that keep up, the published times are B+d, B+2d, ... with no gap and no repeat |
| Polling.FirstCandles | src/trader/live/stream.py:563-590 | the first closed candles are the baseline B, or, after a baseline without any, are published from the oldest on |
| Polling.StartIsGapless | src/trader/live/stream.py:546-597 | from the very first poll: a new stream whose polls keep up after its first closed candles publishes without gap or repeat |
| Polling.CcxtPollingMarketStreamAdapter.StreamIsGapless | src/trader/live/stream.py:489-597 | over any run of the scheduler this holds of every stream of the adapter |
| Polling.ChoiceIsDue | src/trader/live/stream.py:515-526 | if any stream is due the chosen one is, with the shortest interval among the due |
| Polling.CcxtPollingMarketStreamAdapter.NextDueStream | src/trader/live/stream.py:515-526 | the choice is least by due time, interval and name |
| Polling.CcxtPollingMarketStreamAdapter.PublishNew | src/trader/live/stream.py:563-597 | the first success sets the baseline, later ones hand each new candle to the subscriber once and in order |
| Polling.CcxtPollingMarketStreamAdapter.PollStream | src/trader/live/stream.py:546-590 | one request, one stream changed, next poll later than now, a failed fetch published nothing, and every stream is still what its successful polls made of a new one |
| Polling.CcxtPollingMarketStreamAdapter.Stop | src/trader/live/stream.py:469-477 | the stopped stream, and no other, is gone, and the rest is as it was |
| Polling.CcxtPollingMarketStreamAdapter.Turn | src/trader/live/stream.py:489-513 | over any run requests are at least the spacing apart and none precedes its stream's due time; the chosen stream is polled exactly when both allow it |
| Reservations.ReleaseLowersSums | src/trader/database/account_fund_reservation.py:162-168 | releasing never raises an active sum |
| Reservations.SpendingKeepsSums | src/trader/database/account_fund_reservation.py:145-160 | spending leaves every active sum as it was |
| Reservations.AccountFundReservationCol.ActiveReservedAmount | src/trader/database/account_fund_reservation.py:124-131 | the sum of the active reservations of an account and asset |
| Reservations.AccountFundReservationCol.Reserve | src/trader/database/account_fund_reservation.py:60-122 | each refusal and an existing row exactly when due, that row returned unchanged, and over any run active sums within the largest capacity offered plus 1e-12, one active row per task and asset, 0 ≤ spent ≤ reserved |
| Reservations.AccountFundReservationCol.MarkSpent | src/trader/database/account_fund_reservation.py:145-160 | spending is added to the one active row and stops at what is reserved |
| Reservations.AccountFundReservationCol.ReleaseTask | src/trader/database/account_fund_reservation.py:162-168 | all active rows of one trading task are released and counted |
| Reservations.AccountFundReservationCol.ReleaseInactiveTasks | src/trader/database/account_fund_reservation.py:180-187 | only running tasks stay active, and the count is the number of rows released |
| Repay.FormatCutsDown | src/trader/exchange/ccxt_driver.py:711-714 | the amount sent is at most the amount accounted, by less than 1e-8 |
| Repay.RepaymentsBounded | src/trader/exchange/ccxt_driver.py:486-502 | each repayment tried is at least the minimum and at most liability, free amount, per-asset cap and what is left, and never of an excluded asset |
| Repay.SkipsJustified | src/trader/exchange/ccxt_driver.py:486-497 | a row is skipped exactly when it owes nothing, is excluded, or a cap leaves less than the minimum |
| Repay.TotalWithinBudget | src/trader/exchange/ccxt_driver.py:498-502 | the total repaid is between zero and the cap |
| Repay.SentWithinAccounted | src/trader/exchange/ccxt_driver.py:498-503 | the accepted amounts sent are within the total accounted, short by less than one unit a row |
| Repay.CcxtDriver.AutoRepayAll | src/trader/exchange/ccxt_driver.py:459-513 | total repaid plus remainder is the cap, the repaid amounts sum to the total, and the calls made are those of the results |
| IdempotencyKeys.LastColonSplits | src/trader/execution/models.py:198-200 | a text ending in a colon-free part splits in one way |
| IdempotencyKeys.EqualKeys | src/trader/execution/models.py:198-200 | keys are equal exactly when kind and joined ids are |
| IdempotencyKeys.OrderAndRiskKeysDiffer | src/trader/execution/models.py:317-319 | an order key is never a risk key |
| IdempotencyKeys.BuiltKeysIdentify | src/trader/strategy/execution_kernel.py:55-100 | two intents that the framework builds, from any signal event ids or rendered fields, as orders, protections, fail-safe closes or break-even moves, share a key exactly when operation, form and kind are the same, whatever roles and symbols |
| IdempotencyKeys.KeysCanCollide | src/trader/execution/models.py:198-200 | arbitrary intents with colons in their ids can share one |
| Orchestrator.StepInvariant | src/trader/strategy/execution_kernel.py:246-332 | every step of every execution, store writes that raise after they are done included, keeps holders apart, records theirs, calls one each |
| Orchestrator.AtMostOnce | src/trader/strategy/execution_kernel.py:246-292 | over any interleaving in which no write of a reservation acts on a stale read, no key reaches the gateway twice, nor at all if the store knew it |
| Orchestrator.AtomicIsFresh | src/trader/database/execution_state.py:72-77 | so it is when every reservation is one step |
| Orchestrator.StoreTellsTheRun | src/trader/strategy/execution_kernel.py:294-332 | the final store is the initial one plus one record per held key, carrying its result once saved, also when the save then raised; skipped executions leave no trace |
| Orchestrator.BackToBackIsAtomic | src/trader/database/execution_state.py:72-77 | the read and the write done back to back are the atomic reservation |
| Orchestrator.SplitReservationSendsTwice | src/trader/database/execution_state.py:72-77 | interleaved they let one key through twice |
| Orchestrator.SendsOnceExactly | src/trader/database/execution_state.py:72-77 | for any store and any list of intents: no interleaving of the executions sends a key twice exactly when intents of equal keys find theirs in the store from the start |
| Orchestrator.AloneIsARun | src/trader/strategy/execution_kernel.py:246-292 | an uninterrupted execution is a run of the machine |
| Orchestrator.ExecutionOrchestrator.Execute | src/trader/strategy/execution_kernel.py:246-292 | a known key is a duplicate that changes nothing; otherwise one call, and the record of its result |

## Left out

- Floating-point rounding, NaN and infinities; every value is an exact number.
- Object identity of waves: `is` is modelled as equality, which is the same for waves of one list, whose starts differ.
- The list of pivots of a wave: only the membership test and the last pivot before the trigger are modelled.
- Signal payloads, dashboards, diagnostics, notifications, logging, audit records and exchange raw payloads.
- Text trimming, upper-casing and blank-text checks of ids and assets; inputs are taken as normalised.
- How joined order ids are found in exchange payloads: a reply carries a list of ids, perhaps empty.
- Exchange-side fills of protection orders, which the router does not see.
- Broker matching, one-cancels-other groups and order sizes: an order may end at any time in any way, which covers a sibling cancelled by such a group; an exit order left working after its trade closed on the paired stop is not ruled out.
- Trades looked up by text key: trades are looked up by id.
- The trailing rule's peak tracking and the risk engine's stop proposals: stop moves are inputs to a bar, and `strategy/risk.py` is not part of this model.
- The signal router: routed entries, exits and replacements are arbitrary inputs.
- Strategy callbacks raised as exceptions inside `notify_order`, which the code logs and drops.
- The feed's blocking wait and its thread; puts and loads are atomic calls. A restart after the marker was consumed reports WARMUP again, as the code does.
- Exceptions of a subscriber during a poll, which end the scheduler loop; a stop during a poll, and the cancelling of the idle scheduler task.
- WebSocket adapter, stream hub reconnects, the SQL layer (a map or a list of rows), and repayment of a single pair.
- Stream names are ordered by a rank instead of their text.
