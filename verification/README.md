# Execution-order lifecycle of the crypto investment back end, in Dafny

This project models the back end's pipeline from an approved investment to a
reconciled exchange order:

1. An **investment run** is opened for a strategy: LCI, the large-cap index, or MCI, the mid-cap index.
2. A **recipe run** is generated for the investment run. It holds one recipe run detail per strategy asset, naming the cheapest liquid way to buy that asset and the asset's share of the investment.
3. Approving the recipe run generates a **recipe order group**, with one recipe order per usable detail.
4. The **execution-order generator** job splits each pending recipe order into fuzzy-sized market execution orders.
5. The **order placer** job sends the first pending execution order of each exchange.
6. The **simulator** job marks the execution orders of simulated runs as placed.
7. The **fill fetcher** job reconciles every placed order with the exchange. It records fills from trades, from the order's filled amount, or from simulated market data. It spreads fees across the fills and promotes statuses, or fails an order once its failed attempts exceed the tolerance.

Two supporting pieces are modelled as well:

* the connector and limiter registry that every job reaches exchanges through;
* the in-memory fake exchange that the acceptance features run the jobs against.

The ask/bid fetcher job, which produces the market data the generator and the simulator read, is also part of the model.

Every job and service is a pure function of its inputs. The following become explicit parameters:

* database rows;
* the answers of exchange calls;
* store failures, as a set of fault points;
* the clock;
* random draws.

JavaScript-specific behaviour that matters is written out:

* truthiness of nullable numbers;
* `x || 0`;
* `String`/`parseInt` round trips of ids;
* `_.find` and `_.minBy` taking the first match;
* `clamp`, which the generator calls unqualified and which is taken to be lodash's `_.clamp`;
* a throttled call returning its default on error.

Modules:

| file | module | models |
|---|---|---|
| wrappers.dfy | Wrappers | `Option`, `Result` |
| seqs.dfy | Seqs | order-preserving `Filter` |
| domain.dfy | Domain | records, status enumerations, symbol splitting, decimal text |
| registry.dfy | Registry | `back-end/utils/CCXTUtils.js` |
| reconciler.dfy | Reconciler | `back-end/jobs/exec-order-fill-fetcher.js` |
| generator.dfy | Generator | `back-end/jobs/exec-order-generator.js` |
| placer.dfy | Placer | `back-end/jobs/exchange-order-placer.js` |
| simulator.dfy | Simulator | `back-end/jobs/exchange-order-simulator.js` |
| fake_exchange.dfy | FakeExchange | `back-end/cucumber/features/support/stubs/ccxt_methods.js` |
| orders_service.dfy | OrdersService | `back-end/services/OrdersService.js` |
| investment_service.dfy | InvestmentService | `back-end/services/InvestmentService.js` |
| asset_service.dfy | AssetService | `back-end/services/AssetService.js` (status changes, strategy assets) |
| ask_bid_fetcher.dfy | AskBidFetcher | `back-end/jobs/exchange-ask-bid-fetcher.js` |

## Model

| member | source | states |
|---|---|---|
| Domain.SymbolParts | back-end/jobs/exec-order-generator.js:12 | the destructured halves of `symbol.split('/')`: the first is the slash-free prefix up to the first slash, or the whole symbol without one; the second is absent exactly when the symbol has no slash, and otherwise is slash-free and directly follows that slash |
| Domain.SplitPair | back-end/jobs/exec-order-generator.js:12 | a slash-free transaction symbol and quote symbol joined by `/` split back into exactly those two symbols |
| Domain.DecimalRoundTrip | back-end/services/OrdersService.js:97 | `parseInt` of the decimal text of an id gives the id back |
| Registry.LimiterFor | back-end/utils/CCXTUtils.js:25-33 | every limiter runs one request at a time and is named `LIM-<api id>`; bitfinex waits six times the configured minimum time, every other exchange waits exactly that time |
| Registry.Initialise | back-end/utils/CCXTUtils.js:17-69 | the cache loads exactly when every stored exchange's api id names an available connector class; it then holds the registered maps |
| Registry.RegisterIdKeys | back-end/utils/CCXTUtils.js:61-65 | the id-keyed cache has exactly the ids of the stored exchanges as keys |
| Registry.RegisterConsistent | back-end/utils/CCXTUtils.js:61-65 | with unique ids and api ids, every exchange finds the same connector and limiter under its id and under its api id |
| Registry.Resolve | back-end/utils/CCXTUtils.js:72-101 | a number is looked up by id, a string by api id, and an object by id and then by api id; null throws, and any other value finds nothing |
| Registry.LookupAgrees | back-end/utils/CCXTUtils.js:111-131 | after a successful load, looking an exchange up by id, api id or record yields its own connector and its own limiter |
| Registry.Throttled | back-end/utils/CCXTUtils.js:34-57 | a throttled call yields the call's value, or the supplied default when the call raises |
| Registry.GetConnector | back-end/utils/CCXTUtils.js:70-117 | a failed cache load is rethrown; otherwise only a null reference throws, and a connector found is one the cache holds |
| Registry.GetThrottle | back-end/utils/CCXTUtils.js:70-101 | a failed cache load is rethrown; otherwise only a null reference throws, and a limiter found is one the cache holds |
| Registry.AllConnectors | back-end/utils/CCXTUtils.js:141-152 | with no filter, all connectors by id; with a filter, exactly the cached ids in the filter, each with its own connector |
| Reconciler.SelectForReconcile | back-end/jobs/exec-order-fill-fetcher.js:30-35 | the job visits exactly the Placed or PartiallyFilled orders that have a placed timestamp and an external identifier |
| Reconciler.SpreadFee | back-end/jobs/exec-order-fill-fetcher.js:459-465 | the fee update touches every fill of the order and only its fee, charging fee times quantity over the sum |
| Reconciler.SpreadFeeTotal | back-end/jobs/exec-order-fill-fetcher.js:459-465 | the spread fees add up to the order fee's share for the fills' total quantity |
| Reconciler.FeeSpreadAddsUp | back-end/jobs/exec-order-fill-fetcher.js:459-465 | spreading over the real fill sum charges exactly the order fee in total and keeps the total quantity |
| Reconciler.SpreadKeepsQuantities | back-end/jobs/exec-order-fill-fetcher.js:459-465 | spreading the fee leaves the fills' total quantity unchanged |
| Reconciler.Finalise | back-end/jobs/exec-order-fill-fetcher.js:403-507 | the final step fails an order past the tolerance and changes nothing else; otherwise a failed fill sum costs one more attempt; fills keep everything but their fee; the order changes only its status and attempts |
| Reconciler.FinaliseStatus | back-end/jobs/exec-order-fill-fetcher.js:413-485 | past the tolerance the order ends Failed; otherwise a non-failed order never becomes Failed; a Placed order with fills becomes PartiallyFilled; any other status is kept |
| Reconciler.FinaliseSpreadsFee | back-end/jobs/exec-order-fill-fetcher.js:459-465 | for an emulated order with a fee and fills, after the final step the fills' fees add up to the order fee |
| Reconciler.SimulateFill | back-end/jobs/exec-order-fill-fetcher.js:326-387 | a simulated order errs exactly when market data cannot be read or the fill cannot be saved; otherwise it gains one fill for its whole quantity at the market price, with fee price/divisor, and becomes FullyFilled with a completion time |
| Reconciler.SyncWithoutTrades | back-end/jobs/exec-order-fill-fetcher.js:263-323 | marks the fills emulated; errs exactly when the sum or the save fails, costing one attempt and no fill; adds one fill for the excess filled amount at the order price, or no fill when nothing is new; never touches the status |
| Reconciler.TradelessSumIsMax | back-end/jobs/exec-order-fill-fetcher.js:294-318 | after a tradeless sync the recorded quantity is the larger of the exchange's filled amount and the previous sum |
| Reconciler.TradelessIdempotent | back-end/jobs/exec-order-fill-fetcher.js:294-323 | a second tradeless sync against the same exchange order records no further fill |
| Reconciler.NewTrades | back-end/jobs/exec-order-fill-fetcher.js:206-209 | the new trades are exactly the trades of this order whose id is not yet recorded as a fill |
| Reconciler.TradeFills | back-end/jobs/exec-order-fill-fetcher.js:217-236 | one fill per new trade, each carrying that trade's data |
| Reconciler.TradeFillsFees | back-end/jobs/exec-order-fill-fetcher.js:217-236 | the fills' fees add up to the trades' fees, a missing fee counting as zero |
| Reconciler.TradeFillsIds | back-end/jobs/exec-order-fill-fetcher.js:209-236 | the fills record exactly the ids of the trades they were made from |
| Reconciler.SyncWithTrades | back-end/jobs/exec-order-fill-fetcher.js:152-254 | when trades are readable, reference orders and save: the fills grow by exactly the unseen trades; the order fee grows by their fees when any exist; otherwise the order is unchanged; errors cost one attempt |
| Reconciler.SyncWithTradesAsWritten | back-end/jobs/exec-order-fill-fetcher.js:217-244 | the trade path as written counts one failed attempt exactly when it errs, keeps the status, and on a failed save of new trades keeps the fills but has already raised the order fee by their fees |
| Reconciler.AsWrittenAgreesWhenSaved | back-end/jobs/exec-order-fill-fetcher.js:217-244 | the as-written trade path differs from the corrected one only when saving the fills fails |
| Reconciler.TradeSyncIdempotent | back-end/jobs/exec-order-fill-fetcher.js:206-209 | syncing the same trades twice changes nothing the second time |
| Reconciler.TradeSyncFeeMatchesFills | back-end/jobs/exec-order-fill-fetcher.js:217-236 | a trade sync raises the order fee by exactly the fees it records as fills |
| Reconciler.TradeSyncRetryKeepsFee | back-end/jobs/exec-order-fill-fetcher.js:217-244 | after a failed save and a successful retry, the order fee has grown by exactly the fees recorded as fills |
| Reconciler.TradeSyncAsWrittenDoubleCharges | back-end/jobs/exec-order-fill-fetcher.js:217-244 | as written, one trade with fee 1 whose save fails once leaves the order with fee 2 against fills worth 1 |
| Reconciler.FetchOrder | back-end/jobs/exec-order-fill-fetcher.js:515-562 | fetch-by-id returns the found order or its error; a found order always comes from fetch-by-id; the outcome is unspecified exactly on the paths that reach the misspelt connector or the missing fill model |
| Reconciler.Sync | back-end/jobs/exec-order-fill-fetcher.js:41-136 | the per-order step as written, with the trade sync that raises the fee before saving: every path adds one failed attempt exactly when it reports an error |
| Reconciler.Reconcile | back-end/jobs/exec-order-fill-fetcher.js:41-136 | as written: the result is unspecified exactly when a live order's lookup takes an unsettled path; the failed attempts grow by one for an errored step and one more for a failed fill-sum read within the tolerance; an order already over the tolerance ends Failed, and one within it that the step did not fail is not Failed; on the trade-history path without emulated fills, and only when the fills are saved, the order fee grows by exactly the fees of the fills added |
| Reconciler.SyncCorrected | back-end/jobs/exec-order-fill-fetcher.js:41-136 | the per-order step with the fee raised only after the fills are saved: every path adds one failed attempt exactly when it reports an error |
| Reconciler.ReconcileCorrected | back-end/jobs/exec-order-fill-fetcher.js:41-136 | as intended: the same unspecified case, attempt accounting and failure promotion, and on the trade-history path without emulated fills the order fee grows by exactly the fees of the fills added, whatever store step fails |
| Reconciler.CorrectionOnlyOnFailedSave | back-end/jobs/exec-order-fill-fetcher.js:217-244 | when saving the fills does not fail, the corrected and the as-written job agree on every order |
| Reconciler.ReconcileAttempts | back-end/jobs/exec-order-fill-fetcher.js:443-452 | one reconciliation adds at most two failed attempts: one for the step's error and one for a failed fill sum under the tolerance |
| Reconciler.ClosedWithRemainderFails | back-end/jobs/exec-order-fill-fetcher.js:98-107 | an order closed on the exchange with quantity remaining ends Failed and gains no fill |
| Reconciler.ClosedAndFilled | back-end/jobs/exec-order-fill-fetcher.js:115-123 | an order closed with nothing remaining gets a completion time; it ends FullyFilled, or Failed only through the tolerance, and is FullyFilled when within it |
| Reconciler.SimulatedOutcome | back-end/jobs/exec-order-fill-fetcher.js:326-387 | a simulated order without market data only gains an attempt; with readable data and a working save it gains one full-quantity fill at the simulated price and ends FullyFilled |
| Reconciler.FailurePromotion | back-end/jobs/exec-order-fill-fetcher.js:413-439 | an order one past the tolerance ends Failed; an order exactly at the tolerance whose step succeeded does not |
| Generator.SoldSymbol | back-end/jobs/exec-order-generator.js:9-23 | a buy sells the quote symbol and a sell sells the transaction symbol; any other side throws |
| Generator.SoldSymbolOfPair | back-end/jobs/exec-order-generator.js:12-19 | for a `TX/QUOTE` symbol, a buy sells QUOTE and a sell sells TX |
| Generator.BaseAmount | back-end/jobs/exec-order-generator.js:36-54 | only BTC and ETH have a base trade amount, taken from the corresponding setting |
| Generator.FuzzyAmountBounds | back-end/jobs/exec-order-generator.js:59 | the fuzzy trade amount stays within the base amount scaled by one minus and one plus the fuzziness |
| Generator.Clamp | back-end/jobs/exec-order-generator.js:101 | `clamp`, taken to be lodash's `_.clamp`, never goes below the lower bound, never exceeds an upper bound at or above it, and keeps values already in range |
| Generator.FirstUnfilled | back-end/jobs/exec-order-generator.js:76-79 | finds the first execution order that is neither FullyFilled nor Cancelled, or reports that none exists |
| Generator.RealizedNonNegative | back-end/jobs/exec-order-generator.js:93-94 | the realised total of fully filled executions is never negative |
| Generator.Decide | back-end/jobs/exec-order-generator.js:52-115 | an unknown side throws; a sold symbol without a base amount fails the recipe order; otherwise the order advances with the fuzzy amount |
| Generator.AdvanceWaitsForOpenExecution | back-end/jobs/exec-order-generator.js:81-89 | an open execution order blocks creation; the recipe order becomes Failed if that execution failed, Executing otherwise |
| Generator.AdvanceCompletes | back-end/jobs/exec-order-generator.js:93-99 | with nothing open and the quantity realised, the recipe order completes and nothing is created |
| Generator.AdvanceCreatesCappedOrder | back-end/jobs/exec-order-generator.js:100-115 | otherwise one pending market execution order is created: positive, capped by the remaining quantity (exactly `Number.MIN_VALUE` when the remainder is below it), priced pro rata to the recipe order, on the recipe order's side, instrument and exchange |
| Generator.NoBaseFails | back-end/jobs/exec-order-generator.js:52-58 | a buy of a pair whose quote has no base amount fails the recipe order and creates nothing |
| Generator.Run | back-end/jobs/exec-order-generator.js:42-50 | the job produces no more outcomes than there are pending recipe orders, and one for each of them when none throws |
| Generator.RunHandlesPendingInOrder | back-end/jobs/exec-order-generator.js:42-58 | the job handles the pending recipe orders in query order, each with its own decision, up to the first one with an unknown side; it throws exactly when some pending recipe order has an unknown side |
| Generator.HandleCreates | back-end/jobs/exec-order-generator.js:76-115 | a recipe order gets a new execution order only when its execution orders are all settled and its realised total falls short of its quantity, and the new order refers to it |
| Generator.RunCreatesAtMostOnePerPending | back-end/jobs/exec-order-generator.js:42-119 | one run creates at most one execution order per pending recipe order, each for a recipe order whose execution orders are all settled and whose realised total falls short of its quantity |
| Placer.MapType | back-end/jobs/exchange-order-placer.js:84-104 | market and limit orders map to `market` and `limit`, supported as the exchange advertises; stop orders are never supported; any other type throws |
| Placer.MapSide | back-end/jobs/exchange-order-placer.js:106-116 | buy and sell map to `buy` and `sell`; any other side throws |
| Placer.CountFailure | back-end/jobs/exchange-order-placer.js:147-153 | a rejected placement adds one failed attempt and fails the order once attempts exceed the tolerance; nothing else changes |
| Placer.PlaceOne | back-end/jobs/exchange-order-placer.js:74-159 | throws exactly for a missing exchange, an unknown type or side, or a supported type without a symbol mapping; an unsupported type or disabled sending leaves the order untouched; a rejection at most counts a failure |
| Placer.PlaceFailure | back-end/jobs/exchange-order-placer.js:147-155 | a rejected order gains exactly one attempt, and is Failed exactly when it exceeds the tolerance or already was |
| Placer.PlaceSuccess | back-end/jobs/exchange-order-placer.js:130-146 | an accepted order records the response's id and timestamp and keeps its status, because a response object never loosely equals `open` |
| Placer.PlacedOrdersEscapeReconciler | back-end/jobs/exchange-order-placer.js:132-144 | a pending order the placer turns Placed has no external identifier, so the fill fetcher never selects it |
| Placer.GroupHeads | back-end/jobs/exchange-order-placer.js:45-48 | exactly the positions that are the first of their exchange, in increasing order |
| Placer.KeyOrder | back-end/jobs/exchange-order-placer.js:45-48 | the groups' enumeration order keeps exactly the group heads, lists each exchange once, and puts array-index exchange ids first, in ascending order |
| Placer.Candidates | back-end/jobs/exchange-order-placer.js:33-48 | the first pending order of each exchange, in the key order of the object `_.groupBy` builds |
| Placer.CandidatesOnePerExchange | back-end/jobs/exchange-order-placer.js:33-48 | the orders sent are pending, at most one per exchange, every exchange with a pending order gets one, and that one is the exchange's first pending order in query order |
| Placer.CandidatesAreFirstPending | back-end/jobs/exchange-order-placer.js:45-48 | each order sent heads its exchange's group: it is pending and no earlier pending order has its exchange |
| Placer.CandidateNotPreceded | back-end/jobs/exchange-order-placer.js:45-48 | for any pending order on a candidate's exchange, the candidate occurs at or before it in the query result |
| Placer.CandidatesInKeyOrder | back-end/jobs/exchange-order-placer.js:45-48 | the orders sent visit array-index exchange ids before every other exchange id, in ascending numeric order |
| Placer.Run | back-end/jobs/exchange-order-placer.js:51-159 | the job writes back each candidate's placement result, in order; an error is exactly the throw of the first candidate that throws, and the job ends without error exactly when no candidate throws |
| Simulator.SimIdentifierInjective | back-end/jobs/exchange-order-simulator.js:58 | distinct orders get distinct `SIM-<id>` identifiers |
| Simulator.Run | back-end/jobs/exchange-order-simulator.js:29-61 | a failed query throws its message; otherwise exactly the pending orders of simulated runs become Placed, with a placed timestamp and `SIM-<id>` |
| Simulator.PlacedMeetsReconcilerSelection | back-end/jobs/exchange-order-simulator.js:56-58 | every order the simulator places is one the fill fetcher selects |
| Simulator.RunIdempotent | back-end/jobs/exchange-order-simulator.js:36-40 | a second run finds nothing left to place |
| Simulator.RunLeavesOthers | back-end/jobs/exchange-order-simulator.js:36-40 | rows that are not pending orders of simulated runs are untouched |
| FakeExchange.Init | back-end/cucumber/features/support/stubs/ccxt_methods.js:206-214 | a fresh exchange has no orders or trades, and its counters start at 1 |
| FakeExchange.FindOrder | back-end/cucumber/features/support/stubs/ccxt_methods.js:11 | finds an order with the id, or reports that none has it |
| FakeExchange.FetchOrder | back-end/cucumber/features/support/stubs/ccxt_methods.js:3-22 | an unknown market throws; a missing id gives null; a found order has the id and symbol; a symbol mismatch throws |
| FakeExchange.FetchOrders | back-end/cucumber/features/support/stubs/ccxt_methods.js:26-36 | throws exactly for an unknown market; returns exactly the orders at or after `since` |
| FakeExchange.FetchMyTrades | back-end/cucumber/features/support/stubs/ccxt_methods.js:39-49 | throws exactly for an unknown market; returns exactly the trades at or after `since` |
| FakeExchange.CreateMarketOrder | back-end/cucumber/features/support/stubs/ccxt_methods.js:59-96 | rejects a bad side, an unknown instrument, a quantity outside the amount limits, or missing prices; otherwise appends an open order at the ask (buy) or bid (sell), numbered by the counter |
| FakeExchange.CreateThenFetch | back-end/cucumber/features/support/stubs/ccxt_methods.js:75-94 | a created order is found again by its id and instrument |
| FakeExchange.AsNumbers | back-end/cucumber/features/support/stubs/ccxt_methods.js:106 | the purge ids become numbers, one for one |
| FakeExchange.PurgeAsWritten | back-end/cucumber/features/support/stubs/ccxt_methods.js:104-117 | purging with no ids empties the orders and the trades |
| FakeExchange.PurgeAsWrittenKeepsEverything | back-end/cucumber/features/support/stubs/ccxt_methods.js:106-111 | as written, purging with any ids keeps every order and trade, because number ids never equal string order ids |
| FakeExchange.PurgeAsWrittenMissesCreatedOrder | back-end/cucumber/features/support/stubs/ccxt_methods.js:104-111 | as written, order `1` is still fetchable after `purgeOrders([1])` |
| FakeExchange.Purge | back-end/cucumber/features/support/stubs/ccxt_methods.js:104-117 | with ids, removes exactly the orders, and the trades of orders, whose numeric id is listed; with none, removes all; markets and counters are kept |
| FakeExchange.PurgeRemovesCreatedOrder | back-end/cucumber/features/support/stubs/ccxt_methods.js:104-111 | a created order purged by its number is no longer fetchable |
| FakeExchange.PurgeAllEmpties | back-end/cucumber/features/support/stubs/ccxt_methods.js:112-115 | both versions agree when no ids are given: everything is removed |
| FakeExchange.NextFillAmount | back-end/cucumber/features/support/stubs/ccxt_methods.js:192-204 | a next fill never exceeds what remains, and at rate 0 it is exactly what remains |
| FakeExchange.FillOrder | back-end/cucumber/features/support/stubs/ccxt_methods.js:144-185 | between 1 and 50 trades, linked to the order, never overfilling; filled and remaining are kept in step; the order closes exactly when filled equals amount; at rate 0 a single trade closes it |
| FakeExchange.NextTrade | back-end/cucumber/features/support/stubs/ccxt_methods.js:149-168 | a trade belongs to its order, side and symbol, with the next id, a bumped price, an amount within the remainder, and fee price·amount over the divisor |
| FakeExchange.ProcessOrder | back-end/cucumber/features/support/stubs/ccxt_methods.js:137-142 | closed orders and forced failures add no trades; forced failure closes an open order; trades added belong to the order |
| FakeExchange.SimulateTrades | back-end/cucumber/features/support/stubs/ccxt_methods.js:128-189 | markets and orders keep their count; every order gets the outcome above; trades are only appended, belong to open orders, and are numbered consecutively from the counter |
| OrdersService.SameAssetsProperties | back-end/services/OrdersService.js:15-23 | two pairs have the same assets exactly when they are equal or one is the other flipped, so the relation is reflexive and symmetric |
| OrdersService.KeyRoundTrip | back-end/services/OrdersService.js:160-170 | the `instrument,exchange` group key parses back into the same two ids |
| OrdersService.MarketDataKeyForRunDetail | back-end/services/OrdersService.js:94-103 | the first key on the detail's exchange whose instrument trades the detail's assets, in either orientation; there is no key exactly when no key matches |
| OrdersService.KeyFoundIff | back-end/services/OrdersService.js:94-103 | with every instrument known, a key is found exactly when some key is on the target exchange with the same assets |
| OrdersService.ValidDetails | back-end/services/OrdersService.js:177-201 | throws exactly when some detail's market-data key lookup meets an unknown instrument; otherwise the kept details are the details with market data and a positive quote-asset deposit on their exchange, in their order and each once, as a filter keeps them |
| OrdersService.OrderFor | back-end/services/OrdersService.js:216-242 | a detail's order is a pending sell in the new group at the latest ask price, for percentage·deposit/price |
| OrdersService.OrdersFor | back-end/services/OrdersService.js:216-242 | one such order per valid detail, in order |
| OrdersService.Generate | back-end/services/OrdersService.js:105-246 | throws for an existing group, a missing or unapproved run, a failed deposit read, a detail lookup that meets an unknown instrument, a failed group creation or order save, and when no detail is kept; with every read and save succeeding it returns exactly one realising order per valid detail |
| OrdersService.ChangeGroupStatus | back-end/services/OrdersService.js:251-316 | throws exactly for null ids, an unknown status, approving or rejecting without a comment, a missing group, or, when the status changes, a failed group save or a failed save of a rejected order; the same status is a no-op; otherwise records the change, keeping the old comment when none is given; rejection rejects every order of the group |
| OrdersService.ChangeGroupStatusIdempotent | back-end/services/OrdersService.js:269-273 | repeating a status change leaves the group and its orders as they are |
| OrdersService.RejectionPropagates | back-end/services/OrdersService.js:288-307 | rejecting a group marks every one of its orders Rejected and stores the comment |
| InvestmentService.CreateInvestmentRun | back-end/services/InvestmentService.js:15-53 | throws exactly for an unknown strategy, an uncompleted run of the same user, strategy and mode, or a failed save; a new run is Initiated, simulated by default, not completed |
| InvestmentService.OneOpenRunPerStrategyAndMode | back-end/services/InvestmentService.js:21-39 | once a run is created, creating another with the same user, strategy and mode throws |
| InvestmentService.ChangeInvestmentRunStatus | back-end/services/InvestmentService.js:56-75 | throws exactly for an unknown status, a missing run or a failed save; otherwise changes only the status and update time |
| InvestmentService.ChangeInvestmentRunStatusIdempotent | back-end/services/InvestmentService.js:56-75 | setting the same status again changes only the update time |
| InvestmentService.Oriented | back-end/services/InvestmentService.js:194-200 | after the flip, an instrument involving the asset has the asset as its quote |
| InvestmentService.BaseUsd | back-end/services/InvestmentService.js:205-210 | the USD price of the first base asset with that id; absent exactly when no base asset has the id |
| InvestmentService.Costs | back-end/services/InvestmentService.js:194-224 | throws exactly when some option's base asset is unknown; otherwise one cost per option |
| InvestmentService.Cheapest | back-end/services/InvestmentService.js:227 | `_.minBy` picks an option no other option undercuts, and every earlier option is strictly dearer |
| InvestmentService.CheapestChoice | back-end/services/InvestmentService.js:194-227 | the option `_.minBy` picks is the first one whose cost no other option beats |
| InvestmentService.Suggest | back-end/services/InvestmentService.js:173-228 | a base asset takes its first instrument, swapped unless the asset is already its quote, and throws without one; a non-base asset without instruments gets none; otherwise it throws when nothing is liquid or a base is unknown, and else takes the first cheapest liquid instrument, bought with the asset as quote |
| InvestmentService.PriceBases | back-end/services/InvestmentService.js:156-159 | every base asset gets the price of the first price row with its symbol, and it throws exactly when some base asset has no price |
| InvestmentService.FirstPrice | back-end/services/InvestmentService.js:157 | `prices.find` returns a price with the symbol and no earlier one has it; none exactly when no price has it |
| InvestmentService.SuggestAll | back-end/services/InvestmentService.js:163-228 | one suggestion per strategy asset, in order; throws exactly when some instrument read or suggestion throws |
| InvestmentService.Allocate | back-end/services/InvestmentService.js:231-240 | each kept asset gets 100 / total share × its share |
| InvestmentService.GenerateRecipeDetails | back-end/services/InvestmentService.js:137-243 | throws for unreadable strategy assets, no base assets, unreadable prices or an unpriced base asset; every output asset has a suggestion, comes from the strategy, and gets its share of 100 over the outputs' total share |
| InvestmentService.GenerateRecipeDetailsComplete | back-end/services/InvestmentService.js:161-243 | with readable inputs, the recipe is generated exactly when every strategy asset's instruments are read and suggested without a throw, and then every base asset and every asset with a suggestion appears with that suggestion |
| InvestmentService.ScaledSum | back-end/services/InvestmentService.js:237-240 | the percentages add up to 100 / total × the sum of shares |
| InvestmentService.AllocationSumsTo100 | back-end/services/InvestmentService.js:231-240 | with a non-zero total share, the investment percentages add up to 100 |
| InvestmentService.PortionBounded | back-end/services/InvestmentService.js:238 | a share between 0 and a positive total gets a percentage between 0 and 100 |
| InvestmentService.AllocationBounded | back-end/services/InvestmentService.js:231-240 | with non-negative shares and a positive total, every percentage lies between 0 and 100 |
| InvestmentService.DetailFor | back-end/services/InvestmentService.js:113-125 | an asset with a suggestion gets a detail in the new recipe run with the suggested transaction asset, quote asset and exchange and its percentage; an asset without one gets a "no way found" message naming it |
| InvestmentService.CreateRecipeRun | back-end/services/InvestmentService.js:78-134 | throws while a recipe run is pending; the investment run's move to the recipe-run stage persists even when a later step throws; the recipe run is stored exactly when the stage change, the generation and its creation succeed, pending, uncommented and unapproved; the call succeeds exactly when it is stored and the details save, with one outcome per generated asset |
| InvestmentService.OnePendingRecipeRun | back-end/services/InvestmentService.js:81-90 | after a recipe run is created, creating another for the same investment run throws |
| InvestmentService.FailedDetailsBlockRetry | back-end/services/InvestmentService.js:101-128 | a failed detail save leaves the new recipe run stored and pending, so the next attempt for the investment run throws |
| InvestmentService.ChangeRecipeRunStatus | back-end/services/InvestmentService.js:246-276 | throws exactly for an unknown status, an empty comment, a missing run or a failed save; records the approval; triggers order generation exactly on a change into Approved |
| InvestmentService.ReapprovalGeneratesNothing | back-end/services/InvestmentService.js:270-273 | approving an already approved recipe run triggers no second order generation |
| AssetService.ChangeStatus | back-end/services/AssetService.js:14-64 | throws exactly for an unknown status, no comment, an unreadable or missing asset, the current status, or a failed save; otherwise records the status, comment, asset, user and time |
| AssetService.NoRepeatedStatus | back-end/services/AssetService.js:31-33 | right after a status is recorded, setting it again throws |
| AssetService.FirstChangeLeavesWhitelist | back-end/services/AssetService.js:32-33 | an asset without history counts as whitelisted, so its first change throws exactly when it whitelists |
| AssetService.BeforeLimit | back-end/services/AssetService.js:153-160 | keeps no more assets than it is given |
| AssetService.BeforeLimitMembers | back-end/services/AssetService.js:153-160 | an asset is kept exactly when the running market share up to it stays within the limit |
| AssetService.BeforeLimitIsPrefix | back-end/services/AssetService.js:153-160 | with non-negative shares, the kept assets are a prefix, and every later running share exceeds the limit |
| AssetService.LciIndex | back-end/services/AssetService.js:162 | the large-cap index is the head of the assets within the market-cap limit, as long as the LCI cap or all of them when fewer |
| AssetService.StrategyAssets | back-end/services/AssetService.js:101-171 | throws exactly for an unknown strategy or an unreadable query; LCI is the first LCI-cap assets within the limit; MCI is the next at most MCI-cap assets after them, short only when the ranking runs out |
| AssetService.IndexesAreConsecutive | back-end/services/AssetService.js:162-170 | the LCI and MCI lists together are a prefix of the ranking: no asset is skipped or repeated |
| AskBidFetcher.BestPrice | back-end/jobs/exchange-ask-bid-fetcher.js:107-108 | the best price is the first entry of the first level, present exactly when that level exists |
| AskBidFetcher.MissingKinds | back-end/jobs/exchange-ask-bid-fetcher.js:84-86 | a report names ask exactly when the best ask is missing or zero, and bid likewise |
| AskBidFetcher.WithMappings | back-end/jobs/exchange-ask-bid-fetcher.js:39-40 | an exchange is fetched exactly when it has instrument mappings |
| AskBidFetcher.FetchExchange | back-end/jobs/exchange-ask-bid-fetcher.js:52-61 | one fetch per mapping of the exchange, yielding the book, or an empty array when the request fails |
| AskBidFetcher.FetchAll | back-end/jobs/exchange-ask-bid-fetcher.js:42-62 | every fetch pairs an exchange with one of its own mappings and carries the throttled reply |
| AskBidFetcher.FetchAllPerExchange | back-end/jobs/exchange-ask-bid-fetcher.js:42-62 | for exchanges with distinct ids, the fetches of each exchange are exactly one per mapping of that exchange, in mapping order |
| AskBidFetcher.FetchAllComplete | back-end/jobs/exchange-ask-bid-fetcher.js:42-62 | every mapping of every exchange with mappings is fetched |
| AskBidFetcher.Job | back-end/jobs/exchange-ask-bid-fetcher.js:18-127 | the job fails exactly when a mapped exchange has no connector; otherwise its records and reports are those of the fetches of every mapped exchange, and it inserts exactly when some record was built |
| AskBidFetcher.OnlyMappedExchangesFetched | back-end/jobs/exchange-ask-bid-fetcher.js:39-62 | every fetch is for a stored exchange with mappings and one of that exchange's mappings |
| AskBidFetcher.Records | back-end/jobs/exchange-ask-bid-fetcher.js:70-110 | the records are, position by position, the records of the fetches whose reply is a complete book |
| AskBidFetcher.Reports | back-end/jobs/exchange-ask-bid-fetcher.js:80-99 | the reports are, position by position, the reports of the fetches whose reply is a book missing a best ask or bid |
| AskBidFetcher.RecordPerCompleteBook | back-end/jobs/exchange-ask-bid-fetcher.js:70-110 | one record per fetched book with asks and bids, carrying the mapping's exchange and instrument, the best ask and bid, and the book's timestamp or, when that is missing or zero, the current time |
| AskBidFetcher.FailedFetchLeavesNoTrace | back-end/jobs/exchange-ask-bid-fetcher.js:59-82 | failed requests yield neither records nor reports: a batch's records and reports are those of its answered fetches alone |
| AskBidFetcher.ReportsNameMissingPrices | back-end/jobs/exchange-ask-bid-fetcher.js:80-99 | every report comes from an incomplete book that is not an array, and names exactly the price kinds missing from it; there are exactly as many reports as such books, in fetch order |
| AskBidFetcher.IncompleteBooksReported | back-end/jobs/exchange-ask-bid-fetcher.js:80-99 | every fetched book that lacks a best ask or bid has its report |

## Left out

- Database queries, HTTP calls and exchange calls are inputs: rows and answers are parameters (`Environment`, `Lookup`, `GenerationInput`, `RecipeInputs`), and so are the store failures the fault sets and error fields name. The store writes listed below always succeed in the model.
- Concurrency is left out. This covers `Promise.all`, Bottleneck scheduling and the unawaited order generation after approval; every job is modelled as processing its rows in sequence.
- Logging and action logs are left out, because they do not affect stored state.
- Randomness, including `_.random` draws, the fuzzy rate, the price bump and the fee divisor, is a parameter or a caller-supplied function.
- Floating-point numbers are modelled as exact reals. Rounding, NaN and Infinity are not modelled.
- Division by zero appears in the following places:
  - in the fee spread, it is excluded by the `fill_amount_sum` truthiness guard;
  - in the sell cost, it is modelled as an unbounded cost;
  - in the allocation, it is modelled as an absent percentage;
  - elsewhere it is excluded by a precondition, as listed below.
- Generator.NextDraft: the price of a zero-quantity recipe order is absent where JavaScript divides by zero; a run never reaches it, because a zero quantity is already realised.
- Generator.Run: saving a recipe order and creating an execution order always succeed; their rejections, which the source leaves to `Promise.all`, are not modelled.
- FakeExchange.NextFillAmount: requires a non-zero fuzzy rate, because the source divides by it. At rate 0 the source substitutes 1.
- Reconciler.SimulateFill, Reconciler.Sync, Reconciler.Reconcile: the fee divisor is a parameter between 98 and 100, the range of the random draw.
- Reconciler.FetchOrder: only fetch-by-id is modelled. The open-orders and all-orders fallbacks call an undefined identifier, and the no-method branch passes the fill model where the configuration is expected. Those paths are unspecified (`Unspecified`).
- Reconciler.SimulatedOutcome: says nothing about the fills when the market-data read itself fails, beyond the failed attempt.
- AssetService.BeforeLimit: its own contract only bounds the length. Membership and the prefix property are the lemmas AssetService.BeforeLimitMembers and AssetService.BeforeLimitIsPrefix.
- The status enumerations are datatypes, because the constants table is not part of this model. Statuses received from callers are `Coded` numbers; a textual code compared with `!==` is not modelled.
- OrdersService.Generate: the group created before a failed order save stays stored; the model reports only the error.
- OrdersService.ChangeGroupStatus: a group saved before a rejected order's save fails keeps its new status; the model reports only the error.
- Reconciler.Finalise: the final save of the order row (back-end/jobs/exec-order-fill-fetcher.js:438 and 503) always succeeds; a failed save would leave the stored row as it was before the job, while the model returns the updated order.
- Placer.Run: the unawaited save of the order row after a placement or a failure (back-end/jobs/exchange-order-placer.js:144 and 153) always succeeds; if it fails after a successful `createOrder`, the row stays Pending and the next run sends the order again.
- Simulator.Run: the saves of the simulated orders (back-end/jobs/exchange-order-simulator.js:60-64) always succeed; the source logs and swallows a rejection, leaving those rows Pending.
- AskBidFetcher.Job: the bulk insert of the records (back-end/jobs/exchange-ask-bid-fetcher.js:116) always succeeds; a failure there is logged as a job error (line 121) while the model still reports the records as inserted.
- AskBidFetcher.FetchAll: its contract states which fetches happen and, through AskBidFetcher.FetchAllPerExchange, how many per exchange and in which order; the interleaving across exchanges, which the source leaves to concurrent promises, is not part of it.
- OrdersService.Generate: the deposit balances and the market-data groups are inputs. The exchange balance fetch, and the order in which lodash enumerates groups, are not modelled.
- InvestmentService.CreateRecipeRun: the details are all saved or none is; a partial save of some details before one fails is not modelled.
- InvestmentService.Cheapest: every cost is a finite real or unbounded. `_.minBy` over all-NaN costs is not modelled.
- The market-history fetcher job and the asset-listing and instrument-liquidity queries are not modelled. Their results enter as inputs.

## Findings

| source | as written | input that shows it | evidently intended | confidence | as-written member | corrected member |
|---|---|---|---|---|---|---|
| back-end/jobs/exec-order-fill-fetcher.js:217-244 | the trade path adds each new trade's fee to the order before saving the fills; a failed save still stores the raised fee, and the retry adds it again | one unseen trade with fee 1 on an order with no fee; the first save fails; the retry succeeds; the order fee is 2 while its fills hold 1 | the order fee grows only with the fills actually recorded | not executed | Reconciler.SyncWithTradesAsWritten, Reconciler.Sync, Reconciler.Reconcile, Reconciler.TradeSyncAsWrittenDoubleCharges | Reconciler.SyncWithTrades, Reconciler.SyncCorrected, Reconciler.ReconcileCorrected, Reconciler.TradeSyncRetryKeepsFee, Reconciler.CorrectionOnlyOnFailedSave |
| back-end/cucumber/features/support/stubs/ccxt_methods.js:104-111 | `purgeOrders(ids)` converts ids to numbers and compares them with string order ids, so a non-empty id list removes nothing | create order `1`, then `purgeOrders([1])`; order `1` is still fetchable | the listed orders and their trades are removed | not executed | FakeExchange.PurgeAsWritten, FakeExchange.PurgeAsWrittenMissesCreatedOrder | FakeExchange.Purge, FakeExchange.PurgeRemovesCreatedOrder |
