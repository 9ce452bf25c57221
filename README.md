# qbench backtest core in Dafny

This project models the replay-and-accounting core of the qbench backtester:

- The executor loads market data from the local store into one feed sorted by time.
- It replays that feed event by event to a strategy, keeping latest prices and order books up to date.
- It executes the strategy's taker orders against the books it holds. Spot orders change currency balances. Contract orders are recorded on a per-instrument contract position ledger.

The model has these modules:

| module | file | what it holds |
|---|---|---|
| `Wrappers` | `wrappers.dfy` | `Result`, the failures (`DivisionByZero`, `IndexOutOfRange`, `SplitDepthExceeded`), and decimal `Div`/`Mul` on exact reals |
| `Text` | `text.dfy` | the string operations the id conversions use: lower/upper case (ASCII letters only), suffix, replace-all, first field |
| `Defines` | `defines.dfy` | market record types, instrument-id conversions, instrument types and margin currencies, section data, the bar table, `Depth.parse` and the one-level book built from a ticker |
| `InstIdProperties` | `instid_properties.dfy` | how the id conversions and the bar table fit together |
| `OrderBook` | `order_book.dfy` | `Depth.GetMaxAmount` and `Depth.GetAvgPrice` as loops, proved against recursive specification functions |
| `ContractPositions` | `contract_position.dfy` | the contract ledger: its pure helpers, `Deal` and `Update` as functions on a ledger value, and the `ContractPosition` class whose methods are proved to follow them |
| `ContractPositionProperties` | `contract_position_properties.dfy` | closed forms of the helpers, the effect of each `Deal` branch, the ledger invariant and its preservation, and the ways a deal fails |
| `MarketInfo` | `market_info.dfy` | feed events, the local store's answers, the coverage checks, load stages, index map and sort by time |
| `ExecutorSpec` | `executor_spec.dfy` | the executor's state as a value, with every operation as a function: fills, price updates, conversion, NAV, the per-event dispatch, `Run` and the taker signal |
| `Executors` | `executor.dfy` | the `Executor` class, whose fields the methods update in place, each proved to follow its `ExecutorSpec` function |
| `ExecutorProperties` | `executor_properties.dfy` | properties of the executor: round trips, balance bookkeeping, the strategy's view at each callback, replay invariants, in-range feed indexes, taker-fill bounds |
| `Findings` | `findings.dfy` | five places where the code as written departs from its evident intent |

Decimal arithmetic is modelled by exact `real`s. A division by zero, which panics in the decimal library, becomes `Fail(DivisionByZero)`. A Go index out of range becomes `Fail(IndexOutOfRange)`. Times are integers (Unix milliseconds).

The executor follows the code as written throughout. `ContractPositions.Rules` names the reading of `Deal`: `AsWritten` for the code, `Intended` with the two corrections listed under Findings. Only `AsWritten` is used by the executor and the class. The corrected definitions are proved beside it in `Findings` and `ContractPositionProperties`.

## Model

| member | source | states |
|---|---|---|
| Defines.CommonInstType2Okx | common/defines.go:63-74 | succeeds exactly for the three known instrument types: spot maps to "SPOT", both swap types to "SWAP"; otherwise "" and false |
| Defines.ToCommonInstId | common/defines.go:81-102 | succeeds exactly for OKX, or for Binance with a spot id ending in USDT or a swap type; every refusal returns "" |
| Defines.ToExchangeInstId | common/defines.go:105-122 | succeeds exactly for OKX, or for Binance with an id ending in `_usdt`, `_usdt_swap` or `_usd_swap`; every refusal returns "" |
| Defines.UsdtSwapIsNotCoinSwap | common/defines.go:125-133 | no id ends both in `_usdt_swap` and in `_usd_swap`, so the suffix tests are exclusive |
| Defines.GetInstType | common/defines.go:125-133 | always a known type: coin-margined swap iff the id ends in `_usd_swap`, USDT-margined swap iff it ends in `_usdt_swap`, spot otherwise |
| Defines.InstId2MarginCcy | common/defines.go:136-147 | "usdt" for USDT-margined swaps; otherwise the text before the first `_` (a prefix without `_`, followed by `_` or the end) |
| Defines.InstId2Ccys | common/defines.go:150-153 | fails with an index error exactly when the id has no `_`; otherwise base and quote are the first two `_`-separated fields |
| Defines.SectionsValid | common/defines.go:163-202 | a section sequence is valid iff every section has as many values as ids and shares the sequence's id list |
| Defines.Interval2Bar | common/defines.go:301-310 | succeeds exactly for the nine table intervals with a non-empty bar; otherwise the invalid bar |
| Defines.Bar2Interval | common/defines.go:302-318 | succeeds exactly for the nine bar names, with a positive whole number of minutes in seconds; otherwise 0 |
| Defines.Parse | common/defines.go:390-399 | succeeds iff both sides have a level; then best bid and ask are the first levels and mid is their midpoint; otherwise the book is unchanged |
| Defines.NewDepthFromTicker | common/defines.go:381-388 | one ask at sell1 and one bid at buy1, each with the int32 maximum amount; best prices and mid as the ticker's; the book is already parsed |
| Defines.ParseIdempotent | common/defines.go:390-399 | parsing a parsed book changes nothing |
| InstIdProperties.OkxRoundTrip | common/defines.go:81-122 | an OKX id made of ASCII upper-case letters, digits and `-` survives the trip to a common id and back |
| InstIdProperties.BinanceSpotIdsAreSpot | common/defines.go:81-133 | a Binance spot id it accepts becomes a `_usdt` id classified as spot, not a USDT contract |
| InstIdProperties.BinanceUmSwapIdsAreUmSwap | common/defines.go:81-147 | every Binance USDT-margined swap id becomes a USDT-margined swap id with margin currency usdt |
| InstIdProperties.CommonTypesHaveOkxType | common/defines.go:63-133 | the OKX type lookup accepts every type `GetInstType` yields |
| InstIdProperties.BarTableRoundTrip | common/defines.go:301-318 | the two bar lookups are inverse to each other on the table |
| OrderBook.GetMaxAmount | common/defines.go:450-467 | the sum of the amounts of every level of the opposing side at or better than the limit price, skipping the others without stopping |
| OrderBook.FillableBounds | common/defines.go:450-467 | with non-negative amounts the fillable amount lies between 0 and the side's total |
| OrderBook.FillableAllPass | common/defines.go:450-467 | when every level passes the limit, the whole side is fillable |
| OrderBook.FillableMonotone | common/defines.go:450-467 | a looser limit fills at least as much as a stricter one |
| OrderBook.AvgPriceOf | common/defines.go:492-495 | the average price times the amount consumed is the amount-times-price sum; the price stays 0 unless a positive amount was consumed |
| OrderBook.GetAvgPrice | common/defines.go:470-496 | the walk of the side best-first as the code performs it: a covering level ends it; otherwise the level is consumed and the remaining amount is multiplied by the level's amount |
| OrderBook.FirstLevelCovers | common/defines.go:470-496 | a best level covering the request fills it whole at that level's price |
| OrderBook.EmptySideFillsNothing | common/defines.go:470-496 | an empty side fills nothing at price 0 |
| OrderBook.AvgWalkConsumesAtMostSide | common/defines.go:470-496 | with non-negative amounts the walk never consumes more than the side holds |
| ContractPositions.CalProfit | common/contract_position.go:83-107 | defined exactly when the divisors (open price; and close price for coin margin) are non-zero; every failure is a division by zero |
| ContractPositions.CalProfitIntended | common/contract_position.go:83-107 | the closing profit computed on the closed quantity, with the same domain as `calProfit` |
| ContractPositions.Notional | common/contract_position.go:245-249 | quantity times price for USDT margin; for coin margin, quantity over price (fails only on a zero price) |
| ContractPositions.CalFee | common/contract_position.go:110-117 | the taker or maker rate times the notional; fails only on a zero price under coin margin |
| ContractPositions.PriorWeight | common/contract_position.go:124-132 | the holding's quantity over its average when both are positive, else 0 |
| ContractPositions.CalAvgPrice | common/contract_position.go:124-132 | the harmonic weighted average: result times (prior weight + fill over price) equals the combined quantity; fails exactly on a zero divisor |
| ContractPositions.PositionDir | common/contract_position.go:135-143 | buy iff the position is positive, sell iff negative, none iff flat |
| ContractPositions.LastPositionProfit | common/contract_position.go:262-268 | the profit of the last record, 0 when there is none |
| ContractPositions.Settle | common/contract_position.go:233-249 | the fee is added to the fee total; the profit passes through; realized and unrealized profit and the configuration are kept |
| ContractPositions.OpenStep | common/contract_position.go:156-173 | the opening branch realizes nothing and charges nothing; unrealized profit and configuration are kept |
| ContractPositions.CloseStep | common/contract_position.go:189-231 | realized profit grows by exactly the profit returned; fees, unrealized profit and configuration are kept |
| ContractPositions.DealAt | common/contract_position.go:153-250 | every successful fill, on either reading, moves realized profit by its profit and the fee total by its fee, keeping unrealized profit and configuration |
| ContractPositions.OpenDeal | common/contract_position.go:156-249 | the same movement of the totals for an opening fill |
| ContractPositions.CloseDeal | common/contract_position.go:189-249 | the same movement of the totals for a closing fill |
| ContractPositions.SplitDeal | common/contract_position.go:180-186 | the two legs' fees and profits add up, so the split moves the totals like one fill |
| ContractPositions.DealSpec | common/contract_position.go:153-250 | `TotalProfit` changes by exactly the returned profit minus the returned fee |
| ContractPositions.UpdateSpec | common/contract_position.go:253-259 | succeeds iff `calProfit` of closing the whole holding does; then only the unrealized profit and its rate change, to that close's result |
| ContractPositions.ContractPosition.constructor | common/contract_position.go:55-63 | a fresh ledger with the given configuration, satisfying the invariant |
| ContractPositions.ContractPosition.Deal | common/contract_position.go:153-250 | the ledger's new fields and the returned (fee, profit) are those of `DealSpec`; failures are the same |
| ContractPositions.ContractPosition.DealWithin | common/contract_position.go:153-250 | the same for a given split budget |
| ContractPositions.ContractPosition.SplitFill | common/contract_position.go:180-186 | the split follows `SplitDeal` |
| ContractPositions.ContractPosition.OpenPosition | common/contract_position.go:156-173 | the opening branch follows `OpenStep` |
| ContractPositions.ContractPosition.ClosePosition | common/contract_position.go:189-231 | the closing branch follows `CloseStep` |
| ContractPositions.ContractPosition.MarkClose | common/contract_position.go:205-221 | a full close counts one clear, appends the record and resets both averages |
| ContractPositions.ContractPosition.SettleFill | common/contract_position.go:233-249 | the settlement follows `Settle` |
| ContractPositions.ContractPosition.Update | common/contract_position.go:253-259 | the ledger follows `UpdateSpec` |
| ContractPositionProperties.CalProfitClosedForm | common/contract_position.go:83-107 | as written, the profit is (open - close) times the closed quantity (over open times close for coin margin), whatever the sign of the amount |
| ContractPositionProperties.CalProfitIntendedClosedForm | common/contract_position.go:83-107 | corrected, closing a long earns (close - open) per unit and closing a short earns (open - close) |
| ContractPositionProperties.FeeIgnoresSide | common/contract_position.go:110-117 | a buy and a sell of the same size pay the same fee |
| ContractPositionProperties.CalAvgPriceNoPrior | common/contract_position.go:124-132 | with no prior holding the average is the fill price |
| ContractPositionProperties.CalAvgPriceBetween | common/contract_position.go:124-132 | with positive inputs the new average lies between the old average and the fill price |
| ContractPositionProperties.RecordsTelescope | common/contract_position.go:205-214 | the profits of all records add up to the last record's realized total |
| ContractPositionProperties.FreshIsValid | common/contract_position.go:55-63 | a new ledger satisfies the invariant, is flat, and has total and last profit 0 |
| ContractPositionProperties.SettleEffects | common/contract_position.go:233-249 | settlement charges the `calFee` fee and adds the notional to the volume; it re-averages and grows the buy side for a positive amount and the sell side otherwise; nothing else changes |
| ContractPositionProperties.BranchFailuresAreDivisions | common/contract_position.go:153-250 | an opening or closing fill fails only by a division by zero |
| ContractPositionProperties.OpeningDeal | common/contract_position.go:156-173 | an opening fill moves the position, re-averages the open price, raises the maximum holding, and realizes nothing |
| ContractPositionProperties.PartialClose | common/contract_position.go:189-203 | a close no larger than the holding realizes the `calProfit` profit at the open average; when the holding stays open, it re-averages the close price with everything closed since the maximum holding as prior quantity |
| ContractPositionProperties.FullClose | common/contract_position.go:205-221 | a full close counts one clear, appends one chained record, resets both averages and keeps the maximum holding |
| ContractPositionProperties.FlatLedgerFails | common/contract_position.go:156-193 | as written, a fill on a flat ledger with open average 0 divides by that average |
| ContractPositionProperties.DealFromFlatFails | common/contract_position.go:153-193 | as written, every deal on a valid flat ledger fails |
| ContractPositionProperties.FullCloseFlattens | common/contract_position.go:189-221 | closing the whole holding leaves a flat ledger with open average 0 |
| ContractPositionProperties.ReversalFails | common/contract_position.go:180-186 | as written, a fill that reverses the holding fails on its second leg |
| ContractPositionProperties.SplitAfterCloseFails | common/contract_position.go:180-186 | the same for any split budget of at least two |
| ContractPositionProperties.FirstLegCloses | common/contract_position.go:180-186 | the first leg of a split (closing exactly the holding) never splits again |
| ContractPositionProperties.SplitBudgetSuffices | common/contract_position.go:180-186 | on a valid ledger the split budget is never why a deal fails; only division by zero is |
| ContractPositionProperties.DealPreservesValid | common/contract_position.go:153-250 | every successful deal, on either reading, keeps the ledger invariant |
| ContractPositionProperties.SplitDealValid | common/contract_position.go:180-186 | the split keeps the invariant |
| ContractPositionProperties.SettleValid | common/contract_position.go:233-249 | settlement keeps the invariant |
| ContractPositionProperties.OpenDealValid | common/contract_position.go:156-173 | an opening fill keeps the invariant |
| ContractPositionProperties.CloseDealValid | common/contract_position.go:189-249 | a closing fill keeps the invariant |
| ContractPositionProperties.CloseStepKeepsRecords | common/contract_position.go:189-221 | the closing branch keeps the invariant, with a full close's record chained to the previous one |
| ContractPositionProperties.UpdateClosedForm | common/contract_position.go:253-259 | the unrealized profit is (open - price) times the holding (over open times price for coin margin); `TotalProfit` uses it |
| ContractPositionProperties.UpdateFlatFails | common/contract_position.go:253-259 | on a valid flat ledger `Update` divides by zero |
| MarketInfo.CheckCoverage | backtest/executor_marketinfo.go:114-131 | passes iff every requested instrument is listed and its known time range spans the whole window |
| MarketInfo.CheckKlineCoverage | backtest/executor_marketinfo.go:227-249 | the same for klines of the interval, where an unknown interval fails |
| MarketInfo.KlineCheckSkipsIntervalWithoutIds | backtest/executor_marketinfo.go:227-249 | with no instruments an unknown interval passes the kline check |
| MarketInfo.UnknownIntervalFails | backtest/executor_marketinfo.go:227-249 | with instruments an unknown interval fails |
| MarketInfo.KindIndex | backtest/executor_marketinfo.go:46-84 | each kind's position in the load order |
| MarketInfo.LoadFlagsFromStages | backtest/executor_marketinfo.go:46-94 | the price source is chosen only when every stage passed |
| MarketInfo.SelectPriceSource | backtest/executor_marketinfo.go:86-94 | raises the price flag of klines if they are replayed, else tickers, else trades, else depths; raised price flags stay raised and no use flag changes |
| MarketInfo.PriceSourceIsUnique | backtest/executor_marketinfo.go:86-94 | starting from no price source, at most one is chosen, it is a replayed kind, and one is chosen iff some kind other than liquidations is replayed |
| MarketInfo.FailureStopsLaterKinds | backtest/executor_marketinfo.go:46-84 | a requested kind that fails its check stops the load: no later kind loads and the load fails |
| MarketInfo.FailedLoadStops | backtest/executor_marketinfo.go:46-84 | once a stage fails, no kind from that stage on is loaded |
| MarketInfo.NotPassedBeyond | backtest/executor_marketinfo.go:46-84 | a failed stage stays failed for all later stages |
| MarketInfo.RecordsOf | backtest/executor_marketinfo.go:133-258 | every record becomes an event of its kind; trades are tagged normal and liquidations tagged as such |
| MarketInfo.ToUnit | backtest/executor_marketinfo.go:138-139 | an event carries the instrument's index, the record and the record's time |
| MarketInfo.UnitsOfPrefix | backtest/executor_marketinfo.go:137-140 | an instrument's events are appended one record at a time |
| MarketInfo.KindBagRemove | backtest/executor_marketinfo.go:133-141 | the events of a kind do not depend on the map's iteration order |
| MarketInfo.StagedBagGrows | backtest/executor_marketinfo.go:46-84 | each stage adds its kind's events when requested and passed, otherwise nothing |
| MarketInfo.LoadsAtStage | backtest/executor_marketinfo.go:46-84 | a kind loads exactly when requested and its stage passes |
| MarketInfo.StageAdvance | backtest/executor_marketinfo.go:46-84 | a reached stage passes unless its kind is requested and not covered, and raises that kind's flag exactly when loaded |
| MarketInfo.StagesStop | backtest/executor_marketinfo.go:46-84 | after a failing stage, later stages change neither flags nor feed |
| MarketInfo.KindBagEvents | backtest/executor_marketinfo.go:133-258 | every loaded event has its record's time, an index the map assigns to a requested instrument, and its kind's tag |
| MarketInfo.IndexMapFacts | backtest/executor_marketinfo.go:27-31 | the index map lists exactly the ids, each mapped to its last position |
| MarketInfo.BuildIndexMap | backtest/executor_marketinfo.go:27-31 | the loop builds `IndexMap` |
| MarketInfo.InsertByTime | backtest/executor_marketinfo.go:104-107 | insertion adds exactly the one event |
| MarketInfo.InsertKeepsSorted | backtest/executor_marketinfo.go:104-107 | insertion keeps the feed in time order |
| MarketInfo.SortByTime | backtest/executor_marketinfo.go:104-107 | the result is in non-decreasing time order and a permutation of the input |
| ExecutorSpec.Get | backtest/executor.go:255-256 | a missing currency reads as 0 |
| ExecutorSpec.SpotBuy | backtest/executor.go:251-262 | base grows by the amount less the base-currency fee, quote pays price times amount, and no other currency changes; a pair whose base is its quote sees both |
| ExecutorSpec.SpotSell | backtest/executor.go:265-276 | base pays the amount, quote receives price times amount less the quote-currency fee, and no other currency changes |
| ExecutorSpec.ContractDeal | backtest/executor.go:279-296 | succeeds iff the ledger's deal (created on first use) succeeds |
| ExecutorSpec.OnLatestPrice | backtest/executor.go:311-320 | the price is stored; a ledger, if any, must mark to market; time and balances are kept |
| ExecutorSpec.ExchangeToCcy | backtest/executor.go:236-248 | identity for the same currency; multiply by the direct pair's price; divide by the inverse pair's (fails on 0); 0 without a price |
| ExecutorSpec.ConvertedSumRemove | backtest/executor.go:218-225 | the converted sum does not depend on map iteration order |
| ExecutorSpec.NavFor | backtest/executor.go:205-234 | 1 when the baseline's initial balance is 0 |
| ExecutorSpec.NotifyAllShort | backtest/strategy.go:26-30 | notifying a list of callbacks is notifying each in turn |
| ExecutorSpec.TradeCallbacks | backtest/executor.go:154-177 | a trade makes at most two callbacks |
| ExecutorSpec.TickerStep | backtest/executor.go:121-138 | a ticker event keeps time and balances |
| ExecutorSpec.DepthStep | backtest/executor.go:140-152 | a depth event keeps time and balances |
| ExecutorSpec.TradeStep | backtest/executor.go:154-177 | a trade event keeps time and balances |
| ExecutorSpec.KlineStep | backtest/executor.go:179-189 | a kline event keeps time and balances |
| ExecutorSpec.Step | backtest/executor.go:117-120 | the executor's time becomes the event's; an out-of-range instrument index fails |
| ExecutorSpec.EventStep | backtest/executor.go:121-189 | any event keeps time and balances |
| ExecutorSpec.ReplayExtend | backtest/executor.go:117-192 | replaying one more event is one more step |
| ExecutorSpec.ReplayFailurePersists | backtest/executor.go:117-192 | a failure ends the replay |
| ExecutorSpec.SignalTaker | backtest/executor_context.go:56-82 | a spot instrument fails with an index error iff its id has no `_`, and otherwise buys or sells its base against its quote at the taker fill, changing only balances; any other instrument records the taker fill as a contract deal, negated for a sell, and succeeds iff the ledger's deal does |
| ExecutorSpec.TakerFill | backtest/executor_context.go:59-67 | without a book, price and amount pass through |
| Executors.Executor.constructor | backtest/executor.go:88-100 | empty accounts, feed and flags |
| Executors.Executor.GetTime | backtest/executor_context.go:17-19 | the time of the event being replayed |
| Executors.Executor.GetBalance | backtest/executor_context.go:21-27 | the balance (0 when missing) and whether the currency has one |
| Executors.Executor.GetPosition | backtest/executor_context.go:29-38 | the ledger's position and open average, (0, 0) without a ledger |
| Executors.Executor.GetLatestPrice | backtest/executor_context.go:40-46 | the latest price (0 when missing) and whether there is one |
| Executors.Executor.GetDepth | backtest/executor_context.go:48-54 | the latest book, or the empty book and false |
| Executors.Executor.SetBalance | backtest/executor.go:103-105 | only that currency's balance changes |
| Executors.Executor.SpotBuy | backtest/executor.go:251-262 | the balances become `ExecutorSpec.SpotBuy`'s; nothing else changes |
| Executors.Executor.SpotSell | backtest/executor.go:265-276 | the balances become `ExecutorSpec.SpotSell`'s; nothing else changes |
| Executors.Executor.ContractDeal | backtest/executor.go:279-296 | the accounts follow `ExecutorSpec.ContractDeal`; the instrument gains a ledger |
| Executors.Executor.OnLatestPrice | backtest/executor.go:311-320 | the accounts follow `ExecutorSpec.OnLatestPrice` |
| Executors.Executor.Notify | backtest/strategy.go:26-30 | one callback is appended with the executor's current time, prices and books |
| Executors.Executor.Dispatch | backtest/executor.go:117-192 | one loop iteration follows `Step` |
| Executors.Executor.OnEvent | backtest/executor.go:121-189 | the dispatch by kind follows `EventStep` |
| Executors.Executor.OnTickerEvent | backtest/executor.go:121-138 | follows `TickerStep` |
| Executors.Executor.OnDepthEvent | backtest/executor.go:140-152 | follows `DepthStep` |
| Executors.Executor.OnTradeEvent | backtest/executor.go:154-177 | follows `TradeStep`, both trade blocks included |
| Executors.Executor.OnKlineEvent | backtest/executor.go:179-189 | follows `KlineStep` |
| Executors.Executor.Run | backtest/executor.go:108-200 | snapshots the balances as initial ones, then follows `RunSpec` |
| Executors.Executor.ReplayFeed | backtest/executor.go:117-192 | the loop follows `Replay` over the whole feed, stopping at the first failure |
| Executors.Executor.SumConverted | backtest/executor.go:218-225 | fails iff some entry's conversion divides by zero; otherwise the converted sum |
| Executors.Executor.Nav | backtest/executor.go:205-234 | 1 without initial balances; otherwise the valuation against some currency of the initial balances |
| Executors.Executor.NavIn | backtest/executor.go:212-230 | the valuation against a given baseline follows `NavFor` |
| Executors.Executor.SignalTaker | backtest/executor_context.go:56-82 | the accounts follow `ExecutorSpec.SignalTaker` |
| Executors.Executor.BookFill | backtest/executor_context.go:59-67 | the clamp and book walk give `TakerFill` |
| Executors.Executor.LoadKind | backtest/executor_marketinfo.go:114-262 | a load passes iff its kind is covered; then the feed grows by the kind's events, otherwise it is unchanged |
| Executors.Executor.AppendKind | backtest/executor_marketinfo.go:133-141 | the feed grows by every instrument's events of the kind |
| Executors.Executor.AppendUnits | backtest/executor_marketinfo.go:137-140 | one instrument's events are appended in the store's order |
| Executors.Executor.LoadStage | backtest/executor_marketinfo.go:46-84 | one stage passes, raises its flag and grows the feed as `StageAdvance` says |
| Executors.Executor.RaiseUseFlag | backtest/executor_marketinfo.go:51-83 | only that kind's use flag is raised |
| Executors.Executor.LoadStages | backtest/executor_marketinfo.go:46-84 | the stages pass iff every requested kind is covered in order; flags and feed are the staged ones |
| Executors.Executor.ChoosePriceSource | backtest/executor_marketinfo.go:86-94 | the flags follow `SelectPriceSource` |
| Executors.Executor.LoadMarketInfo | backtest/executor_marketinfo.go:22-111 | sets the ids and index map; the feed gains exactly the loaded events; flags follow `LoadFlags`; succeeds iff every stage passed and the feed is non-empty, and then the feed is sorted |
| Executors.Executor.FinishLoad | backtest/executor_marketinfo.go:86-107 | chooses the price source, refuses an empty feed, sorts without losing events |
| ExecutorProperties.SpotRoundTrip | backtest/executor.go:251-276 | without fees, selling back what was bought at the same price restores the balances |
| ExecutorProperties.FirstContractFillFails | backtest/executor.go:279-296 | as written, an instrument's first contract fill fails |
| ExecutorProperties.ContractDealKeepsLedgersValid | backtest/executor.go:279-296 | a contract fill keeps every ledger valid |
| ExecutorProperties.ContractDealBalanceTracksProfit | backtest/executor.go:279-296 | the margin balance moves by exactly the ledger's change in total profit; other currencies are untouched |
| ExecutorProperties.PriceUpdateOverwritesPnl | backtest/executor.go:311-320 | the margin currency's unrealized profit is overwritten by the one ledger's |
| ExecutorProperties.PriceUpdateOfFlatLedgerFails | backtest/executor.go:311-320 | pricing an instrument with a flat valid ledger divides by zero |
| ExecutorProperties.PriceUpdateWithoutLedger | backtest/executor.go:311-320 | without a ledger only the price changes |
| ExecutorProperties.ExchangeRoundTrip | backtest/executor.go:236-248 | converting through a pair's price and back returns the amount |
| ExecutorProperties.NavOfOneCurrency | backtest/executor.go:205-234 | with one currency, NAV is (held + unrealized) over the initial holding |
| ExecutorProperties.SwitchedOffKindIgnored | backtest/executor.go:121-189 | an event whose kind is not replayed changes nothing |
| ExecutorProperties.TickerCallbackView | backtest/executor.go:121-138 | one `OnTicker` call, seeing the new price (when tickers price) and the one-level book (when depths are off) |
| ExecutorProperties.DepthCallbackView | backtest/executor.go:140-152 | one `OnDepth` call, seeing the stored book and the mid price (when depths price) |
| ExecutorProperties.KlineCallbackView | backtest/executor.go:179-189 | one `OnKlineUnit` call, seeing the close price (when klines price) |
| ExecutorProperties.TradeCallbackOrder | backtest/executor.go:154-177 | the trade callbacks for each tag and flag combination |
| ExecutorProperties.TradeCallbackView | backtest/executor.go:154-177 | the trade callbacks are appended in order at the event's time |
| ExecutorProperties.EventExtendsTrace | backtest/executor.go:121-189 | an event only appends callbacks |
| ExecutorProperties.ReplayKeepsBalances | backtest/executor.go:117-192 | the event dispatch itself moves no balance and no initial balance, and the callback record only grows; orders a strategy places from callbacks are outside the model |
| ExecutorProperties.ReplayEndsAtLastEvent | backtest/executor.go:117-120 | after a replay the time is the last event's |
| ExecutorProperties.RunKeepsBalances | backtest/executor.go:108-200 | `Run` snapshots the balances as initial ones and its event dispatch moves no balance, so both equal the balances before it; orders a strategy places from callbacks are outside the model |
| ExecutorProperties.BadIndexStopsReplay | backtest/executor.go:117-120 | an out-of-range instrument index anywhere makes the replay fail |
| ExecutorProperties.StagedEventsInRange | backtest/executor_marketinfo.go:27-84 | every loaded event's index is in range of the instrument list |
| ExecutorProperties.LoadedFeedInRange | backtest/executor_marketinfo.go:22-111 | a loaded feed holds only in-range indexes |
| ExecutorProperties.TakerFillWithinBook | backtest/executor_context.go:59-67 | the taker fill never exceeds the side's total |
| ExecutorProperties.TakerFillAtBestLevel | backtest/executor_context.go:59-67 | when the best level passes the limit and covers the order, it fills whole at that level's price |
| ExecutorProperties.FirstContractSignalFails | backtest/executor_context.go:77-82 | as written, a taker signal on a contract without a ledger fails |
| ExecutorProperties.SpotSignalTouchesOnlyBalances | backtest/executor_context.go:70-76 | a spot signal changes only balances |
| Findings.CalProfitSignExample | common/contract_position.go:83-107 | closing a long of 1 from 100 at 110 books -10 as written |
| Findings.CalProfitIntendedExample | common/contract_position.go:83-107 | corrected, the same close books +10 |
| Findings.IntendedDealOpensFromFlat | common/contract_position.go:156-173 | corrected, a fill on a flat valid ledger opens a position of that size at that price |
| Findings.ZeroCloseChangesNothing | common/contract_position.go:189-249 | on a flat ledger that still carries an open average, closing an amount of 0 leaves the ledger exactly as it was, with no fee and no profit |
| Findings.StaleFlatLedgerRecursesForever | common/contract_position.go:180-186 | as written, any non-zero fill on such a ledger exhausts every split budget: the code calls itself without end |
| Findings.FlatWithoutCloseHistoryFails | common/contract_position.go:180-200 | as written, a non-zero fill on a flat ledger with maximum holding 0 fails with a division by zero, because the zero-sized first leg re-averages the close price over nothing |
| Findings.IntendedSplitTerminates | common/contract_position.go:153-186 | corrected, one level of splitting suffices on every ledger: a fill fails only by a division by zero |
| Findings.IntendedSplitLegs | common/contract_position.go:180-186 | corrected, the split's first leg closes the holding and the second opens from flat, and neither splits again |
| Findings.CloseDealPosition | common/contract_position.go:189-249 | a closing fill moves the holding by exactly its amount |
| Findings.AvgPriceMultipliesExample | common/defines.go:470-496 | as written, selling 4 into bids 2@100 and 3@99 reports 5 filled at 99.4 |
| Findings.AvgWalkIntendedConsumes | common/defines.go:470-496 | the corrected walk consumes the request capped by the rest of the side |
| Findings.AvgPriceIntendedFills | common/defines.go:470-496 | the corrected estimate fills min(request, side total) |
| Findings.AvgPriceIntendedExample | common/defines.go:470-496 | corrected, the example fills 4 at 99.5 |
| Findings.LiquidationDispatchedTwice | backtest/executor.go:154-177 | as written, a liquidation makes two `OnLiquidation` calls |
| Findings.TradeCallbacksIntended | backtest/executor.go:154-170 | corrected, a trade makes exactly one callback, chosen by its tag |
| Findings.TradeCallbacksIntendedIsFirstBlock | backtest/executor.go:154-177 | the code's callbacks are the corrected ones plus a second `OnLiquidation` when liquidations are replayed |

## Left out

- The strategy itself is not part of this model. Its callbacks are recorded as a trace of calls, each with the executor's time, prices and books at the moment of the call. Orders a strategy places from inside a callback are not interleaved with the replay. `SignalTaker` is modelled as an operation of its own.
- Contract ledgers are held by the executor as values in a map, updated through `DealSpec` and `UpdateSpec`. The Go code holds references to shared ledgers. The `ContractPosition` class models the ledger updated in place; aliasing between the map and a ledger is not modelled.
- Visual data (charts, `initVisualData`, `refreshVisualData`, `saveVisualData`, `RecordPoint`), progress trackers, logging and `enableLog`, `time.Sleep`, the `fnPosClear` callback, and the `ToTable` and serialization methods are left out because they do not affect the accounts.
- The local data store is not part of this model. Its answers are the `LocalData` value: listed ids, time ranges and records per instrument. The exchange argument of `LoadMarketInfo` only selects that store.
- Go's map iteration order is unspecified. The load appends instruments in an arbitrary order, so the feed is specified as a multiset before the sort. NAV conversion sums in an arbitrary order.
- The source's sort is not stable, so the order among events with equal times is not specified: `MarketInfo.SortByTime` promises sorted order and a permutation. It is an insertion sort on sequences.
- A panic becomes a `Fail` result. The executor's state after a failure is not specified, because the Go process would have stopped.
- `ContractPosition.Deal` returns nothing in the Go code. `contractDeal` reads (fee, profit) from it, and the model returns that pair from `Deal`.
- `ContractPositions.DealAt`: the reversal split recurses, with a budget of two levels (`MAX_SPLIT_DEPTH`). `ContractPositionProperties.SplitBudgetSuffices` shows the budget never binds on a valid ledger. On the flat ledgers `Findings.StaleFlat` describes (USDT margin, non-zero open average, and positive close average, maximum holding, sell total and sell average, at a positive price) the Go recursion never ends, and the model returns `SplitDepthExceeded` there (see Findings). On other flat ledgers with a non-zero open average the zero-sized first leg can divide by zero instead, so the Go code panics and the model fails with `DivisionByZero`; `Findings.FlatWithoutCloseHistoryFails` proves this for a maximum holding of 0.
- Decimal rounding is not modelled. `decimal.Div` rounds to 16 digits; the model divides exactly.
- Text.ToLower, Text.ToUpper: case mapping covers the ASCII letters only. Go's `strings.ToLower` and `strings.ToUpper` use the full Unicode tables (the Kelvin sign U+212A lowers to `k`, for example), so ids with non-ASCII letters are not modelled, and `InstIdProperties.OkxRoundTrip` is stated for ASCII ids only.
- `GetTime` returns the time as integer milliseconds, not a `time.Time`.
- Executors.Executor.Nav: the Go code takes the first key of the initial balances in map order; the contract says only that some key of the initial balances is the baseline.
- ExecutorSpec.NavFor: its own contract states only the zero-baseline case. The full valuation is its definition, which `Executors.Executor.NavIn` and `ExecutorProperties.NavOfOneCurrency` state.
- ExecutorSpec.TradeCallbacks: its own contract bounds the count only. The callbacks per tag and flag are stated by `ExecutorProperties.TradeCallbackOrder`.
- ExecutorSpec.TickerStep, ExecutorSpec.DepthStep, ExecutorSpec.TradeStep, ExecutorSpec.KlineStep: their own contracts state only what an event keeps. What the strategy sees is stated by the `ExecutorProperties.*CallbackView` lemmas.
- ExecutorSpec.OnLatestPrice: its own contract omits the ledger update, which `ExecutorProperties.PriceUpdateOverwritesPnl` states.
- ExecutorSpec.TakerFill: its own contract states only the case without a book. The book case is stated by `ExecutorProperties.TakerFillWithinBook` and `ExecutorProperties.TakerFillAtBestLevel`.
- `Executors.Executor.LoadMarketInfo` leaves in the feed the events an earlier call appended, as the Go code does, and it keeps raised flags raised.
- `loadDepths` is modelled by the same `LoadKind` as `loadTickers`, since the two differ only in the record type.

## Findings

| source | as written | input that shows it | evidently intended | confidence | as-written member | corrected member |
|---|---|---|---|---|---|---|
| common/contract_position.go:83-107 | the margin is the signed closing amount times the open price, so closing a long when the price rose books a loss | USDT contract, open 100, close 110, amount -1: profit -10 | profit +10: the margin is the closed quantity | high, not executed | Findings.CalProfitSignExample | ContractPositionProperties.CalProfitIntendedClosedForm |
| common/contract_position.go:156-186 | the opening guard requires a non-zero position of the same sign, so a flat ledger takes the split and then divides by its open average of 0; every first contract fill panics | any fill on a fresh ledger | a fill on a flat ledger opens a position (the branch at 158-163 handles exactly that case) | high, not executed | ContractPositionProperties.DealFromFlatFails | Findings.IntendedDealOpensFromFlat |
| common/defines.go:470-496 | a level that does not cover the rest multiplies the remaining amount by the level's amount | bids 2@100 and 3@99, sell 4: reports 5 filled at 99.4 | subtract the consumed level: 4 filled at 99.5 | high, not executed | Findings.AvgPriceMultipliesExample | Findings.AvgPriceIntendedFills |
| backtest/executor.go:154-177 | the trades block already calls `OnLiquidation` for a liquidation, and the liquidations block calls it again for every trade | liquidations replayed, one liquidation event: two calls; a normal trade also gets one | one callback per event, chosen by its tag | medium, not executed | Findings.LiquidationDispatchedTwice | Findings.TradeCallbacksIntended |
| common/contract_position.go:180-186 | on a flat USDT ledger whose open average is not 0 and whose close average, maximum holding, sell total and sell average are positive (`Findings.StaleFlat`), a fill at a positive price splits into a close of 0, which changes nothing, and the same fill on the same ledger, so `Deal` calls itself without end; other flat ledgers with a non-zero open average can panic on a division by zero instead | USDT ledger with position 0, open and close averages 100, maximum holding 1, sell total 1 at 100; a fill of 1 at 100 | a fill on a flat ledger opens a position, and one split level suffices | medium, not executed; neither the constructor nor `Deal` produces such a ledger | Findings.StaleFlatLedgerRecursesForever | Findings.IntendedSplitTerminates |
