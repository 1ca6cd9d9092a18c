# Trading-strategy sweep, modelled in Dafny

The system back-tests hourly asset price tables against a family of
technical-analysis trading strategies. For every combination of asset,
strategy, EMA window, reinvest percentage, minimum return, percent drop and
balance tripwire it runs one simulation: a state machine that walks the rows in
date order and at each row sells qualifying purchase lots (then rebalances
capital against reserves), buys with all its capital, or opens its reserves.
It reports the final value of the position beside a buy-and-hold benchmark.

The model has seven modules:

- `Wrappers`: the `Option` and `Result` types.
- `Ratio`: Go's `float64` division as it matters here. A zero divisor gives
  +Inf, -Inf or NaN, and every comparison with NaN is false.
- `Strategy`: the buy and sell signal predicates over one row (Close, EMA,
  MACD, SIGNAL, SAR, CHAI, dP). It also holds the strategy-name check.
- `Lots`: the purchase lots, their sort by price, the qualifying prefix that a
  sale liquidates, and the arithmetic of selling one lot.
- `Engine`: the simulation as pure functions on a `State` value.
  - `Buy`, `Sell`, `Balance`, `OpenReserves`, `Step` and `Run`.
  - The order of the actions at one row: sell, else buy, else open reserves.
  - The invariants they keep: the asset equals the sum of the open lots; the
    number of transactions is the number of buys plus sells; the event lists
    are strictly increasing; every balance follows a sale at its row; with
    sane fee, tax and reinvest rates, capital, reserves and the asset stay
    non-negative.
  - Value conservation at a buy and at a sale.
- `Simulation`: the `Simulation` record as a class whose fields the actions
  update in place. Each method is proved to leave the object in the state that
  the matching `Engine` function computes, and `RunSimulation` is a loop over
  the rows.
- `Sweep`, for the sequential logic of `main.go`:
  - the parameter-list checks and the count of simulations;
  - the seven nested launch loops;
  - the row-count tolerance check of `getData` and its error message;
  - the way each `simulate` call ends (skipped, logged or fatal), and the
    completion accounting over the whole sweep.

Prices and amounts are exact `real`s in place of `float64`.

## Model

| member | source | states |
|---|---|---|
| Ratio.Div | simulation/simulation.go:120 | a finite quotient exactly when the divisor is non-zero, and it times the divisor gives the dividend; a zero divisor gives +Inf exactly for a positive dividend and -Inf exactly for a negative one |
| Strategy.IsValidStrategy | strategy/strategy.go:181-188 | the search returns true exactly for the five listed strategy names |
| Strategy.IsBuyPSAR | strategy/strategy.go:149-154 | the PSAR buy signal: the SAR below the close and the close above the EMA |
| Strategy.IsBuyMACD | strategy/strategy.go:156-162 | the MACD buy signal: MACD above its signal line and the close above the EMA |
| Strategy.IsBuyAltMACD | strategy/strategy.go:164-170 | the MACD signal restricted to a negative MACD |
| Strategy.IsBuyMACDCHAI | strategy/strategy.go:172-179 | the MACD signal restricted to a positive Chaikin oscillator |
| Strategy.IsBuy | strategy/strategy.go:23-37 | no unlisted strategy ever buys; every buy has the close above the EMA and is a MACD or a PSAR buy |
| Strategy.BuyVariantsRefineMACD | strategy/strategy.go:149-179 | alt-MACD and MACD-CHAI buys are MACD buys; MACD-PSAR buys exactly when both MACD and PSAR buy |
| Strategy.SellCondition1 | strategy/strategy.go:108-114 | sell whenever the return exceeds minReturn |
| Strategy.SellCondition2 | strategy/strategy.go:100-106 | sell when the EMA is above the close and the return exceeds minReturn, or when the return exceeds twice minReturn |
| Strategy.SellCondition3 | strategy/strategy.go:92-98 | sell when the EMA is below the close and the return exceeds minReturn |
| Strategy.SellCondition4 | strategy/strategy.go:84-90 | sell when the EMA is above the close, MACD is below its signal line, and the return exceeds minReturn |
| Strategy.SellCondition5 | strategy/strategy.go:76-82 | sell when the EMA is above the close (as the code tests it, against its comment) and the return exceeds minReturn |
| Strategy.SellCondition6 | strategy/strategy.go:68-74 | sell when the price delta is negative and the return exceeds minReturn |
| Strategy.IsSell | strategy/strategy.go:39-66 | a sell needs a condition from 1 to 6; under any condition other than 2, and under 2 when minReturn is non-negative, a sell implies currentReturn > minReturn |
| Strategy.Condition2SellsBelowNegativeMinReturn | strategy/strategy.go:100-106 | condition 2 can sell at a return below minReturn when minReturn is negative (witness: minReturn -1, return -1.5) |
| Strategy.Conditions3And5Exclusive | strategy/strategy.go:76-98 | conditions 3 (EMA below close) and 5 (EMA above close) never both fire on one row |
| Strategy.Conditions1And6IgnoreIndicators | strategy/strategy.go:39-66 | condition 1 does not depend on the row, and condition 6 depends only on dP |
| Lots.SortByPrice | simulation/simulation.go:146-149 | the lots in ascending price order, a permutation of the input with the same total amount |
| Lots.SplitSorted | simulation/simulation.go:147-168 | cutting sorted lots anywhere leaves a sorted remainder, and the two parts together are the original lots |
| Lots.QualifyingPrefix | simulation/simulation.go:150-175 | the length of the longest prefix whose lots all have a return above minReturn; the next lot, if any, does not qualify |
| Lots.ReturnFallsWithPurchasePrice | simulation/simulation.go:151 | at a positive price, a lot bought at a higher price qualifies only if a cheaper one does |
| Lots.QualifyingPrefixIsExact | simulation/simulation.go:145-175 | on price-sorted lots with positive prices, no lot after the prefix qualifies, so the early break loses no qualifying lot |
| Lots.LotSale | simulation/simulation.go:153-167 | the capital, revenue, tax and fee of selling one lot add up to its amount times the price |
| Lots.LotSaleTaxesOnlyGain | simulation/simulation.go:156-160 | no tax without a gain; with a gain the tax is the gain times the tax rate |
| Lots.LotSaleKeepsCapitalNonNegative | simulation/simulation.go:153-167 | when fee and tax rates together take at most the whole sale and the reinvest share is between 0 and 1, the capital a lot's sale returns is never negative |
| Lots.SumAmountsNonNegative | simulation/simulation.go:154 | lots of non-negative amounts hold a non-negative total |
| Lots.ProceedsIsPriceTimesAmount | simulation/simulation.go:153-167 | what sold lots fetch is the price times their total amount |
| Engine.Initial | simulation/simulation.go:329-361 | half the investment is capital and half reserves; lastBuyPrice, revenue, tax, fees, asset and the transaction count are 0; no lots and no events; the state is consistent, and non-negative when the investment is |
| Engine.CurrentReturn | simulation/simulation.go:120 | with a last purchase price the return is the finite relative change from it; before any purchase (price 0) a positive close gives +Inf |
| Engine.CalcPositions | simulation/simulation.go:115-132 | buy exactly when capital > 0 and the strategy buys; sell exactly when capital <= 0, asset > 0 and the sell condition holds; open the reserves exactly when capital < 1, the return is below percentDrop and reserves exceed the floor; buy and sell never both; no opening of the reserves before the first buy |
| Engine.Buy | simulation/simulation.go:228-240 | capital drops to 0; the new lot (price, units bought, row) goes to the front; lastBuyPrice is the price; one transaction and one buy event are added; reserves, revenue, tax and the other event lists are unchanged |
| Engine.BuyConservesValue | simulation/simulation.go:228-240 | the fee is capital times the fee rate, the units bought are worth the capital net of the fee, capital + fees + asset·price is unchanged, and consistency is kept |
| Engine.SortedLots | simulation/simulation.go:146-149 | the open lots in price order: a permutation with the same total amount |
| Engine.SellHead | simulation/simulation.go:151-168 | one pass of the loop body: the head lot leaves the list and its amount leaves the asset; reserves, lastBuyPrice, transactions and events unchanged |
| Engine.SellFirst | simulation/simulation.go:150-168 | selling the first n lots drops exactly them from the list and leaves reserves, lastBuyPrice, transactions and events alone |
| Engine.SellQualifying | simulation/simulation.go:150-175 | the loop leaves exactly the lots after the qualifying prefix, and the first of them, if any, does not qualify; reserves, lastBuyPrice, transactions and events unchanged |
| Engine.Sell | simulation/simulation.go:145-178 | one transaction and one sell event, however many lots were sold; reserves, lastBuyPrice and the other event lists unchanged |
| Engine.SellFirstStep | simulation/simulation.go:150-168 | selling n+1 lots is selling n and then the head lot |
| Engine.SellFirstSellsUnits | simulation/simulation.go:154 | selling the first n lots takes exactly their total amount off the asset |
| Engine.SellFirstSplitsProceeds | simulation/simulation.go:153-167 | capital, revenue, tax and fees together grow by exactly what the sold lots fetch |
| Engine.SellHeadAccrues | simulation/simulation.go:153-167 | one lot sold adds its amount times the price to capital + revenue + tax + fees |
| Engine.SellKeepsValueAtPrice | simulation/simulation.go:145-178 | with the asset valued at the sale price, a sale leaves capital + revenue + tax + fees + asset·price unchanged |
| Engine.SellConservesValue | simulation/simulation.go:145-178 | a sale keeps the state consistent, takes the sold units off the asset, and spreads their proceeds over capital, revenue, tax and fees with nothing lost |
| Engine.SellSplitsSortedLots | simulation/simulation.go:145-175 | the sold lots and the remaining lots together are the lots held before; every sold lot qualified; the remaining lots are in price order |
| Engine.SellKeepsNoQualifyingLot | simulation/simulation.go:145-175 | with positive prices, no lot left after a sale qualifies at that price |
| Engine.BalanceTriggered | simulation/simulation.go:97 | with zero reserves the balance fires exactly when capital is positive; otherwise exactly when capital / reserves exceeds the tripwire |
| Engine.Balance | simulation/simulation.go:180-188 | capital and reserves become equal with the same total; one balance event; lots, asset, transactions, lastBuyPrice, revenue, tax, fees and the other events unchanged |
| Engine.OpenReserves | simulation/simulation.go:190-197 | capital and reserves each become half the old reserves, so the total drops by the old capital; one open-reserves event; lots, asset, transactions, lastBuyPrice, revenue, tax, fees and the other events unchanged |
| Engine.Step | simulation/simulation.go:94-105 | one row adds at most one transaction |
| Engine.StepDispatch | simulation/simulation.go:94-105 | a row sells when the positions allow a sale, otherwise buys, otherwise opens the reserves, otherwise changes nothing; it records only the event of the action it takes, and a balance only together with a sale |
| Engine.StepKeepsBalancesAreSells | simulation/simulation.go:94-100 | a row balances only at a row where it also sells, so the balance rows stay among the sale rows |
| Engine.BalancedRowsWereSold | simulation/simulation.go:95-99 | when the balance rows are among the sale rows, every balanced row is a sold row |
| Engine.StepKeepsConsistent | simulation/simulation.go:94-105 | every row keeps asset = total of the lots and transactions = buys + sells |
| Engine.StepKeepsEventsOrdered | simulation/simulation.go:94-105 | after row i every event list is strictly increasing and records only rows up to i |
| Engine.Run | simulation/simulation.go:92-110 | rows lo to hi add at most hi - lo transactions |
| Engine.RunKeepsConsistent | simulation/simulation.go:92-110 | a whole run keeps asset = total of the lots and transactions = buys + sells |
| Engine.RunKeepsEventsOrdered | simulation/simulation.go:92-110 | after a run every event list is strictly increasing and records only rows that were processed |
| Engine.RunKeepsBalancesAreSells | simulation/simulation.go:92-110 | after a run every balance was taken at a row that sold |
| Engine.SellFirstKeepsCapitalNonNegative | simulation/simulation.go:150-168 | with sane fee, tax and reinvest rates, selling lots bought at positive prices never makes non-negative capital negative |
| Engine.SellKeepsNonNegative | simulation/simulation.go:145-178 | with sane rates, a sale keeps capital, reserves and the asset non-negative and the state consistent |
| Engine.StepKeepsNonNegative | simulation/simulation.go:94-105 | with sane rates, every row keeps capital, reserves and the asset non-negative and every open lot bought at a positive price |
| Engine.RunKeepsNonNegative | simulation/simulation.go:92-110 | with sane rates, a whole run keeps capital, reserves and the asset non-negative |
| Engine.ReachedSaleLeavesNoQualifyingLot | simulation/simulation.go:145-175 | in any state a run from the start reaches, a sale leaves no lot that still qualifies |
| Engine.FinalValue | simulation/simulation.go:290 | the reported value: capital + reserves + asset·price |
| Engine.FinalValueCountsOpenLots | simulation/simulation.go:290 | in a consistent state the reported value is cash, reserves, and what every open lot fetches at the last close |
| Engine.BuyHold | simulation/simulation.go:246-261 | the buy-and-hold profit: buy at the first close after the fee, sell at the last close, pay the fee and, on a gain, the tax |
| Engine.BuyHoldTaxOnlyOnGain | simulation/simulation.go:246-261 | without a gain over the investment the benchmark does not depend on the tax rate |
| Engine.BuyHoldFlatMarket | simulation/simulation.go:246-261 | when the last close equals the first, the benchmark is minus the two fees |
| Simulation.Simulation.NewSimulation | simulation/simulation.go:329-361 | the new object is in the initial state, with a reserve floor of an eighth of the investment, the given table and rates, no strategy and index 0 |
| Simulation.Simulation.SetStratParams | simulation/simulation.go:366-382 | an error exactly for an unknown strategy, and then no parameter and not the index change; otherwise the parameters are stored with percentDrop negated, and the index is reset to 0 |
| Simulation.Simulation.BuyAsset | simulation/simulation.go:228-244 | the fields end as `Engine.Buy` computes at the current row's close |
| Simulation.Simulation.SellAsset | simulation/simulation.go:145-178 | the fields end as `Engine.Sell` computes at the current close; the parameters and the index are unchanged |
| Simulation.Simulation.SortLots | simulation/simulation.go:146-149 | the lot list is put in price order and nothing else changes |
| Simulation.Simulation.SellQualifying | simulation/simulation.go:150-175 | the loop sells exactly the qualifying prefix of the lots |
| Simulation.Simulation.SellStep | simulation/simulation.go:151-174 | one pass sells the head lot exactly when it qualifies and otherwise changes nothing |
| Simulation.Simulation.SellLot | simulation/simulation.go:153-168 | the lot's units leave the asset, its sale is added to the accumulators, and it leaves the head of the list |
| Simulation.Simulation.RecordSell | simulation/simulation.go:176-177 | one transaction and one sell event at the current row |
| Simulation.Simulation.BalanceFunds | simulation/simulation.go:180-188 | the fields end as `Engine.Balance` computes |
| Simulation.Simulation.OpenReserves | simulation/simulation.go:190-197 | the fields end as `Engine.OpenReserves` computes |
| Simulation.Simulation.ResultAt | simulation/simulation.go:278-314 | the reported final value is capital + reserves + asset·price; the benchmark is the buy-and-hold profit from the first to the last close; the asset, file, first and last dates, parameters, accumulators, transaction count and all four event lists are those of the object |
| Simulation.Simulation.StepRow | simulation/simulation.go:94-104 | the fields end as `Engine.Step` computes for the current row; the parameters and the index are unchanged |
| Simulation.Simulation.ProcessRow | simulation/simulation.go:94-109 | one row is processed; the index advances unless it was the last row |
| Simulation.Simulation.RunSimulation | simulation/simulation.go:92-113 | every row from the current one is processed once in order; the run ends on the last row and reports the result valued at its close |
| Sweep.CheckParameters | main.go:305-340 | the first missing list in the order strategies, balance tripwires, percent drops, min returns, reinvest percentages, EMA values, then the sell condition, is reported; success only when nothing is missing, and then the lists are non-empty and kept as given |
| Sweep.MessagesDiffer | main.go:311-338 | every failed check returns its own message, so the error names the key that failed |
| Sweep.NumSims | main.go:290-292 | `getNumSims`: the product of the lengths of the assets and the six swept lists |
| Sweep.NumSimsIsZeroOnEmptyList | main.go:290-292 | the count is never negative, and it is zero exactly when the assets or one swept list are empty |
| Sweep.CheckedParametersSweep | main.go:290-292 | after a successful check the number of simulations is positive exactly when there is an asset |
| Sweep.TripTasksShape | main.go:95-106 | the innermost loop launches one task per balance tripwire |
| Sweep.DropTasksShape | main.go:94-107 | the percent-drop loop launches one task per (drop, tripwire) pair |
| Sweep.MinReturnTasksShape | main.go:93-108 | the min-return loop launches one task per (min return, drop, tripwire) tuple |
| Sweep.ReinvestTasksShape | main.go:92-109 | the reinvest loop launches one task per tuple of its own and the inner lists |
| Sweep.EmaTasksShape | main.go:91-110 | the EMA loop launches one task per tuple of its own and the inner lists |
| Sweep.StrategyTasksShape | main.go:90-111 | the strategy loop launches one task per tuple of its own and the inner lists |
| Sweep.AssetTasksShape | main.go:89-112 | the whole nest launches one task per tuple of the cartesian product, and only those |
| Sweep.LaunchCountIsNumSims | main.go:85-112 | the number of launched tasks is the `getNumSims` product passed to `WG.Add` |
| Sweep.LaunchAll | main.go:89-112 | the loops launch the tasks in nesting order asset, strategy, EMA, reinvest, min return, drop, tripwire |
| Sweep.LaunchStrategies | main.go:90-111 | the strategy loop's launches, in order |
| Sweep.LaunchEmas | main.go:91-110 | the EMA loop's launches, in order |
| Sweep.LaunchReinvests | main.go:92-109 | the reinvest loop's launches, in order |
| Sweep.LaunchMinReturns | main.go:93-108 | the min-return loop's launches, in order |
| Sweep.LaunchDrops | main.go:94-107 | the percent-drop loop's launches, in order |
| Sweep.LaunchTrips | main.go:95-106 | the tripwire loop's launches, in order |
| Sweep.HoursBetween | main.go:257 | the whole hours between two instants, truncated toward zero |
| Sweep.TooFarOffIsRowCount | main.go:258 | the test \|Nrow - delta\| / 24 > 600 holds exactly when the row count is more than 14400 off |
| Sweep.GetData | main.go:233-263 | success exactly when the file opens, both dates parse and the row count is within 14400 of the hours between them, and then the file's rows are returned; an invalid-data error exactly when only the tolerance fails, carrying the row count as received and the hours as expected |
| Sweep.InvalidDataMessage | main.go:29-31 | the text of the invalid-data error: "[asset] Invalid Data: Expected [e] Received [r]" |
| Sweep.NatStringReadsBack | main.go:29-31 | the decimal digits of a count read back to the count |
| Sweep.IntStringReadsBack | main.go:29-31 | the `%d` rendering of the counts in the error message reads back to the integer |
| Sweep.RunTask | main.go:133-145 | a fresh simulation with the task's parameters, run over every row, reports the asset, file, first and last dates, the task's parameters (the drop negated), the benchmark, and the final value, revenue, tax, fees, transaction count and all four event lists of the engine's run |
| Sweep.Simulate | main.go:119-146 | skipped exactly on invalid data (with the error's message), fatal exactly on any other data error, an unknown strategy or an empty table, and otherwise a logged result reporting every field of the engine's run as `RunTask` states |
| Sweep.SkipsAndLogsCoverAll | main.go:119-146 | when no task is fatal, every task is either skipped or logged, so the skipped and logged counts add up to the number of tasks |
| Sweep.SimulateTask | main.go:119-146 | a task ends fatally or is skipped exactly as its verdict says |
| Sweep.RunTasks | main.go:119-146 | the wait completes exactly when no task is fatal, and then every launched task signalled completion once: logged plus skipped equals the number of tasks; a fatal task leaves completions pending |
| Sweep.RunSweep | main.go:85-113 | with every task reading the checked sell condition, the whole sweep completes exactly when no launched task is fatal, and then the results and skips add up to `getNumSims` |

## Left out

- File I/O is not modelled: `logEvent`, `logResult`, `getMostRecentFile`, directory creation, the data-directory layout and CSV reading. A data file is given as a `Source` (path and rows), and an asset without one fails to open with a fixed message.
- The text of results and snapshots is not modelled: `%g` formatting, `roundFloat`, `getSnapshot`, `GetStratString` and the result string. `ResultAt` keeps the unformatted fields.
- IEEE-754 rounding, overflow and NaN are not modelled, except for three divisions that `Ratio.Div` states exactly: the balance test (simulation/simulation.go:97), the current return (simulation/simulation.go:120) and each lot's return (simulation/simulation.go:151, through `Lots.Qualifies`). Everything else uses exact reals.
- Close prices must be positive, a precondition of every member from `Engine.Buy` and `Engine.Step` up: `Engine.Run` and the lemmas about steps and runs, `Simulation.Simulation.BuyAsset`, `StepRow`, `ProcessRow`, `ResultAt` and `RunSimulation`, and `Sweep.RunTask`, `Simulate`, `SimulateTask`, `RunTasks` and `RunSweep`. `buyAsset` divides by the close, and the +Inf amounts a zero close gives in Go are not representable. `RunTasks` and `RunSweep` (through `AllPositive`) demand positive closes even of the sources that `GetData` rejects as invalid.
- The dataframe library is not modelled (`Subset`, `Select`, `Elem`, `Arrange`, `ReadCSV`). The rows arrive as a sequence already in date order.
- The EMA column rename at simulation/simulation.go:374-375 is not modelled. It renames the data file's `EMA_<ema>` column to `EMA`, which the strategy code then reads (strategy/strategy.go:45, 151). `Row.ema` stands for that `EMA_<stratEMA>` column. So the model's rows do not depend on the task's EMA value, and `Sweep.RunTask` runs every EMA task of an asset over the same rows. A data file without the column makes every later `Select(...).Elem` panic, and that is not modelled either.
- `sort.Sort` is not stable. The model sorts by insertion, which is one of the orders Go may produce. Lots with equal prices may come out in a different order in Go.
- INI parsing, `time.Parse` and `getAssets`' split on spaces are not modelled. The parsed lists, the sell condition (or its absence) and the two dates (Unix seconds or the parse error's message) are inputs.
- Goroutines, `sync.WaitGroup`, the two mutexes and the progress bar are sequentialised. Tasks run in launch order, and `pending` counts the `WG.Done` calls still owed when a fatal error ends the program.
- `log.Fatal` and the panic on an empty table become `Fatal` outcomes that stop the sweep. The panic's text is not the runtime's.
- Sweep.Simulate: checks the strategy before constructing the simulation, where the source constructs it first. `NewSimulation` cannot fail and has no effect outside the object, so the outcomes are the same.
- Sweep.Simulate: requires positive closes whenever the data loaded (see above).
- Sweep.RunTasks: counts the logged results but does not tie each one to its task.
- Sweep.RunSweep: the same weakening as `RunTasks`.
- Engine.Step: its own contract bounds only the transaction count. The order of the actions and which events a row records are stated by `StepDispatch`, and that a balance follows only a sale by `StepKeepsBalancesAreSells` and `RunKeepsBalancesAreSells`.
- Engine.Run: its own contract bounds only the transaction count. The invariants are in `RunKeepsConsistent`, `RunKeepsEventsOrdered` and `RunKeepsNonNegative`.
- Engine.RunKeepsNonNegative: holds only for fee and tax rates that together take at most a whole sale and a reinvest share between 0 and 1 (`SaneConfig`). The source does not check the configured rates, and other rates can drive capital negative.
- Engine.Sell: its own contract does not state value conservation. `SellKeepsValueAtPrice` states that capital + revenue + tax + fees + asset·price is unchanged by a sale, from `SellConservesValue`.
- The structure is split where the source has one function:
  - `sellAsset` is split into `SortLots`, `SellQualifying`, `SellStep`, `SellLot` and `RecordSell`;
  - the body of `RunSimulation`'s loop is `ProcessRow` and `StepRow`;
  - the nested launch loops are one method per level;
  - `simulate` is `Simulate` and `RunTask`.
