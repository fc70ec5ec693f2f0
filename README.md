# baibai-trader, modelled in Dafny

baibai-trader is a small automated crypto-currency trader. A `Trader` asks a
market `Authenticator` for the current price and feeds it to an `Algorithm`.
When the algorithm gives a buy or sell signal, the trader asks it for a
volume and places the order. `ErikAlgorithm` buys when the newest price is a
statistical outlier below its recent mean right after a local minimum. It
sells in the mirror case. It also requires enough history and a cool-down
between trades of one kind. `PracticeAuthenticator` is a paper-trading account
priced from the market's lowest ask. `AlgorithmValidator` replays a recorded
price log through an algorithm and keeps a ledger of the trades it would
have made. `utils.py` reads that log backwards into `PriceSample`s.

The model, one Dafny module per source file:

- `Common`: options, results, the engine's failures (one per Python exception), time units, reversal.
- `Samples` (`PriceSample.py`): the price sample and the two date orders.
- `Records` (`TransationRecord.py`): the transaction record, its consistency and sums.
- `Venue` (`Markets/Authenticator.py`): the base volume guards and the price contract.
- `Practice` (`PracticeAuthenticator.py`): orders as pure functions on an `Account`, plus the class whose fields the methods update.
- `Erik` (`ErikAlgorithm.py`): the gates as pure functions over `Settings`, the window and `now`, plus the class with `data`, `lastBuy` and `lastSell`.
- `Dummy`, `LegacyDummy`: the two `DummyAlgorithm.py` files.
- `PriceLog` (`utils.py`): line splitting, decimal parsing, the log-line parser and the backwards reader.
- `Validation` (`AlgorithmValidator.py`): the replay as a ledger of steps, plus the class that runs the loop.
- `Trading` (`Trader.py`): one trading cycle as a pure function, plus the class whose method performs it.

Dates are whole seconds, and `now` is a parameter wherever the source calls
`datetime.now()`. The algorithm's durations are real numbers of days or hours. Money, prices and volumes are `real`.

## Model

| member | source | states |
|---|---|---|
| Common.Reverse | bitbaibai/Algorithms/ErikAlgorithm.py:76-77 | inserting each sample at the front yields the batch reversed: same length |
| Common.ReverseAt | bitbaibai/Algorithms/ErikAlgorithm.py:76-77 | element i of the reversal is element len-1-i of the batch |
| Samples.TimeAttributeAsWritten | bitbaibai/PriceSample.py:27-28 | looking up a sample's time succeeds exactly under the declared field name `timestamp`, giving that field; any other name is the missing-attribute error |
| Samples.NoDateAsWritten | bitbaibai/PriceSample.py:27-28 | `date` is not a declared field, and asking a sample for it raises |
| Records.SumsAppend | baibaitrader/AlgorithmValidator.py:37-48 | appending a record adds its shares and its total to the running sums |
| Venue.CheckBuy | baibaitrader/Markets/Authenticator.py:129-130 | a buy is refused exactly when the volume is zero or less, with the volume error |
| Venue.CheckSell | baibaitrader/Markets/Authenticator.py:150-151 | a sell is refused exactly when the volume is zero or less, with the volume error |
| Venue.CurrentPrice | baibaitrader/Markets/Authenticator.py:43-64 | a price is returned exactly when the market answered, and it is that answer; otherwise the price-unavailable error, never a value |
| Practice.Pair | bitbaibai/PracticeAuthenticator.py:28-29 | the pair name is 'X' + target + 'Z' + price currency, character by character |
| Practice.PairOfBitcoinInDollars | bitbaibai/PracticeAuthenticator.py:28-29 | the pair of XBT in USD is XXBTZUSD |
| Practice.BuyAsWritten | bitbaibai/PracticeAuthenticator.py:62-73 | with the always-true base assert, a buy succeeds exactly when cost <= balance and moves balance and holdings by cost and volume |
| Practice.SellAsWritten | bitbaibai/PracticeAuthenticator.py:75-86 | with the always-true base assert, a sell succeeds exactly when volume <= holdings and moves holdings and balance by volume and proceeds |
| Practice.NegativeBuyAsWrittenBreaksSolvency | bitbaibai/Authenticator.py:53 | buying -2 at 500 from a solvent account succeeds and leaves negative holdings |
| Practice.NegativeSellAsWrittenBreaksSolvency | bitbaibai/Authenticator.py:65 | selling -5 at 500 from an empty account succeeds and leaves a negative balance |
| Practice.BuyOrder | bitbaibai/PracticeAuthenticator.py:62-73 | a buy succeeds iff volume > 0 and cost <= balance; otherwise the volume error or the funds error; on success the balance drops by the cost and holdings grow by the volume; solvency is kept |
| Practice.SellOrder | bitbaibai/PracticeAuthenticator.py:75-86 | a sell succeeds iff volume > 0 and volume <= holdings; otherwise the volume error or the shares error; on success holdings drop by the volume and the balance grows by the proceeds; solvency is kept |
| Practice.BuyThenSellRestores | bitbaibai/PracticeAuthenticator.py:62-86 | selling what was just bought at the same price restores the account exactly |
| Practice.PracticeAuthenticator.constructor | bitbaibai/PracticeAuthenticator.py:20-26 | starts with the given balance, no holdings and no last price |
| Practice.PracticeAuthenticator.GetCurrentPrice | bitbaibai/PracticeAuthenticator.py:37-54 | on an answer, returns a sample of the ask at `now` in the account's currencies and remembers it as the last price; without one, fails with price-unavailable and changes nothing |
| Practice.PracticeAuthenticator.Buy | bitbaibai/PracticeAuthenticator.py:62-73 | volume guard first; the price is fetched only when none was seen; the new balances and the result are those of BuyOrder at the last price; nothing changes on refusal |
| Practice.PracticeAuthenticator.Sell | bitbaibai/PracticeAuthenticator.py:75-86 | the same as Buy, with SellOrder |
| Erik.TruncateToInt | bitbaibai/Algorithms/ErikAlgorithm.py:65 | `int()` truncates toward zero: the result is within one of x, on x's side of zero |
| Erik.TruncatesTenAndAHalf | bitbaibai/Algorithms/ErikAlgorithm.py:65 | a minimum sample count of 10.5 becomes 10 |
| Erik.Prices | bitbaibai/Algorithms/ErikAlgorithm.py:168 | the price list has one entry per sample, each that sample's price |
| Erik.Variance | bitbaibai/Algorithms/ErikAlgorithm.py:169 | the population variance of a non-empty window is never negative |
| Erik.ThresholdMatchesStdDev | bitbaibai/Algorithms/ErikAlgorithm.py:167-172 | for any std >= 0 whose square is the variance, diff > std * sigma iff the squared test used by the model holds |
| Erik.ConstantWindowHasNoOutlier | bitbaibai/Algorithms/ErikAlgorithm.py:167-172 | a window of one repeated price has no outlier |
| Erik.After | bitbaibai/Algorithms/ErikAlgorithm.py:139-141 | a sample is kept iff it is in the window and newer than the cutoff; every kept sample is newer than the cutoff; no more samples than the window |
| Erik.AfterDistributes | bitbaibai/Algorithms/ErikAlgorithm.py:139-141 | a one-sample window is kept iff its sample is newer than the cutoff, and the filter splits over concatenation, so the recent samples keep the window's order and multiplicity |
| Erik.AfterIsPrefix | bitbaibai/Algorithms/ErikAlgorithm.py:139-141 | on a newest-first window, the recent samples are a prefix of the window |
| Erik.NothingAfter | bitbaibai/Algorithms/ErikAlgorithm.py:139-141 | when the newest sample is not after the cutoff, no sample is recent |
| Erik.RecentMean | bitbaibai/Algorithms/ErikAlgorithm.py:143-145 | the recent mean exists exactly when there are recent samples (numpy gives nan otherwise) |
| Erik.PassedLocalMin | bitbaibai/Algorithms/ErikAlgorithm.py:151-157 | the source's V test on the first five recent prices, p0 > p1 > p2 < p3 < p4, false with fewer than five; a pass makes the third a strict minimum of the five |
| Erik.PassedLocalMax | bitbaibai/Algorithms/ErikAlgorithm.py:159-165 | the source's inverted V, p0 < p1 < p2 > p3 > p4, false with fewer than five; a pass makes the third a strict maximum of the five |
| Erik.LocalMaxMirrorsLocalMin | bitbaibai/Algorithms/ErikAlgorithm.py:151-165 | a local maximum is a local minimum of the negated prices, and back |
| Erik.ShouldBuyGates | bitbaibai/Algorithms/ErikAlgorithm.py:79-87 | buy iff enough data, cooled down since the last buy, an outlier, below the recent mean and past a local minimum; a buy implies at least the sample minimum and five recent samples |
| Erik.ShouldSellGates | bitbaibai/Algorithms/ErikAlgorithm.py:89-97 | sell iff enough data, cooled down since the last sell, an outlier, above the recent mean and past a local maximum; a sell implies at least the sample minimum and five recent samples |
| Erik.NoTradeBeforeWarmUp | bitbaibai/Algorithms/ErikAlgorithm.py:125-130 | without enough samples or old enough data there is neither a buy nor a sell signal |
| Erik.BuyAndSellExclusive | bitbaibai/Algorithms/ErikAlgorithm.py:174-178 | the two signals never hold at once |
| Erik.InsertByDate | bitbaibai/Algorithms/ErikAlgorithm.py:75 | inserting a sample adds exactly it to the multiset |
| Erik.InsertKeepsOrder | bitbaibai/Algorithms/ErikAlgorithm.py:75 | inserting into an oldest-first list keeps it oldest-first |
| Erik.SortByDate | bitbaibai/Algorithms/ErikAlgorithm.py:75 | the sorted batch is oldest-first and a permutation of the batch |
| Erik.InsertGoesFirstAmongEqual | bitbaibai/Algorithms/ErikAlgorithm.py:75 | an inserted sample goes ahead of every sample of its own date and leaves their order alone |
| Erik.SortIsStable | bitbaibai/Algorithms/ErikAlgorithm.py:75 | the sort is stable: the samples of any one date keep their batch order |
| Erik.SortKeysAsWritten | bitbaibai/Algorithms/ErikAlgorithm.py:75 | on samples as the namedtuple declares them, the sort keys exist iff the batch is empty or the key asks for `timestamp`; otherwise the missing-attribute error |
| Erik.FirstCycleRaisesAsWritten | bitbaibai/Trader.py:96 | as written, the one-sample batch of a trading cycle makes the key `x.date` raise |
| Erik.IngestedShape | bitbaibai/Algorithms/ErikAlgorithm.py:73-77 | after ingesting, the old window is unchanged at the back and the batch sits in front, newest first, as a permutation |
| Erik.ReverseKeepsMultiset | bitbaibai/Algorithms/ErikAlgorithm.py:76-77 | front-insertion keeps every sample of the batch |
| Erik.IngestOne | baibaitrader/AlgorithmValidator.py:33 | ingesting a one-sample batch puts that sample in front of the window |
| Erik.BuyVolume | bitbaibai/Algorithms/ErikAlgorithm.py:99-108 | zero when the buy budget exceeds the balance; otherwise the volume costs exactly the buy budget, which the balance covers |
| Erik.SellVolume | bitbaibai/Algorithms/ErikAlgorithm.py:110-118 | zero when the sell budget exceeds the holdings' value; otherwise the volume is worth exactly the sell budget and, at a positive price, never exceeds the holdings |
| Erik.BuyRecord | bitbaibai/Algorithms/ErikAlgorithm.py:104-106 | a consistent buy record (total = price x shares) dated at the sample |
| Erik.SellRecord | bitbaibai/Algorithms/ErikAlgorithm.py:114-116 | a consistent sell record dated `now` |
| Erik.CooldownAfterBuy | bitbaibai/Algorithms/ErikAlgorithm.py:132-137 | after a buy, the next buy is allowed iff the buy's sample is older than the minimum wait |
| Erik.CooledDownAsWritten | bitbaibai/Algorithms/ErikAlgorithm.py:132-137 | the cool-down comparison fails exactly when the date slot holds a sample, not a date |
| Erik.BuyCheckAfterBuyRaisesAsWritten | bitbaibai/Algorithms/ErikAlgorithm.py:105-107 | as written, the first buy check after any buy fails comparing a sample with a date |
| Erik.ErikAlgorithm.constructor | bitbaibai/Algorithms/ErikAlgorithm.py:16-69 | the settings are the arguments, durations as any real number of days or hours, with the sample minimum truncated; empty window, no trades |
| Erik.ErikAlgorithm.ProcessData | bitbaibai/Algorithms/ErikAlgorithm.py:73-77 | the new window is the ingested window: the sorted batch in front, newest first, the old window behind |
| Erik.ErikAlgorithm.PushEach | bitbaibai/Algorithms/ErikAlgorithm.py:76-77 | inserting each sample at index 0 leaves the reversed batch in front of the old window |
| Erik.ErikAlgorithm.DetermineBuyVolume | bitbaibai/Algorithms/ErikAlgorithm.py:99-108 | returns BuyVolume; records the buy unless the budget exceeds the balance |
| Erik.ErikAlgorithm.DetermineSellVolume | bitbaibai/Algorithms/ErikAlgorithm.py:110-118 | returns SellVolume; records the sell unless the budget exceeds the holdings' value |
| Dummy.DummyAlgorithm.constructor | baibaitrader/Algorithms/DummyAlgorithm.py:14 | a new instance holds no list of its own; it sees the class's one list as earlier instances left it |
| Dummy.DummyAlgorithm.ProcessData | baibaitrader/Algorithms/DummyAlgorithm.py:16-18 | appends the batch, in order, to the list every instance shares |
| Dummy.SharedAcrossInstances | baibaitrader/Algorithms/DummyAlgorithm.py:14-18 | two instances share one list: after each appends a sample, both see the two samples |
| Dummy.DummyAlgorithm.CheckShouldBuy | baibaitrader/Algorithms/DummyAlgorithm.py:20-21 | never buys |
| Dummy.DummyAlgorithm.CheckShouldSell | baibaitrader/Algorithms/DummyAlgorithm.py:23-24 | never sells |
| LegacyDummy.DummyAlgorith.constructor | bitbaibai/Algorithms/DummyAlgorithm.py:15 | a new instance holds no list of its own; it sees the class's one list as earlier instances left it |
| LegacyDummy.DummyAlgorith.ProcessData | bitbaibai/Algorithms/DummyAlgorithm.py:17-19 | appends the batch, in order, to the list every instance shares |
| LegacyDummy.SharedAcrossInstances | bitbaibai/Algorithms/DummyAlgorithm.py:15-19 | samples given to one instance are seen by another, distinct instance |
| LegacyDummy.DummyAlgorith.CheckShouldBuy | bitbaibai/Algorithms/DummyAlgorithm.py:21-22 | never buys |
| LegacyDummy.DummyAlgorith.CheckShouldSell | bitbaibai/Algorithms/DummyAlgorithm.py:24-25 | never sells |
| PriceLog.Split | baibaitrader/utils.py:56 | splitting on single spaces gives at least one word, none containing a space |
| PriceLog.JoinSplit | baibaitrader/utils.py:56 | joining the words with single spaces gives back the line |
| PriceLog.SplitJoin | baibaitrader/utils.py:56 | splitting words joined by spaces gives back the words |
| PriceLog.ParseDecimal | baibaitrader/utils.py:60 | a parsed number starting with a digit is non-negative; one starting with '-' is non-positive |
| PriceLog.PointedDecimal | baibaitrader/utils.py:60 | "whole.fraction" parses to whole + fraction / 10^len(fraction) |
| PriceLog.DecimalRoundTrip | baibaitrader/utils.py:60 | printing two naturals around a point and parsing gives back their value |
| PriceLog.WholeRoundTrip | baibaitrader/utils.py:60 | printing a natural and parsing gives it back |
| PriceLog.DigitsRoundTrip | baibaitrader/utils.py:60 | the digits of n read back as n |
| PriceLog.ParsePriceSample | baibaitrader/utils.py:56-61 | every failure is the malformed-line error for that line |
| PriceLog.ParsePriceSampleAccepts | baibaitrader/utils.py:56-61 | a line parses iff it has at least seven words, its first two parse as a date and its seventh as a number; the sample holds exactly those fields |
| PriceLog.LogLineRoundTrip | baibaitrader/utils.py:56-61 | parsing a line written as "day time : cur pcur = price" gives back its fields |
| PriceLog.LogLineWords | baibaitrader/utils.py:56 | such a line splits into exactly its seven words |
| PriceLog.ExampleLine | baibaitrader/utils.py:48 | the documented example line parses to 16200.0 XBT in USD at its date |
| PriceLog.ReadPriceHistory | baibaitrader/utils.py:64-108 | the loop computes PriceHistory |
| PriceLog.ReadBackShape | baibaitrader/utils.py:99-108 | the samples read are the parses of the last lines, newest first, after those already read |
| PriceLog.ReadBackLimits | baibaitrader/utils.py:103-107 | every sample read is dated at or after the cutoff; at most max(limit, 1) are read |
| PriceLog.ReadBackStop | baibaitrader/utils.py:103-107 | reading stops early only on reaching the limit or on a line older than the cutoff |
| PriceLog.ReadBackFailsOnlyOnLines | baibaitrader/utils.py:102 | a failed read names a line of the log that does not parse |
| PriceLog.ReadBackSucceeds | baibaitrader/utils.py:99-108 | when every line parses, reading succeeds |
| PriceLog.HistoryFailures | baibaitrader/utils.py:93-108 | a negative limit raises first, then a cutoff that is not a date; otherwise a failure is a malformed line of the log, and reading succeeds when every line parses |
| PriceLog.HistoryContents | baibaitrader/utils.py:99-108 | the history is no longer than the log, and sample j is the parse of the j-th line from the end |
| PriceLog.HistoryLimits | baibaitrader/utils.py:103-107 | every sample is at or after the cutoff; at most max(limit, 1) samples |
| PriceLog.HistoryStop | baibaitrader/utils.py:103-107 | a history shorter than the log stopped at the limit or at a line older than the cutoff |
| PriceLog.ReadAllWithoutLimits | baibaitrader/utils.py:84-86 | with no cutoff and no limit every line is read; a chronological log yields a newest-first history |
| PriceLog.ReadDaysOfPriceHistory | baibaitrader/utils.py:111-141 | reads with the cutoff `startingFrom - days`; failures name a bad line; every sample is within the days |
| Validation.TradeRecord | baibaitrader/AlgorithmValidator.py:39-41 | a consistent record of the step's kind at the sample's date, price and volume |
| Validation.Apply | baibaitrader/AlgorithmValidator.py:34-52 | the balance moves by minus price x holdings change; a hold changes nothing; a trade appends its record and one snapshot of each balance |
| Validation.LedgerRecords | baibaitrader/AlgorithmValidator.py:32-52 | the ledger keeps earlier records, appends one record of the right kind and one snapshot of each balance per trade |
| Validation.LedgerAccounts | baibaitrader/AlgorithmValidator.py:37-48 | the balance is the start minus what the buys cost plus what the sells earned; holdings likewise in shares |
| Validation.HoldsKeepBook | baibaitrader/AlgorithmValidator.py:32-52 | a replay without signals leaves the book as it was |
| Validation.EveryStepTrades | baibaitrader/AlgorithmValidator.py:32-52 | when every step trades, the trade count is the number of steps |
| Validation.Begin | baibaitrader/AlgorithmValidator.py:28-30 | the replay starts with no records and one snapshot dated at the oldest sample |
| Validation.AdvanceOnBuy | baibaitrader/AlgorithmValidator.py:33-43 | on a buy signal, the step books BuyVolume and records the buy unless declined |
| Validation.AdvanceOnSell | baibaitrader/AlgorithmValidator.py:44-52 | on a sell signal without a buy signal, the step books SellVolume and records the sell unless declined |
| Validation.AdvanceOnHold | baibaitrader/AlgorithmValidator.py:33-44 | without a signal the step only ingests the sample |
| Validation.AdvanceShape | baibaitrader/AlgorithmValidator.py:32-52 | each step adds one step to the trace, applies it to the book and puts the sample in front of the window |
| Validation.SimulateIsLedger | baibaitrader/AlgorithmValidator.py:32-52 | the replay's book is the ledger of its steps, one per sample, and the window ends with the samples reversed |
| Validation.NoTradesWhileWarmingUp | baibaitrader/AlgorithmValidator.py:32-52 | while the window is below the sample minimum, the replay never trades |
| Validation.ReplayedWindowIsOldestFirst | baibaitrader/AlgorithmValidator.py:23-33 | replaying a newest-first log front to back leaves the window oldest-first, oldest sample in front |
| Validation.SampleSeries | baibaitrader/AlgorithmValidator.py:55-56 | dates and prices of the samples, pointwise |
| Validation.RecordSeries | baibaitrader/AlgorithmValidator.py:57-60 | dates and prices of the records, pointwise |
| Validation.SnapshotSeries | baibaitrader/AlgorithmValidator.py:61-64 | dates and values of the snapshots, pointwise |
| Validation.AlgorithmValidator.constructor | baibaitrader/AlgorithmValidator.py:16-25 | the given balances, no records, no snapshots |
| Validation.AlgorithmValidator.UpdateHistory | baibaitrader/AlgorithmValidator.py:89-91 | appends one snapshot of each balance at the date |
| Validation.AlgorithmValidator.SimulateTrading | baibaitrader/AlgorithmValidator.py:27-52 | with samples, the new book and window are those of Simulate from Begin; without, the records are cleared and the no-samples error is raised |
| Validation.AlgorithmValidator.ReplayOne | baibaitrader/AlgorithmValidator.py:33-52 | one loop pass is one Advance |
| Validation.AlgorithmValidator.BookBuy | baibaitrader/AlgorithmValidator.py:37-43 | the book after a buy is Apply of that buy |
| Validation.AlgorithmValidator.BookSell | baibaitrader/AlgorithmValidator.py:47-52 | the book after a sell is Apply of that sell |
| Validation.AlgorithmValidator.DataPairsForPlotting | baibaitrader/AlgorithmValidator.py:54-87 | the five series are those of the samples, buys, sells, balance and holdings |
| Trading.CycleOnBuy | bitbaibai/Trader.py:96-112 | on a buy signal the cycle ingests the price, sizes BuyVolume, records the buy unless declined and settles BuyOrder |
| Trading.CycleOnSell | bitbaibai/Trader.py:96-128 | on a sell signal without a buy signal the cycle does the same with SellVolume and SellOrder |
| Trading.CycleOnHold | bitbaibai/Trader.py:96-115 | without a signal the cycle only ingests the price |
| Trading.CycleIngests | bitbaibai/Trader.py:96 | every cycle with a price puts it in front of the window |
| Trading.BuyTakesPrecedence | bitbaibai/Trader.py:99-115 | a buy is attempted iff the buy signal holds; a sell iff only the sell signal holds; nothing iff neither |
| Trading.AcceptedBuySpendsBuyVolume | bitbaibai/Trader.py:101-108 | an accepted buy spends exactly the buy budget |
| Trading.AcceptedSellEarnsSellVolume | bitbaibai/Trader.py:117-124 | an accepted sell earns exactly the sell budget |
| Trading.CycleMovesAccount | bitbaibai/Trader.py:99-128 | a refused order or no signal leaves the account; a placed buy spends exactly the buy budget and adds its volume; a placed sell earns exactly the sell budget and removes its volume |
| Trading.DeclinedBuyIsRefused | bitbaibai/Trader.py:103-112 | a buy sized 0 is refused by the volume guard and changes nothing but the window |
| Trading.DeclinedSellIsRefused | bitbaibai/Trader.py:119-128 | a sell sized 0 is refused by the volume guard and changes nothing but the window |
| Trading.CycleKeepsSolvency | bitbaibai/Trader.py:99-128 | at a positive price, a solvent account stays solvent through a cycle |
| Trading.Trader.constructor | bitbaibai/Trader.py:19-51 | the given parts, the interval, not running |
| Trading.Trader.BeginTrading | bitbaibai/Trader.py:52-68 | the first call starts the one-shot timer and marks the trader running; a second call raises and changes nothing |
| Trading.Trader.StopTrading | bitbaibai/Trader.py:70-76 | the trader is stopped |
| Trading.Trader.PerformOneCycle | bitbaibai/Trader.py:78-128 | without a price nothing changes; with one, the price is remembered and the new window, account and outcome are those of CycleAt |
| Trading.Trader.TradeAt | bitbaibai/Trader.py:96-128 | the cycle after the fetch matches CycleAt |
| Trading.Trader.PlaceBuy | bitbaibai/Trader.py:101-112 | the volume is BuyVolume of the balance, the buy is recorded unless declined, the account settles BuyOrder |
| Trading.Trader.PlaceSell | bitbaibai/Trader.py:117-128 | the volume is SellVolume of the holdings, the sell is recorded unless declined, the account settles SellOrder |

## Left out

- Threads, logging and the log files are not modelled. The constructor's `threading.Timer` is one-shot: nothing re-arms it, so `begin_trading` leads to exactly one call of `perform_one_cycle`, after the interval. The model has no clock: `BeginTrading` records that the timer was started (a second start raises, as `Thread.start` does), and a cycle is the direct call `PerformOneCycle`.
- The network is a parameter. The market's lowest ask is `ask: Option<real>`, and `None` stands for a venue error or a network error. Kraken's response layout is not modelled.
- `Algorithm` and `Authenticator` are abstract base classes in the source. The model has no traits: the trader runs the concrete `ErikAlgorithm` with `PracticeAuthenticator`, and the validator replays `ErikAlgorithm`. The base class `ErikAlgorithm` extends (bitbaibai/Algorithms/Algorithm.py) is not part of this model; its methods, reached through `super()`, are assumed to have no effect.
- numpy float arithmetic is replaced by exact `real`s. The outlier test is stated in squared form because a square root is not available. `Erik.ThresholdMatchesStdDev` ties it to `diff > std * sigma` for any exact square root.
- Date parsing (dateutil) is the parameter `parseDate`. Reading a file backwards is a `seq<string>` in file order, read from its end.
- `PriceLog.ParseDecimal` accepts plain decimals: an optional '+' or '-', digits, and an optional point with digits. Python's `float` also accepts exponents, `inf`, `nan`, underscores and surrounding whitespace (a trailing '\r' or tab in the seventh word, say); those are refused here.
- `PriceLog.ReadDaysOfPriceHistory` takes whole days, and `startingFrom` is a parameter. The source evaluates its `datetime.now()` default once, at import.
- Zero prices are excluded by `requires` wherever volumes are computed (the source divides by the price and would raise ZeroDivisionError).
- `Trading.Trader.PerformOneCycle` requires a non-zero ask for the same reason.
- `Trading.Trader.PerformOneCycle`, `Practice.PracticeAuthenticator.Buy` and `Practice.PracticeAuthenticator.Sell` use the corrected volume guard of the first finding below. As written, a 0-volume order passes the always-true assert, `buy(0)` or `sell(0)` succeeds at cost 0, and the cycle logs "Bought 0 shares"; the model refuses it with the volume error (`Trading.DeclinedBuyIsRefused`, `Trading.DeclinedSellIsRefused`). The account is unchanged either way.
- `Validation.AlgorithmValidator.constructor` takes the parsed history instead of reading the log file itself. Reading the log is `PriceLog.ReadPriceHistory`.
- `Validation.TradeRecord` stores the sample's price currency in a sell record. The source puts `sample.price` in that slot (baibaitrader/AlgorithmValidator.py:50). That slot is never read.
- `Validation.Simulate` uses one `now` for the whole replay. The source calls `datetime.now()` afresh inside the algorithm on every step.
- `Validation.AlgorithmValidator.SimulateTrading` on an empty history clears the records and then returns the no-samples error. The source raises IndexError at `sample_history[-1]`.
- `Samples.PriceSample` names its time field `date`, as every reader of a sample does (utils.py, ErikAlgorithm.py, AlgorithmValidator.py). bitbaibai/PriceSample.py:27-28 declares the field as `timestamp`, so the bitbaibai samples have no `date`; `Samples.TimestampedSample` models that declaration and the third finding below records the consequence.
- `Erik.SortByDate` is a stable insertion sort on values. Python sorts the caller's list in place; the model does not mutate the caller's batch.
- `Erik.InsertByDate` states only the multiset and the length; the order it keeps is `Erik.InsertKeepsOrder`.
- The Dummy algorithms' volume methods do nothing and are never reached (their signals are always false). They are not modelled.
- `Erik.ErikAlgorithm.DetermineSellVolume` returns 0.0 where the source returns `False`; Python treats the two alike in the arithmetic that follows.
- `recent_stddev` is not modelled; nothing calls it.
- The Trader's price log line ('X%sZ%s = %s') is not modelled; it is logging only.

## Findings

| source | as written | input that shows it | evidently intended | confidence | as-written member | corrected member |
|---|---|---|---|---|---|---|
| bitbaibai/Authenticator.py:53,65 | `assert(n_shares > 0, "...")` asserts a non-empty tuple, which always passes, so `PracticeAuthenticator` accepts zero and negative volumes | buy(-2) at price 500 with balance 1000 and no holdings gives balance 2000 and holdings -2 | refuse volumes of zero or less, as baibaitrader/Markets/Authenticator.py:129-130 does | high, not executed | Practice.NegativeBuyAsWrittenBreaksSolvency | Practice.BuyOrder |
| bitbaibai/Algorithms/ErikAlgorithm.py:106 | the buy record's date slot receives the `PriceSample` itself instead of its date | any buy followed by another `check_should_buy`: `check_far_enough_in_past` compares a `PriceSample` with a `datetime` and raises TypeError | record `price.date`, as the sell record records a date | high, not executed | Erik.BuyCheckAfterBuyRaisesAsWritten | Erik.CooldownAfterBuy |
| bitbaibai/PriceSample.py:27-28 | the namedtuple's time field is `timestamp`, but ErikAlgorithm.py:75, 127 and 141 read `.date` | the first `perform_one_cycle` with a price: `process_data([price])` sorts with `key=lambda x: x.date`, which raises AttributeError outside the try of Trader.py:85-94 | name the field `date`, as baibaitrader/utils.py and the validator expect | high, not executed | Erik.FirstCycleRaisesAsWritten | Erik.SortByDate |
