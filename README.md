# EUR/USD divergence bots — a Dafny model of the rule engine

The repository holds two Python bots that trade EUR_USD against the US dollar
index on Oanda. Around the broker, database and web plumbing both bots have a
small deterministic rule engine. This project models that engine, with prices
as `real`, pandas NaN and Python `None` as `Option.None`, and Python exceptions
as `Result.Err`.

**EURUSDBot.py** (modules `Rolling`, `Indicators`, `Signals`,
`StrategyBacktest`, `LiveRules`)

- `calculate_adx` and `calculate_atr` are functions from a bar sequence to
  aligned columns: the "TR" range series, +DM, -DM, the trailing 14-bar means,
  DI, DX and ADX. Every rolling mean follows pandas' `rolling(window).mean()`:
  it is undefined until its window is full, and undefined whenever its window
  holds an undefined value. The "TR" series is not the textbook true range.
  From the second bar on it is the largest absolute bar-to-bar change of High,
  Low and Close.
- `backtest_strategy` has these parts:
  - The per-index divergence signal (-1, 0, 1).
  - The ADX exhaustion flag.
  - The Position, Entry Price and Stop Loss columns.
  - The loop that rewrites Position row by row while it tracks a water-mark
    entry price and an ATR stop.

  `StrategyBacktest.BacktestStrategy` builds the `Signal.diff()` column in an
  array. `StrategyBacktest.TrackPositions` then overwrites that array in place.
  Both are proved against the fold `StateAt` of the one-row function `Step`.
- From the live loop in `main`, three pure rules are modelled:
  - the risk sizing `calculate_units`, with Python's round-half-to-even;
  - the trailing-stop update of an open trade;
  - the entry decision taken when no trade is open.

  The ADX exit of the live loop is the same test as the backtest's exit flag,
  `Signals.ExitFlag`.

**EURUSDBot2.py** (modules `ListIndicators`, `Expectancy`, `DollarBacktest`)

- The indicators `calculate_sma` and `calculate_atr` work on a candle list and
  return `None` on short input. `calculate_atr` is a method with the source's
  appending loop, proved against `AtrOf`. It keeps the source's quirk: with
  exactly `period` candles it sums `period - 1` ranges but still divides by
  `period`.
- `backtest` is a method with the source's loop. Each loop body is
  `DollarBacktest.ApplyBar`, which is proved equal to the one-bar function
  `Advance`. A loop invariant ties the state after each bar to `Run`, the left
  fold of `Advance` over the bars consumed so far. The result is proved equal
  to `BacktestResult`, that fold followed by the expectancy.
- The stop check in `backtest`, as written, places the stop two ATRs on the far
  side of the current EUR_USD price and compares it with that same price. An
  ATR is never negative, so neither exit branch can fire and `trades` stays
  empty. As a result, `backtest` always ends in an exception:
  - `IndexError` when the EUR_USD list runs out before the dollar-index list;
  - otherwise `KeyError`, raised at the average-win line because the trade
    frame has no `profit` column.

  The model keeps this behaviour and proves it (`DollarBacktest.BacktestAlwaysRaises`).
- The expectancy statistics (win rate, average win, average loss, expectancy)
  are the function `Expectancy.ComputeExpectancy` over a trade list.

`Wrappers` holds `Option`, `Result`, the error kinds, `abs`, `max` and `sum`,
and the sum and mean bounds the other modules use.

## Model

| member | source | states |
|---|---|---|
| Rolling.MeanAt | EURUSDBot.py:90-92 | One entry of `rolling(window).mean()`, as a definition with no ensures: undefined before the window is full or while it holds NaN, else the window mean. SmaIsTrailingMean, RollingMeanAtLeast and RollingMeanAtMost prove its values. |
| Rolling.RollingMean | EURUSDBot.py:90-92 | `rolling(window).mean()` as a definition. Its contract states only that the result has the column's length. Its meaning is proved in SmaIsTrailingMean, RollingMeanAtLeast, RollingMeanAtMost and RollingMeanOfPrefix. |
| Rolling.Sma | EURUSDBot.py:121-124 | The rolling mean of a column without NaN. Its contract states only that it has the column's length. SmaIsTrailingMean proves its values. |
| Rolling.SmaIsTrailingMean | EURUSDBot.py:121-124 | A 20-bar mean of a NaN-free column is undefined for the first w - 1 rows. Everywhere else it is the sum of the trailing window divided by w. |
| Rolling.RollingMeanAtLeast | EURUSDBot.py:90-92 | A defined rolling mean of values that are all >= lo is >= lo. |
| Rolling.RollingMeanAtMost | EURUSDBot.py:96 | A defined rolling mean of values that are all <= hi is <= hi. |
| Rolling.RollingMeanOfPrefix | EURUSDBot.py:90-96 | The rolling mean of the first k entries equals the first k entries of the rolling mean (no lookahead). |
| Indicators.TrueRange | EURUSDBot.py:86-87 | The "TR" column as a definition. Its contract states only that it has one entry per bar. Its values are characterized by RangeStep and TrueRangeNonNegative. |
| Indicators.PositivePart | EURUSDBot.py:88-89 | `x if x > 0 else 0` is >= 0 and >= x, and equals x or 0: the maximum of x and 0. |
| Indicators.PlusDM | EURUSDBot.py:88 | The +DM column as a definition. Its contract states only that it has one entry per bar. DirectionalMovesNonNegative and FlatStepHasNoMovement prove its values. |
| Indicators.MinusDM | EURUSDBot.py:89 | The -DM column as a definition. Its contract states only that it has one entry per bar. DirectionalMovesNonNegative and FlatStepHasNoMovement prove its values. |
| Indicators.DirectionalIndex | EURUSDBot.py:93-94 | +DI or -DI at one index, as a definition with no ensures: the 14-bar DM mean over TR14 times 100, undefined (pandas' inf or NaN) when either mean is undefined or TR14 is 0. DxUndefinedOnZeroDenominator and DxBounded prove its effect on DX. |
| Indicators.DirectionalMovement | EURUSDBot.py:95 | DX at one index, as a definition with no ensures. DirectionalMovementBounded proves that it lies in [0, 100], and DxUndefinedOnZeroDenominator that it is undefined on a zero denominator. |
| Indicators.Dx | EURUSDBot.py:90-95 | The DX column as a definition. Its contract states only that it has one entry per bar. DxUndefinedOnZeroDenominator and DxBounded prove its values. |
| Indicators.Adx | EURUSDBot.py:83-97 | The ADX column as a definition. Its contract states only that it has one entry per bar. AdxBounded, AdxWarmUp and AdxOfPrefix prove its values. |
| Indicators.Atr | EURUSDBot.py:102-108 | The ATR column as a definition. Its contract states only that it has one entry per bar. AtrIsTrailingMean and AtrNonNegative prove its values. |
| Indicators.RangeStep | EURUSDBot.py:86 | A TR entry after the first is >= each of abs(dHigh), abs(dLow) and abs(dClose), and equals one of them. |
| Indicators.TrueRangeNonNegative | EURUSDBot.py:86-87 | TR[0] is High - Low of the first bar. Every TR entry is >= 0 when that bar's High is not below its Low. |
| Indicators.DirectionalMovesNonNegative | EURUSDBot.py:88-89 | +DM and -DM are 0 at index 0 and >= 0 everywhere. |
| Indicators.FlatStepHasNoMovement | EURUSDBot.py:86-89 | A step whose TR is 0 has +DM = -DM = 0. |
| Indicators.AtrIsTrailingMean | EURUSDBot.py:105-107 | ATR is undefined for i + 1 < period. Otherwise it is the sum of TR[i+1-period .. i] divided by period. |
| Indicators.AtrNonNegative | EURUSDBot.py:105-107 | A defined ATR is >= 0. |
| Indicators.DxUndefinedOnZeroDenominator | EURUSDBot.py:93-95 | DX is undefined (NaN), not 0, when TR14 is 0 or when +DI + -DI is 0. |
| Indicators.DirectionalMovementBounded | EURUSDBot.py:95 | For non-negative DIs, a defined DX lies in [0, 100]. |
| Indicators.DxBounded | EURUSDBot.py:86-95 | On well-formed bars, DX lies in [0, 100] wherever it is defined. |
| Indicators.AdxBounded | EURUSDBot.py:83-97 | On well-formed bars, ADX lies in [0, 100] wherever it is defined. |
| Indicators.AdxWarmUp | EURUSDBot.py:90-96 | ADX is undefined at every index i with i + 2 < 2 * period, because DX needs a full window first. |
| Indicators.TrueRangeOfPrefix | EURUSDBot.py:86-89 | TR, +DM and -DM of a prefix of the bars are the prefixes of those columns. |
| Indicators.SmaOfPrefix | EURUSDBot.py:90-92 | The rolling mean of a prefix of a column is the prefix of its rolling mean. |
| Indicators.AdxOfPrefix | EURUSDBot.py:83-111 | ADX and ATR of the first k bars are the first k entries of ADX and ATR (no lookahead). |
| Signals.ComputeColumns | EURUSDBot.py:121-126 | The Close, Volume, SMA_20, Avg_Volume_20 and ADX columns of one instrument. Its contract states only that all five have one entry per bar. ColumnsOfPrefix proves they have no lookahead. |
| Signals.Below | EURUSDBot.py:129-134 | `x < y` with y possibly NaN, as a predicate with no ensures: false when y is NaN. SignalFlatWhenUndefined relies on it. |
| Signals.Above | EURUSDBot.py:129-134 | `x > y` with y possibly NaN, as a predicate with no ensures: false when y is NaN. SignalFlatWhenUndefined relies on it. |
| Signals.Exceeds | EURUSDBot.py:129-134 | `ADX > 25` with ADX possibly NaN, as a predicate with no ensures: false when ADX is NaN. SignalFlatWhenUndefined and ExitStepIsFlat rely on it. |
| Signals.FallsBelow | EURUSDBot.py:150-151 | `ADX < 25` with ADX possibly NaN, as a predicate with no ensures: false when ADX is NaN. ExitStepIsFlat relies on it. |
| Signals.ShortMask | EURUSDBot.py:129-134 | The six-part short mask at one index, as a predicate with no ensures. MasksDisjoint, SignalCharacterized and ShortScenario prove its role. |
| Signals.LongMask | EURUSDBot.py:135-140 | The six-part long mask at one index, as a predicate with no ensures. MasksDisjoint and SignalCharacterized prove its role. |
| Signals.SignalColumn | EURUSDBot.py:128-140 | The Signal column. Its contract states only that it has one entry per bar. SignalCharacterized and SignalsOfPrefix prove its values. |
| Signals.SignalAt | EURUSDBot.py:128-140 | The signal at one index, as a definition with no ensures. SignalCharacterized proves what it equals. |
| Signals.ExitFlag | EURUSDBot.py:150-151 | The Exit Signal flag, as a predicate with no ensures. ExitStepIsFlat and CloseConditions use it. |
| Signals.MasksDisjoint | EURUSDBot.py:129-140 | The short mask and the long mask never both hold, so the order of the two assignments does not matter. |
| Signals.SignalCharacterized | EURUSDBot.py:128-140 | The signal is in {-1, 0, 1}. It is 1 iff the long mask holds, -1 iff the short mask holds, and 0 iff neither holds. |
| Signals.SignalFlatWhenUndefined | EURUSDBot.py:128-140 | If any compared SMA, volume average or ADX is NaN, the signal is 0. |
| Signals.ExitStepIsFlat | EURUSDBot.py:151 | On a row where the exit flag is raised (either ADX defined and below 25), the signal is 0. |
| Signals.ShortScenario | EURUSDBot.py:129-134 | EUR_USD below its SMA and the dollar index above its SMA, both on above-average volume with ADX 30, gives signal -1. |
| Signals.SignalsOfPrefix | EURUSDBot.py:121-140 | The Signal column of the first k bars is the first k entries of the Signal column. |
| Signals.ColumnsOfPrefix | EURUSDBot.py:121-126 | Close, volume, SMA_20, Avg_Volume_20 and ADX of a prefix are the prefixes of those columns. |
| StrategyBacktest.BuildFrame | EURUSDBot.py:121-151 | The combined frame has all columns of equal length, and every Signal value is in {-1, 0, 1}. |
| StrategyBacktest.DiffAt | EURUSDBot.py:143 | `Signal.diff()` at a row after the first lies in -2 .. 2, because every signal is -1, 0 or 1. |
| StrategyBacktest.EntryPriceAt | EURUSDBot.py:144 | `Close.shift(1)` at a row after the first: the previous close, as a definition with no ensures. NewDiffOverwrites uses it. |
| StrategyBacktest.StopBelow | EURUSDBot.py:147-148 | The stop k ATRs below a price, NaN when ATR is, as a definition with no ensures. LongHighWaterMark proves how the loop uses it. |
| StrategyBacktest.StopAbove | EURUSDBot.py:149 | The stop k ATRs above a price, NaN when ATR is, as a definition with no ensures. ShortLowWaterMark proves how the loop uses it. |
| StrategyBacktest.RowAt | EURUSDBot.py:157-171 | The values the loop reads at row i (diff, Entry Price, Stop Loss, close, ATR, Exit Signal), as a definition with no ensures. ApplyRow ties it to the loop. |
| StrategyBacktest.StopLossAt | EURUSDBot.py:147-149 | The Stop Loss column at a row, as a definition with no ensures. NewDiffOverwrites proves how Step uses it. |
| StrategyBacktest.Step | EURUSDBot.py:157-171 | One iteration of the position loop, as a definition with no ensures. NewDiffOverwrites, FlatStaysFlat, LongHighWaterMark, ShortLowWaterMark, CloseConditions and DoublePositionOnlyExits prove what it does. |
| StrategyBacktest.Trail | EURUSDBot.py:162-167 | The water-mark update of an open position, as a definition with no ensures. LongHighWaterMark and ShortLowWaterMark prove what it does. |
| StrategyBacktest.ClosesPosition | EURUSDBot.py:168-171 | The close test against the updated stop, as a predicate with no ensures. CloseConditions and DoublePositionOnlyExits prove when it fires. |
| StrategyBacktest.StateAt | EURUSDBot.py:153-172 | The tracker after row i, as a left fold of Step with no ensures. PositionsBounded and StateAtAgrees prove its properties. |
| StrategyBacktest.PositionColumn | EURUSDBot.py:143-172 | The Position column as a definition. Its contract states only that it has one entry per row. PositionColumnValues and PositionsOfPrefix prove its values. |
| StrategyBacktest.BacktestStrategy | EURUSDBot.py:143-172 | Returns a new array. The Position array left after the loop equals PositionColumn: NaN in row 0, then the tracked position of each row. |
| StrategyBacktest.DiffColumn | EURUSDBot.py:143 | A new array of the frame's length, with NaN in row 0 and signal[j] - signal[j-1] in every later row. |
| StrategyBacktest.TrackPositions | EURUSDBot.py:153-172 | Given the diff column, the loop overwrites rows 1 .. n-1 in place. The array ends equal to PositionColumn, the fold of Step over the rows. |
| StrategyBacktest.ApplyRow | EURUSDBot.py:157-171 | One loop iteration on the three tracked variables equals Step on that row. |
| StrategyBacktest.NewDiffOverwrites | EURUSDBot.py:157-160 | A nonzero diff sets position, entry price (previous close) and stop from the row in one step. |
| StrategyBacktest.FlatStaysFlat | EURUSDBot.py:156-161 | With no new diff, a flat position stays flat and nothing changes. |
| StrategyBacktest.LongHighWaterMark | EURUSDBot.py:162-164 | While long with no new diff, the entry price never falls. When it moves, it becomes the close and the stop becomes close - 2 * ATR. Otherwise the stop is unchanged. |
| StrategyBacktest.ShortLowWaterMark | EURUSDBot.py:165-167 | While short with no new diff, the entry price never rises. When it moves, it becomes the close and the stop becomes close + 2 * ATR. Otherwise the stop is unchanged. |
| StrategyBacktest.CloseConditions | EURUSDBot.py:161-171 | With no new diff, an open position becomes 0 iff the exit flag is set, or it is long and the close is below the updated stop, or it is short and the close is above it. Otherwise the position is kept. |
| StrategyBacktest.DoublePositionOnlyExits | EURUSDBot.py:161-171 | A position of 2 or -2 keeps its entry price and stop, and only the exit flag closes it. |
| StrategyBacktest.PositionsBounded | EURUSDBot.py:143-172 | The tracked position is always one of -2, -1, 0, 1, 2. |
| StrategyBacktest.PositionColumnValues | EURUSDBot.py:143-172 | The Position column is NaN exactly in row 0 and holds only -2 .. 2 after it. |
| StrategyBacktest.StateAtAgrees | EURUSDBot.py:156-172 | Two frames that agree on their first k rows produce the same tracker on those rows. |
| StrategyBacktest.PositionsOfPrefix | EURUSDBot.py:113-172 | The Position column of the first k bars is the first k entries of the Position column (no lookahead). |
| LiveRules.RoundHalfEven | EURUSDBot.py:272 | The result is the integer nearest x, with ties going to the even integer. |
| LiveRules.RoundingIsUnique | EURUSDBot.py:272 | Only one integer satisfies the rounding relation. |
| LiveRules.CalculateUnits | EURUSDBot.py:267-276 | ZeroDivisionError iff entry == stop. Otherwise the result is round(balance * risk / abs(entry - stop)), rounding half to even. |
| LiveRules.CalculateUnitsSymmetric | EURUSDBot.py:270-272 | Swapping entry and stop gives the same result. |
| LiveRules.CalculateUnitsExample | EURUSDBot.py:267-273 | Sizing 10000 at 3% with entry 1.1050 and stop 1.1000 gives 60000 units. |
| LiveRules.TrailingStopUpdate | EURUSDBot.py:320-344 | An update fires iff ATR is defined and the price is beyond the stop by more than 2 * ATR on the trade's side. A long's new stop is strictly higher and 2 * ATR below the price. A short's new stop is strictly lower and 2 * ATR above the price. |
| LiveRules.StopNeverLoosens | EURUSDBot.py:320-344 | The stop after the rule is >= the old stop for a long and <= it for a short, and unchanged for zero units. |
| LiveRules.BuySetup | EURUSDBot.py:388-391 | The buy condition, as a predicate with no ensures. SetupsExclusive, EntryDecision and EntryErrors are stated over it. |
| LiveRules.SellSetup | EURUSDBot.py:398-401 | The sell condition, as a predicate with no ensures. SetupsExclusive, EntryDecision and EntryErrors are stated over it. |
| LiveRules.SizedUnits | EURUSDBot.py:393-394 | `calculate_units` on a stop k ATRs away, with the frame's ATR a numpy float64. It fails iff the stop is NaN or equals the price: a NaN stop gives ValueError, and a zero distance gives OverflowError (round of inf), not ZeroDivisionError. Otherwise the units round balance * 0.03 / abs(price - stop) half to even. |
| LiveRules.EntryDecision | EURUSDBot.py:388-406 | No order iff neither setup holds. When a setup holds and ATR is defined and nonzero, an order is placed. An order exists only with a nonzero defined ATR. A buy has units >= 0 and a sell units <= 0. The order carries stop distance abs(2 * ATR) and abs(units) = abs(round(balance * 0.03 / abs(2 * ATR))). |
| LiveRules.SetupsExclusive | EURUSDBot.py:388-401 | The buy and sell setups never hold together. |
| LiveRules.EntryErrors | EURUSDBot.py:393-404 | The decision raises ValueError iff a setup holds and ATR is NaN. It raises OverflowError iff a setup holds and ATR is 0. It never raises ZeroDivisionError. |
| LiveRules.BuyAndSellSizesAgree | EURUSDBot.py:393-404 | A buy and a sell at the same price and ATR are sized alike. |
| ListIndicators.CalculateSma | EURUSDBot2.py:71-74 | None iff fewer than `period` candles are given. |
| ListIndicators.SmaWithinWindow | EURUSDBot2.py:74 | The SMA lies between any lower and upper bounds of the last `period` closes. |
| ListIndicators.CandleRange | EURUSDBot2.py:81-85 | The range is >= each of high - low, abs(high - prev close) and abs(low - prev close), equals one of them, and is >= 0. |
| ListIndicators.TrueRanges | EURUSDBot2.py:79-86 | The `tr_values` list, built recursively. Its contract states only its length: one range per candle after the first. TrueRangeAt proves what each entry is. |
| ListIndicators.TrueRangeAt | EURUSDBot2.py:79-86 | Entry j of `tr_values` is the range of candle j + 1 against candle j. |
| ListIndicators.TrueRangesNonNegative | EURUSDBot2.py:79-86 | Every entry of `tr_values` is >= 0. |
| ListIndicators.LastN | EURUSDBot2.py:87 | `xs[-n:]` for n >= 1. Its contract states only its length, min(len(xs), n). LastNAt proves which items it holds. |
| ListIndicators.LastNAt | EURUSDBot2.py:87 | Item j of `xs[-n:]` is item len(xs) - len(xs[-n:]) + j of xs. |
| ListIndicators.AtrOf | EURUSDBot2.py:76-87 | None iff fewer than `period` candles are given. Otherwise the value is >= 0. |
| ListIndicators.CalculateAtr | EURUSDBot2.py:76-87 | The appending loop returns exactly AtrOf: None on short input, else the sum of the last `period` ranges divided by `period`. |
| ListIndicators.AtrWithExactlyPeriodCandles | EURUSDBot2.py:77-87 | With exactly `period` candles, only period - 1 ranges exist, and their sum is still divided by `period`. |
| ListIndicators.AtrIsMeanOfLastRanges | EURUSDBot2.py:87 | With more than `period` candles, the ATR is the plain mean of the last `period` ranges. |
| ListIndicators.LastRangesWindow | EURUSDBot2.py:87 | With more than `period` candles, `tr_values[-period:]` is the suffix of the ranges starting at index len(prices) - 1 - period. |
| ListIndicators.BullishEngulfing | EURUSDBot2.py:135-142 | The bullish-engulfing test, as a predicate with no ensures. BullishEngulfingCharacterized proves what it means. |
| ListIndicators.BullishEngulfingCharacterized | EURUSDBot2.py:135-142 | The flag holds iff the previous candle is bearish and the price is above its open, and then the price is also above its close. |
| Expectancy.Wins | EURUSDBot2.py:174-175 | The winning profits in order, as a definition with no ensures. WinsAreWins and WinsOfAppend prove what it keeps. |
| Expectancy.Losses | EURUSDBot2.py:176 | The losing profits in order, as a definition with no ensures. LossesAreLosses and LossesOfAppend prove what it keeps. |
| Expectancy.WinRate | EURUSDBot2.py:174 | The win count divided by the trade count, as a definition with no ensures. PartitionFacts proves that it lies in [0, 1]. |
| Expectancy.ExpectancyOf | EURUSDBot2.py:177 | The expectancy formula, as a definition with no ensures. NoLossesPositiveExpectancy and ExpectancyExample prove its values. |
| Expectancy.MeanOrZero | EURUSDBot2.py:175-176 | `mean() if len > 0 else 0`, as a definition with no ensures. AverageWinSign and AverageLossSign prove its sign on each partition. |
| Expectancy.ComputeExpectancy | EURUSDBot2.py:172-177 | KeyError iff there are no trades. Otherwise the win rate is in [0, 1]. The average win is >= 0, and > 0 iff some trade has profit > 0. The average loss is <= 0, and < 0 iff some trade has profit < 0. |
| Expectancy.PartitionFacts | EURUSDBot2.py:174-176 | For a non-empty profit list, the win rate is in [0, 1] and both averages have the sign of their partition. |
| Expectancy.AverageWinSign | EURUSDBot2.py:175 | The average win is >= 0, and > 0 iff there is a win. |
| Expectancy.AverageLossSign | EURUSDBot2.py:176 | The average loss is <= 0, and < 0 iff there is a loss. |
| Expectancy.WinsAreWins | EURUSDBot2.py:174-175 | The wins number at most the trades and each one is > 0. A value is among the wins iff it is a profit of the list and > 0. |
| Expectancy.LossesAreLosses | EURUSDBot2.py:176 | The losses number at most the trades and each one is < 0. A value is among the losses iff it is a profit of the list and < 0. |
| Expectancy.SomeWin | EURUSDBot2.py:174-175 | There is at least one win iff some trade has profit > 0. |
| Expectancy.SomeLoss | EURUSDBot2.py:176 | There is at least one loss iff some trade has profit < 0. |
| Expectancy.WinsOfAppend | EURUSDBot2.py:174-175 | Filtering wins distributes over concatenation. |
| Expectancy.LossesOfAppend | EURUSDBot2.py:176 | Filtering losses distributes over concatenation. |
| Expectancy.ZeroProfitKeepsPartitions | EURUSDBot2.py:174-176 | A zero-profit trade is neither a win nor a loss. |
| Expectancy.ZeroProfitKeepsAverages | EURUSDBot2.py:175-176 | Appending a zero-profit trade leaves the average win and the average loss unchanged. |
| Expectancy.ZeroProfitDilutesWinRate | EURUSDBot2.py:174 | Appending a zero-profit trade keeps the win count (win rate times trade count) but adds to the denominator. |
| Expectancy.NoLossesPositiveExpectancy | EURUSDBot2.py:174-177 | With at least one win and no losses, the expectancy is > 0. |
| Expectancy.ExpectancyExample | EURUSDBot2.py:172-177 | Profits [10, 10, -5] give win rate 2/3, average win 10, average loss -5 and expectancy 5. |
| DollarBacktest.ShortSignal | EURUSDBot2.py:157 | The short entry condition, as a predicate with no ensures. EntriesExclusive and FlipInOneStep are stated over it. |
| DollarBacktest.LongSignal | EURUSDBot2.py:164 | The long entry condition, as a predicate with no ensures. EntriesExclusive and FlipInOneStep are stated over it. |
| DollarBacktest.InputsUpTo | EURUSDBot2.py:128-142 | The inputs of the loop bars 20 .. k - 1, in order. Its contract states only their number, k - 20 (0 for k <= 20). InputsUpToAt proves what each entry is. |
| DollarBacktest.Inputs | EURUSDBot2.py:128-142 | The inputs of every bar the loop reaches while both lists have a candle, as a definition with no ensures. InputsHaveNonNegativeAtr and InputsOfPrefix prove its properties. |
| DollarBacktest.StopLossCheck | EURUSDBot2.py:144-154 | The stop check as written, as a definition with no ensures. StopLossNeverFires proves when it changes the state. |
| DollarBacktest.SignalEntry | EURUSDBot2.py:156-170 | The entry rule, as a definition with no ensures. EntriesExclusive, SameDirectionNoop and FlipInOneStep prove what it does. |
| DollarBacktest.Advance | EURUSDBot2.py:144-170 | One bar of the loop (the stop check, then the entry rule), as a definition with no ensures. StepFacts proves what it keeps. |
| DollarBacktest.Run | EURUSDBot2.py:125-170 | The state after a sequence of bars, as a left fold of Advance with no ensures. RunOfSnoc and RunInvariant prove its properties. |
| DollarBacktest.BacktestResult | EURUSDBot2.py:124-178 | The value `backtest` returns, as a definition with no ensures. BacktestAlwaysRaises proves which exception it is. |
| DollarBacktest.SmaAt | EURUSDBot2.py:131 | `calculate_sma(dxy_prices[:i+1])` at a loop bar, as a definition with no ensures. IndicatorsDefinedAfterWarmUp proves it is defined there. |
| DollarBacktest.AtrAt | EURUSDBot2.py:132 | The dollar-index ATR read at a loop bar is >= 0. |
| DollarBacktest.InputAt | EURUSDBot2.py:129-142 | Bar i's inputs carry the EUR_USD close of candle i and a non-negative ATR. |
| DollarBacktest.InputsUpToAt | EURUSDBot2.py:128-142 | Entry j of the input sequence is the input of bar 20 + j. |
| DollarBacktest.Backtest | EURUSDBot2.py:124-178 | After each bar, the loop's position, entry price and trades equal Run over the inputs of the bars so far. The method returns BacktestResult. That result is IndexError when the EUR_USD list is shorter than a dollar-index list of more than 20 candles, and KeyError otherwise. |
| DollarBacktest.ApplyBar | EURUSDBot2.py:144-170 | One iteration's update of position, entry price and trades equals Advance: the stop check, then the entry rule. |
| DollarBacktest.RunOfSnoc | EURUSDBot2.py:128 | Consuming one more bar advances the run by that bar. |
| DollarBacktest.FoldStep | EURUSDBot2.py:128-170 | From bar 20 on, the SMA and ATR the loop computes are defined, and the run over bars up to i + 1 is Advance of the run up to i, applied to bar i's inputs. |
| DollarBacktest.IndicatorsDefinedAfterWarmUp | EURUSDBot2.py:128-132 | From bar 20 on, both the SMA and the ATR over `dxy_prices[:i+1]` are defined, and the ATR is >= 0. |
| DollarBacktest.StopLossNeverFires | EURUSDBot2.py:144-154 | The stop check changes the state iff a position is open and the ATR is negative, so both exit branches are dead for real ATRs. |
| DollarBacktest.EntriesExclusive | EURUSDBot2.py:157-164 | The short and long entry conditions never hold together. |
| DollarBacktest.SameDirectionNoop | EURUSDBot2.py:157-170 | A signal in the direction already held, or no signal, leaves the state unchanged. |
| DollarBacktest.FlipInOneStep | EURUSDBot2.py:157-170 | A short signal while flat or long sets -1000 at the current price in the same bar. A long signal while flat or short sets +1000. |
| DollarBacktest.StepFacts | EURUSDBot2.py:144-170 | A bar with ATR >= 0 records no trade and keeps the position in {-1000, 0, 1000}. It changes the entry price only when it opens a new nonzero position, at the current EUR_USD close. |
| DollarBacktest.RunInvariant | EURUSDBot2.py:125-170 | Over any run, `trades` stays empty and the position stays in {-1000, 0, 1000}. A flat book has entry price 0, and an open position's entry price is the close of a bar already consumed. |
| DollarBacktest.InputsHaveNonNegativeAtr | EURUSDBot2.py:128-132 | Every bar input the loop builds has ATR >= 0. |
| DollarBacktest.BacktestAlwaysRaises | EURUSDBot2.py:124-178 | For all candle lists, the result is IndexError when EUR_USD runs out first, and KeyError otherwise. |
| DollarBacktest.InputAtOfPrefix | EURUSDBot2.py:129-142 | Bar i's input reads nothing beyond candle i of either list. |
| DollarBacktest.InputsOfPrefix | EURUSDBot2.py:128-142 | The inputs of the bars before k are the same when computed from any n >= k leading candles (no lookahead). |

## Left out

- Oanda calls are left out: historical data, prices, balance, orders, trade close and trade details. Prices, balance and indicator values are parameters instead.
- The sqlite tables, the Flask route and thread, `input`, `time.sleep`, the market-hours checks and logging are left out. They are I/O and process wiring.
- The two live loops are left out as loops because they are driven by the broker. Only their pure rules are modelled (`LiveRules`). Two defects in them are not modelled: the `profit_ratio` computation and the entry price that can be read before assignment in the second bot.
- `Returns` and `Cumulative Returns` (EURUSDBot.py:174-175) are left out. They are reporting, with no rule content.
- Prices are exact reals, not IEEE-754 doubles: rounding error is not modelled. A pandas division by zero, which gives inf or NaN, is modelled as undefined. This is exact for DX and ADX, where such values always end as NaN.
- StrategyBacktest.BuildFrame: the concat and dropna alignment of the two frames by timestamp is not modelled. The two bar sequences are taken as already aligned.
- StrategyBacktest.BuildFrame: the indicator functions take full bars. The source passes frames holding only Close and Volume, which would raise KeyError on the missing High and Low columns. That crash is not modelled.
- StrategyBacktest.TrackPositions: the chained `.iloc` write (EURUSDBot.py:172) is modelled as a plain array write. pandas may silently write to a copy instead; that case is not modelled.
- StrategyBacktest.BuildFrame: the chained `df_combined['Signal'][mask] = ...` assignments (EURUSDBot.py:129-140) are modelled as taking effect, through Signals.SignalAt. Under pandas copy-on-write they may write to a temporary copy and leave Signal at 0; that case is not modelled.
- `calculate_adx` and `calculate_atr` also add helper columns to the DataFrame they receive. Only the returned series are modelled.
- Rolling window lengths are required to be >= 1. The source only uses 14 and 20.
- DollarBacktest.Backtest: the market orders and `close_position` calls inside the loop are left out. Only the position, entry-price and trade bookkeeping is modelled.
- LiveRules.SizedUnits: a zero ATR is modelled as OverflowError, which is what round() of a numpy inf raises when it returns an int. A numpy version whose round() keeps the float would raise nothing and send an order for infinite units; that case is not modelled.
- LiveRules.EntryDecision: `place_market_order` receives the stop distance as its third argument. The order sent to the broker is not modelled beyond the `Order` value.
