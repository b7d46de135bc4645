# pypostester backtest engine, modelled in Dafny

pypostester backtests a trading position against a close price series. It joins prices
and positions on time. From the joined rows it builds a funding curve, the compounded
growth of one unit of capital net of a commission on every change of position. It then
evaluates a set of indicators (annual return, volatility, Sharpe ratio, maximum drawdown
and its duration, Calmar and Sortino ratios, win rate, monthly return) over one shared
cache dict. The repository holds two generations of this engine side by side, and the
model keeps them apart:

- **The current package** (`src/pypostester`) takes polars or pandas DataFrames with a
  `time` column. It validates and joins them, and calls `calculate(cache)` on each indicator
  in the order the validator returned. Results go into a `BacktestResult` record. This part
  is modelled by `Validation`, `IndicatorCatalog`, `FigureCatalog`, `Indicators`,
  `CurveReturns`, `Results` and `Backtester`.
- **The older engine** (`src/core`, `src/indicators`, `src/utils`) takes two Series with a
  `timestamp` index. It selects indicators by name and sorts them by their `requires`
  through a depth-first search. It calls `calculate(curve, cache)` on each and returns a
  plain dict. This part is modelled by `LegacyValidation`, `RiskIndicators`,
  `DependencySort` and `LegacyBacktester`.

Both generations share the funding-curve arithmetic (`FundingCurve`), the column
primitives (`SeriesMath`), the dict key-order rules (`PyDict`), a sort by key that keeps
equal keys in input order (`Sorting`) and the value and exception vocabulary (`PyValues`, `Outcomes`).

Exceptions are `Err` values of a `Fault` datatype. The cache is a `Cache` object whose
`entries` map the indicators update in place. Each indicator's `calculate` is a method,
proved equal to a `Step` function that returns the result and the new cache. The
properties are lemmas about those functions. The indicator loops of both backtesters
are methods with loop invariants. They are proved equal to a left fold over the sorted
names, and the fold is proved to file every name once, to stop at the first failure, and
(in the older engine) to find every dependency already cached. The dependency sort is a
recursive `visit` method on a `Visitor` object holding `visited` and the output list. On
success its output is distinct, dependency-closed, the least such set, and in dependency
order when the requirements are acyclic.

Real numbers stand in for floats. Standard deviation, square root and real powers are
uninterpreted functions passed in a `Transcendentals` record. The four validators that the
backtester imports but the package never defines are functions passed in an
`ExternalChecks` record.

## Model

| member | source | states |
|---|---|---|
| PyDict.KeysAfterStore | src/pypostester/indicators/registry.py:14-16 | storing under a key keeps the old key order, appends the key only if it is new, and keeps the keys distinct |
| PyDict.KeysAfterStores | src/pypostester/indicators/registry.py:14-16 | repeated stores keep the old order as a prefix, keep the keys distinct, and hold exactly the old and stored keys |
| PyDict.FirstIndex | src/pypostester/indicators/registry.py:28-31 | the first occurrence of an element: it is there and no earlier position holds it |
| PyDict.FirstIndexAppend | src/pypostester/indicators/registry.py:14-16 | appending a key leaves the first position of every key already present unchanged |
| PyDict.FirstStoreOrder | src/pypostester/indicators/registry.py:28-31 | storing keys into an empty dict lists each stored key exactly once, ordered by where it was first stored |
| PyValues.FloatsOf | src/pypostester/indicators/indicators.py:17 | `get_column` returns the float column exactly when it exists, and ColumnNotFound for a missing one |
| PyValues.TimesOf | src/pypostester/indicators/indicators.py:100-103 | `get_column` returns the time column exactly when it exists, and ColumnNotFound for a missing one |
| PyValues.Get | src/indicators/risks.py:60-61 | `cache[key]` succeeds exactly for a present key, returns its value, and raises KeyError(key) otherwise |
| PyValues.GetNumber | src/pypostester/indicators/indicators.py:21 | a cache lookup used as a number: succeeds exactly for a number stored under the key, KeyError for an absent key |
| PyValues.GetSeries | src/pypostester/indicators/indicators.py:38 | a cache lookup used as a Series: succeeds exactly for a Series stored under the key, KeyError for an absent key |
| PyValues.GetTable | src/pypostester/indicators/indicators.py:100 | a cache lookup used as a DataFrame: succeeds exactly for a frame stored under the key, KeyError for an absent key |
| PyValues.PctChange | src/indicators/risks.py:73-75 | `pct_change()` succeeds exactly on prices that never divide by zero; it is null on the first row and x[t]/x[t-1]-1 after |
| PyValues.Stored | src/indicators/risks.py:16-17 | a computed number is stored under its key and returned; a failure leaves the cache as it was |
| PyValues.Memoised | src/indicators/risks.py:12-17 | a key already cached is returned as it is with the cache untouched; otherwise the value is computed and stored |
| PyValues.WithReturns | src/indicators/risks.py:73-75 | `returns` is filled from the curve's percent change only when absent; a percent-change failure leaves the cache alone |
| PyValues.Cache.constructor | src/pypostester/core/backtester.py:145-151 | the cache starts with exactly the given entries |
| PyValues.Cache.FillReturnsIfAbsent | src/indicators/risks.py:73-75 | updates the cache in place exactly as WithReturns says, and leaves it unchanged on failure |
| SeriesMath.Max | src/pypostester/indicators/indicators.py:79-84 | `max()`: bounds every element and is one of them |
| SeriesMath.Min | src/indicators/risks.py:12-17 | `min()`: bounded by every element and is one of them |
| SeriesMath.CumMax | src/pypostester/indicators/indicators.py:79-84 | `cum_max()`: element i is the largest of the first i+1 elements |
| SeriesMath.CumMaxBounds | src/indicators/risks.py:12-17 | the running maximum dominates every earlier element and never decreases |
| SeriesMath.CumMaxFirst | src/indicators/risks.py:12-17 | the running maximum starts at the first element |
| SeriesMath.CumMaxAbove | src/indicators/risks.py:12-17 | the running maximum is at least the element beside it |
| SeriesMath.CumMaxPositive | src/indicators/risks.py:12-17 | a positive series has positive running peaks |
| SeriesMath.NonDecreasingIsAtPeak | src/pypostester/indicators/indicators.py:79-84 | a series never falls if and only if every element equals its running maximum |
| SeriesMath.ArgMax | src/indicators/risks.py:35-40 | `arg_max()`: the first position of the largest element |
| SeriesMath.ArgMaxDropLast | src/indicators/risks.py:35-40 | a last element below the maximum does not move the arg_max |
| SeriesMath.ArgMin | src/indicators/risks.py:33-34 | `arg_min()`: the first position of the smallest element |
| SeriesMath.NonNull | src/pypostester/indicators/indicators.py:36-44 | the values `std` and `product` see: a value is kept exactly when a cell holds it, and nothing is dropped exactly when no cell is null |
| SeriesMath.NonNullAppend | src/pypostester/indicators/indicators.py:36-44 | dropping nulls commutes with concatenation, so every kept value keeps its row order and its multiplicity |
| SeriesMath.AsCells | src/pypostester/core/backtester.py:149 | a null-free column as cells, value for value |
| SeriesMath.CountPositive | src/indicators/risks.py:120-124 | `(s > 0).sum()`: 0 exactly when no cell gains, the length exactly when every cell gains |
| SeriesMath.Negatives | src/indicators/risks.py:97 | `filter(s < 0)`: exactly the negative values, empty exactly when no cell is negative |
| SeriesMath.CompoundedAppend | src/pypostester/core/backtester.py:57 | compounding over a concatenation is the product of the two compounded factors |
| SeriesMath.CompoundedPositive | src/pypostester/core/backtester.py:57 | compounding returns that all exceed -1 gives a positive factor |
| SeriesMath.ProductPositive | src/pypostester/core/backtester.py:57 | a product of positive reals is positive |
| SeriesMath.QuotientSign | src/pypostester/indicators/indicators.py:79-84 | a non-negative amount over a positive one is non-negative, and zero only for a zero amount |
| SeriesMath.RatioBounds | src/indicators/risks.py:120-124 | a count over a larger non-zero total is a share in [0, 1]: 0 exactly for no hits, 1 exactly when all hit |
| Sorting.IsSortedBy | src/pypostester/utils/validation.py:42-43 | the neighbour-by-neighbour check agrees with sortedness by key |
| Sorting.SortedTail | src/pypostester/utils/validation.py:42-43 | dropping the first element keeps a sequence sorted |
| Sorting.Insert | src/pypostester/utils/validation.py:42-43 | insertion keeps the sequence sorted and adds exactly the one element |
| Sorting.SortBy | src/pypostester/utils/validation.py:42-43 | `sort("time")`: the result is sorted by key and is a permutation of the input |
| Sorting.SortBySortedIsIdentity | src/pypostester/utils/validation.py:42-43 | sorting rows already in time order changes nothing |
| FundingCurve.FillNull | src/pypostester/core/backtester.py:44 | `fill_null` keeps the length of the column |
| FundingCurve.Shift | src/pypostester/core/backtester.py:47 | `shift(1)` keeps the length of the column |
| FundingCurve.Diff | src/pypostester/core/backtester.py:50 | `diff()` keeps the length of the column |
| FundingCurve.PctChange | src/pypostester/core/backtester.py:44 | `pct_change()` keeps the length of the column |
| FundingCurve.NetReturns | src/pypostester/core/backtester.py:44-54 | the net return column has one value per merged row |
| FundingCurve.Curve | src/pypostester/core/backtester.py:57 | the curve has one value per net return |
| FundingCurve.NetReturnAt | src/pypostester/core/backtester.py:44-54 | row t earns the price move times the position held over the row, less commission times the size of the position change |
| FundingCurve.FirstRow | src/core/backtester.py:39-52 | on the first row nothing is earned or paid, and the curve starts at 1 |
| FundingCurve.CurveRecurrence | src/pypostester/core/backtester.py:57 | each curve value is the previous one grown by that row's net return |
| FundingCurve.ProductPlusOne | src/pypostester/core/backtester.py:57 | the product of 1 + x equals the compounded growth of the returns |
| FundingCurve.CurveIsCompounded | src/pypostester/core/backtester.py:57 | the curve at row t compounds the net returns of rows 0 to t |
| FundingCurve.CurvePositive | src/pypostester/core/backtester.py:57 | the curve stays positive while every net return exceeds -1 |
| FundingCurve.ZeroCommission | src/pypostester/core/backtester.py:50-54 | without commission nothing is charged and the net return is the position return |
| FundingCurve.TotalGrowth | src/core/backtester.py:39-52 | the curve starts at 1 and ends at the compounded growth of the whole run |
| FundingCurve.WorkedExample | src/pypostester/core/backtester.py:44-57 | one unit held through closes 100, 110, 99 gives returns 0, +10%, -10% and a curve 1, 1.1, 0.99 |
| Validation.Missing | src/pypostester/utils/validation.py:36-39 | the missing required columns are exactly those required and absent |
| Validation.ValidateAndConvertInput | src/pypostester/utils/validation.py:15-48 | succeeds exactly for a known data type whose required columns are all present, and then returns the rows sorted by time as a permutation of the input; an unknown type or missing columns is a ValidationError |
| Validation.ValidateTimeAlignment | src/pypostester/utils/validation.py:51-65 | succeeds exactly when both frames carry the same set of timestamps, and is a Misaligned ValidationError otherwise |
| Validation.CloseColumnRequired | tests/test_backtester.py:107-117 | a close frame without a `close` column is rejected for exactly that column |
| Validation.DuplicatesIgnored | src/pypostester/utils/validation.py:51-65 | alignment compares sets of stamps, so a duplicated position row is still aligned |
| Validation.DroppingLastRowMisaligns | tests/test_backtester.py:107-117 | dropping the last row of a position frame with distinct stamps breaks alignment |
| LegacyValidation.ValidateSeriesInput | src/utils/validation.py:14-71 | succeeds exactly for two series of one library, of equal non-zero length, with no nulls and positive prices; each check fails with its own error in source order (type, length, empty, nulls in close then position, prices), and a pandas/polars mix raises AttributeError at the null test |
| LegacyValidation.ParamValue | src/utils/validation.py:86-93 | the numeric value of an int or float argument |
| LegacyValidation.ValidateParameters | src/utils/validation.py:74-103 | succeeds exactly for a commission number in [0, 1) and a positive int year length; each check fails with its own error in source order |
| LegacyValidation.Values | src/utils/validation.py:106-138 | the values of a null-free series, element by element |
| LegacyValidation.ConvertToPolars | src/utils/validation.py:106-138 | a pandas close series needs a datetime index and a polars one an index attribute, and columns of unequal length are a ShapeError; the frame carries the close series' index and the close and position values |
| LegacyValidation.ValidateAndConvertInput | src/utils/validation.py:141-171 | series checks, then parameter checks, then conversion, the first failure reported; once both checks pass the result is ConvertToPolars' frame with the parameters as given, or its error; a returned frame has equal non-zero lengths, positive prices and valid parameters |
| LegacyValidation.CommissionBoundary | src/utils/validation.py:86-103 | a commission of 1 is rejected, 0.999 and an int 0 are accepted, and a float year length is refused |
| IndicatorCatalog.CalculateStep | src/pypostester/core/backtester.py:167-168 | calling `calculate(cache)` on a returns-module class raises TypeError for its missing argument; a built-in class never drops cache keys |
| IndicatorCatalog.Indicator.constructor | src/pypostester/indicators/base.py:6-50 | an indicator carries its name, its dependencies, its calculation and its format |
| IndicatorCatalog.Indicator.Calculate | src/pypostester/indicators/base.py:29-38 | updates the cache and returns the result exactly as its calculation's Step says |
| IndicatorCatalog.Instantiate | src/pypostester/indicators/base.py:40-50 | a class without `format` cannot be instantiated (TypeError); otherwise a fresh instance with the given parts |
| IndicatorCatalog.IndicatorRegistry.constructor | src/pypostester/indicators/registry.py:11-12 | the registry starts empty |
| IndicatorCatalog.IndicatorRegistry.Register | src/pypostester/indicators/registry.py:14-16 | stores the instance under its name, replacing an earlier one, and appends only a new name to the key order |
| IndicatorCatalog.IndicatorRegistry.GetIndicator | src/pypostester/indicators/registry.py:18-22 | the very instance registered under the name, or KeyError("Indicator '<name>' not found") for an unknown name |
| IndicatorCatalog.IndicatorRegistry.GetAllIndicators | src/pypostester/indicators/registry.py:24-26 | a copy holding every registered name with its instance |
| IndicatorCatalog.IndicatorRegistry.AvailableIndicators | src/pypostester/indicators/registry.py:28-31 | every registered name exactly once, in first-registration order |
| IndicatorCatalog.Registered | src/pypostester/indicators/registry.py:14-16 | registering a list holds exactly the listed names |
| IndicatorCatalog.LastRegistrationWins | src/pypostester/indicators/registry.py:14-16 | each name maps to the last instance registered under it |
| IndicatorCatalog.RegisterAll | src/pypostester/indicators/registry.py:38-59 | registering a list into a fresh registry yields that list's key order and its last-wins dict |
| IndicatorCatalog.NamesOf | src/pypostester/indicators/registry.py:14-16 | the names of a list of indicators, in order |
| FigureCatalog.FigureClass.constructor | src/pypostester/visualization/registry.py:17-28 | a figure class carries its name and whether it derives from the figure base class |
| FigureCatalog.FigureRegistry.constructor | src/pypostester/visualization/registry.py:13-15 | the figure registry starts empty |
| FigureCatalog.FigureRegistry.Register | src/pypostester/visualization/registry.py:17-28 | a non-figure class is refused with ValueError and changes nothing; a figure class is stored under its name and only a new name is appended |
| FigureCatalog.FigureRegistry.Get | src/pypostester/visualization/registry.py:30-44 | the class registered under the name, or ValueError "Figure '<name>' is not registered" |
| FigureCatalog.FigureRegistry.AvailableFigures | src/pypostester/visualization/registry.py:46-53 | exactly the registry's key order, first registration first: every registered figure name once, each naming its class |
| Indicators.AnnualReturnValue | src/pypostester/indicators/indicators.py:14-26 | succeeds exactly for a non-empty curve with a non-zero first value and a non-zero `periods_per_day`, giving (last / first) raised to 365 · periods_per_day / rows, minus 1; a missing `curve_df` or `periods_per_day` is a KeyError, an empty curve an IndexError, a zero divisor a ZeroDivision |
| Indicators.AnnualReturnOfOneYearRun | src/pypostester/indicators/indicators.py:17-25 | a run of exactly 365 days' rows is not rescaled: its annual return is its growth to the power 1, minus 1 |
| Indicators.CalculateAnnualReturn | src/pypostester/indicators/indicators.py:14-26 | updates the cache and returns the result exactly as AnnualReturnStep says |
| Indicators.CalculateVolatility | src/pypostester/indicators/indicators.py:36-44 | updates the cache and returns the result exactly as VolatilityStep says |
| Indicators.CalculateSharpeRatio | src/pypostester/indicators/indicators.py:58-69 | updates the cache and returns the result exactly as SharpeRatioStep says |
| Indicators.SharpeRatioMemoised | src/pypostester/indicators/indicators.py:58-69 | a cached Sharpe ratio is returned as it is and the cache is left untouched |
| Indicators.SharpeRatioZeroVolatility | src/pypostester/indicators/indicators.py:65-68 | zero volatility gives a ratio of 0, even without an annual return |
| Indicators.SharpeRatioFormula | src/pypostester/indicators/indicators.py:65-68 | otherwise the ratio is annual return over volatility, and it is cached |
| Indicators.SharpeRatioFillsVolatility | src/pypostester/indicators/indicators.py:60-63 | a missing volatility is computed and left in the cache beside the ratio |
| Indicators.CalculateMaxDrawdown | src/pypostester/indicators/indicators.py:79-84 | updates the cache and returns the result exactly as MaxDrawdownStep says |
| Indicators.PeakGap | src/pypostester/indicators/indicators.py:79-84 | the largest gap below the running peak is non-negative, and 0 if and only if the curve never falls |
| Indicators.MaxDrawdownSign | src/pypostester/indicators/indicators.py:79-84 | on a positive curve the drawdown is a non-negative share, 0 if and only if the curve never falls |
| Indicators.Drawdowns | src/pypostester/indicators/indicators.py:98-112 | one relative drawdown per row |
| Indicators.LastPeak | src/pypostester/indicators/indicators.py:113-122 | the last row at or before the end that sits at its running peak, or none exists |
| Indicators.CalculateMaxDrawdownDuration | src/pypostester/indicators/indicators.py:98-128 | updates the cache and returns the result exactly as MaxDrawdownDurationStep says |
| Indicators.DurationFromLastPeak | src/pypostester/indicators/indicators.py:98-128 | on time-sorted rows with a positive curve a peak always exists, and the duration is the non-negative days from the last peak to the trough |
| Indicators.CalculateCalmarRatio | src/pypostester/indicators/indicators.py:142-149 | updates the cache and returns the result exactly as CalmarRatioStep says |
| Indicators.CalmarRatioCases | src/pypostester/indicators/indicators.py:142-149 | memoised; 0 for a zero drawdown, annual return over drawdown otherwise |
| Indicators.CalculateSortinoRatio | src/pypostester/indicators/indicators.py:163-186 | updates the cache and returns the result exactly as SortinoRatioStep says |
| Indicators.SortinoRatioWithoutLosses | src/pypostester/indicators/indicators.py:163-186 | a run without a losing period has a Sortino ratio of 0 |
| Indicators.CalculateWinRate | src/pypostester/indicators/indicators.py:196-205 | updates the cache and returns the result exactly as WinRateStep says |
| Indicators.WinRateBounds | src/pypostester/indicators/indicators.py:196-205 | the win rate is in [0, 1]: 0 exactly when no period gains, 1 exactly when every period gains |
| Indicators.LatestMonth | src/pypostester/indicators/indicators.py:219-242 | the month of some row, and no row's month comes after it |
| Indicators.MonthCells | src/pypostester/indicators/indicators.py:219-242 | the cells grouped under month k are exactly those of the rows stamped in month k: every such row contributes, and no other row does |
| Indicators.MonthCellsAppend | src/pypostester/indicators/indicators.py:219-242 | grouping a concatenation keeps each part's rows in row order |
| Indicators.CalculateMonthlyReturn | src/pypostester/indicators/indicators.py:219-242 | reads the cache, writes nothing, and returns MonthlyReturnValue |
| Indicators.SingleMonthCells | src/pypostester/indicators/indicators.py:219-242 | when every row is in one month, that month's group is the whole column |
| Indicators.NonNullOfValues | src/pypostester/indicators/indicators.py:219-242 | a null-free column's non-null values are its values |
| Indicators.MonthlyReturnOfOneMonthRun | src/pypostester/indicators/indicators.py:219-242 | a run inside one calendar month has a monthly return equal to the whole run's compounded net return |
| Indicators.CalendarAtEpoch | src/pypostester/indicators/indicators.py:224-230 | the month grouping puts the last second of 1969 in December 1969 and the next in January 1970 |
| Indicators.CalendarAtLeapDay | src/pypostester/indicators/indicators.py:224-230 | 29 February 2024 ends in February and the next second is March |
| Indicators.CalculateBuiltin | src/pypostester/indicators/indicators.py:7-242 | each built-in class updates the cache and returns the result exactly as its Step says |
| Indicators.StepsOnlyAdd | src/pypostester/indicators/indicators.py:7-242 | no built-in drops a cache key, and every one except win rate and monthly return leaves its own result cached |
| CurveReturns.AnnualReturnValue | src/pypostester/indicators/returns.py:12-18 | an empty curve is an IndexError, a zero first value a ZeroDivision, and a missing `total_days` a KeyError |
| CurveReturns.CalculateAnnualReturn | src/pypostester/indicators/returns.py:12-18 | updates the cache and returns the result exactly as AnnualReturnStep says |
| CurveReturns.AnnualReturnOfCurve | src/pypostester/indicators/returns.py:12-18 | memoised; otherwise the growth from first to last value raised to 365 / total_days, minus 1 |
| CurveReturns.AnnualVolatility | src/pypostester/indicators/returns.py:35-36 | a missing `total_days` is a KeyError and a zero one a ZeroDivision |
| CurveReturns.CalculateSharpeRatio | src/pypostester/indicators/returns.py:30-43 | updates the cache and returns the result exactly as SharpeRatioStep says |
| CurveReturns.SharpeRatioMemoised | src/pypostester/indicators/returns.py:30-43 | a cached Sharpe ratio is returned as it is, cache untouched |
| CurveReturns.SharpeRatioWrites | src/pypostester/indicators/returns.py:35-42 | the ratio is 0 for zero annual volatility and annual return over it otherwise; both are cached |
| CurveReturns.SharpeRatioFillsReturns | src/pypostester/indicators/returns.py:31-33 | missing returns are filled from the curve's percent change, and a zero price is NotFinite |
| RiskIndicators.RelativeDrawdowns | src/indicators/risks.py:13-15 | one relative drawdown per row |
| RiskIndicators.MaxDrawdownOf | src/indicators/risks.py:12-17 | a zero running peak is NotFinite; otherwise the smallest relative drawdown |
| RiskIndicators.CalculateMaxDrawdown | src/indicators/risks.py:12-17 | updates the cache and returns the result exactly as MaxDrawdownStep says |
| RiskIndicators.PositivePeaks | src/indicators/risks.py:13-15 | a positive curve has positive running peaks, so no drawdown divides by zero |
| RiskIndicators.DrawdownAt | src/indicators/risks.py:13-15 | on a positive curve every relative drawdown is at most 0, and 0 exactly at a peak |
| RiskIndicators.FallBelowPeak | src/indicators/risks.py:13-15 | a value at or below a positive peak falls by at most 0, exactly 0 only at the peak |
| RiskIndicators.MaxDrawdownNonPositive | src/indicators/risks.py:12-17 | on a positive curve the drawdown is at most 0, and 0 if and only if the curve never falls |
| RiskIndicators.Trough | src/indicators/risks.py:33-34 | `arg_min()` of the drawdowns: a row of the curve, none for an empty one |
| RiskIndicators.CalculateMaxDrawdownDuration | src/indicators/risks.py:29-45 | updates the cache and returns the result exactly as MaxDrawdownDurationStep says (the corrected start) |
| RiskIndicators.TroughOfRisingCurve | src/indicators/risks.py:33-34 | on a positive curve that never falls the trough is row 0 |
| RiskIndicators.DurationFailsWhenCurveNeverFalls | src/indicators/risks.py:35-42 | as written, a positive curve that never falls indexes the timestamps by None and raises TypeError, or IndexError first when there are no timestamps |
| RiskIndicators.TroughBelowPeak | src/indicators/risks.py:33-38 | on a positive curve that falls, the trough comes after row 0 and lies below its peak |
| RiskIndicators.PeakBeforeTrough | src/indicators/risks.py:35-38 | below its running peak, a row's peak lies strictly before it, so both starts agree |
| RiskIndicators.DurationWhenCurveFalls | src/indicators/risks.py:29-45 | on a falling curve the duration is the whole days from peak to trough, non-negative, and the corrected start agrees |
| RiskIndicators.CorrectedDurationOfRisingCurve | src/indicators/risks.py:35-42 | corrected, a positive curve that never falls has a duration of 0 days |
| RiskIndicators.CalculateCalmarRatio | src/indicators/risks.py:57-64 | updates the cache and returns the result exactly as CalmarRatioStep says |
| RiskIndicators.CalmarRatioCases | src/indicators/risks.py:57-64 | 0 for a zero drawdown, annual return over its absolute value otherwise, with the sign of the annual return |
| RiskIndicators.CalculateVolatility | src/indicators/risks.py:72-79 | updates the cache and returns the result exactly as VolatilityStep says |
| RiskIndicators.CalculateSortinoRatio | src/indicators/risks.py:91-107 | updates the cache and returns the result exactly as SortinoRatioStep says |
| RiskIndicators.SortinoRatioWithoutLosses | src/indicators/risks.py:91-107 | returns without a loss give a Sortino ratio of 0 |
| RiskIndicators.CalculateWinRate | src/indicators/risks.py:115-125 | updates the cache and returns the result exactly as WinRateStep says |
| RiskIndicators.WinRateBounds | src/indicators/risks.py:115-125 | the win rate is in [0, 1], 0 for no returns or no gains, 1 exactly when every row gains |
| RiskIndicators.CalculateRisk | src/indicators/risks.py:7-125 | each risk class updates the cache and returns the result exactly as its Step says |
| RiskIndicators.SecondCallIsCached | src/indicators/risks.py:7-125 | after a successful call the result is cached, and a second call returns it unchanged |
| RiskIndicators.ReturnsFilledOnlyWhenAbsent | src/indicators/risks.py:73-118 | volatility, Sortino and win rate fill `returns` from the curve only when it is absent; the drawdown indicators never do |
| DependencySort.Visitor.constructor | src/core/backtester.py:121-122 | a sort starts with nothing visited and an empty output |
| DependencySort.Visitor.Visit | src/core/backtester.py:124-131 | marks the name visited; on success its dependencies are placed before it, and a reached unregistered name is a KeyError |
| DependencySort.Visitor.InvAfterAppend | src/core/backtester.py:129-131 | appending a name after its dependencies restores the sort's invariant |
| DependencySort.SortIndicatorsByDependency | src/core/backtester.py:118-136 | the output lists each name once, holds the requested names, is closed under `requires` and least such; in dependency order when acyclic; succeeds exactly when a registered closed superset exists |
| DependencySort.UnregisteredBlocksClosure | src/core/backtester.py:128 | a reached unregistered name rules out every registered closed set |
| DependencySort.RankedIsAcyclic | src/core/backtester.py:118-136 | requirements whose dependencies always rank lower have no cycle |
| DependencySort.RankFalls | src/core/backtester.py:118-136 | the rank falls along every dependency chain |
| Results.FirstMissing | src/pypostester/models/models.py:17-19 | the first listed column absent from the frame, or none if all are present |
| Results.Select | src/pypostester/models/models.py:17-19 | `select(cols)`: exactly the listed columns in that order, or ColumnNotFound for an absent one |
| Results.CurveColumns | src/pypostester/models/models.py:17-19 | the time and curve columns of a stored frame, and AttributeError for a non-frame |
| Results.FundingCurveAsWritten | src/pypostester/models/models.py:14-19 | as written, the property reads "merged_df": KeyError when absent |
| Results.FundingCurve | src/pypostester/models/models.py:14-19 | corrected, the property reads the stored "funding_curve" entry |
| Results.GetDataframe | src/pypostester/models/models.py:36-45 | the stored frame, or KeyError for an unknown name |
| Results.GetIndicatorValue | src/pypostester/models/models.py:47-56 | the stored number, or KeyError for an unknown name |
| Results.GetFormattedIndicatorValue | src/pypostester/models/models.py:58-67 | the stored string, or KeyError for an unknown name |
| Backtester.Converted | src/pypostester/core/backtester.py:95-96 | a ValidationError becomes ValueError with the given message; other exceptions pass unchanged |
| Backtester.Matches | src/pypostester/core/backtester.py:91-93 | the joined rows of one close row all carry its time |
| Backtester.MergeOnTime | src/pypostester/core/backtester.py:91-93 | the merged frame is sorted by time and a permutation of the inner join |
| Backtester.OneMatch | src/pypostester/core/backtester.py:91-93 | with distinct position stamps, a close row whose stamp occurs meets exactly one position row |
| Backtester.NoMatch | src/pypostester/core/backtester.py:91-93 | a close row with no equal position stamp yields no joined row |
| Backtester.JoinOnePerRow | src/pypostester/core/backtester.py:88-93 | on aligned frames with distinct position stamps the join has one row per close row |
| Backtester.ColumnValues | src/pypostester/core/backtester.py:44-50 | a merged column read row by row: succeeds exactly when every row has it, ColumnNotFound otherwise |
| Backtester.TimeColumn | src/pypostester/core/backtester.py:62 | the time of every merged row, in order |
| Backtester.CurveFrame | src/pypostester/core/backtester.py:60-66 | the frame holds `time`, `funding_curve` and `returns` in that order |
| Backtester.FundingCurveOf | src/pypostester/core/backtester.py:41-68 | succeeds exactly when close and position columns exist and no price divides by zero; the frame carries the merged times, the compounded curve and the net returns |
| Backtester.Diffs | src/pypostester/core/backtester.py:137 | one gap per neighbouring pair of stamps |
| Backtester.DiffsTelescope | src/pypostester/core/backtester.py:133-140 | the gaps add up to the span from first to last stamp |
| Backtester.PrepareCacheOf | src/pypostester/core/backtester.py:121-151 | succeeds exactly for a frame with a time column of at least two rows and a returns column; then the cache holds exactly the curve frame, year length, total days (at least 1), returns and periods per day (positive); otherwise the missing column's error, IndexError without rows, or AttributeError for a single row |
| Backtester.InverseOfMeanInterval | src/pypostester/core/backtester.py:138-143 | the inverse of a positive mean interval in days is rows per span times 86400 |
| Backtester.PeriodsPerDay | src/pypostester/core/backtester.py:121-151 | with at least two rows: periods per day is (n-1)*86400/span for a positive span and 1 otherwise; total days is span/86400 but at least 1; returns is the net return column |
| Backtester.Place | src/pypostester/core/backtester.py:166-177 | one turn: an unregistered name is the registry's KeyError("Indicator '<name>' not found"); a table goes to the frames, a number with its own format to the scalars; only this name is added and earlier entries are kept |
| Backtester.Partitioned | src/pypostester/core/backtester.py:163-178 | the loop's result keeps the table order consistent with the tables |
| Backtester.FailureEndsLoop | src/pypostester/core/backtester.py:166-169 | after a failure later names change nothing |
| Backtester.ElemsDropLast | src/pypostester/core/backtester.py:166 | the names of a list are those of its prefix plus the last |
| Backtester.DistinctDropLast | src/pypostester/core/backtester.py:166 | a prefix of a repeat-free list is repeat-free and lacks the last name |
| Backtester.EveryNameFiledOnce | src/pypostester/core/backtester.py:163-178 | after a successful loop every name was registered and filed, every scalar carries its indicator's format, and distinct names go to exactly one dict |
| Backtester.Columns | src/pypostester/core/backtester.py:108 | each table result contributes its column named like the indicator, or ColumnNotFound |
| Backtester.Assemble | src/pypostester/core/backtester.py:105-119 | the result holds the curve frame under "funding_curve" and, under every table's name, that table's own column, and the scalar values with their formatted strings for exactly the scalar names |
| Backtester.Computed | src/pypostester/core/backtester.py:83-105 | what precedes assembly keeps the partition consistent |
| Backtester.RunAsWrittenAlwaysRaises | src/pypostester/core/backtester.py:115-119 | as written `run` never returns a result, and it raises TypeError whenever the corrected run succeeds |
| Backtester.InvalidPositionIsValueError | src/pypostester/core/backtester.py:83-96 | a position frame failing validation or alignment ends `run` with ValueError |
| Backtester.FundingCurveKeyMismatch | src/pypostester/models/models.py:14-19 | on the record `run` builds, the as-written property raises KeyError while the corrected one returns the curve's time and curve columns |
| Backtester.PositionBacktester.constructor | src/pypostester/core/backtester.py:19-39 | the backtester keeps the validated frame, parameters, selection and sorted names |
| Backtester.PositionBacktester.AddIndicator | src/pypostester/core/backtester.py:70-72 | registers the indicator with the shared registry, last registration wins |
| Backtester.PositionBacktester.GetParams | src/pypostester/core/backtester.py:180-195 | commission and year length as given; "all" stays "all", any other selection reports the sorted names |
| Backtester.PositionBacktester.CalculateIndicators | src/pypostester/core/backtester.py:153-178 | the loop's result and cache are exactly those of the fold Partitioned over the sorted names |
| Backtester.PositionBacktester.Run | src/pypostester/core/backtester.py:74-119 | returns exactly RunOutcome: validation, join, curve, cache, loop and assembly |
| Backtester.Configured | src/pypostester/core/backtester.py:26-39 | succeeds exactly when the commission, year length, selection and close frame checks all pass, holding the validated frame and the validator's sorted names; otherwise the first failing check decides: a ValidationError becomes ValueError, any other exception escapes unchanged |
| Backtester.Create | src/pypostester/core/backtester.py:19-39 | a backtester exists exactly when Configured succeeds (all four checks pass), carries what they returned, and otherwise raises Configured's exception |
| LegacyBacktester.CalculateLegacy | src/core/backtester.py:142-145 | updates the cache and returns the result exactly as LegacyStep says |
| LegacyBacktester.StepCachesName | src/indicators/risks.py:7-125 | a successful built-in keeps every cache entry and caches its value under its name |
| LegacyBacktester.LegacyRegistry.constructor | src/core/backtester.py:5 | the older registry starts empty |
| LegacyBacktester.LegacyRegistry.Register | src/core/backtester.py:65-67 | stores under the indicator's name, replacing an earlier one, and appends only a new name |
| LegacyBacktester.LegacyRegistry.Requirements | src/core/backtester.py:128-129 | each registered name's `requires` as the sort reads it |
| LegacyBacktester.LegacyCurveFrame | src/core/backtester.py:31-63 | succeeds exactly for equal lengths and prices that never divide by zero; the frame holds timestamp, compounded curve and net returns |
| LegacyBacktester.LegacyPrepareCache | src/core/backtester.py:87-97 | the cache holds exactly year length, curve frame, total days (a whole number, at least 1) and returns |
| LegacyBacktester.WholeDaysOfRun | src/core/backtester.py:89-90 | total days is the whole days the stamps span, rounded down, and 1 for a span under two days |
| LegacyBacktester.Requested | src/core/backtester.py:107-109 | a list is iterated as it is, a string one character at a time |
| LegacyBacktester.Unknown | src/core/backtester.py:107-109 | exactly the requested names not available; empty exactly when all are available |
| LegacyBacktester.SubsetOfElems | src/core/backtester.py:107-110 | all of one list is in another exactly when its elements are a subset |
| LegacyBacktester.IndicatorsToCalculate | src/core/backtester.py:99-116 | "all" gives every registered name; otherwise succeeds exactly when every requested name is available, with ValueError naming the unknown and available names |
| LegacyBacktester.StringSelectionIsCharacters | src/core/backtester.py:107-109 | a string other than "all" is read character by character and rejected |
| LegacyBacktester.UnknownNamesListed | src/core/backtester.py:110-114 | the error message lists exactly the unknown names in request order, then the available ones |
| LegacyBacktester.Evaluated | src/core/backtester.py:142-145 | a successful evaluation has one result per sorted name, each registered |
| LegacyBacktester.EvaluationStops | src/core/backtester.py:142-145 | after a failure later names change nothing |
| LegacyBacktester.EvaluatedNamesAreCached | src/core/backtester.py:142-145 | with built-ins only, a successful evaluation leaves every evaluated name cached |
| LegacyBacktester.DependenciesReady | src/core/backtester.py:82-83 | in a dependency order, each indicator's dependencies are already cached when its turn comes |
| LegacyBacktester.RequirementsOf | src/core/backtester.py:128-129 | each entry's `requires`, keyed by name |
| LegacyBacktester.BuiltinEntries | src/indicators/risks.py:7-125 | the built-ins of the risk and returns modules, each caching under its own name |
| LegacyBacktester.BuiltinsAreAcyclic | src/indicators/risks.py:26-89 | the built-in dependencies have no cycle |
| LegacyBacktester.Prelude | src/core/backtester.py:72-79 | the curve frame, the curve column, the prepared cache and the selected names, or the first failure among them |
| LegacyBacktester.Finish | src/core/backtester.py:85 | the curve frame under "funding_curve" plus every indicator's result |
| LegacyBacktester.PositionBacktester.constructor | src/core/backtester.py:11-29 | the backtester keeps the converted frame, parameters and selection |
| LegacyBacktester.PositionBacktester.AddIndicator | src/core/backtester.py:65-67 | registers with the shared registry, last registration wins |
| LegacyBacktester.PositionBacktester.CalculateIndicators | src/core/backtester.py:138-145 | the loop's result and cache are exactly the fold Evaluated over the sorted names (with the corrected drawdown duration) |
| LegacyBacktester.PositionBacktester.Run | src/core/backtester.py:69-85 | a prelude failure is returned; otherwise a KeyError for a reached unregistered name, or Finish over the evaluation of a dependency order of the selection (with the corrected drawdown duration) |
| LegacyBacktester.Create | src/core/backtester.py:11-29 | a ValidationError becomes ValueError and any other exception escapes unchanged; otherwise a backtester over the converted frame and parameters |

## Left out

- Reading files, plotting, printing and translation: `BacktestResult.print`, the figure
  classes, `i18n.py` and the example scripts produce output only.
- Import-time discovery: `register_builtin_indicators` and `_load_built_in_figures`
  inspect modules by reflection. `IndicatorCatalog.RegisterAll` stands in for the
  registration loop, and the figure registry starts empty.
- pandas-to-polars conversion and the column dtypes: frames are rows of a `time` stamp
  in seconds and named reals.
- Floating point: reals are exact. A division of a series by zero, which polars turns
  into inf or NaN, is the fault `NotFinite`, and a scalar division by zero is
  `ZeroDivision`. `std`, `sqrt` and real powers are uninterpreted.
- The validators the current package imports (`validate_commission`,
  `validate_annual_trading_days`, `validate_indicators`, `validate_data_type`) are not
  defined anywhere: src/pypostester/utils/validation.py defines only `ValidationError`,
  `validate_and_convert_input` and `validate_time_alignment`, so the import at
  src/pypostester/core/backtester.py:6-14 raises ImportError and the backtester module as
  written cannot be loaded. The model does not capture that import failure. It describes
  the backtester as it would run once such validators exist: they are functions in an
  `ExternalChecks` record, so nothing is assumed about what they accept.
- `src/indicators/registry.py` is not part of this model. The older registry is modelled
  on the newer one's dict semantics, except that its KeyError for an unregistered name
  (DependencySort.Visitor.Visit, LegacyBacktester.Evaluated) carries the name itself.
- The risk module of the current package is not part of this model.
- A position outside [-1, 1]: tests/test_backtester.py:119-126 expects it refused, but no
  validator in the modelled code checks the range, so the model accepts it as the code does.
- Series-valued indicator results are modelled only as far as `format` expecting a
  number, which raises TypeError.
- Join column suffixes: the merged frame keeps only the close row's fields plus
  `position`. Nulls in input frames are not modelled.
- Backtester.Configured: the ValueError detail is abbreviated to "Invalid input", without
  the validator's message.
- Backtester.InvalidPositionIsValueError: the ValueError detail is abbreviated to
  "Invalid position input".
- A ValidationError that `validate_data_type` raises outside any `try` escapes with a
  fixed detail text, not the validator's message.
- LegacyBacktester.ListRepr: Python's `repr` escaping of quotes inside names is not
  modelled.
- RiskIndicators.DurationFailsWhenCurveNeverFalls: indexing a Series by None is modelled
  as TypeError with a fixed message.
- IndicatorCatalog.CalculateStep: a returns-module class called as `calculate(cache)`
  gets a fixed TypeError message.
- LegacyBacktester.PositionBacktester.Run: the order is stated to be some dependency
  order of the selection, as the sort promises, rather than the exact DFS order.
- LegacyBacktester.Create: the ValueError detail is abbreviated to "Invalid input", without
  the ValidationError's message.
- RiskIndicators.CalculateMaxDrawdownDuration, LegacyBacktester.Evaluated,
  LegacyBacktester.PositionBacktester.CalculateIndicators and
  LegacyBacktester.PositionBacktester.Run: these use the corrected drawdown duration (see
  "## Findings"), so a curve that never falls yields 0 days where src/indicators/risks.py:38-42
  raises TypeError; the as-written behaviour is RiskIndicators.DurationValue.
- Validation.ValidateAndConvertInput and Backtester.MergeOnTime: rows with equal time stamps
  keep their input order (`Sorting.SortBy` is stable), while polars' default sort does not
  promise any order among them, so with repeated stamps the model fixes one of the row
  orders polars may produce, and the curve and indicators follow that order.
- IndicatorCatalog.CalculateStep: no indicator class of the current package defines
  `format`, which src/pypostester/indicators/base.py:40-50 declares abstract, so
  `registry.register(obj())` (src/pypostester/indicators/registry.py:55) raises TypeError
  while the registry module is imported; `IndicatorCatalog.Instantiate` states that
  refusal. The built-in instances that `Indicators`, `CurveReturns` and
  `IndicatorCatalog.RegisterAll` describe are what those classes would compute once given a
  `format`; the source as written never creates them.
- LegacyBacktester.BuiltinEntries: `src/indicators/returns.py`, which the older engine's
  registry loads, is not part of this model; its `annual_return` and `sharpe_ratio` are
  taken to be the `calculate(curve, cache)` formulas of src/pypostester/indicators/returns.py
  (`CurveReturns`).
- Backtester.ColumnEntry: `v[k]` of a time column is a polars Series; the model has no
  series of time stamps, so it renders that column as a one-column frame.
- Concurrency: none in the source.

## Findings

| source | as written | input that shows it | evidently intended | confidence | as-written member | corrected member |
|---|---|---|---|---|---|---|
| src/pypostester/core/backtester.py:115-119 | `run` passes `dataframes=`, `indicator_values=` and `formatted_indicator_values=` to a dataclass whose fields (src/pypostester/models/models.py:10-12) are `_dataframes`, `_indicator_values` and `_formatted_indicator_values` | any valid close and position frames: `run` raises TypeError for the unexpected keyword | build the record from the three dicts | not executed; high | Backtester.RunAsWrittenAlwaysRaises | Backtester.Assemble |
| src/pypostester/models/models.py:17 | `funding_curve` reads the entry "merged_df" | any record `run` builds: it stores the curve under "funding_curve", so the property raises KeyError | read "funding_curve" | not executed; high | Backtester.FundingCurveKeyMismatch | Results.FundingCurve |
| src/indicators/risks.py:35-42 | the drawdown start is `curve[:end_idx].arg_max()` | a positive curve that never falls, such as a flat one: the trough is row 0, the slice is empty, and its arg_max is None | duration 0 when the curve never falls | not executed; medium | RiskIndicators.DurationFailsWhenCurveNeverFalls | RiskIndicators.CorrectedDurationOfRisingCurve |
