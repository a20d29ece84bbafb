# hitthebid: a Dafny model of the sweep tooling and the LVN trading core

hitthebid trades Nasdaq futures (NQ) around **low-volume nodes** (LVNs): thin
price levels that a fast impulse leg leaves behind in its volume profile. The
strategy waits for price to come back to such a level, checks that the market
is imbalanced and that order-flow delta agrees with the impulse, and enters
with a structure stop, a target and a trailing stop. Several drivers run the
same idea:
- backtesters over cached days (LVN retest, three-element, smart LVN);
- a replay of the live trader;
- live traders fed by Databento, Rithmic or Interactive Brokers;
- a web stream.

Parameter sweeps run the backtester over a grid of settings and rank the
results.

This project models that logic in Dafny 4 as pure functions over immutable
datatypes. It proves what each operation promises.

## The modelled parts

**Sweep tooling**
- `SweepGrid` and `SweepScript` model the Python sweep drivers
  (`scripts/param_sweep.py`, `scripts/param_sweep_targeted.py`). This covers
  the parameter grid, the outcome of a backtester run, metric extraction with
  zero defaults, the derived `rr_ratio` and `expectancy`, and the append-only
  results file with resume.
- `RustSweep` models the Rust driver (`src/pipeline/sweep.rs`).
- `SweepAnalysis` and `Ranking` model the analyser (`scripts/analyze_sweep.py`):
  numeric coercion, filters, stable sorts, grouping by value and the
  "robust" selection with its fallback.

**Data plumbing**
- `Symbols`, `Calendar`, `Cache` and `Text`: front-month codes, dates in file
  names, cache listings and date filters, and comma lists.

**Market structure**
- `Profile`, `Levels` and `DailyStats`: volume profiles and value areas
  (`val <= poc <= vah`), daily key levels and the level index.
- `Lvn`: LVN extraction.
- `Impulse`: impulse legs.
- `MarketRegime`: balanced versus imbalanced markets.
- `Processing`: the live order-flow processor.

**Strategy state machines**
- `RetestSignals`: the LVN retest generator, Untouched → Touched → Armed → Retesting.
- `BreakoutMachine`: the breakout machine, Waiting → Profiling → Hunting → Reset.
- `RetestBacktest`, `ThreeElement`, `SmartLvn` and `SmartSweep`: the backtesters.
- `Stats`: the statistics the backtesters share.

**Live trading**
- `LiveTrading`: the broker-agnostic live trader.
- `ReplayTrading`: its replay over cached days.
- `RithmicLive` and `IbExecution`: the Rithmic trader and the two order managers.
- `Market`: the bar aggregators.
- `LiveStream`: the signal broadcast.

**Execution layer**
- `Orders`, `Positions`, `Settings` and `Engine`.
- `Observer`: the delta-flip observer of `src/trading.rs`.

## Modelling choices

- **Numbers.** Prices and metrics are `real`.
  - Rust's `as i64`, `f64::round` and `i64` halving are written out in `Base`, and Rust's `%` in `Symbols`.
  - Saturating casts and `u64` wrap-around are written out where the source relies on them.
  - An infinite profit factor is the `Infinite` variant of `Ratio`.
- **Clocks, identifiers and the square root.** Wall clocks and time zones are parameters:
  - `et` gives a timestamp's hour and minute in New York;
  - `now` and `clock` give local readings.

  UUIDs are parameters too, and so is the square root behind a Sharpe ratio.
- **Foreign calls.** Broker replies and the backtester's printed output are inputs.
- **Collections.** Hash maps become association lists. B-tree maps become key-ordered sequences.
- **Documentation versus code.** Where the documented behaviour and the code differ, the model follows the code:
  - In the Python grid, `params.update(FIXED_PARAMS)` runs after the swept values are zipped in. On a name clash the fixed value therefore wins, not the swept one (`SweepGrid.FixedOverridesSwept`).
  - The Python and Rust `rr_ratio` differ when the average win is negative (`RustSweep.RrRatioAgainstScript`).

## Model

| member | source | states |
|---|---|---|
| SweepGrid.ProductLength | scripts/param_sweep.py:157-166 | the number of generated tuples is the product of the range lengths |
| SweepGrid.ProductMember | scripts/param_sweep.py:161 | a tuple is generated exactly when it has one component per range, each drawn from its own range |
| SweepGrid.ProductOrder | scripts/param_sweep.py:161 | the first range is the outermost loop: tuple i·n+j is the i-th first value followed by the j-th tuple of the rest |
| SweepGrid.ProductLastFastest | scripts/param_sweep.py:161 | the last range varies fastest: the k-th tuple ends in that range's (k mod length)-th value |
| SweepGrid.ZipMap | scripts/param_sweep.py:162 | the dictionary built by zip has exactly the parameter names as keys |
| SweepGrid.ZipMapLookup | scripts/param_sweep.py:162 | with distinct names, each name maps to the value in its own position |
| SweepGrid.GenerateCombinations | scripts/param_sweep.py:154-166 | one dictionary per product tuple; each holds the swept names plus the fixed names, and every fixed name carries its fixed value |
| SweepGrid.SweptValues | scripts/param_sweep.py:157-164 | a swept name not also fixed takes a value from its own range |
| SweepGrid.FixedOverridesSwept | scripts/param_sweep.py:162-163 | on a name clash the fixed value wins, because `update` runs after `zip` |
| SweepGrid.GridSizes | scripts/param_sweep.py:19-50 | the full grid has 32256 combinations, the quick grid 48, the targeted grid 288 |
| SweepGrid.FullGridSize | scripts/param_sweep.py:20-37 | the full ranges multiply out to 32256 |
| SweepGrid.QuickGridSize | scripts/param_sweep.py:40-50 | the quick ranges multiply out to 48 |
| SweepGrid.TargetedGridSize | scripts/param_sweep_targeted.py:22-41 | the targeted ranges multiply out to 288 |
| SweepGrid.SweptAndFixedDisjoint | scripts/param_sweep.py:20-66 | no swept name is also fixed and the swept names are distinct, so every swept value survives the merge |
| SweepGrid.RustGenerateCombinations | src/pipeline/sweep.rs:269-313 | the nine nested loops produce one record per tuple of the nine slices |
| SweepGrid.RustFieldsFromOwnSlices | src/pipeline/sweep.rs:283-304 | each field of each record comes from its own slice |
| SweepGrid.RustInnermostHunting | src/pipeline/sweep.rs:291-303 | the innermost loop is `max_hunting_bars`, so it cycles fastest |
| SweepGrid.RustOutermostDelta | src/pipeline/sweep.rs:283 | the outermost loop is `min_delta`, so each of its values owns one contiguous block |
| SweepScript.Command | scripts/param_sweep.py:72-95 | the backtester is called with `replay-realtime` and every flag, in order, paired with the value of its own parameter |
| SweepScript.CombinationsRunnable | scripts/param_sweep.py:72-95 | every combination the sweep generates names every parameter the command line reads, so none raises `KeyError` |
| SweepScript.SweptKeysOnCommandLine | scripts/param_sweep.py:83-92 | every swept parameter reaches the backtester under a flag of its own |
| SweepScript.Capture | scripts/param_sweep.py:126-135 | a captured group is non-empty, follows at least one space, and is all digits for the count patterns |
| SweepScript.FirstCapture | scripts/param_sweep.py:139-140 | a match comes from a line carrying the tag; no match means no such line has a matching rest |
| SweepScript.FirstCaptureAppend | scripts/param_sweep.py:139 | `re.search` keeps the first match: text after a matching line cannot change the value |
| SweepScript.ReadCount | scripts/param_sweep.py:141-143 | a count is 0 without a match, else the number the matched digits spell |
| SweepScript.ReadFloat | scripts/param_sweep.py:141-145 | a float is 0.0 without a match; otherwise the comma-stripped capture converted, or a `ValueError` when `float` rejects it |
| SweepScript.WinRate | scripts/param_sweep.py:147-149 | the win rate is 0 without trades, else wins as a percentage of trades |
| SweepScript.ParseOutputFields | scripts/param_sweep.py:108-151 | each metric of a parsed record is the first matching value or its default, and parsing fails exactly when a matched float does not convert |
| SweepScript.ParseWithoutMetrics | scripts/param_sweep.py:111-123 | output without any metric line parses to the all-zero defaults |
| SweepScript.CapturePlain | scripts/param_sweep.py:126-133 | a run of class characters after one space is captured whole |
| SweepScript.CaptureOptSigned | scripts/param_sweep.py:134 | `[+-]?[\d.]+` captures an optionally signed numeral together with its sign |
| SweepScript.CaptureDollar | scripts/param_sweep.py:135 | `\$([\d,.]+)` captures a dollar amount without its '$' |
| SweepScript.FirstCaptureAt | scripts/param_sweep.py:139 | the first line carrying the tag decides the match |
| SweepScript.ReadCountAt | src/pipeline/replay_trading.rs:384 | a count the replay prints with `{}` reads back as itself |
| SweepScript.ReadHundredths | src/pipeline/replay_trading.rs:389-396 | a figure printed with two decimals reads back as its value, whatever shape reads it |
| SweepScript.ReadPlainAt | src/pipeline/replay_trading.rs:389-392 | a figure printed with `{:.2}` reads back as its value through the unsigned and signed patterns |
| SweepScript.ReadPnlAt | src/pipeline/replay_trading.rs:394 | the P&L printed with `{:+.2}` reads back as its value, sign included |
| SweepScript.ReadDollarAt | src/pipeline/replay_trading.rs:396 | the drawdown printed as `${:.2}` reads back as its value |
| SweepScript.ParseOutputOf | scripts/param_sweep.py:108-151 | parsing yields a given record when every pattern reads that record's value |
| SweepScript.RunBacktest | scripts/param_sweep.py:97-105 | a timeout or other exception becomes an error reply; otherwise stdout and stderr are parsed together, and a conversion error escapes |
| SweepScript.ExitCodeIgnored | scripts/param_sweep.py:98-105 | the exit status never changes the reply |
| SweepScript.RrRatio | scripts/param_sweep.py:230-233 | the risk-reward ratio is the int 0 when the average loss is 0, otherwise the non-negative ratio of average win to average loss |
| SweepScript.Expectancy | scripts/param_sweep.py:235-241 | the expectancy is the int 0 without trades, otherwise win share times average win minus loss share times the absolute average loss |
| SweepScript.RecordRow | scripts/param_sweep.py:244-246 | a written record has exactly the CSV columns |
| SweepScript.ParamColumn | scripts/param_sweep.py:244 | a parameter column holds the parameter's value, or an empty cell when the combination lacks it |
| SweepScript.RecordColumns | scripts/param_sweep.py:245 | the metric columns hold the parsed and derived metrics, whatever the parameters are |
| SweepScript.LinesFor | scripts/param_sweep.py:223-247 | a run adds one record when it parsed and nothing on an error reply |
| SweepScript.RunLines | scripts/param_sweep.py:206-247 | every run contributes its lines, in combination order |
| SweepScript.RecordsSplit | scripts/param_sweep.py:206-247 | the records of adjacent ranges of runs join |
| SweepScript.FirstCrash | scripts/param_sweep.py:223 | the first run whose output does not convert, every earlier run having converted |
| SweepScript.StartIndex | scripts/param_sweep.py:206-208 | indices below `--resume` are skipped |
| SweepScript.Opened | scripts/param_sweep.py:198-202 | a positive resume keeps the file, a zero resume truncates it and writes the header, a negative resume truncates it without a header |
| SweepScript.FullSweep | scripts/param_sweep.py:169-247 | the file ends as the opened file plus the records of the runs from the start index to the first conversion error, and the script stops exactly when such an error occurs |
| SweepScript.ResumeMatchesSinglePass | scripts/param_sweep.py:198-208 | resuming at the run a fresh sweep stopped before writes the same file one uninterrupted sweep writes |
| SweepScript.TargetedSweep | scripts/param_sweep_targeted.py:159-216 | the targeted sweep always starts a fresh file with one header, then at most one record per combination |
| SweepScript.TargetedSummary | scripts/param_sweep_targeted.py:222-237 | the summary counts the rows with positive P&L and at least ten trades, and shows at most ten of them, all qualifying, in descending Sharpe order |
| SweepScript.SummaryShowsBest | scripts/param_sweep_targeted.py:229-234 | a qualifying row left out of the top ten has a Sharpe ratio no higher than any row shown |
| SweepScript.RecordsSummarisable | scripts/param_sweep_targeted.py:213-228 | every record the sweep writes can be read back by the summary, with the numbers it was written with |
| RustSweep.BaseConfig | src/pipeline/sweep.rs:338-362 | every run trades one NQ contract on CME from a 50000 balance with a two-point tolerance |
| RustSweep.RunConfig | src/pipeline/sweep.rs:118-142 | target, trail, stop buffer, delta and node ratio come from the grid point; daily loss count off, loss limit 1000, point value 20, slippage 0.5, commission 4 |
| RustSweep.RunConfigUsesAccountOnly | src/pipeline/sweep.rs:118-142 | bases that agree on symbol, exchange, contracts, tolerance and balance give the same run |
| RustSweep.MachineConfigOf | src/pipeline/sweep.rs:144-152 | the breakout machine takes the grid point's threshold, impulse size and score and hunt length, with 300-bar impulses |
| RustSweep.DistinctPointsDistinctRuns | src/pipeline/sweep.rs:118-152 | two different grid points never give the same pair of configurations, so no swept value is ignored |
| RustSweep.RunSweep | src/pipeline/sweep.rs:316-403 | an error exactly when no day is cached; otherwise one result per grid point, in grid order, with that point's summary |
| RustSweep.RrRatio | src/pipeline/sweep.rs:418-422 | 0 without an average loss; otherwise the ratio that times the size of the loss gives the average win |
| RustSweep.Expectancy | src/pipeline/sweep.rs:424-430 | 0 without trades; otherwise the per-trade value whose total is the wins' gain less the losses' cost |
| RustSweep.RrRatioAgainstScript | src/pipeline/sweep.rs:418-422 | the Rust ratio equals the Python sweep's unless the average win is negative, where it is its negation |
| RustSweep.ExpectancyAgreesWithScript | src/pipeline/sweep.rs:424-430 | the Rust and Python expectancies agree on the same counts and averages |
| RustSweep.Record | src/pipeline/sweep.rs:432-456 | a record has exactly as many fields as the header has columns, 22 |
| RustSweep.RecordMatchesHeader | src/pipeline/sweep.rs:409-456 | every field sits under the column that names it |
| RustSweep.HeaderDistinct | src/pipeline/sweep.rs:409-413 | no column name repeats, so a lookup by name finds its field |
| RustSweep.TotalPnlIsNet | src/pipeline/sweep.rs:453 | the `total_pnl` column holds the run's net P&L |
| RustSweep.Profitable | src/pipeline/sweep.rs:463-466 | a result is counted profitable exactly when its net P&L is positive over at least ten trades |
| SweepAnalysis.CoerceCell | scripts/analyze_sweep.py:24-31 | a cell becomes a float when it holds a '.' or names a float column and an int otherwise; an empty cell reads as zero of that kind; a cell that is not a plain decimal numeral of that kind stays the original string (see Left out) |
| SweepAnalysis.LoadRow | scripts/analyze_sweep.py:22-32 | a loaded row keeps every column, each coerced on its own |
| SweepAnalysis.LoadResults | scripts/analyze_sweep.py:17-33 | one loaded row per CSV record, in file order |
| SweepAnalysis.CoerceIntegerCell | scripts/analyze_sweep.py:26-29 | a whole number written by `str(int)` reads back as itself: an int in an int column, a float in a float column |
| SweepAnalysis.CoerceIntegralFloatCell | scripts/analyze_sweep.py:26-27 | a float written as "12.0" reads back as the same float in any column |
| SweepAnalysis.FilterResults | scripts/analyze_sweep.py:36-38 | the kept rows are exactly those with enough trades and a high enough profit factor, drawn from the input |
| SweepAnalysis.FilterResultsAppend | scripts/analyze_sweep.py:38 | filtering keeps input order: the kept rows of a concatenation are those of each part, in order |
| SweepAnalysis.SortResults | scripts/analyze_sweep.py:41-43 | the result is a permutation of the input, ordered by the column (a missing one counting as 0), descending when `reverse` holds and ascending otherwise |
| SweepAnalysis.SortResultsStable | scripts/analyze_sweep.py:43 | rows with equal sort values keep their input order, in both directions |
| SweepAnalysis.GroupsOf | scripts/analyze_sweep.py:79-92 | one group per distinct parameter value, in ascending value order; each group is non-empty and its statistics are those of exactly the rows with that value, in input order |
| SweepAnalysis.Summarise | scripts/analyze_sweep.py:88-92 | a group's count is its size, and each of its four averages times the size is the group's total of that column |
| SweepAnalysis.GroupCountsPartition | scripts/analyze_sweep.py:79-81 | every valid row falls into exactly one group: the group sizes add up to the number of rows |
| SweepAnalysis.GroupAverageBounds | scripts/analyze_sweep.py:89-92 | a group's mean lies between the smallest and largest value in the group |
| SweepAnalysis.AnalyzeParameterImpact | scripts/analyze_sweep.py:61-93 | no report exactly when no row has enough trades; otherwise one non-empty report per listed parameter, in list order, whose groups are those of the rows with enough trades |
| SweepAnalysis.ImpactPartitionsRows | scripts/analyze_sweep.py:69-81 | in each parameter's report, every row with enough trades has its value among the groups, and the group sizes add up to the number of such rows |
| SweepAnalysis.FindRobustConfigs | scripts/analyze_sweep.py:96-122 | exactly min(10, number of candidates) rows from the input, in descending Sharpe order; when any row passes the strict test all shown rows pass it, otherwise all pass the looser test; none exactly when no row passes either |
| SweepAnalysis.RobustSelection | scripts/analyze_sweep.py:103-118 | the shown rows come from the strict rows when there are any and from the looser rows otherwise |
| SweepAnalysis.SharpeOrder | scripts/analyze_sweep.py:118 | the robust rows are shown in descending Sharpe order |
| SweepAnalysis.RobustConfigsAreBest | scripts/analyze_sweep.py:118 | a candidate row left out of the robust list has a Sharpe ratio no higher than any row shown |
| SweepAnalysis.StrictCandidates | scripts/analyze_sweep.py:103-106 | with a strict row present, the candidates are the strict rows and there is at least one |
| SweepAnalysis.LooserCandidates | scripts/analyze_sweep.py:108-114 | with no strict row, the candidates are the looser rows, and there are none exactly when no row passes the looser test |
| SweepAnalysis.BestBy | scripts/analyze_sweep.py:141-150 | `max(..., default=None)` is None exactly on an empty list; otherwise it is the first row of maximal key |
| SweepAnalysis.SummaryStatsOf | scripts/analyze_sweep.py:125-153 | an empty result list is a division by zero; otherwise the count of rows with positive P&L and of rows with trades, each as a percentage of all rows, the best row by P&L, and the first-maximal rows by profit factor and by Sharpe ratio among profitable rows with at least ten trades |
| SweepAnalysis.SummaryBestSeasoned | scripts/analyze_sweep.py:145-151 | the best-by-PF and best-by-Sharpe rows are rows of the file with positive P&L and at least ten trades, and no such row has a higher value |
| SweepAnalysis.BestByPnl | scripts/analyze_sweep.py:134-143 | there is a best-by-P&L row exactly when some row has positive P&L, and no row has a higher P&L |
| SweepAnalysis.SeasonedExists | scripts/analyze_sweep.py:145-151 | there are best-by-PF and best-by-Sharpe rows exactly when some profitable row has at least ten trades |
| SweepAnalysis.Analyze | scripts/analyze_sweep.py:156-182 | the run fails exactly on an empty file; otherwise its report is the summary, the top rows, the impact report and the robust list, all with the same trade minimum |
| SweepAnalysis.TopRows | scripts/analyze_sweep.py:172-176 | min(`top`, number of rows with enough trades) rows drawn from those rows, in descending order of the chosen column, and every such row left out is no better than any row listed |
| Ranking.Filter | scripts/analyze_sweep.py:38 | a list comprehension keeps exactly the elements that pass, each drawn from the input |
| Ranking.FilterAppend | scripts/param_sweep_targeted.py:228 | filtering distributes over concatenation, so kept elements keep their relative order |
| Ranking.SortDesc | scripts/analyze_sweep.py:43 | a stable sort by descending key returns a permutation of its input in non-increasing key order |
| Ranking.SortDescStable | scripts/param_sweep_targeted.py:229 | restricted to any one key value, the sorted output lists the same elements in the same order as the input |
| Ranking.GroupsPartition | scripts/analyze_sweep.py:79-81 | grouping by distinct key values places every element in exactly one group |
| Ranking.DistinctSorted | scripts/analyze_sweep.py:87 | `sorted(groups.keys())`: the distinct values, strictly increasing, each taken from the input |
| Ranking.SliceTo | scripts/analyze_sweep.py:56 | Python `xs[:n]` keeps the first `n` elements, and a negative `n` drops that many from the end |
| Ranking.TopN | scripts/param_sweep_targeted.py:229-234 | the first `n` of the stable descending sort: at most `n` elements of the input, best first |
| Ranking.MaxFirst | scripts/analyze_sweep.py:141 | Python `max(key=...)` returns the first element of maximal key |
| Ranking.MaxLast | src/pipeline/levels.rs:196-200 | Rust `max_by` returns the last element of maximal key |
| Ranking.MeanBounds | scripts/analyze_sweep.py:89-92 | a mean lies between a lower and upper bound of its values |
| Base.Trunc | src/processing.rs:405 | Rust `as i64` drops the fractional part, rounding toward zero |
| Base.Round | src/pipeline/lvn.rs:95 | `f64::round` is within one half of its argument and keeps its sign |
| Base.HalfTrunc | src/trading_core/market_state.rs:172-174 | Rust integer division by two truncates toward zero |
| Text.NatToStringRoundTrip | scripts/param_sweep.py:143 | a natural number printed in decimal reads back as itself |
| Text.IntToStringRoundTrip | scripts/analyze_sweep.py:29 | an integer printed in decimal reads back as itself through `int` |
| Text.HundredthsRoundTrip | src/pipeline/replay_trading.rs:389 | a value printed with two decimals reads back through `float` as that value |
| Text.Split | src/trading_core/cache.rs:71-89 | `str::split` yields at least one piece and no piece holds the separator |
| Text.SplitJoin | src/trading_core/cache.rs:71-89 | joining the pieces of a split with the separator rebuilds the input |
| Text.JoinSplit | src/trading_core/cache.rs:71-89 | splitting a join of separator-free pieces gives the pieces back |
| Text.SplitCount | src/trading_core/cache.rs:71-89 | a split has one more piece than the input has separators |
| Text.Trim | src/pipeline/main.rs:2048-2051 | the input is the trimmed text with only Unicode White_Space before and after it (form feed, no-break space and the rest, as `str::trim` strips), and the trimmed text starts and ends with a non-space |
| Text.ParseF64Plain | src/pipeline/main.rs:2052-2063 | a numeral without 'e' or 'E' reads through the `f64` parse exactly as through the plain decimal parse |
| Text.ParseF64Scientific | src/pipeline/main.rs:2052-2063 | an optionally signed decimal followed by 'e' and a printed integer exponent reads as the decimal's value times ten to that power |
| Text.ParseF64OfInt | src/pipeline/main.rs:2052-2063 | a printed integer reads back through the `f64` parse as itself |
| Text.ParseF64Examples | src/pipeline/main.rs:2052-2063 | "1e1" reads as 10, "2.5E0" as 2.5 and "-25e-1" as -2.5 |
| Text.ParseF64Rejects | src/pipeline/main.rs:2052-2063 | a token with no digits before or after the exponent mark, and the word "inf", read as nothing |
| Text.PaddedSplits | src/pipeline/main.rs:2048-2051 | a padded text is exactly its leading white space, then the trimmed text, then its trailing white space, concatenated |
| Text.StripSuffix | src/trading_core/cache.rs:43-61 | a suffix is stripped exactly when the name ends with it, and what is left plus the suffix is the name |
| Text.LexLeTotal | src/trading_core/cache.rs:43-61 | string order is total, so sorting dates is well defined |
| Calendar.FormatYmd | src/pipeline/trades.rs:37-47 | a day in years 0 to 9999 is written as eight digits |
| Calendar.ParseYmd | src/pipeline/trades.rs:41-43 | `%Y%m%d` parsing yields only real days in years 0 to 9999 |
| Calendar.YmdRoundTrip | src/pipeline/trades.rs:41-43 | formatting a day and parsing it back gives the same day |
| Calendar.SkipWeekendsBackward | src/trading_core/daily_levels.rs:157-163 | the result is the latest weekday not after the input, at most two days earlier |
| Calendar.ChronoToTimeDate | src/trading_core/daily_levels.rs:136-154 | the conversion keeps year, month and day, and fails exactly when the year is outside the range `time` accepts |
| Symbols.RustRem | src/pipeline/main.rs:1177 | Rust `%` gives a remainder with the sign of the dividend |
| Symbols.AsU8 | src/pipeline/trades.rs:23 | `as u8` keeps the low eight bits |
| Symbols.RollingContract | src/pipeline/main.rs:1156-1174 | the front month is the quarterly contract whose roll date (its month's 10th) is the first one strictly after the date; only late December moves to the next year |
| Symbols.FrontMonthContract | src/pipeline/main.rs:1149-1180 | the code is the base symbol, then the letter of the rolling contract, then the Rust remainder of its year by 10, a single digit for a non-negative year |
| Symbols.QuarterCode | src/pipeline/trades.rs:25-31 | the code names the calendar quarter of the date: its month falls in the three months ending with the contract month |
| Symbols.FrontMonthSymbol | src/pipeline/trades.rs:21-34 | the symbol is "NQ", the letter of the date's calendar quarter, then the year's last digit for a non-negative year |
| Symbols.FrontMonthRulesAgree | src/pipeline/trades.rs:21-34 | the two front-month rules name the same contract exactly outside the roll window at the end of each quarter |
| Symbols.SplitSeps | src/pipeline/trades.rs:38 | splitting on '-' and '.' yields at least one piece and no piece holds a separator |
| Symbols.SplitJoinSeps | src/pipeline/trades.rs:38 | splitting separator-free pieces joined by separators gives the pieces back |
| Symbols.FirstDatePiece | src/pipeline/trades.rs:39-40 | the first piece of eight digits, or none when there is no such piece |
| Symbols.ExtractDateFromFilename | src/pipeline/trades.rs:37-47 | the first eight-digit piece decides: a real day is returned only from it, and no such piece gives None |
| Symbols.ExtractDateFromTradesFile | src/pipeline/trades.rs:37-47 | the day an exchange trades file is named for is the day read back from its name |
| Symbols.ExtractDateFromPath | src/pipeline/precompute.rs:140-147 | a date label exists exactly when the name has at least two '-', and it holds neither '-' nor '.' |
| Symbols.DayLabel | src/pipeline/precompute.rs:28-33 | the label is the extracted date, or "unknown" |
| Symbols.DateReadersAgree | src/pipeline/precompute.rs:140-147 | both date readers agree on the exchange's file names |
| Symbols.ParseList | src/pipeline/main.rs:2048-2071 | the parsed list has no more values than the text has comma-separated tokens |
| Symbols.ParseTokensMember | src/pipeline/main.rs:2050 | every value in the list is the parse of some trimmed token |
| Symbols.ParseTokensAllGood | src/pipeline/main.rs:2050 | when every token parses, the list is exactly their values in order |
| Symbols.ParseTokensAllBad | src/pipeline/main.rs:2050 | tokens that fail to parse are dropped, so no good token gives an empty list |
| Symbols.ParseI64 | src/pipeline/main.rs:2048-2051 | an `i64` parse stays within the 64-bit range |
| Symbols.ParseUsize | src/pipeline/main.rs:2064-2067 | a `usize` parse stays within the 64-bit unsigned range |
| Symbols.ParseU8 | src/pipeline/main.rs:2068-2071 | a `u8` parse is below 256 |
| Symbols.SweepCommandSlices | src/pipeline/main.rs:2048-2088 | LVN ratio, impulse size and breakout threshold are fixed one-value lists, so the grid size is the product of the six parsed lists |
| Symbols.FloatTokensExample | src/pipeline/main.rs:2052-2063 | the float-list tokens "1e1" and a form-feed-padded "20" both read as values once trimmed, so a list of the two keeps both |
| Cache.SortNames | src/pipeline/precompute.rs:135-136 | sorting names gives a byte-wise ordered permutation |
| Cache.StrippedNames | src/pipeline/precompute.rs:125-133 | a date is listed exactly when `<date>.json.zst` is in the directory |
| Cache.CachedDates | src/trading_core/cache.rs:43-61 | a missing directory gives no dates; otherwise exactly the cached dates, ascending |
| Cache.RangeFilter | src/trading_core/cache.rs:73-80 | a filter "a:b" keeps exactly the dates from a to b inclusive |
| Cache.SubstringFilter | src/trading_core/cache.rs:81-85 | a filter without ':' keeps the dates that contain it |
| Cache.DatesToLoad | src/trading_core/cache.rs:71-89 | without a filter every date is loaded; otherwise exactly the selected dates |
| Cache.DatesToLoadSorted | src/trading_core/cache.rs:71-89 | the dates to load stay in ascending order |
| Cache.LoadDayCache | src/trading_core/cache.rs:28-40 | an absent file is no day; a present file is the outcome of decoding it |
| Cache.LoadAll | src/trading_core/cache.rs:94-106 | days that are absent or fail to load are dropped, and every kept day is the load of some date |
| Cache.LoadAllAppend | src/trading_core/cache.rs:94-106 | loading keeps the relative order of the dates |
| Cache.LoadAllComplete | src/trading_core/cache.rs:94-106 | when every day loads, nothing is dropped and the order is the date order |
| Cache.LoadAllCached | src/trading_core/cache.rs:68-110 | the days loaded are those of the filtered cached dates, in date order |
| Cache.ProcessDay | src/pipeline/precompute.rs:25-69 | the date label comes from the file name, and a day without trades is an empty record |
| Cache.FindZstFiles | src/pipeline/trades.rs:85-107 | the listed files are exactly the ".zst" entries containing the filter, sorted |
| Cache.RowSide | src/pipeline/trades.rs:148-152 | "B" is a buy, "A" a sell, and any other side is dropped |
| Cache.ParseRows | src/pipeline/trades.rs:131-166 | the rows parse exactly when every kept row's timestamp parses |
| Cache.ParseRowsKept | src/pipeline/trades.rs:134-165 | the trades parsed are, one for one and in order, the trade rows of the front-month contract with a known side |
| Cache.ParseTrades | src/pipeline/trades.rs:111-176 | a file name without a date is an error; otherwise only the front-month contract for that date is kept |
| IbExecution.ContractOfFrontMonth | src/pipeline/ib_execution.rs:49-70 | the contract built from a front-month local symbol trades under its base symbol |
| Market.SynthesizeTrades | src/pipeline/replay_trading.rs:25-99 | a bar without volume gives no trades; otherwise at most three trades at the bar's time, the buying at the low and close and the selling at the high for a rising bar, mirrored for a falling one |
| Market.SynthesizedVolume | src/pipeline/sweep.rs:42-106 | the synthesised size is the bar's buy plus sell volume, less at most one contract lost to integer halving |
| Market.HistoricalSide | src/pipeline/trades.rs:148-152 | historical rows: "B" is a buy, "A" a sell, anything else drops the row |
| Market.LiveIsBuyAsWritten | src/pipeline/databento_ib_live.rs:229-233 | live feeds as written: 'B' or 'b' is a sell, and every other byte, 'A' included, a buy |
| Market.AggressorMappingsDisagree | src/streams/live.rs:264-270 | the historical and live readings of the same side byte disagree on both 'A' and 'B' |
| Market.LiveIsBuy | src/pipeline/trades.rs:148-152 | the live reading corrected to the historical convention: 'A' or 'a' is a sell |
| Market.LiveAgreesWithHistorical | src/pipeline/trades.rs:148-152 | the corrected live reading names the same side as the historical reading for every byte the historical reading accepts |
| Market.Start | src/pipeline/databento_ib_live.rs:45-58 | a new bar opens, closes, highs and lows at the trade price and holds its size on its own side |
| Market.AddTrade | src/pipeline/databento_ib_live.rs:60-71 | adding a trade widens the range to the price, moves the close, and adds the size to the total and to its side |
| Market.ToBar | src/pipeline/databento_ib_live.rs:73-87 | a completed bar's delta is its buy volume minus its sell volume |
| Market.Step | src/pipeline/databento_ib_live.rs:98-124 | the first trade opens a bar; a trade in the same second merges into it; a trade in a later second completes it and opens the next |
| Market.Flush | src/pipeline/databento_ib_live.rs:127-129 | a flush returns the bar in progress, if any, and empties the aggregator |
| Market.Aggregate | src/trading_core/trader.rs:160-199 | a stream of trades leaves a bar in progress exactly when it is non-empty, and completes at most one bar per trade |
| Market.AggregateConserves | src/pipeline/databento_ib_live.rs:98-124 | no trade is lost: the completed bars and the bar in progress hold exactly the volume and delta of the trades |
| Market.FlushConserves | src/pipeline/databento_ib_live.rs:127-129 | after a flush the completed bars hold all the volume and delta of the stream |
| Market.AggregateOrdered | src/pipeline/databento_ib_live.rs:98-124 | completed bars are in strictly increasing seconds, all before the bar in progress |
| Impulse.CheckUniformCandles | src/trading_core/impulse.rs:238-279 | a uniform leg has at least 70% of its candles pointing its way and fewer than half of its consecutive bodies overlapping; an empty leg is not uniform |
| Impulse.RisingStaircaseIsUniform | src/trading_core/impulse.rs:238-279 | a run of rising candles, each body above the last, is uniform for an up leg |
| Impulse.FindSwingHighs | src/trading_core/impulse.rs:182-194 | no swing for the first `lookback` bars, then the highest high of the `lookback` bars before |
| Impulse.FindSwingLows | src/trading_core/impulse.rs:196-208 | no swing for the first `lookback` bars, then the lowest low of the `lookback` bars before |
| Impulse.CheckBrokeSwing | src/trading_core/impulse.rs:210-236 | a leg breaks the swing only when its end price is beyond the prior swing in its direction |
| Impulse.CheckVolumeIncrease | src/trading_core/impulse.rs:281-297 | an increase needs ten prior bars and a non-empty leg |
| Impulse.LegAt | src/trading_core/impulse.rs:97-180 | the leg found at a start spans its candles from the first open to the last close, scores at most five, and is large enough exactly when its move is big |
| Impulse.FirstBigWindow | src/trading_core/impulse.rs:106-125 | the shortest window from the given length up to five candles whose move is big, or none when no such window fits |
| Impulse.TryDetectImpulseAt | src/trading_core/impulse.rs:97-180 | a leg found at a start is the first window of three to five candles whose close-to-open move reaches the minimum, and is fast and large enough |
| Impulse.ScanFrom | src/trading_core/impulse.rs:62-95 | the scan keeps legs scoring at least four, in order, without overlap, each inside the data |
| Impulse.DetectImpulseLegs | src/trading_core/impulse.rs:62-95 | fewer than fifteen bars give no legs; every leg found scores at least four and the legs do not overlap |
| Impulse.AddBar | src/trading_core/impulse.rs:337-341 | adding a bar grows the builder by one and keeps its start price and direction |
| Impulse.MoveSizeFromExtremes | src/trading_core/impulse.rs:354-367 | with well-formed bars the move is the non-negative distance from start to end price in the leg's direction |
| Impulse.Score | src/trading_core/impulse.rs:406-415 | the score counts the five criteria and is five exactly when all hold |
| Impulse.IsComplete | src/trading_core/impulse.rs:418-421 | a complete leg is large enough and meets at least three of the other four criteria |
| Impulse.Finalize | src/trading_core/impulse.rs:429-468 | the finished leg spans the builder's bars, holds their total volume, and its average volume is the truncated mean |
| Sorting.SortBy | src/pipeline/lvn.rs:88 | the sorted list is ordered by key and is a permutation of the input |
| Sorting.SortByMembers | src/pipeline/lvn.rs:88 | an element is in the sorted list exactly when it is in the input |
| Lvn.PriceToBucket | src/pipeline/lvn.rs:94-100 | a price is within a quarter point of its bucket's price |
| Lvn.BucketRoundTrip | src/pipeline/lvn.rs:94-100 | a bucket's own price maps back to that bucket |
| Lvn.SameBucketClose | src/pipeline/lvn.rs:94-96 | prices in the same bucket are at most a bucket apart |
| Lvn.IsLowIsRatio | src/pipeline/lvn.rs:68-71 | a bucket is low exactly when its volume over the average is under the threshold |
| Lvn.EmitLevels | src/pipeline/lvn.rs:67-84 | exactly the low buckets become nodes, each at its bucket's price |
| Lvn.WindowTrades | src/pipeline/lvn.rs:41-45 | exactly the trades stamped inside the window, in order |
| Lvn.ForWindow | src/pipeline/lvn.rs:40-85 | a window without trades gives no nodes; every node is low and carries the leg's identity and direction |
| Lvn.ForWindowBuckets | src/pipeline/lvn.rs:51-84 | every node is a bucket holding all of the window's volume at that price, and every low bucket becomes a node |
| Lvn.ExtractLvns | src/pipeline/lvn.rs:37-92 | the nodes of every leg's own profile, each under the 15% threshold and carrying its leg's identity, ordered by price |
| Lvn.ExtractLvnsRealtime | src/pipeline/lvn.rs:108-168 | the nodes of the trades inside the window, tagged with the given impulse id and direction, ordered by price; none without trades |
| Lvn.SimpleVwap | src/pipeline/lvn.rs:298-317 | 0 without bars, the last close without volume |
| Lvn.SimpleVwapBounds | src/pipeline/lvn.rs:298-317 | with traded volume the VWAP lies between the lowest and highest typical price |
| Lvn.BarEntries | src/pipeline/lvn.rs:219-227 | a bar's volume is split over open, high, low and close with the remainder on the open, losing nothing |
| Lvn.SessionEntries | src/pipeline/lvn.rs:199-228 | the session profile's entries hold exactly the volume of the in-session bars |
| Lvn.SessionProfileTotal | src/pipeline/lvn.rs:199-228 | the session profile's total is the in-session bar volume |
| Lvn.ExtractLvnsFromFullProfile | src/pipeline/lvn.rs:179-295 | nodes under 22.5% of the average bucket, each pointing away from the VWAP of all bars, ordered by price; none without bars |
| Lvn.ExtractLvnsFromRthProfile | src/pipeline/lvn.rs:320-322 | the regular-session profile's nodes, each under the full-profile threshold, ordered by price |
| Profile.Add | src/pipeline/levels.rs:314 | adding to a histogram keeps it ordered by key and non-empty |
| Profile.AddVolumeAt | src/pipeline/levels.rs:314 | `entry(k).or_insert(0) += v` moves exactly `v` into bucket `k` and changes no other bucket |
| Profile.AddTotal | src/pipeline/levels.rs:314 | adding `v` raises the histogram's total by `v` |
| Profile.AddKeys | src/pipeline/levels.rs:314 | adding to a key adds that key and no other |
| Profile.Build | src/pipeline/levels.rs:307-315 | the histogram of a list of contributions is ordered and has exactly the contributed keys |
| Profile.BuildVolumes | src/pipeline/levels.rs:307-315 | the histogram holds, per key and in total, exactly the volume contributed |
| Profile.Expand | src/pipeline/levels.rs:347-377 | the expansion only widens the covered run of buckets, which stays inside the histogram |
| Profile.ExpandCovers | src/pipeline/levels.rs:343-377 | the covered run is contiguous around the POC, the counted volume is exactly that run's volume, and the loop stops only once the target is met or every bucket is covered |
| Profile.Target | src/pipeline/levels.rs:331 | the target is 70% of the total, truncated to a whole number |
| Profile.ValueArea | src/pipeline/levels.rs:337-381 | the value area's edges enclose the POC and cover at least the target unless they span every bucket |
| Profile.Peak | src/pipeline/levels.rs:322-326 | a non-empty histogram has a bucket of greatest volume |
| Profile.PeakDominates | src/pipeline/levels.rs:322-326 | no key holds more volume than the peak bucket |
| Profile.ValueAreaKeys | src/pipeline/levels.rs:322-381 | the value area's low key, the POC key and the high key are in order `val <= poc <= vah` |
| Profile.ValueAreaKeysFacts | src/pipeline/levels.rs:322-381 | the three keys all received volume, and none holds more than the POC |
| Profile.VolumeProfile | src/pipeline/levels.rs:301-383 | zeros without input; otherwise `val <= poc <= vah` |
| Profile.VolumeProfileKeys | src/pipeline/levels.rs:301-383 | each of the three prices is a bucket that received volume, and no bucket holds more volume than the POC |
| Levels.DayKeyLevels | src/pipeline/levels.rs:117-163 | each day gives seven reference levels at full strength, none of them a node |
| Levels.LvnKeyLevel | src/pipeline/levels.rs:165-174 | a node's strength is 1 - min(volume ratio, 1), so it lies in [0, 1] |
| Levels.UnsortedLevels | src/pipeline/levels.rs:116-174 | seven levels per day plus one per node; only nodes can be weaker than full strength |
| Levels.NewLevelIndex | src/pipeline/levels.rs:109-180 | the index holds exactly the day and node levels, ordered by price |
| Levels.LevelsNear | src/pipeline/levels.rs:183-188 | exactly the levels of that date within tolerance of the price |
| Levels.LevelsNearSorted | src/pipeline/levels.rs:183-188 | the near levels keep the index's price order |
| Levels.IsAtLevel | src/pipeline/levels.rs:191-193 | a price is at a level exactly when some level of that date lies within tolerance |
| Levels.StrongestLevelNear | src/pipeline/levels.rs:196-200 | none exactly when no level is near; otherwise a near level of greatest strength |
| Levels.BarDays | src/pipeline/levels.rs:234-244 | the dates with bars, ascending and without repeats |
| Levels.DayBarsMembers | src/pipeline/levels.rs:236-241 | a day's bars are exactly the input bars on that day |
| Levels.SessionOf | src/pipeline/levels.rs:255-259 | the session high and low bound every bar; the open is the first bar's and the close the last bar's |
| Levels.DayGroups | src/pipeline/levels.rs:234-247 | one non-empty group per date with bars, in ascending date order, holding exactly that date's bars |
| Levels.ComputeDailyLevels | src/pipeline/levels.rs:228-298 | one entry per date with bars, ascending, each with zero overnight levels and `val <= poc <= vah` |
| Levels.DailyLevelsDates | src/pipeline/levels.rs:228-298 | the entries' dates are exactly the bars' dates, strictly ascending, and no bars give no entries |
| Levels.DailyLevelsChain | src/pipeline/levels.rs:262-273 | each day's prior high, low and close are the previous date's session values; the first date uses its own high, low and open |
| Levels.ComputeFibonacciLevels | src/pipeline/levels.rs:400-425 | nothing unless the prior high is above the prior low; otherwise five levels inside the prior range, at full strength only at 0.618 |
| DailyStats.HighLowOpenClose | src/trading_core/daily_levels.rs:206-222 | zeros without trades; otherwise the first and last prices, and a low and high that bound every price and are both traded prices |
| DailyStats.TradeEntries | src/trading_core/daily_levels.rs:233-236 | each trade's size at its price rounded to a one-point bucket |
| DailyStats.TradeVolumeProfile | src/trading_core/daily_levels.rs:225-304 | zeros without trades; otherwise `val <= poc <= vah` |
| DailyStats.TradeVolumeProfilePoc | src/trading_core/daily_levels.rs:244-248 | the POC is a traded bucket and no price bucket holds more volume |
| DailyStats.TradeVolumeProfileNearTrades | src/trading_core/daily_levels.rs:234-301 | VAL, POC and VAH are each a rounded bucket of some trade, so each lies within half a point of a traded price |
| Processing.PriceKey | src/processing.rs:272-273 | a price is within an eighth of a point of its quarter-point bucket |
| Processing.PriceKeyOfBucket | src/processing.rs:272-273 | a bucket's own price maps back to that bucket |
| Processing.Upsert | src/processing.rs:275-290 | the bucket with the trade's key is bumped and every other bucket is unchanged; a new bucket is added exactly when none had the key |
| Processing.AddTradeAsWritten | src/processing.rs:249-294 | as written, CVD moves by the signed size of the trade |
| Processing.AddTradeAsWrittenSplitsWrongly | src/processing.rs:285-290 | a first trade whose side is neither "buy" nor "sell" opens a bucket whose total is not the sum of its buy and sell volume |
| Processing.NewLevelAgrees | src/processing.rs:285-290 | for the two sides the feeds produce, the written and the corrected new bucket agree |
| Processing.AddTrade | src/processing.rs:249-294 | CVD moves by the signed size, the matching side total grows, the window's first price is set once and its last price always |
| Processing.AddTradeKeepsCvd | src/processing.rs:250-263 | CVD equal to buy total minus sell total survives every trade |
| Processing.AddTradeKeepsProfile | src/processing.rs:271-290 | the profile stays well formed (unique keys, totals split into sides) and the trade's bucket grows by the trade's size |
| Processing.UpsertWellFormed | src/processing.rs:275-290 | upserting keeps keys unique, prices on their buckets and totals split into sides |
| Processing.UpsertVolumeAt | src/processing.rs:275-290 | the bucket upserted into grows by exactly the trade's size |
| Processing.UpsertTotal | src/processing.rs:275-290 | the profile's total grows by exactly the trade's size |
| Processing.Poc | src/processing.rs:102-107 | no POC for an empty profile; otherwise a bucket of greatest total volume |
| Processing.Expand | src/processing.rs:126-152 | the expansion only widens the key range |
| Processing.ExpandFacts | src/processing.rs:126-152 | the expansion stops only once the target is met or both neighbours are empty, and encloses exactly the volume of its range |
| Processing.Target | src/processing.rs:115-116 | the target is 70% of the volume, truncated |
| Processing.PocLookup | src/processing.rs:118-121 | the POC's price maps back to its own bucket, so the lookup that follows finds the POC |
| Processing.ValueAreaKeys | src/processing.rs:118-152 | the value area's key range contains the POC's key, and an empty profile has none |
| Processing.GetValueArea | src/processing.rs:110-155 | None for an empty profile; otherwise VAH at or above the POC and VAL at or below it |
| Processing.ValueAreaTarget | src/processing.rs:126-152 | on a well-formed profile the value area encloses at least 70% of the volume, or can grow no further |
| Processing.Summarize | src/processing.rs:334-368 | nothing for a buffer without volume; otherwise the delta is buy minus sell volume, the dominant side holds at least half the volume, and the imbalance is significant exactly above 15% |
| Processing.StrengthName | src/processing.rs:201-208 | 3 and above is "defended" |
| Processing.CalculateStrength | src/processing.rs:176-198 | the strength is at most 3, its name matches its number, and four or more events (or a count of zero) are "defended" |
| Processing.StrengthMonotone | src/processing.rs:176-198 | more events or more context never weaken a zone |
| Processing.MaxAgeMs | src/processing.rs:216-220 | a zone lives 5 minutes at peak strength 0 or 1, 15 at 2 and 30 at 3 or more |
| Processing.CleanupOldZones | src/processing.rs:214-224 | a zone stays exactly when it was seen within its age limit, and kept zones are unchanged |
| Processing.StrongerZonesLiveLonger | src/processing.rs:214-224 | a stronger peak only lengthens a zone's life |
| Processing.Absorb | src/processing.rs:434-470 | the zone at the bucket gains the absorbed delta and one event and is marked seen now; no other zone changes; the peak strength never falls |
| Processing.AbsorptionKind | src/processing.rs:400-419 | buying is absorbed when a positive delta reaches the threshold and price rose at most a tick; selling is absorbed in the mirror case |
| Processing.MinDeltaThreshold | src/processing.rs:405 | the absorption threshold is 40% of the average volume, never below 20 |
| MarketRegime.Vwap | src/trading_core/market_state.rs:66-88 | 0 without bars, the open/close midpoint without volume |
| MarketRegime.VwapWithVolume | src/trading_core/market_state.rs:66-88 | with volume the VWAP lies between the extreme typical prices |
| MarketRegime.TrueRange | src/trading_core/market_state.rs:91-112 | the true range is at least the bar's range and the gaps to the previous close |
| MarketRegime.Atr | src/trading_core/market_state.rs:91-112 | 0 without bars, a lone bar's range for one bar, otherwise a non-negative mean true range |
| MarketRegime.Crosses | src/trading_core/market_state.rs:115-132 | no crossings for fewer than two bars, at most one per consecutive pair |
| MarketRegime.CrossesParity | src/trading_core/market_state.rs:115-132 | an even number of crossings exactly when the last close is on the first close's side |
| MarketRegime.NoCrossesOneSide | src/trading_core/market_state.rs:115-132 | no crossing means every close is on the first close's side |
| MarketRegime.TrendDirection | src/trading_core/market_state.rs:172-178 | the trend is up exactly when cumulative delta exceeds half the threshold (truncated) and down when it is below minus that |
| MarketRegime.Classify | src/trading_core/market_state.rs:183-195 | imbalanced exactly when the range expands enough or the delta is strong |
| MarketRegime.ClassifyIgnoresRotations | src/trading_core/market_state.rs:189-195 | the rotation count and threshold never change the classification |
| MarketRegime.WindowBounds | src/trading_core/market_state.rs:141-143 | the window is the `lookback` bars before the index and the index itself, clipped to the data |
| MarketRegime.DetectMarketState | src/trading_core/market_state.rs:135-206 | each state is computed from its window only, with a zero range ratio when the ATR is not positive |
| MarketRegime.DetectIgnoresFuture | src/trading_core/market_state.rs:135-206 | later bars never change the state at an index |
| MarketRegime.PrecomputeMarketStates | src/trading_core/market_state.rs:209-217 | one state per bar, each the state detected at that bar |
| MarketRegime.PrecomputePrefix | src/trading_core/market_state.rs:209-217 | precomputing on a longer feed extends the earlier states without changing them |
| RetestSignals.LookupBelow | src/trading_core/lvn_retest.rs:163-169 | in the key-ordered level map a key below the first is absent |
| RetestSignals.LookupIndex | src/trading_core/lvn_retest.rs:163-169 | every stored level is what its key looks up |
| RetestSignals.Insert | src/trading_core/lvn_retest.rs:192 | inserting keeps the keys strictly ascending |
| RetestSignals.InsertLookup | src/trading_core/lvn_retest.rs:192 | after an insert the key holds the new level and every other key what it held |
| RetestSignals.Retain | src/trading_core/lvn_retest.rs:239-241 | retaining keeps the keys ascending and adds no smaller key |
| RetestSignals.RetainLookup | src/trading_core/lvn_retest.rs:239-241 | a key survives exactly when its level is kept |
| RetestSignals.MapLevels | src/trading_core/lvn_retest.rs:358-391 | changing every level keeps the keys and their order |
| RetestSignals.MapLevelsLookup | src/trading_core/lvn_retest.rs:358-391 | after the change each key holds its old level changed |
| RetestSignals.KeyPriceNear | src/trading_core/lvn_retest.rs:191 | a level's key, read back in tenths, is at most a tenth below its price |
| RetestSignals.Track | src/trading_core/lvn_retest.rs:192-204 | a newly tracked level is Untouched at the node's price with the given impulse id |
| RetestSignals.LastThinWithKey | src/trading_core/lvn_retest.rs:185-205 | the last thin node with the key, or none exactly when no thin node has it |
| RetestSignals.AddLevels | src/trading_core/lvn_retest.rs:184-235 | the keys stay ascending; the count of added levels is at most the number of nodes, and equals it only when every node is thin |
| RetestSignals.AddLevelsLookup | src/trading_core/lvn_retest.rs:184-235 | after adding, each key holds the last thin node with that key as an Untouched level, or what it held before |
| RetestSignals.ClearImpulse | src/trading_core/lvn_retest.rs:238-242 | clearing an impulse keeps the keys ascending |
| RetestSignals.ClearImpulseLookup | src/trading_core/lvn_retest.rs:238-242 | exactly the levels tagged with the impulse id go |
| RetestSignals.NextState | src/trading_core/lvn_retest.rs:361-390 | each state's transition as a function of the distance to price, in both directions |
| RetestSignals.NeverUntouchedAgain | src/trading_core/lvn_retest.rs:361-390 | once touched a level never becomes Untouched again |
| RetestSignals.RetestingOnlyFromArmed | src/trading_core/lvn_retest.rs:375-389 | a level is Retesting after a bar only if it was Armed or Retesting before |
| RetestSignals.LevelCycleExample | src/trading_core/lvn_retest.rs:73-95 | with the default tolerances a level is touched at 1, armed at 10, retested at 1 and falls back at 5 |
| RetestSignals.UpdateLevel | src/trading_core/lvn_retest.rs:354-392 | a bar changes only a level's state and the bars recorded with it; price, impulse and date stay |
| RetestSignals.UpdateLevelStates | src/trading_core/lvn_retest.rs:354-392 | every level of the map is updated against the bar's close and the previous close, keys unchanged |
| RetestSignals.NewGenerator | src/trading_core/lvn_retest.rs:173-181 | a new generator tracks nothing and has seen no bar |
| RetestSignals.ClearLevels | src/trading_core/lvn_retest.rs:250-255 | clearing gives back a fresh generator with the same configuration |
| RetestSignals.FirstCandidate | src/trading_core/lvn_retest.rs:433-474 | the first level in key order that is retesting, on the right day, within tolerance, with aggression in its impulse's direction and a narrow bar; none exactly when there is none |
| RetestSignals.CheckForSignal | src/trading_core/lvn_retest.rs:395-477 | a signal exactly when the market is imbalanced and the delta is large enough and a candidate exists; it names the first candidate's key and its impulse's direction |
| RetestSignals.PushBar | src/trading_core/lvn_retest.rs:262-266 | the bar is appended and the buffer never grows past 200 |
| RetestSignals.MarkTraded | src/trading_core/lvn_retest.rs:334-338 | the signalled level records the bar and goes back to Touched; nothing else changes |
| RetestSignals.Decide | src/trading_core/lvn_retest.rs:310-350 | without a signal nothing changes; otherwise only the last-trade bar and the signalled level change |
| RetestSignals.ProcessBar | src/trading_core/lvn_retest.rs:259-351 | the bar is counted and buffered; with two bars buffered every level moves before the cooldown, hours and signal checks |
| RetestSignals.CooldownStillUpdatesLevels | src/trading_core/lvn_retest.rs:307-315 | during the global cooldown the levels still move but no signal goes out |
| Stats.GrossProfit | src/pipeline/lvn_retest.rs:989 | the gross profit is never negative |
| Stats.GrossLoss | src/pipeline/lvn_retest.rs:990 | the gross loss is never negative |
| Stats.NetIsGrossDifference | src/pipeline/lvn_retest.rs:986-990 | the net P&L is gross profit less gross loss |
| Stats.NoLossesNoGrossLoss | src/pipeline/lvn_retest.rs:990 | without a losing trade there is no gross loss |
| Stats.ProfitFactor | src/pipeline/lvn_retest.rs:992-998 | infinite exactly when there is profit and no loss; otherwise the non-negative ratio that times the gross loss gives the gross profit |
| Stats.ProfitFactorAboveOne | src/pipeline/lvn_retest.rs:992-998 | a profit factor above 1 means the run made money |
| Stats.WinnersLosersSums | src/pipeline/lvn_retest.rs:1000-1001 | the winners sum to the gross profit and the losers to minus the gross loss |
| Stats.AverageLossNotPositive | src/pipeline/lvn_retest.rs:1003-1013 | the average loss is never positive and the average win never negative |
| Stats.PrefixPeak | src/pipeline/lvn_retest.rs:1016-1021 | the running peak starts at 0 and is at least the final equity |
| Stats.MaxDrawdown | src/pipeline/lvn_retest.rs:1015-1024 | the drawdown is never negative and at least the final fall from the peak |
| Stats.MaxDrawdownIsLargestFall | src/pipeline/lvn_retest.rs:1015-1024 | the drawdown bounds the fall after every prefix and equals it after one |
| Stats.NoLossesNoDrawdown | src/pipeline/lvn_retest.rs:1015-1024 | a run without a losing trade has no drawdown |
| Stats.RunningDrawdown | src/pipeline/lvn_retest.rs:1016-1024 | the backtesters' running loop computes exactly the largest fall |
| Stats.DrawdownAtMostGrossLoss | src/pipeline/lvn_retest.rs:1015-1024 | the drawdown never exceeds the total of the losses |
| Stats.WinRatePercent | src/pipeline/lvn_retest.rs:987 | 0 without trades, and a percentage between 0 and 100 when wins do not exceed trades |
| Stats.StatsExample | src/pipeline/lvn_retest.rs:989-998 | two winners and a loser give profit 16, loss 4 and factor 4; profit alone is infinite and no trades give 0 |
| RetestBacktest.Classify | src/pipeline/lvn_retest.rs:906-914 | above half a point a win, below minus half a point a loss, otherwise breakeven; never a timeout |
| RetestBacktest.Points | src/pipeline/lvn_retest.rs:900-903 | exit minus entry for a long, the reverse for a short |
| RetestBacktest.Trail | src/pipeline/lvn_retest.rs:832-841 | the trailing stop only tightens, and only to the extreme less the distance once price has moved the distance in favour |
| RetestBacktest.Walk | src/pipeline/lvn_retest.rs:825-897 | the walk ends at a bar before the hold limit (or the last one seen), and the stop never loosens along it |
| RetestBacktest.SimulateTrade | src/pipeline/lvn_retest.rs:786-942 | no trade exactly when no bar follows the signal; otherwise entry at the next open, stop the buffer beyond the level, target the take-profit away, and the P&L the signed move |
| RetestBacktest.OutcomeFollowsPnl | src/pipeline/lvn_retest.rs:842-914 | a target exit is a win; every other exit is classified by its P&L |
| RetestBacktest.SimulateTradeExample | src/pipeline/lvn_retest.rs:786-942 | a long off 21000 entered at 21001 trails to 21006 and reaches the 21009 target for 8 points |
| RetestBacktest.SignalAt | src/pipeline/lvn_retest.rs:705-783 | a signal exactly when the market is imbalanced with a large delta and a candidate exists, at the first candidate |
| RetestBacktest.Step | src/pipeline/lvn_retest.rs:596-642 | in the cooldown only the levels move; outside the hours nothing moves; otherwise levels move and an allowed signal is traded |
| RetestBacktest.StepConsistent | src/pipeline/lvn_retest.rs:600-641 | each step keeps the trades sequential and the last exit after every entry |
| RetestBacktest.ExtendConsistent | src/pipeline/lvn_retest.rs:630-641 | appending one trade entered after the last exit keeps the run consistent |
| RetestBacktest.RunFrom | src/pipeline/lvn_retest.rs:596-643 | running the remaining bars keeps the level keys ascending |
| RetestBacktest.RunFromConsistent | src/pipeline/lvn_retest.rs:596-643 | running the remaining bars keeps the run consistent |
| RetestBacktest.InitialLevels | src/pipeline/lvn_retest.rs:572-593 | the starting levels are keyed in ascending order |
| RetestBacktest.RunTradesSequential | src/pipeline/lvn_retest.rs:567-646 | a run's trades never overlap and none is left a timeout |
| RetestBacktest.OutcomesPartition | src/pipeline/lvn_retest.rs:981-984 | every trade has exactly one of the four outcomes |
| RetestBacktest.CalculateResults | src/pipeline/lvn_retest.rs:960-1052 | all zeros without trades; otherwise the counts partition the trades and the totals, factor and drawdown are those of the P&L list |
| RetestBacktest.NoTimeoutsCounted | src/pipeline/lvn_retest.rs:906-914 | trades from the simulation are never timeouts, so none are counted |
| RetestBacktest.RunReportsNoTimeouts | src/pipeline/lvn_retest.rs:567-646 | a run reports no timeouts |
| ThreeElement.FindBarIndexBinary | src/pipeline/three_element_backtest.rs:558-582 | any result is a bar at or before the time whose successor is later; for time-ordered bars there is no result exactly when there are no bars or the first is later |
| ThreeElement.RthEdges | src/pipeline/three_element_backtest.rs:587-603 | the two UTC windows admit 14:30 to 16:59 and 20:00 to 20:59, and nothing just outside them |
| ThreeElement.ShouldTakeTrade | src/pipeline/three_element_backtest.rs:606-650 | a trade is only ever in the event's direction; balanced: longs at support, shorts at resistance, either at the point of control or an LVN; imbalanced: only with the trend |
| ThreeElement.ModelFor | src/pipeline/three_element_backtest.rs:907-910 | a balanced market is traded as mean reversion and an imbalanced one as trend continuation |
| ThreeElement.Walk | src/pipeline/three_element_backtest.rs:698-759 | the walk ends before the hold limit (or on the last bar seen) and its stop never loosens |
| ThreeElement.Reclassify | src/pipeline/three_element_backtest.rs:783-801 | a win exactly at the target; a loss exactly for any other exit that did not make money; otherwise a timeout |
| ThreeElement.SimulateTrade | src/pipeline/three_element_backtest.rs:655-824 | no trade without a next bar or with an implausible entry; otherwise entry at the next open, stop and target at the model's distances, P&L the signed move |
| ThreeElement.OutcomeSigns | src/pipeline/three_element_backtest.rs:731-801 | a trade whose target lies beyond the entry wins a positive amount, and only losses lose money |
| ThreeElement.OutcomesPartition | src/pipeline/three_element_backtest.rs:238-261 | every trade is exactly one of win, loss and timeout |
| ThreeElement.LargestWin | src/pipeline/three_element_backtest.rs:242-244 | the largest win bounds every win and is one of them, or 0 |
| ThreeElement.LargestLoss | src/pipeline/three_element_backtest.rs:249-251 | the largest loss bounds the size of every loss and is one of them, or 0 |
| ThreeElement.FromTrades | src/pipeline/three_element_backtest.rs:224-292 | the defaults without trades; otherwise the outcome counts partition the trades and the win rate is a percentage of them |
| ThreeElement.TotalsSnoc | src/pipeline/three_element_backtest.rs:237-263 | one more trade extends the running totals by exactly that trade |
| ThreeElement.FromTradesLoop | src/pipeline/three_element_backtest.rs:224-292 | the loop over the trades computes the same statistics as the definition |
| ThreeElement.TotalsNet | src/pipeline/three_element_backtest.rs:234-262 | when every loss lost money the winning total less the losing total is the net P&L |
| ThreeElement.Step | src/pipeline/three_element_backtest.rs:866-931 | an event in the global cooldown or outside the hours changes nothing; any other event adds at most one trade at the end |
| ThreeElement.StepConsistent | src/pipeline/three_element_backtest.rs:866-931 | each event keeps the trades spaced beyond the cooldown and the losses losing |
| ThreeElement.ExtendConsistent | src/pipeline/three_element_backtest.rs:918-930 | appending a trade past the cooldown keeps the run consistent |
| ThreeElement.RunEventsConsistent | src/pipeline/three_element_backtest.rs:866-931 | a run over any events stays consistent |
| ThreeElement.SortedEvents | src/pipeline/three_element_backtest.rs:853 | the events in time order, a permutation of the input |
| ThreeElement.RunTradesSpaced | src/pipeline/three_element_backtest.rs:827-933 | a run's trades are spaced by more than the global cooldown and its losses never made money |
| ThreeElement.OfModel | src/pipeline/three_element_backtest.rs:1010-1017 | the trades of one model, all from the run |
| ThreeElement.ModelsPartition | src/pipeline/three_element_backtest.rs:1010-1020 | the two models' trades together are all the trades |
| ThreeElement.OfLevel | src/pipeline/three_element_backtest.rs:1033-1036 | the trades at one level type, empty exactly when none is at it |
| ThreeElement.OfAggression | src/pipeline/three_element_backtest.rs:1047-1050 | the trades of one aggression type, all from the run |
| ThreeElement.ByLevel | src/pipeline/three_element_backtest.rs:1022-1041 | an entry exactly for each of the eight reported level types that was traded, with that type's statistics |
| ThreeElement.AggressionTypes | src/pipeline/three_element_backtest.rs:1044-1045 | exactly the aggression types that were traded |
| ThreeElement.ByAggression | src/pipeline/three_element_backtest.rs:1043-1052 | an entry exactly for each traded aggression type, with its statistics |
| ThreeElement.CalculateResults | src/pipeline/three_element_backtest.rs:936-1076 | zeros without trades; otherwise net P&L, win rate, factor and drawdown of the P&L series and the per-model, per-level and per-aggression statistics |
| SmartLvn.RangeHigh | src/pipeline/smart_lvn.rs:186-195 | the highest high of the span, reached by one of its bars |
| SmartLvn.RangeLow | src/pipeline/smart_lvn.rs:186-195 | the lowest low of the span, reached by one of its bars |
| SmartLvn.ScanImpulse | src/pipeline/smart_lvn.rs:190-232 | the end found lies in the scanned window, and no end in it is an impulse when none is found |
| SmartLvn.FindImpulseFrom | src/pipeline/smart_lvn.rs:182-235 | an impulse ends within the window; none exactly when no end in the window is an up or down impulse |
| SmartLvn.DetectFrom | src/pipeline/smart_lvn.rs:146-179 | the impulses found follow each other without overlap |
| SmartLvn.DetectValidImpulses | src/pipeline/smart_lvn.rs:146-179 | none with fewer bars than the window; otherwise impulses inside the bars, each ending before the next starts |
| SmartLvn.ThinnestIn | src/pipeline/smart_lvn.rs:832-863 | the first eligible bucket of least volume |
| SmartLvn.FindBestLvnInImpulse | src/pipeline/smart_lvn.rs:789-864 | nothing for a bad span; a result only for a searchable span, at the thinnest eligible bucket |
| SmartLvn.WalkExit | src/pipeline/smart_lvn.rs:390-436 | the exit is at or after the start (or the last bar); the stop moves only to trail a new extreme; a target exit is at the target price |
| SmartLvn.SimulateExit | src/pipeline/smart_lvn.rs:374-437 | a target exit is at the target after the entry; a stop exit is on a later bar that reached the stop |
| SmartLvn.TradeAt | src/pipeline/smart_lvn.rs:343-367 | the trade enters at the bar's close in the impulse's direction and its P&L is the signed move |
| SmartLvn.FindRetestFrom | src/pipeline/smart_lvn.rs:313-370 | a trade found enters within the searched bars |
| SmartLvn.FindRetestTrade | src/pipeline/smart_lvn.rs:310-371 | a trade found enters within 3600 bars of the start |
| SmartLvn.FirstAtOrAfter | src/pipeline/smart_lvn.rs:295-297 | the first bar at or after the time, every earlier bar before it |
| SmartLvn.TradeDayFrom | src/pipeline/smart_lvn.rs:278-304 | trades only ever get appended and never pass the daily limit |
| SmartLvn.Entered | src/pipeline/smart_lvn.rs:298-302 | taking a trade counts it and marks its bucket used |
| SmartLvn.DayOrderedExtend | src/pipeline/smart_lvn.rs:285-302 | taking a trade at a fresh bucket after the previous exit keeps the day ordered |
| SmartLvn.TradeDayOrdered | src/pipeline/smart_lvn.rs:272-307 | a day's trading keeps the day ordered |
| SmartLvn.TradeDay | src/pipeline/smart_lvn.rs:272-307 | a day never has more trades than the limit |
| SmartLvn.TradeDayFirstTouch | src/pipeline/smart_lvn.rs:274-302 | each LVN bucket is traded at most once, and each trade enters after the previous one's exit bar |
| SmartLvn.WinnersLosersCount | src/pipeline/smart_lvn.rs:448-452 | winners and losers never outnumber the trades |
| SmartLvn.AverageOver | src/pipeline/smart_lvn.rs:461-462 | 0 for no trades, otherwise the amount that times the count gives the total |
| SmartLvn.ProfitFactorOf | src/pipeline/smart_lvn.rs:459 | infinite exactly when there is no gross loss, otherwise the ratio |
| SmartLvn.ComputeResults | src/pipeline/smart_lvn.rs:440-480 | wins and losses are the positive and negative trades; no trades give win rate 0 and an infinite factor |
| SmartLvn.StateTransitions | src/pipeline/smart_lvn.rs:131-134 | the state-transition impulses, in order, a subset of the impulses |
| SmartLvn.RunDay | src/pipeline/smart_lvn.rs:127-139 | valid impulses never outnumber impulses and the day's trades stay under the limit |
| SmartLvn.RunDays | src/pipeline/smart_lvn.rs:122-140 | the trades never exceed the daily limit times the number of days |
| SmartLvn.Run | src/pipeline/smart_lvn.rs:117-143 | the trades never exceed the daily limit times the days, and valid impulses never exceed impulses |
| SmartLvn.FirstAfter | src/pipeline/smart_lvn.rs:919-921 | the first bar later than the time, every earlier bar not later |
| SmartLvn.RealSearchStart | src/pipeline/smart_lvn.rs:919-925 | the search starts at the first bar after the impulse, or 0 when there is none |
| SmartLvn.FindRealRetestFrom | src/pipeline/smart_lvn.rs:959-1020 | a trade found enters within the searched bars |
| SmartLvn.FindRealRetest | src/pipeline/smart_lvn.rs:950-1021 | a trade found enters within 7200 bars of the start |
| SmartLvn.TradeRealFrom | src/pipeline/smart_lvn.rs:902-944 | trades only get appended and never pass the daily limit |
| SmartLvn.TradeRealThin | src/pipeline/smart_lvn.rs:907-943 | each added trade is at a thin LVN with a bar after its impulse, at an unused bucket |
| SmartLvn.TradeRealDay | src/pipeline/smart_lvn.rs:897-947 | at most the daily limit of trades, each at a thin LVN |
| SmartLvn.RunReal | src/pipeline/smart_lvn.rs:877-894 | no impulses are counted and the trades never exceed the daily limit times the days |
| SmartSweep.AheadAsymmetric | src/pipeline/smart_lvn.rs:708-719 | no result ranks ahead of itself, and of two results at most one is ahead |
| SmartSweep.NotAheadTransitive | src/pipeline/smart_lvn.rs:708-719 | not being behind is transitive, so the comparator is a strict weak order |
| SmartSweep.InsertRanked | src/pipeline/smart_lvn.rs:583-587 | inserting into a ranked list keeps it ranked and adds exactly the one element |
| SmartSweep.SortRanked | src/pipeline/smart_lvn.rs:583-587 | the sorted results are ranked and a permutation of the input |
| SmartSweep.Product | src/pipeline/smart_lvn.rs:544-545 | every pair of the two value lists appears, and there are exactly as many pairs as the product of the lengths |
| SmartSweep.ProductFrom | src/pipeline/smart_lvn.rs:544-545 | every pair is made of one value of each list |
| SmartSweep.Sweep | src/pipeline/smart_lvn.rs:544-589 | one ranked result per grid point, a permutation of the grid's results |
| SmartSweep.SweepFrom | src/pipeline/smart_lvn.rs:544-589 | every result of a sweep is the result of some grid point |
| SmartSweep.SweepCovers | src/pipeline/smart_lvn.rs:544-589 | the result of every grid point is in the sweep |
| SmartSweep.ExitConfig | src/pipeline/smart_lvn.rs:531-548 | the exit sweep fixes the entry parameters and the hours and sets only the trail and the target |
| SmartSweep.ExitCountsBounded | src/pipeline/smart_lvn.rs:554-559 | target and trailing-stop exits never outnumber the trades |
| SmartSweep.ExitResultOf | src/pipeline/smart_lvn.rs:550-578 | each result carries its trail and target, exit counts within the trades, and an infinite factor when nothing traded |
| SmartSweep.ExitSweep | src/pipeline/smart_lvn.rs:521-590 | one result per trail and target, each the backtest of its own configuration, ranked by profit factor then net P&L |
| SmartSweep.ExitSweepFrom | src/pipeline/smart_lvn.rs:544-578 | every result of the exit sweep is the backtest of one swept trail and target |
| SmartSweep.TradelessRankFirst | src/pipeline/smart_lvn.rs:583-587 | a configuration that never traded reports an infinite factor, so only other infinite factors rank above it |
| SmartSweep.MultiConfig | src/pipeline/smart_lvn.rs:664-675 | each combination trails only, with no target, in its window's hours |
| SmartSweep.PerDay | src/pipeline/smart_lvn.rs:699 | trades per day, with an empty run of days counted as one day |
| SmartSweep.Combos | src/pipeline/smart_lvn.rs:648-658 | every delta, trail, impulse size and window combination, deltas outermost |
| SmartSweep.CombosFrom | src/pipeline/smart_lvn.rs:648-658 | every combination is one swept value of each parameter |
| SmartSweep.MultiResultOf | src/pipeline/smart_lvn.rs:663-700 | each result carries its own parameters and window, a non-negative trade rate and an infinite factor when nothing traded |
| SmartSweep.MultiSweep | src/pipeline/smart_lvn.rs:633-723 | one result per combination, each the backtest of its configuration, active configurations first, then by profit factor and net P&L |
| SmartSweep.MultiSweepFrom | src/pipeline/smart_lvn.rs:649-701 | every result of the multi sweep is the backtest of one swept combination |
| SmartSweep.ActiveRankedFirst | src/pipeline/smart_lvn.rs:708-715 | a configuration trading at least 0.3 times a day never ranks below one trading less |
| BreakoutMachine.CheckBreakout | src/pipeline/state_machine.rs:125-151 | none exactly when no level is broken; otherwise the first broken level in priority order, with its direction |
| BreakoutMachine.BreakoutExamples | src/pipeline/state_machine.rs:459-489 | 21503 breaks the 21500 high, 21397 the 21400 low, 21450 nothing |
| BreakoutMachine.NewMachine | src/pipeline/state_machine.rs:213-225 | a new machine is waiting with no levels, impulse, nodes or volume history |
| BreakoutMachine.SetDailyLevels | src/pipeline/state_machine.rs:228-230 | only the daily levels change |
| BreakoutMachine.ClearImpulseLvns | src/pipeline/state_machine.rs:248-251 | the nodes and the impulse go; the state and everything else stay |
| BreakoutMachine.Reset | src/pipeline/state_machine.rs:254-259 | back to waiting without impulse, nodes or hunt; counters, levels and the volume window survive |
| BreakoutMachine.ResetForNewDay | src/pipeline/state_machine.rs:262-266 | a reset that also forgets the bar count and the volume window |
| BreakoutMachine.ProcessTrade | src/pipeline/state_machine.rs:269-273 | the trade joins the active impulse; without one nothing changes |
| BreakoutMachine.AverageVolume | src/pipeline/state_machine.rs:276-281 | the mean of the window, never negative, 0 when empty |
| BreakoutMachine.PushVolume | src/pipeline/state_machine.rs:284-289 | the window becomes the last min(n + 1, 60) samples, ending with the new one |
| BreakoutMachine.ProcessWaiting | src/pipeline/state_machine.rs:309-339 | without levels nothing happens; a breakout of the close starts profiling a new impulse from this bar |
| BreakoutMachine.ProcessProfiling | src/pipeline/state_machine.rs:342-425 | without an impulse the machine falls back to waiting; otherwise too long or too deep a leg invalidates it, a complete one starts the hunt |
| BreakoutMachine.ProcessHunting | src/pipeline/state_machine.rs:428-445 | without a start the machine falls back to waiting; past the hunting limit it resets with a timeout |
| BreakoutMachine.Tick | src/pipeline/state_machine.rs:293-294 | the bar is counted and its volume becomes the newest sample of a window of at most 60 |
| BreakoutMachine.ProcessBar | src/pipeline/state_machine.rs:292-306 | the bar is counted, configuration and levels stay, and the new state is one the current state may move to |
| BreakoutMachine.TransitionIffStateChanges | src/pipeline/state_machine.rs:292-445 | in a consistent machine a bar emits a transition exactly when it changes the state |
| BreakoutMachine.ClearWhileProfilingFallsBack | src/pipeline/state_machine.rs:248-251 | clearing the nodes mid-profile makes the next bar fall back to waiting silently |
| BreakoutMachine.InvalidImpulseOutlivesReset | src/pipeline/state_machine.rs:254-259 | after a timeout or retrace the impulse stays in place through the reset and keeps collecting trades |
| BreakoutMachine.Run | src/pipeline/state_machine.rs:292-306 | feeding bars in order counts each and emits at most one transition per bar |
| BreakoutMachine.HuntLastsMaxBars | src/pipeline/state_machine.rs:428-445 | a hunt lasts the hunting limit in silence and times out on the next bar with exactly one timeout |
| Orders.Opposite | src/execution/order.rs:15-20 | the opposite side differs from the side |
| Orders.OppositeInvolution | src/execution/order.rs:15-20 | taking the opposite twice gives the side back |
| Orders.NewOrder | src/execution/order.rs:122-182 | a new order is pending and unfilled, with the requested side, quantity and type |
| Orders.TerminalExcludesActive | src/execution/order.rs:185-192 | no order is both terminal and active; a pending or submitted order is neither |
| Orders.RecordFill | src/execution/order.rs:201-213 | the filled quantity grows by the fill, the average price is the quantity-weighted mean of the old average and the fill, and the order is filled once the fill reaches the quantity |
| Orders.FillsAtOnePrice | src/execution/order.rs:201-213 | filling an order in any number of positive parts at one price averages to that price |
| Orders.NewBracket | src/execution/order.rs:278-329 | a new bracket is a pending market entry on the given side with no exits, entry price or P&L yet |
| Orders.NewLong | src/execution/order.rs:278-302 | a new long bracket is long and pending, with no exits yet |
| Orders.NewShort | src/execution/order.rs:305-329 | a new short bracket is short and pending, with no exits yet |
| Orders.SetExitOrders | src/execution/order.rs:332-382 | the stop sits the buffer beyond the LVN level and the target the take-profit distance from the entry, and the position is open |
| Orders.NextMarks | src/execution/order.rs:385-402 | a long's high-water mark only rises and a short's low-water mark only falls |
| Orders.UpdateTrailingStop | src/execution/order.rs:385-429 | the stop moves to mark ∓ trail, and is reported, only when that strictly tightens it |
| Orders.TrailOverNeverLoosens | src/execution/order.rs:385-429 | over any price path the stop never loosens |
| Orders.CompleteAt | src/execution/order.rs:432-446 | a completed bracket records the exit price and, when the entry is known, the signed move times the quantity as realized P&L |
| Orders.UnrealizedPnl | src/execution/order.rs:459-468 | no open P&L before the entry fill |
| Orders.UnrealizedPnlSymmetric | src/execution/order.rs:459-468 | a long and a short with the same entry and size have opposite open P&L, zero at the entry price |
| Orders.TrailingStopExample | src/execution/order.rs:488-503 | the long of the in-file test trails its stop to 21509, then 21514, then holds |
| Orders.UnrealizedPnlExample | src/execution/order.rs:506-515 | the in-file test's two-contract long at 21505 shows +20 at 21515 and -10 at 21500 |
| Positions.NewManager | src/execution/position.rs:104-117 | a new manager is flat, tracks nothing, and its balance is the starting balance |
| Positions.Drawdown | src/execution/position.rs:150-156 | the drawdown is how far the balance is below the start, and never negative |
| Positions.AddBracket | src/execution/position.rs:164-166 | the bracket is tracked after all earlier ones |
| Positions.FindBracket | src/execution/position.rs:169-176 | the first bracket with the id, or none exactly when no bracket has it |
| Positions.Signum | src/execution/position.rs:190 | Rust `signum` is the sign of the number |
| Positions.EntryAverage | src/execution/position.rs:186-195 | from flat the average is the fill price; adding in the same direction takes the quantity-weighted mean; a reducing fill leaves it unchanged |
| Positions.RecordEntryFill | src/execution/position.rs:184-203 | the signed quantity is added to the net position and the average moves as above |
| Positions.DayAfterExit | src/execution/position.rs:225-248 | one more trade; a positive P&L is a win and may raise the largest win, anything else a loss that may lower the largest loss |
| Positions.PushCapped | src/execution/position.rs:270-273 | the record is appended and the oldest dropped past the cap, so the history never exceeds the cap |
| Positions.RecordExitFill | src/execution/position.rs:206-279 | nothing changes when the bracket is missing or has no entry; otherwise the P&L is the bracket's open P&L at the fill, the balance moves by it in dollars, and the position gives back the bracket's signed quantity |
| Positions.EntryKeepsInvariant | src/execution/position.rs:184-203 | an entry fill keeps wins + losses = trades, a non-negative drawdown and the history cap |
| Positions.ExitKeepsInvariant | src/execution/position.rs:240-247 | any exit keeps wins + losses = trades and the history cap; the day's drawdown never decreases and, after a recorded exit, covers the distance from the peak to the balance |
| Positions.CleanupCompleted | src/execution/position.rs:282-284 | exactly the completed and cancelled brackets are dropped, the rest kept in order |
| Positions.OpenPnlWithoutEntries | src/execution/position.rs:287-292 | brackets without an entry add nothing to the open P&L |
| Positions.ResetDaily | src/execution/position.rs:300-303 | a fresh day starts with no trades and its peak at the current balance |
| Positions.ResetKeepsInvariant | src/execution/position.rs:300-303 | a daily reset keeps wins + losses = trades, a non-negative drawdown and the history cap |
| Positions.WinRate | src/execution/position.rs:316-322 | 0 before the first trade, otherwise a fraction in [0, 1] |
| Positions.EntryExitRoundTrip | src/execution/position.rs:184-279 | filling a bracket's entry and then its exit gives back exactly the quantity taken on |
| Positions.PnlExample | src/execution/position.rs:350-369 | the in-file test's long from 21505 to 21515 on one contract makes 10 points and $200, and ends flat with one win |
| Settings.MffStaticPro | src/execution/config.rs:121-128 | the preset has two contracts and a 125-point limit |
| Settings.EtfStatic | src/execution/config.rs:131-138 | the preset has four contracts and a 100-point limit |
| Settings.PresetsDifferOnlyInLimits | src/execution/config.rs:94-138 | the presets agree with the default in every field except position size and loss limit |
| Settings.MaxDollarLoss | src/execution/config.rs:141-143 | zero contracts risk nothing |
| Settings.MaxDollarLossExample | src/execution/config.rs:177-181 | the default limit is $2000 for one contract and $4000 for two |
| Settings.TradingHoursExample | src/execution/config.rs:159-174 | the default window admits 9:30 to 10:59 and rejects 9:00, 9:29, 11:00 and 11:30 |
| Settings.TradingHoursInterval | src/execution/config.rs:146-151 | moving forward inside the window never leaves it before the end |
| Engine.NewEngine | src/execution/engine.rs:83-122 | a new engine is flat, tracks no brackets and has both daily flags lowered |
| Engine.SimulateEntryFill | src/execution/engine.rs:227-285 | a missing bracket is an error; otherwise the fill is recorded and the stop and target are placed with the next two ids |
| Engine.SignalBracket | src/execution/engine.rs:176-195 | the signal's bracket takes the next id, the signal's side and LVN level, and is pending |
| Engine.ExecuteSignal | src/execution/engine.rs:152-224 | a signal is refused exactly while a daily flag is set or the position would exceed the maximum size; otherwise one bracket is added |
| Engine.SimulatedSignalOpensPosition | src/execution/engine.rs:152-285 | in simulation the new bracket is filled at once, the net position takes its signed quantity, and its stop is the buffer beyond the LVN level |
| Engine.ExitFor | src/execution/engine.rs:327-352 | only an open bracket exits; the stop is checked before the target |
| Engine.CheckExitTriggers | src/execution/engine.rs:319-359 | at most one exit per open bracket, each from some bracket, in bracket order |
| Engine.CheckExitTriggersComplete | src/execution/engine.rs:319-359 | every bracket that exits at the price appears among the triggers |
| Engine.CheckDailyLimit | src/execution/engine.rs:385-413 | each flag is raised by its own condition and, once raised, stays raised |
| Engine.ProcessExitFill | src/execution/engine.rs:362-382 | the daily limits are re-checked exactly when the exit was recorded |
| Engine.StoppedEngineRefusesSignals | src/execution/engine.rs:152-160 | once a flag is raised every new signal is refused until the daily reset |
| Engine.ResetDaily | src/execution/engine.rs:483-488 | a reset starts a new day and lowers both flags |
| Engine.FlattenOrder | src/execution/engine.rs:431-455 | a flat position sends nothing; otherwise a market order for the whole position on the opposite side |
| Engine.UpdateTrailingStops | src/execution/engine.rs:288-316 | every open bracket trails and no stop loosens |
| Engine.DailyLossLimitExample | src/execution/engine.rs:546-574 | the in-file test's 15-point loss against a 10-point limit raises the flag and refuses the next signal |
| Engine.ExecuteSignalExample | src/execution/engine.rs:514-543 | the in-file test's simulated long fills one contract at 21505 with the stop at 21498.5 |
| Observer.WrappingSub | src/trading.rs:71 | `u64` subtraction wraps modulo 2^64 in a release build |
| Observer.NewObserver | src/trading.rs:57-66 | a new observer is flat with no signals yet |
| Observer.FlipDirection | src/trading.rs:80-84 | "bullish" means long and any other word short |
| Observer.EnterPosition | src/trading.rs:121-174 | the stop and target sit the configured distances on either side of the entry price |
| Observer.OnDeltaFlip | src/trading.rs:69-93 | a flip is ignored within 30 seconds of the last signal and while a position is open; otherwise it enters in the flip's direction |
| Observer.ExitPosition | src/trading.rs:176-212 | the position is cleared, and a signal goes out only if there was one |
| Observer.PositionPnl | src/trading.rs:102-107 | a long gains as price rises and a short as it falls |
| Observer.OnPriceUpdate | src/trading.rs:96-119 | an open position exits at the target when its P&L reaches the take-profit (checked first) and at the stop when it falls to minus the stop distance |
| Observer.ExitsAtStopOrTarget | src/trading.rs:96-174 | the P&L reaches the take-profit exactly at the target price, and the stop distance exactly at the stop price |
| Observer.EntryThenExit | src/trading.rs:69-119 | an entry followed by an exit leaves the observer flat and free to take the next flip after the gap |
| Observer.NoPyramiding | src/trading.rs:75-78 | a second flip while a position is open is ignored, whatever the time |
| Observer.EarlierTimestampPassesGap | src/trading.rs:71-73 | a timestamp earlier than the last signal wraps to a huge difference and passes the 30-second gap |
| Observer.DefaultExample | src/trading.rs:36-44 | with the default distances a bullish flip at 21500 sets stop 21490 and target 21520; 21520 then hits the target and 21490 the stop |
| LiveTrading.ToLvnConfig | src/trading_core/trader.rs:68-90 | the retest distance, absorption range, hold and cooldowns are fixed, and the stop buffer serves both stops |
| LiveTrading.NewTrader | src/trading_core/trader.rs:261-297 | a new trader is flat, with nothing pending, no machine and the starting balance as balance and peak |
| LiveTrading.NewTraderWithMachine | src/trading_core/trader.rs:300-305 | the same trader with a fresh breakout machine switched on |
| LiveTrading.SetDailyLevels | src/trading_core/trader.rs:308-312 | the levels reach the machine when there is one; nothing else changes |
| LiveTrading.ProcessTrade | src/trading_core/trader.rs:315-319 | a trade joins the machine's active impulse when there is one; nothing else changes |
| LiveTrading.CheckDateChange | src/trading_core/trader.rs:412-427 | the same date changes nothing; a new date restarts the day's counters and counts a stopped day |
| LiveTrading.ResetDaily | src/trading_core/trader.rs:746-751 | the day's counters restart and the stop lifts without the stopped day being counted |
| LiveTrading.Open | src/trading_core/trader.rs:500-525 | the entry is the bar's open, the stop the buffer beyond the level, the target the take-profit beyond the entry |
| LiveTrading.Advance | src/trading_core/trader.rs:543-568 | the position ages a bar, its extremes widen and its trailing stop only tightens |
| LiveTrading.ExitOn | src/trading_core/trader.rs:570-605 | the stop is checked before the target, each filling at its own price; otherwise a timeout at the close once the hold is reached, and no exit exactly when none applies |
| LiveTrading.Classify | src/trading_core/trader.rs:639-668 | above the band a win, below minus the band a loss, otherwise breakeven |
| LiveTrading.Count | src/trading_core/trader.rs:627-668 | one more trade, its points added to gross profit or loss by outcome, with the tally still consistent |
| LiveTrading.Book | src/trading_core/trader.rs:626-637 | the balance moves by the dollars, the peak never falls below it and the drawdown never decreases |
| LiveTrading.NetPoints | src/trading_core/trader.rs:609-616 | the booked points are the gross move less slippage on entry and exit |
| LiveTrading.CloseTrade | src/trading_core/trader.rs:607-690 | the trade is booked and counted, the position cleared, and a loss that reaches a positive daily maximum stops the day |
| LiveTrading.Manage | src/trading_core/trader.rs:541-697 | with a position open the bar either exits it or reports the trailing stop |
| LiveTrading.MachineStep | src/trading_core/trader.rs:447-486 | without a machine nothing happens; the machine's bar changes only the machine and the generator's levels |
| LiveTrading.TakeSignal | src/trading_core/trader.rs:699-724 | a generator signal becomes pending exactly when the trader is flat, nothing is pending, in hours and not stopped |
| LiveTrading.Housekeep | src/trading_core/trader.rs:431-433 | the bar is counted, the date checked and the hours taken from its Eastern time |
| LiveTrading.Proceed | src/trading_core/trader.rs:488-724 | a pending signal is entered at the open or dropped out of hours, else an open position is managed, else the generator looks for a signal |
| LiveTrading.Act | src/trading_core/trader.rs:435-486 | nothing on a stopped day; at the loss limit the day stops and everything is flattened |
| LiveTrading.ProcessBar | src/trading_core/trader.rs:430-725 | the bar is counted, the configuration kept and the drawdown never decreases; the current date becomes the bar's, and a stopped day is counted exactly when the bar brings a new date |
| LiveTrading.StoppedDayIsSilent | src/trading_core/trader.rs:435-438 | once the day is stopped its remaining bars do nothing but count |
| LiveTrading.PendingEnteredAtOpen | src/trading_core/trader.rs:488-539 | a pending signal on a running day in hours is entered at the open with nothing left pending |
| LiveTrading.NewDateLiftsStop | src/trading_core/trader.rs:412-427 | the first bar of a new date counts the old stopped day and starts the new day clean |
| LiveTrading.EodClose | src/trading_core/trader.rs:342-365 | an open position closes at the last price, counted a win above one point and a loss below minus one, without slippage, commission or drawdown |
| LiveTrading.ResetForNewDayAsWritten | src/trading_core/trader.rs:341-378 | flat with nothing pending and the levels cleared; the day restarts without counting a stopped day |
| LiveTrading.ReplayLosesStoppedDay | src/trading_core/trader.rs:412-427 | as written, a day stopped before the end-of-day reset is never counted |
| LiveTrading.ResetForNewDay | src/trading_core/trader.rs:341-378 | the reset with a stopped day counted before the counters restart |
| LiveTrading.ReplayCountsStoppedDay | src/trading_core/trader.rs:415-419 | with the correction every stopped day is counted exactly once |
| LiveTrading.SquaredDeviations | src/trading_core/trader.rs:803-805 | the variance is never negative |
| LiveTrading.Sharpe | src/trading_core/trader.rs:800-814 | zero with at most one trade |
| LiveTrading.Summary | src/trading_core/trader.rs:759-835 | outcomes add up to the total; zeros without trades; the factor is infinite exactly with wins and no losses; a day stopped now is counted |
| ReplayTrading.AddLvnLevels | src/trading_core/trader.rs:331-333 | only the generator's levels change: the thin nodes are added under their own impulse ids |
| ReplayTrading.RunBars | src/pipeline/replay_trading.rs:140-145 | every bar of the day is counted, the last close is remembered and its date is current; the stopped-day count never falls, and it stays put over a single-date session that starts running |
| ReplayTrading.Replay | src/pipeline/replay_trading.rs:130-149 | after at least one day the trader is flat, with nothing pending, no levels and the day not stopped; because the end-of-day reset does not count a stopped day, the stopped-day count stays put over single-date sessions |
| ReplayTrading.DayStartsWithPriorNodesOnly | src/pipeline/replay_trading.rs:130-148 | day i sees only day i - 1's thin nodes, flat and with nothing pending, whatever the later days hold |
| ReplayTrading.RunReplay | src/pipeline/replay_trading.rs:102-214 | an error exactly without cached days; otherwise the summary of a fresh trader over them, whose outcomes add up; the last day's stop is never added, and over single-date sessions the reported count of days stopped early is zero whatever the losses |
| RithmicLive.NewTrader | src/pipeline/rithmic_live.rs:238-263 | a new trader is flat with nothing counted and the starting balance |
| RithmicLive.LoadLvnLevels | src/pipeline/rithmic_live.rs:265-274 | only the generator's levels change, and the count is the number of nodes read |
| RithmicLive.ResetDaily | src/pipeline/rithmic_live.rs:519-524 | only the day's losses, points and stop restart |
| RithmicLive.CloseTrade | src/pipeline/rithmic_live.rs:425-473 | the position is cleared, the points and dollars booked, and a loss reaching a positive daily maximum stops the day |
| RithmicLive.Manage | src/pipeline/rithmic_live.rs:357-478 | the position advances with a trail that only tightens, then exits at stop, target or timeout or reports the stop |
| RithmicLive.RequestSignal | src/pipeline/rithmic_live.rs:482-495 | the generator sees the bar only when the trader is flat, nothing is pending, in hours and not stopped |
| RithmicLive.Proceed | src/pipeline/rithmic_live.rs:309-495 | a pending signal is consumed and entered in hours only; else the position is managed; else a signal may be requested |
| RithmicLive.CheckTradingHours | src/pipeline/rithmic_live.rs:277-289 | only the hours flag changes, set exactly inside the window |
| RithmicLive.ProcessBar | src/pipeline/rithmic_live.rs:292-508 | the bar is counted; a stopped day does nothing more; the totals only grow |
| RithmicLive.Run | src/pipeline/rithmic_live.rs:292-508 | every bar of a run is counted once |
| RithmicLive.StoppedDayStaysStopped | src/pipeline/rithmic_live.rs:297-299 | a stopped day takes no trade and requests no signal until the daily reset |
| RithmicLive.RunTotalsGrow | src/pipeline/rithmic_live.rs:425-461 | the trade totals of a run only grow |
| RithmicLive.NewOrderManager | src/pipeline/rithmic_live.rs:572-580 | a new order manager has issued nothing and tracks no order |
| RithmicLive.OrderNumber | src/pipeline/rithmic_live.rs:584-587 | a number is read only from an id with the `LVN_` prefix |
| RithmicLive.NextOrderId | src/pipeline/rithmic_live.rs:584-587 | the counter steps up and the new id carries its value |
| RithmicLive.IssueIds | src/pipeline/rithmic_live.rs:584-587 | k calls give k ids and move the counter by k |
| RithmicLive.IssuedIdsIncrease | src/pipeline/rithmic_live.rs:584-587 | successive ids carry successive numbers, so none repeats |
| RithmicLive.SaturateI32 | src/pipeline/rithmic_live.rs:590-592 | the cast clamps to the `i32` range and keeps values inside it |
| RithmicLive.PriceToTicks | src/pipeline/rithmic_live.rs:590-592 | the rounded quotient, saturated to `i32`; over a zero tick an infinity saturates and a zero price gives 0 |
| RithmicLive.TicksWithinHalfTick | src/pipeline/rithmic_live.rs:590-592 | a tick count inside the `i32` range is within half a tick of the price |
| RithmicLive.LastBasket | src/pipeline/rithmic_live.rs:640-652 | the basket id of the last bracket response, or the one already tracked |
| RithmicLive.SubmitBracket | src/pipeline/rithmic_live.rs:595-660 | a fresh local id, and the stop and target offsets as tick counts of their distances from the entry |
| RithmicLive.BracketIgnoresSide | src/pipeline/rithmic_live.rs:611-615 | the offsets are the same for a long and a short with the same distances |
| RithmicLive.ModifyStop | src/pipeline/rithmic_live.rs:663-696 | nothing without a bracket; otherwise a request for it with the new stop's signed offset |
| RithmicLive.ModifyStopAgreesWithBracket | src/pipeline/rithmic_live.rs:663-696 | a stop on the loss side gets the tick count a fresh bracket would give it; one trailed into profit at most zero |
| RithmicLive.ClearOrders | src/pipeline/rithmic_live.rs:722-725 | neither a bracket nor a stop is tracked any more |
| RithmicLive.FlattenAll | src/pipeline/rithmic_live.rs:699-719 | every order is cancelled and the position exited, and nothing is tracked |
| RithmicLive.FlattenClears | src/pipeline/rithmic_live.rs:699-725 | flattening leaves the manager as clearing does, after which a stop move does nothing; clearing twice is clearing once |
| IbExecution.CreateFuturesContract | src/pipeline/ib_execution.rs:49-70 | no contract exactly for a local symbol under two characters, where the code panics; otherwise a CME future in USD whose symbol is a prefix of the local symbol |
| IbExecution.CreateNqContract | src/pipeline/ib_execution.rs:41-43 | the default is the March 2026 E-mini Nasdaq contract |
| IbExecution.NotMicro | src/pipeline/ib_execution.rs:51-56 | a symbol whose first two letters match no micro prefix is not a micro |
| IbExecution.ContractExamples | src/pipeline/ib_execution.rs:49-70 | NQH6 trades as NQ and ESH6 as ES; a single letter gives no contract |
| IbExecution.MicroExamples | src/pipeline/ib_execution.rs:51-56 | MNQH6, MESZ5 and M2KH6 trade as MNQ, MES and M2K |
| IbExecution.UnlistedMicroExample | src/pipeline/ib_execution.rs:51-60 | micro gold MGCZ5 is read as an E-mini with root MG |
| IbExecution.NewOrderManager | src/pipeline/ib_execution.rs:99-108 | a new manager starts its ids at 1 and tracks no order |
| IbExecution.GetNextOrderId | src/pipeline/ib_execution.rs:110-114 | the current id is handed out and the counter moves past it |
| IbExecution.IssueIds | src/pipeline/ib_execution.rs:110-114 | k calls give k ids and move the counter by k |
| IbExecution.IssuedIdsConsecutive | src/pipeline/ib_execution.rs:110-114 | successive ids are consecutive, so never reused |
| IbExecution.Reverse | src/pipeline/ib_execution.rs:126-129 | the exit side is the other side |
| IbExecution.EntryAction | src/pipeline/ib_execution.rs:126-129 | buy exactly to go long |
| IbExecution.Bracket | src/pipeline/ib_execution.rs:131-160 | three orders with consecutive ids; only the last transmits |
| IbExecution.SubmitBracket | src/pipeline/ib_execution.rs:117-172 | three fresh ids; the orders are placed until the broker refuses one, and success exactly when all three are taken |
| IbExecution.ModifyStop | src/pipeline/ib_execution.rs:175-197 | nothing without a tracked stop; otherwise the stop re-placed under its own id at the new price |
| IbExecution.ModifyStopAfterBracket | src/pipeline/ib_execution.rs:117-197 | after a complete bracket a stop move re-places its own stop leg |
| IbExecution.ClearOrders | src/pipeline/ib_execution.rs:221-225 | no order is tracked; the id counter and contract stay |
| IbExecution.FlattenAll | src/pipeline/ib_execution.rs:200-218 | at most the three tracked orders are cancelled, and nothing is tracked afterwards |
| IbExecution.FlattenCancelsBracket | src/pipeline/ib_execution.rs:117-218 | after a complete bracket, flattening cancels exactly its three orders, children first |
| LiveStream.DirectionName | src/streams/live.rs:480-483 | "long" exactly for a long and "short" exactly for a short |
| LiveStream.ReasonText | src/streams/live.rs:494-500 | each exit reason has its own text |
| LiveStream.TradeActionToSignal | src/streams/live.rs:471-536 | a pending signal is not broadcast; every other action becomes a signal with its fields |
| LiveStream.SignalRoundTrip | src/streams/live.rs:471-536 | a broadcast signal reads back as its action, given an entry's contract count |
| LiveStream.SideName | src/streams/live.rs:266-270 | as the code reads the aggressor byte: "sell" exactly for `B` or `b`, "buy" for every other byte, `A` and `a` included; for `A` and `B` this is the opposite of the side a historical file gives (see Findings) |
| LiveStream.SideNameCorrected | src/pipeline/trades.rs:148-152 | the corrected reading: "sell" exactly for `A` or `a`, and the same side as a historical file gives for `A` and `B` |
| LiveStream.SideNamesDiffer | src/streams/live.rs:266-270 | the live and corrected readings name different sides exactly for the bytes `A`, `a`, `B` and `b` |
| LiveStream.TapeOf | src/streams/live.rs:266-276 | the price in points, the size, the side by name as the code reads it, and the time in milliseconds |
| LiveStream.TickOf | src/streams/live.rs:279-299 | the bar aggregator sees the same price, size and time, as a buy exactly when the side name is buy, that is unless the byte is `B` or `b` |
| LiveStream.Buffered | src/streams/live.rs:332-345 | only trades of at least the minimum size reach the buffer |
| LiveStream.LargeTradesBuffered | src/streams/live.rs:332-345 | every trade of at least the minimum size reaches the buffer |
| LiveStream.BufferedCount | src/streams/live.rs:332-345 | the buffer holds exactly one entry per passing trade |

## Left out

- Process and file I/O of the Python scripts is left out: they are foreign effects.
  - This covers `subprocess.run`, the wall-clock timeout, CSV file handles, flushing, and progress and ETA printing.
  - A backtester run is a `RunOutcome` input, and the results file is a sequence of rows.
- Python regular expressions are left out. Metric extraction reads the first labelled line of the right numeric shape, over a line-and-token view of the text.
- Number formatting (`{:.2}`, `%f`, Rust's `{}` on floats) is modelled only for values that are whole hundredths. The `RustSweep` records keep their cells as numbers, so their round trips hold up to formatting.
- Report printing is left out: `print_*`, `status`, the Display impls and log lines only print.
- Network, broker and data-feed clients are left out: they are foreign calls.
  - This covers the IB API calls, Rithmic requests, the Databento and websocket stream loops, the `run_live` and `run` loops, `fetch_date.rs`, `daily_levels::fetch_*` and Supabase.
  - Broker replies are parameters: how many bracket legs IB accepts, and the Rithmic basket ids.
- `get_symbol_from_record`, the `TradeLogger` CSV writer and the broadcast send in `src/streams/live.rs` are left out: they are lookups in feed metadata and I/O.
- Concurrency is left out: rayon, tokio tasks, async locks and atomic progress counters. Parallel maps are modelled as sequential maps, which collect in the same order.
- `src/pipeline/monte_carlo.rs` is left out: it is random sampling.
- Decoding is left out: zstd, serde_json and parquet decoding, and the CSV decoding in `parse_zst_trades`. A decoded day or row is a caller-supplied result; only the row filter is modelled.
- Clocks and time zones are parameters: the New York conversion, `Utc::now`, `Local::now` and `SystemTime`.
- NaN, infinities and `partial_cmp().unwrap()` panics are not modelled, since `f64` is `real` here. The one exception is the Rust backtesters' profit factor, which is a `Base.Ratio` and may be `Infinite`. The Python analyser has no infinite value at all.
- SweepAnalysis.CoerceCell reads only plain decimal numerals. Python's `float()` and `int()` also accept forms that stay strings in the model:
  - `inf`, `-inf` and `nan`, including the `inf` a Rust sweep prints for a profit factor with no loss;
  - exponent forms such as `1e3`;
  - surrounding whitespace and digit underscores.
  The analysis operations require numbers in the columns they read, so a file with such a cell there is outside their preconditions.
- Sharpe ratios of the backtesters (`RetestBacktest`, `ThreeElement`, `SmartLvn`) are left out: they need a square root of a float variance. `LiveTrading.Summary` takes the square root as a parameter.
- ReplayTrading.Replay / RunReplay / RunBars / DayStart / DayStartsWithPriorNodesOnly: the replay drives the trader of `pipeline/trader.rs`, which is not part of this model. The trader of `src/trading_core/trader.rs` (`LiveTrading`) stands in for it, with its end-of-day reset as written. Their contracts are promises about that stand-in, not about the unseen trader.
- `RustSweep.RunSweep`: a run's summary is an input. `run_single_backtest` (`src/pipeline/sweep.rs:108-262`) drives the trader of `pipeline/trader.rs`, which is not part of this model.
- `RustSweep.RunConfig` leaves out `max_win_cap`, `volatility_slippage_factor`, `outlier_threshold`, `max_retrace_ratio` and `min_bars_before_switch`. Only that unseen trader reads them.
- `run_replay_realtime` and `run_replay_prior_day_profile` (`src/pipeline/replay_trading.rs:224-533`) are not modelled as drivers. Their node extraction is `Lvn.ExtractLvnsRealtime` and `Lvn.ExtractLvnsFromRthProfile`.
- `compute_weekly_levels` and `extended_levels_to_key_levels` (`src/pipeline/levels.rs:440-602`) are left out. The daily reference levels, the index and the Fibonacci levels are modelled; the weekly and extended levels are not.
- Small helpers are left out as trivial queries or delegates:
  - `levels_for_date`, `len` and `is_empty` of the level index;
  - `is_profiling_impulse`, `clear_levels` and `is_flat` of the traders.
- `load_lvn_levels` of `trading_core/trader.rs` is left out: it reads files. The Rithmic trader's loader is modelled with the decoded days as input.
- Parts of `src/processing.rs` are left out: `get_avg_volume_per_second`, `get_cvd_trend`, `is_at_key_level`, the volume and CVD history cleanups, and the bubble and websocket messages of `process_buffer`.
  - Their averages and the key-level test enter as parameters.
  - The window summary, the absorption test and the zone update are modelled.
- `detect_aggression_from_bars` and `signals_to_aggression_events` (`src/pipeline/three_element_backtest.rs:363-555`) are left out. The three-element backtester takes its aggression events as input.
- `ThreeElement.ShouldTakeTrade` handles only the eight level types the source's match names. Every other level type gives no trade.
- `ThreeElement.FindBarIndexBinary` has no model of the fallback `else if bars[0] <= t` branch. That branch cannot be reached, since the search has already ruled it out.
- `IbExecution.GetNextOrderId`: ids are unbounded integers, so the `i32` overflow after 2^31 orders is not modelled.
- The web server and messaging are left out: `src/main.rs`, `src/api.rs`, and the broadcast channels in `processing.rs` and `trading.rs`. Emitted signals are return values.
- Pure data and glue are left out: `src/types.rs`, the `models.rs` files, the `mod.rs` files, `src/lib.rs` and `src/pipeline/live_trading.rs`.
- The `bars`, `backtest`, `replay`, `supabase` and `pipeline/trader.rs` modules are not part of this model. `Bar` and the captured signal are plain records.
- BreakoutMachine / Lvn / RetestBacktest / SmartLvn / ThreeElement: the pipeline crate declares its own `impulse` and `market_state` modules (`src/pipeline/main.rs:6` and `:11`), and neither file is part of this model. The pipeline code uses them at `state_machine.rs:10`, `lvn.rs:1`, `lvn_retest.rs:21-23`, `smart_lvn.rs:12-14`, `three_element_backtest.rs:11` and `precompute.rs:8`. The `trading_core` copies stand in for them: `Impulse` (`src/trading_core/impulse.rs`) and `MarketRegime` (`src/trading_core/market_state.rs`). The contracts of these five modules, and the leg type of `Cache.ProcessDay`, describe those stand-ins, not the pipeline's unseen copies.
- Symbols.SweepCommandSlices / Symbols.RealList / Text.ParseF64: the tokens `inf`, `infinity` and `nan` (in any case, optionally signed) are dropped by the model but kept by the program, since `f64` is `real` here. For such a list the model's grid is smaller than the program's. A finite numeral is read exactly: the rounding to the nearest `f64`, and the overflow of a huge exponent to infinity, are not modelled.

## Findings

| source | as written | input that shows it | evidently intended | confidence | as-written member | corrected member |
|---|---|---|---|---|---|---|
| src/processing.rs:285-290 | A new price bucket records the trade's size as its total volume, but as buy volume only for side "buy" and as sell volume only for side "sell". Every later trade at that price counts any side other than "buy" as a sell. | A first trade at a price whose side is spelled differently, such as "Sell". The bucket's total becomes its size while its buy and sell volumes stay 0. | A new bucket splits its total into buy and sell volume the way later trades do, so total = buy + sell always holds | not executed | Processing.AddTradeAsWritten, Processing.AddTradeAsWrittenSplitsWrongly | Processing.AddTrade, Processing.AddTradeKeepsProfile |
| src/streams/live.rs:264-270, src/pipeline/databento_ib_live.rs:227-233 | Both live feeds read the aggressor byte `A` (or `a`) as a buy and `B` (or `b`) as a sell. The historical loader reads the same Databento field the other way: `B` is a buy and `A` a sell (`src/pipeline/trades.rs:148-152`). | A live trade whose side byte is `A`. The live stream and the live bar aggregator book it as a buy; the same trade replayed from a file is a sell. | Both paths give a trade the same side. Databento's convention makes the side the aggressor's, with `A` for a sell aggressor, as the historical loader reads it | not executed; the disagreement is in the code, and which reading is right rests on the feed's documented convention, while the live code's own comment calls `A` a buyer aggressor. The live-stream members therefore keep the code's reading, and the corrected one stands beside it | Market.LiveIsBuyAsWritten, Market.AggressorMappingsDisagree, LiveStream.SideName | Market.LiveIsBuy, Market.LiveAgreesWithHistorical, LiveStream.SideNameCorrected |
| src/trading_core/trader.rs:341-378 | `reset_for_new_day` calls `reset_daily` (lines 746-751), which clears `daily_stopped` without counting the day. `check_date_change` (lines 412-427) counts only a stopped day that is still flagged, and `summary` (lines 792-797) adds only a stop still flagged at the end. Both say in comments (lines 416 and 793) that stopped days are to be counted. No code among the files shown calls this trader's `reset_for_new_day`, so as far as they show, the defect is latent. | A trader whose loss limit has stopped the day calls `reset_for_new_day(None)` and then processes a bar of the next date. `days_stopped_early` is unchanged. | A day stopped early is counted once, whichever reset ends it | not executed | LiveTrading.ResetForNewDayAsWritten, LiveTrading.ReplayLosesStoppedDay | LiveTrading.ResetForNewDay, LiveTrading.ReplayCountsStoppedDay |
