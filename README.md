# A-share screener funnel, modelled in Dafny

Dafny model of the screening funnel of an A-share stock screener, with proofs. The funnel runs in four stages plus a refresh step:

- **Weekly scan** (`weekly_scan.dfy`). Each instrument goes through a pre-filter: the ST flag, history length, suspended days and turnover. Its monthly bars are then classified as uptrend, base-building or downtrend by a vote over a set of checks. Finally its weekly bars are scored: five mandatory gates, then bonus tiers, including a reset-on-miss volume streak. The result is a watchlist, sorted and truncated.
- **Daily scan** (`daily_scan.dfy`). Looks for a breakout through the weekly pivot or a pullback to a supporting moving average. It then builds a stop-loss: the maximum of three candidates, clamped to 10% below the entry. The signals are ranked by strength × 30 + weekly score × 0.7.
- **Rule ranker** (`ranker.dfy`). Scores the latest monthly features: 50 points plus fixed tiers, clamped to [0, 100]. An optional forecast adds its own tiers. Rows are then filtered by a minimum score, sorted and cut to the top N.
- **Feature extractor** (`features.dfy`). Computes the per-month feature table the ranker reads.
- **Forecast adapter** (`forecast.dfy`). The deterministic parts of the Prophet-based predictor and the linear-regression fallback.
- **Incremental refresh** (`incremental.dfy`). Date rules that decide from which day the daily, weekly and monthly bars are fetched again.

The indicator library (`indicators.dfy`) holds the following:
- rolling means, EMA-based MACD, RSI, ATR and the volume ratio;
- price position, the normalised regression slope and MA alignment;
- golden-cross detection, the volume pattern, and support and resistance.

Shared pieces:
- `stats.dfy`: sums, means, windows, pandas `tail`/`head`, the NaN-skipping mean, the sample variance, a coefficient-of-variation test without square roots, and the closed-form least-squares slope.
- `sorting.dfy`: a generic insertion sort by a total preorder.
- `calendar.dfy`: proleptic Gregorian dates with day numbers and weekdays.
- `market.dfy`: the bar record and its column projections.

Conventions of the model:
- Prices and volumes are `real`.
- A pandas value that is NaN because the window is short, or because NaN propagates, is `None`.
- A Python exception is `Err`.
- Loops of the source stay loops: methods with invariants, each proved equal to a specification function. The properties are then lemmas about those functions.

Where the code and its documentation disagree, the model follows the code:
- `get_core_feature_names` returns 28 names, although its docstrings speak of 30 features.
- `calculate_stop_loss` does not guarantee a stop below the entry (see Findings).
- The `ma40_weekly` column of the watchlist is always 0, because the raw weekly frame has no MA40 column.

## Model

| member | source | states |
|---|---|---|
| Indicators.RollingMean | stock_all/indicators.py:26-27 | one value per bar; bar i holds the mean of the window ending at i, or nothing while the window is short |
| Indicators.RollingMeanBounds | stock_all/indicators.py:26-27 | an MA value exists iff i + 1 >= period, and it lies between the window's minimum and maximum |
| Indicators.RollingMeanOfConstant | stock_all/indicators.py:26-27 | on a constant series every filled MA equals that constant |
| Indicators.MaPeriods | stock_all/indicators.py:360-365 | 5, 10 and 20 are always among the periods; 40 is among them iff the frequency is not monthly |
| Indicators.CalculateMa | stock_all/indicators.py:13-28 | exactly one MA column per requested period, each the rolling mean of the closes |
| Indicators.EmaBounds | stock_all/indicators.py:49-50 | every EMA value stays within any bounds that all inputs respect (it is a weighted average) |
| Indicators.EmaRecurrence | stock_all/indicators.py:49-50 | the EMA is seeded with the first value and then follows alpha*x + (1-alpha)*previous |
| Indicators.Alpha | stock_all/indicators.py:49-50 | the smoothing factor 2/(span+1) lies in (0, 1] |
| Indicators.CalculateMacd | stock_all/indicators.py:31-61 | all three columns are as long as the closes and MACD_hist = MACD - MACD_signal at every bar |
| Indicators.MacdOfConstant | stock_all/indicators.py:49-59 | a flat price series gives MACD 0 and histogram 0 at every bar |
| Indicators.Gains | stock_all/indicators.py:79-82 | one non-negative gain per bar (the first, NaN, delta counts as 0) |
| Indicators.Losses | stock_all/indicators.py:79-83 | one non-negative loss per bar |
| Indicators.CalculateRsi | stock_all/indicators.py:64-93 | one RSI per bar, each the RSI of the rolling average gain and loss at that bar |
| Indicators.RsiIsGainShare | stock_all/indicators.py:90-91 | the RSI is absent iff both averages are 0; otherwise it equals 100*gain/(gain+loss), lies in [0,100], and is 100 iff the loss is 0 and the gain positive |
| Indicators.RsiInRange | stock_all/indicators.py:82-91 | every defined RSI comes after the window has filled and lies in [0,100] |
| Indicators.TrueRange | stock_all/indicators.py:115-119 | the true range is at least high - low, and is non-negative from the second bar on |
| Indicators.TrueRanges | stock_all/indicators.py:115-119 | one true range per bar |
| Indicators.CalculateAtr | stock_all/indicators.py:96-124 | one ATR value per bar |
| Indicators.AtrNonnegative | stock_all/indicators.py:115-122 | the ATR exists iff the window has filled, and is never negative when the first bar has low <= high |
| Indicators.CalculateVolumeRatio | stock_all/indicators.py:163-185 | one ratio per bar: the volume over its rolling mean |
| Indicators.VolumeRatioFacts | stock_all/indicators.py:180-183 | with non-negative volumes a missing ratio after the window has filled means zero volume; a present ratio is non-negative; a flat positive series gives exactly 1 |
| Indicators.FlatVolumeRatio | stock_all/indicators.py:180-183 | a flat, positive volume series has ratio exactly 1 once the window fills |
| Indicators.CalculatePricePosition | stock_all/indicators.py:188-208 | one value per bar: the close over the highest close of the window |
| Indicators.PricePositionBounds | stock_all/indicators.py:203-206 | with positive closes the position exists iff the window has filled, and lies in (0, 1] |
| Indicators.MaSlope | stock_all/indicators.py:139-160 | one slope per bar, each the per-bar slope defined by SlopeAt |
| Indicators.SlopeStep | stock_all/indicators.py:143-158 | one iteration of the loop computes exactly the per-bar slope |
| Indicators.CalculateMaSlope | stock_all/indicators.py:127-160 | the appending loop produces exactly the specified slope column |
| Indicators.SlopeAtCases | stock_all/indicators.py:143-157 | a slope exists iff the window has filled and contains no NaN; if the current MA is 0 the slope is 0 |
| Indicators.SlopeOfLinearMa | stock_all/indicators.py:146-157 | on an MA window along the line a + b*k the result is b over the current MA (0 when that MA is 0) |
| Indicators.CheckMaAlignment | stock_all/indicators.py:211-234 | one flag per row, true iff every adjacent pair of columns is strictly ordered in the requested direction (NaN fails); with fewer than two columns every row is true |
| Indicators.AlignedIsStrictChain | stock_all/indicators.py:228-232 | on an aligned row any two columns are strictly ordered, not only adjacent ones |
| Indicators.DetectGoldenCross | stock_all/indicators.py:280-307 | true iff some adjacent pair of rows in the last lookback + 1 goes from fast - slow <= 0 to > 0; false when there are too few rows |
| Indicators.DetectMacdGoldenCross | stock_all/indicators.py:310-337 | false without MACD columns; otherwise the same crossing test on MACD against its signal line |
| Indicators.AnalyzeVolumePattern | stock_all/indicators.py:237-277 | with too few rows: both means 0, no cooperation and no ratio; otherwise a ratio exists and cooperation holds iff it exceeds 1.2 |
| Indicators.VolumePatternCases | stock_all/indicators.py:262-276 | no up bars gives ratio 0 and no cooperation; no down bars makes the down mean 1 and the ratio the up mean; the ratio is never negative |
| Indicators.FindSupportResistance | stock_all/indicators.py:384-408 | no levels iff there are fewer than lookback bars; otherwise support is the lowest low and resistance the highest high of the last lookback bars (both attained), and current is the last close |
| Indicators.SupportBelowResistance | stock_all/indicators.py:395-402 | when every bar has low <= high, support <= resistance |
| Indicators.CalculateAllIndicators | stock_all/indicators.py:340-381 | the frame has the frequency's MA columns, each the rolling mean; MA10_slope is always there, MA40_slope iff MA40 is; RSI(14) and volume ratio(20) are the specified columns |
| WeeklyScan.CountFlag | stock_all/weekly_scan.py:119-121 | the number of matching status cells, never more than the cells looked at |
| WeeklyScan.PreFilterOrder | stock_all/weekly_scan.py:107-132 | the rejections come in the source's order: ST flag on the last row, then fewer than 60 rows, then too many suspended days among the last 5, then a 20-row mean amount below the minimum; otherwise the instrument passes; the filter raises only when reading the ST flag of an empty frame |
| WeeklyScan.SuspendedAtMostFive | stock_all/weekly_scan.py:119-121 | at most five of the last five rows can count as suspended |
| WeeklyScan.StFlagNeverMatchesNumbers | stock_all/weekly_scan.py:110-111 | see Findings: with numeric status columns the string comparison lets an ST instrument through, while the corrected test rejects it |
| WeeklyScan.MostlyPassedIff | stock_all/weekly_scan.py:184 | "passed / checks >= 0.75 with checks > 0" is exactly 4*passed >= 3*checks with checks > 0 |
| WeeklyScan.RatioAtLeastThreeQuarters | stock_all/weekly_scan.py:184 | for a positive count c/n >= 0.75 iff 4c >= 3n |
| WeeklyScan.FindConsolidation | stock_all/weekly_scan.py:203-212 | the lookback loop with its early break finds a calm window iff some lookback in [min, max] that the series can hold has a coefficient of variation below the threshold |
| WeeklyScan.Tally | stock_all/weekly_scan.py:158-181 | one counted check adds its outcome to the score and 1 to the number of checks; a check that is not counted changes neither |
| WeeklyScan.LastRowAligned | stock_all/weekly_scan.py:170-172 | the alignment test on the last row is MA5 > MA10 > MA20 (NaN fails) |
| WeeklyScan.UptrendTests | stock_all/weekly_scan.py:157-181 | the four uptrend tests, in order, with the MA10 and gain tests counted only when enabled and the slope test always counted |
| WeeklyScan.UptrendVote | stock_all/weekly_scan.py:154-185 | the counters give UPTREND iff at least three quarters of the counted uptrend checks passed |
| WeeklyScan.BaseTests | stock_all/weekly_scan.py:192-225 | the four base-building tests, in order; the slope band counts only when the slope is present and the volume test only when enabled |
| WeeklyScan.BaseChecksAre | stock_all/weekly_scan.py:192-225 | the counted base checks are drawdown, consolidation, the slope band (when the slope is present) and volume cooperation (when enabled) |
| WeeklyScan.BaseVote | stock_all/weekly_scan.py:188-229 | the counters give BASE_BUILDING iff at least three quarters of the counted base checks passed |
| WeeklyScan.ClassifyFrame | stock_all/weekly_scan.py:153-232 | on a monthly frame the uptrend vote comes first, then the base vote on 24 bars or more, and DOWNTREND otherwise |
| WeeklyScan.JudgeMonthlyTrend | stock_all/weekly_scan.py:135-232 | the step-by-step classifier returns exactly the specified trend |
| WeeklyScan.MonthlyTrendCases | stock_all/weekly_scan.py:142-229 | fewer than 12 bars is DOWNTREND; otherwise between 2 and 4 uptrend checks are counted, UPTREND iff 4*passed >= 3*checks, and BASE_BUILDING iff 24 bars, the uptrend test failed and 3/4 of 2 to 4 base checks passed |
| WeeklyScan.FrameTrendCases | stock_all/weekly_scan.py:154-229 | the same three-way case split, stated on the indicator frame |
| WeeklyScan.TrailingRun | stock_all/weekly_scan.py:383-389 | the trailing run of hits is never longer than the flags |
| WeeklyScan.TrailingRunIsLongestSuffix | stock_all/weekly_scan.py:383-389 | every flag in the trailing run is a hit and the flag just before it is a miss, so the reset-on-miss count is the longest all-hit suffix |
| WeeklyScan.StreakFlags | stock_all/weekly_scan.py:380-386 | four flags, one per week 5..8 of the last eight |
| WeeklyScan.ConsecutiveCount | stock_all/weekly_scan.py:383-389 | the counting loop that resets on a miss returns the trailing run |
| WeeklyScan.StreakCountMeaning | stock_all/weekly_scan.py:380-389 | the count is at most 4; each of the last count weeks has volume above ratio times the mean of weeks 1..4, and the week before them does not |
| WeeklyScan.StreakBonus | stock_all/weekly_scan.py:392-395 | no bonus below min_weeks; otherwise the smaller of (count - min_weeks + 1)*5 and max_bonus |
| WeeklyScan.TierBonus | stock_all/weekly_scan.py:337-370 | the five capped tiers together give between 0 and 45 points |
| WeeklyScan.PriceGates | stock_all/weekly_scan.py:262-310 | the four price gates: passed iff every enabled gate holds (the MA40-slope gate always counts), the points of the passed gates, and the recorded outcome of each gate |
| WeeklyScan.VolumeStreak | stock_all/weekly_scan.py:373-396 | the streak adds its bonus and records the week count only when enabled and the count reaches min_weeks |
| WeeklyScan.AllGates | stock_all/weekly_scan.py:262-326 | the five gates, the volume gate always evaluated: passed iff every enabled gate holds, with the full mandatory points on a pass |
| WeeklyScan.PassedVerdict | stock_all/weekly_scan.py:333-404 | a passed structure scores its mandatory points plus the tier and streak bonus |
| WeeklyScan.ScoreWeeklyFrame | stock_all/weekly_scan.py:250-404 | the scorer on the indicator frame, raising when the volume ratio is missing |
| WeeklyScan.CheckWeeklyStructure | stock_all/weekly_scan.py:235-404 | the step-by-step scorer returns exactly the specified result |
| WeeklyScan.WeeklyShortOrMissingRatio | stock_all/weekly_scan.py:246-247 | fewer than 40 bars fails with score 0 and no details; the scorer raises iff 40 <= bars < volume_lookback, where the pattern has no volume_ratio key |
| WeeklyScan.WeeklyVerdictFacts | stock_all/weekly_scan.py:313-399 | passed iff every enabled gate holds and the volume ratio reaches its minimum; a failure scores 0; a pass scores between the mandatory points and mandatory + 45 + max_bonus |
| WeeklyScan.WeeklyStructureFacts | stock_all/weekly_scan.py:246-404 | a scored series of 40 bars or more has a volume ratio, and its result is the verdict on the indicator frame |
| WeeklyScan.ProcessSingleStock | stock_all/weekly_scan.py:407-454 | the filter chain returns exactly the specified outcome: a missing or empty file skips the instrument, and the pre-filter is the one as written |
| WeeklyScan.ProcessStockAdmits | stock_all/weekly_scan.py:419-446 | a returned row had all three series, each non-empty, passed the pre-filter as written, has a trend other than DOWNTREND equal to the monthly trend, and carries the score of a passed weekly structure |
| WeeklyScan.CollectResults | stock_all/weekly_scan.py:487-499 | the loop of main keeps exactly the rows of the instruments that were processed without error and admitted (pre-filter as written), in order |
| WeeklyScan.CollectedSnoc | stock_all/weekly_scan.py:490-496 | one more instrument appends its admitted row, if any, to the rows so far |
| WeeklyScan.CollectedAreAdmitted | stock_all/weekly_scan.py:490-499 | every collected row is not DOWNTREND and was produced by one of the instruments |
| WeeklyScan.OrdersArePreorders | stock_all/weekly_scan.py:512-521 | both watchlist orders are total and transitive |
| WeeklyScan.WatchlistIsOrdered | stock_all/weekly_scan.py:510-525 | the watchlist holds min(max_stocks, rows) of the rows; scores descend, or with prefer_base_building no UPTREND row precedes a BASE_BUILDING row and scores descend within a trend; no row cut by head ranks above a kept one |
| DailyScan.AnyCrossingIff | stock_all/daily_scan.py:127-136 | the recursive scan over rows [lo, hi) finds a crossing iff some row in that range crosses the pivot |
| DailyScan.ScanBreakthrough | stock_all/daily_scan.py:125-136 | the loop over the last three closes sets the flag iff one of them closes above the pivot after a close at or below it (the first one compared with the 4th-last close, or 0) |
| DailyScan.CountStrength | stock_all/daily_scan.py:147-156 | one point for an RSI above its threshold and one for a close at the highest high of new_high_days rows |
| DailyScan.BreakoutChecks | stock_all/daily_scan.py:118-166 | the tests after the length check, step by step, give exactly the specified signal |
| DailyScan.BreakoutTrigger | stock_all/daily_scan.py:101-166 | the detector returns exactly the specified breakout signal |
| DailyScan.BreakoutGatesFacts | stock_all/daily_scan.py:121-166 | a signal exists iff the close is above the pivot, the pivot was crossed in the last three sessions, a present volume ratio is not below its minimum, and the RSI or new-high test holds; its strength is 1 or 2, and 2 iff both tests hold |
| DailyScan.BreakoutFacts | stock_all/daily_scan.py:115-166 | the same on a daily frame, with fewer than 20 rows giving no signal |
| DailyScan.CrossingNeedsCloseAbove | stock_all/daily_scan.py:125-136 | a crossing needs one of the last three closes above the pivot, and the first of them is compared with the 4th-last close when there is one |
| DailyScan.SupportMa | stock_all/daily_scan.py:192-211 | a chosen average exists in the frame and was touched within 2% by a low in the touch window |
| DailyScan.SupportMaIsFirst | stock_all/daily_scan.py:192-211 | the chosen average is the first in the configured list that exists and was touched; with none chosen, no listed average was touched |
| DailyScan.ScanTouch | stock_all/daily_scan.py:198-208 | the inner loop finds a touch iff some row of the window has a present MA within 2% of its low |
| DailyScan.FindSupportMa | stock_all/daily_scan.py:189-211 | the nested loops set support_ma to exactly the first touched average |
| DailyScan.PullbackChecks | stock_all/daily_scan.py:216-255 | the steps after the support scan give exactly the specified signal |
| DailyScan.PullbackTrigger | stock_all/daily_scan.py:169-255 | the detector returns exactly the specified pullback signal |
| DailyScan.PullbackGatesFacts | stock_all/daily_scan.py:216-255 | a signal exists iff the volume shrank, the day closed up, a present volume ratio reached the recovery minimum and the drawdown is within the cap; it carries the support and the ratio, and its strength is 1 or 2, 2 iff the close beats the four prior highs |
| DailyScan.PullbackFacts | stock_all/daily_scan.py:182-214 | a signal needs lookback_days + 5 rows and a touched support average, and the window's last row is the latest one |
| DailyScan.ClampBounds | stock_all/daily_scan.py:292-296 | after the clamp the risk is at most 10%, the stop is no lower than before and at least 90% of the entry, and risk*entry = entry - stop |
| DailyScan.ClampBelowEntry | stock_all/daily_scan.py:292-296 | a stop below a positive entry stays below it, with a risk in (0, 10%] |
| DailyScan.ClampNotBelowEntry | stock_all/daily_scan.py:292-296 | a stop at or above a positive entry is kept, with a risk that is not positive |
| DailyScan.Highest | stock_all/daily_scan.py:290 | the maximum is at least every candidate present and equals one of them |
| DailyScan.StopLossBounds | stock_all/daily_scan.py:270-298 | on a positive entry both versions of the stop-loss succeed, with the risk at most 10%, the stop at least 90% of the entry and no lower than the percentage stop |
| DailyScan.StopNotBelowEntryAsWritten | stock_all/daily_scan.py:276-290 | see Findings: without an ATR, or with the structure low disabled, the stop as written is at or above the entry and the risk is not positive |
| DailyScan.StopBelowEntry | stock_all/daily_scan.py:272-298 | see Findings: the corrected stop is strictly below a positive entry when every candidate taking part is, so the risk lies in (0, 10%] |
| DailyScan.WeeklyPivot | stock_all/daily_scan.py:327-329 | the pivot exists iff there are weekly rows, and it is the highest high of the last 20 of them (attained) |
| DailyScan.ChooseSignal | stock_all/daily_scan.py:331-346 | breakout first, pullback only without a breakout, exactly as specified |
| DailyScan.ScanSingleStock | stock_all/daily_scan.py:301-379 | the per-instrument steps return exactly the specified row or its absence: a missing or empty file skips the instrument, and the stop is the stop-loss as written |
| DailyScan.SelectSignalFacts | stock_all/daily_scan.py:331-346 | a pullback is chosen only when no breakout was detected, a breakout only with a pivot, and any chosen signal has strength 1 or 2 |
| DailyScan.ScanStockRisk | stock_all/daily_scan.py:348-366 | a row with a positive entry has risk_pct at most 10 (percent), a stop at least 90% of the entry (stop-loss as written) and strength 1 or 2 |
| DailyScan.RankSignalsIsOrdered | stock_all/daily_scan.py:439-445 | min(max_signals, n) rows are kept, drawn from the signals, in descending strength*30 + score*0.7, and none left out scores above one kept |
| DailyScan.CollectSignals | stock_all/daily_scan.py:414-426 | the loop keeps exactly the rows of the instruments that gave a signal without raising (stop-loss as written), in order |
| Features.ToBars | stock_all/simple_feature_engineering.py:38-42 | the monthly rows convert exactly when every one is numeric, one bar per row, each the row's own values |
| Features.MonthOf | stock_all/simple_feature_engineering.py:167-170 | a parsed month lies in 1..12 |
| Features.Months | stock_all/simple_feature_engineering.py:167-170 | the months exist exactly when every date parses, one per row, each that row's month |
| Features.TrendStrengthColumn | stock_all/simple_feature_engineering.py:178-201 | the loop appends one strength per month, each the specified least-squares strength |
| Features.TrendStrengthFacts | stock_all/simple_feature_engineering.py:187-199 | the strength is never negative, and is 0 on the first five months |
| Features.TrendStrengthOfLine | stock_all/simple_feature_engineering.py:191-199 | on six closes on a line a + b*k the strength is abs(b / close), 0 on a zero close, and 0 on a flat window |
| Features.LongestCalm | stock_all/simple_feature_engineering.py:218-224 | the longest calm lookback is 0 or lies in 4..top |
| Features.ConsolidationScore | stock_all/simple_feature_engineering.py:210-226 | the inner loop over lookbacks 4..8 returns the specified score |
| Features.ConsolidationColumn | stock_all/simple_feature_engineering.py:203-228 | the outer loop appends one score per month, each the specified score |
| Features.LongestCalmIsLongest | stock_all/simple_feature_engineering.py:218-224 | a positive result is a lookback whose window has a coefficient of variation below 0.15, and no longer lookback up to top has one |
| Features.ConsolidationFacts | stock_all/simple_feature_engineering.py:208-226 | the score lies in {0, 4, ..., 8}, is 0 before the ninth month, and is the longest lookback in 4..8 whose window is calm |
| Features.Moved | stock_all/simple_feature_engineering.py:268-269 | at most one value per row after the first is picked |
| Features.MovedPicks | stock_all/simple_feature_engineering.py:268-269 | every picked value belongs to a row that moved the chosen way against the row before |
| Features.MovedNone | stock_all/simple_feature_engineering.py:268-269 | a window with no move the chosen way picks nothing |
| Features.VolumeUpDownColumn | stock_all/simple_feature_engineering.py:254-277 | the loop appends one ratio per month, each the specified ratio |
| Features.UpDownRatioFacts | stock_all/simple_feature_engineering.py:260-275 | the ratio is 1 on the first six months; later, with a positive falling-side mean, ratio * down = up and the ratio exceeds 1 iff the rising side's mean volume is higher |
| Features.UpDownRatioFlat | stock_all/simple_feature_engineering.py:268-275 | six flat closes give ratio 1 |
| Features.UpDownRatioNonnegative | stock_all/simple_feature_engineering.py:271-275 | non-negative volumes give a non-negative ratio |
| Features.CooperationAt | stock_all/simple_feature_engineering.py:286-305 | cooperation is 0 or 1 |
| Features.CooperationOf | stock_all/simple_feature_engineering.py:294-303 | cooperation of one window is 0 or 1 |
| Features.VolumeCooperationColumn | stock_all/simple_feature_engineering.py:279-307 | the loop appends one flag per month, each the specified flag |
| Features.CooperationFacts | stock_all/simple_feature_engineering.py:286-305 | the flag is 0 on the first six months and on six flat closes; a 1 needs a rising month in the window with a known volume ratio |
| Features.CooperationOfFacts | stock_all/simple_feature_engineering.py:294-303 | flat closes never cooperate; cooperation needs a rising row with a known ratio |
| Features.BreakoutAt | stock_all/simple_feature_engineering.py:230-252 | the breakout flag is 0 or 1 |
| Features.BreakoutFacts | stock_all/simple_feature_engineering.py:237-250 | the flag is 1 iff there are 20 earlier months, the close beats each of their highs, and the volume ratio exceeds 1.3 |
| Features.ObvTrendFacts | stock_all/simple_feature_engineering.py:115-118 | the OBV trend is absent exactly on the first three months, and otherwise is the sum of the last three signed volumes, between minus and plus their total volume |
| Features.MaAlignmentAt | stock_all/simple_feature_engineering.py:68-74 | the alignment lies in 0..2, is 2 iff MA5 > MA10 > MA20, and 0 iff neither pair is in order |
| Features.RsiPosition | stock_all/simple_feature_engineering.py:145-151 | -1 iff the RSI is below 30, 1 iff it is above 70, otherwise 0 (NaN included) |
| Features.Quarter | stock_all/simple_feature_engineering.py:169 | the quarter q lies in 1..4 and holds the month in 3(q-1)+1..3q |
| Features.EarningsSeason | stock_all/simple_feature_engineering.py:171 | 1 exactly in April, August and October, else 0 |
| Features.MacdCrossAt | stock_all/simple_feature_engineering.py:129-136 | 1 iff the MACD was below its signal on the previous month and is above it on this one |
| Features.ReturnMomentumFacts | stock_all/simple_feature_engineering.py:64-143 | the 6-month return exists iff there are six earlier months with a non-zero close; return * old close = momentum, positive iff the close rose; the acceleration needs six earlier months and is close - 2*close[-3] + close[-6] |
| Features.VolatilityIsCv | stock_all/simple_feature_engineering.py:88-89 | with a true square root the 6-month volatility exists and is below t exactly when the coefficient-of-variation test passes |
| Features.DrawdownFacts | stock_all/simple_feature_engineering.py:96-98 | on positive closes the 24-month drawdown exists from the 24th month on and lies in [0, 1) |
| Features.PriceToHighFacts | stock_all/simple_feature_engineering.py:76-77 | on positive closes the price to the 12-month high exists from the 12th month on and lies in (0, 1] |
| Features.CreateInvestmentFeaturesFacts | stock_all/simple_feature_engineering.py:26-176 | the table is empty exactly when no close is numeric; otherwise it has one row per month and keeps each month's values as read |
| Features.CoreFeatureNames | stock_all/simple_feature_engineering.py:309-334 | 28 distinct feature names |
| Incremental.WeekStart | fetch_kline_incremental.py:90-94 | the Monday is a valid date whose day number is the date's minus its weekday |
| Incremental.MonthStart | fetch_kline_incremental.py:97-100 | day 1 of the month is a valid date |
| Incremental.WeekStartIsMonday | fetch_kline_incremental.py:90-94 | the week start is a Monday, no later than the date and at most six days before it |
| Incremental.SameWeekIsSameBlock | fetch_kline_incremental.py:73-80 | two dates share a week exactly when their day numbers lie in the same block of seven counted from 0001-01-01, a Monday |
| Incremental.StartsBelongToPeriod | fetch_kline_incremental.py:73-100 | a date's Monday lies in its week and its month start (day 1) in its month |
| Incremental.SameWeekSymmetric | fetch_kline_incremental.py:73-80 | same week is reflexive and symmetric, and dates in one week are at most six days apart |
| Incremental.SameMonthSymmetric | fetch_kline_incremental.py:83-87 | same month is reflexive and symmetric, and holds exactly when the month starts coincide |
| Incremental.DailyRefetchRule | fetch_kline_incremental.py:131-141 | with a stored date the refresh restarts from it; without one it starts 365 days before today, when such a date exists |
| Incremental.WeeklyRefetchCoversLast | fetch_kline_incremental.py:168-187 | with a stored date the restart is never after it: within the same week this week's rows are deleted and refetched from its Monday, otherwise the refresh restarts at the stored date; a new instrument starts 5*365 days back |
| Incremental.MonthlyRefetchCoversLast | fetch_kline_incremental.py:213-232 | the same for months: day 1 of the month within the same month, the stored date otherwise, 10*365 days back for a new instrument |
| Calendar.Weekday | fetch_kline_incremental.py:78 | the weekday lies in 0..6 |
| Calendar.ToDaysOrdered | fetch_kline_incremental.py:180 | day numbers follow calendar order, the order in which the stored ISO dates compare |
| Calendar.ToDaysInjective | fetch_kline_incremental.py:75-80 | distinct valid dates have distinct day numbers |
| Calendar.MinusDays | fetch_kline_incremental.py:141 | subtracting k days succeeds exactly when the result is not before 0001-01-01, and lowers the day number by k |
| Stats.CvBelowIsRatioTest | stock_all/simple_feature_engineering.py:222-223 | the square-free test is exactly std / mean < t for the sample standard deviation |
| Stats.SlopeOfLine | stock_all/simple_feature_engineering.py:195-196 | least squares recovers a straight line: slope b and intercept a for y[i] = a + b*i |
| Stats.SlopeOfConstant | stock_all/indicators.py:154-155 | a constant window has slope 0 |
| Stats.MeanSkipNa | stock_all/weekly_scan.py:127-129 | the NaN-skipping mean exists exactly when some value is present |
| Sorting.SortBySorted | stock_all/weekly_scan.py:510-525 | for a total, transitive order the insertion sort returns a sorted permutation of its input |
| Sorting.SortByKeepsTies | stock_all/weekly_scan.py:512-518 | the sort is stable: rows that all tie keep their input order, as pandas' two-key sort keeps them |
| Sorting.InsertAfterAll | stock_all/weekly_scan.py:512-518 | a row that every row ties with or precedes is inserted last, behind its ties |
| Sorting.TopN | stock_all/daily_scan.py:440-445 | sort then head(n): min(n, length) rows, drawn from the input |
| Sorting.TopNIsBest | stock_all/daily_scan.py:440-445 | the kept rows are sorted and every row cut goes after every kept one |
| Forecast.ClassifyTrend | stock_all/prophet_predictor.py:186-203 | each of the seven labels is given exactly on its band of the forecast return, with strict lower and inclusive upper bounds at 10%, 5%, 2%, -2%, -5% and -10% |
| Forecast.ClassifyTrendMonotone | stock_all/prophet_predictor.py:186-203 | a higher forecast return never gets a weaker label |
| Forecast.Confidence | stock_all/prophet_predictor.py:163-166 | the confidence lies in [0, 1] |
| Forecast.ConfidenceFacts | stock_all/prophet_predictor.py:163-166 | on a positive price the confidence is 1 - uncertainty when that lies in [0, 1], is 1 on an empty or inverted interval, and never rises as the interval widens |
| Forecast.TrendStrength | stock_all/prophet_predictor.py:237-263 | the strength is at most 1, 0 on a forecast under six rows, and not negative for a positive price |
| Forecast.TrendStrengthOfLine | stock_all/prophet_predictor.py:245-261 | on a straight-line trend of slope b over the last six rows the strength is min(10 abs(b) / price, 1), and 0 on a flat trend |
| Forecast.ExtractResults | stock_all/prophet_predictor.py:148-184 | a prediction is read off the forecast exactly when there is a last close, it is non-zero, and the forecast covers the history |
| Forecast.ExtractResultsFacts | stock_all/prophet_predictor.py:148-235 | the prediction holds the last close and the last yhat, return * price = predicted - price, the label is the classification of the return, the confidence is in [0, 1], the strength at most 1, and on a positive price the return is positive iff the prediction is above the price |
| Forecast.NumericCloses | stock_all/prophet_predictor.py:103-107 | dropna keeps no more rows than it was given |
| Forecast.PrepareData | stock_all/prophet_predictor.py:90-112 | a prepared series has at least twelve closes and is exactly the numeric closes |
| Forecast.PredictTrendGuards | stock_all/prophet_predictor.py:45-88 | no prediction when Prophet is unavailable, under twelve rows, without the date and close columns, with under twelve numeric closes or when the fit raises; any prediction is the extraction from the fit of the numeric closes |
| Forecast.FeatureNames | stock_all/prophet_predictor.py:297-308 | six distinct feature names |
| Forecast.FeaturesForMl | stock_all/prophet_predictor.py:265-295 | the keys are exactly the six feature names, all 0 without a prediction, and otherwise each holds the matching field of the prediction |
| Forecast.SimplePredictOfLine | stock_all/prophet_predictor.py:320-359 | on a straight-line last year a + b*k the fallback predicts a + b*(11 + forecast_periods), with trend slope b and trend change 6b |
| Forecast.SimplePredictFacts | stock_all/prophet_predictor.py:320-361 | no prediction exactly under twelve rows or on a zero last close; otherwise the label is Up or Down, Up iff the return is positive, return * price = predicted - price, the confidence is not negative, and on a positive price Up iff the prediction exceeds it |
| Ranker.AddTrendTiers | stock_all/ml_ranker.py:190-210 | the three trend tiers add exactly their points to the running score |
| Ranker.AddStructureTiers | stock_all/ml_ranker.py:212-225 | the contraction and consolidation tiers add exactly their points, a missing contraction counting as 1 |
| Ranker.AddVolumeTiers | stock_all/ml_ranker.py:227-238 | the up/down volume and cooperation tiers add exactly their points |
| Ranker.AddSignalTiers | stock_all/ml_ranker.py:240-254 | the MACD, MACD-cross and momentum tiers add exactly their points |
| Ranker.AddForecastTiers | stock_all/ml_ranker.py:256-277 | with a forecast, the return tiers (+15, +12, +8, +4 or -10) and the confidence tiers (+5, +3) are added; without one nothing is |
| Ranker.CalculateScore | stock_all/ml_ranker.py:182-280 | the score-by-score method computes the specified score |
| Ranker.ScoreBounds | stock_all/ml_ranker.py:188-280 | the score lies in [0, 100]; the feature tiers add 0 to 80; without a forecast the raw score is 50 to 130, with one 40 to 150 |
| Ranker.EmptyScoresFifty | stock_all/ml_ranker.py:188-280 | an empty dictionary without a forecast scores exactly 50 |
| Ranker.AllZeroScoresSixty | stock_all/ml_ranker.py:212-219 | a dictionary of zeros with a contraction entry scores exactly 60, since a contraction of 0 is below 0.7 |
| Ranker.AboveMonotone | stock_all/ml_ranker.py:192-203 | a strict-threshold tier never falls as its feature rises |
| Ranker.AtLeastMonotone | stock_all/ml_ranker.py:206-225 | an inclusive-threshold tier never falls as its feature rises |
| Ranker.BelowAntitone | stock_all/ml_ranker.py:214-218 | the contraction tier never rises as the contraction rises |
| Ranker.ForecastTiersMonotone | stock_all/ml_ranker.py:257-277 | the forecast-return and confidence tiers never fall as their inputs rise |
| Ranker.ScoreMonotone | stock_all/ml_ranker.py:182-280 | a dictionary that is no worse on every helping feature and no higher on the contraction, with a forecast no worse on return and confidence, never scores lower |
| Ranker.FeatureDict | stock_all/ml_ranker.py:164-176 | the loop fills exactly the core feature names, each with its value or 0 when absent, NaN or infinite |
| Ranker.LatestFeatures | stock_all/ml_ranker.py:161-176 | the dictionary holds exactly the core names, each with its cleaned value |
| Ranker.ExtractFeaturesFacts | stock_all/ml_ranker.py:147-180 | there is no dictionary when no close is numeric; a dictionary holds exactly the core names and needs at least one month |
| Ranker.AllKeys | stock_all/ml_ranker.py:288-301 | the five labels are listed in strictly increasing order |
| Ranker.ExtractKeyFeatures | stock_all/ml_ranker.py:282-303 | the appending method returns exactly the labels whose conditions hold |
| Ranker.InOrderIsFiring | stock_all/ml_ranker.py:288-301 | testing the five conditions one after another is filtering the list of labels |
| Ranker.FiringFacts | stock_all/ml_ranker.py:288-301 | a label is kept iff it is listed and fires, the kept labels keep the listed order, and no more are kept than listed |
| Ranker.KeyFeaturesFacts | stock_all/ml_ranker.py:282-303 | a label is shown iff its condition holds, in the fixed order, at most five, and none exactly when no condition holds (the default text is then shown) |
| Ranker.MonthRows | stock_all/ml_ranker.py:86-98 | one month row per monthly row |
| Ranker.CollectRanked | stock_all/ml_ranker.py:81-126 | the loop appends exactly the rows of the instruments that were not skipped, in watchlist order |
| Ranker.AtLeastScore | stock_all/ml_ranker.py:142-143 | every row kept scores at least min_score and comes from the input |
| Ranker.AtLeastScoreSorted | stock_all/ml_ranker.py:135-143 | the threshold keeps the descending order |
| Ranker.HeadOfSorted | stock_all/ml_ranker.py:143 | head(top_n) of a sorted table is sorted and drawn from it |
| Ranker.RankStocksFacts | stock_all/ml_ranker.py:128-145 | the ranked rows all score at least min_score, come in descending score, number at most top_n, and are drawn from the results |
| Ranker.RankOneFacts | stock_all/ml_ranker.py:84-119 | an instrument is skipped exactly when it has no monthly data, fewer than 24 months or no feature dictionary; a ranked one scores within [0, 100] |

## Left out

- **File, database and network I/O.** This covers CSV loading and saving, SQL, and the data-source client with its retries and sleeps. A loaded series is an `Option` of bars, and an empty file counts as missing. The stored last date and `today` are parameters.
- **The web UI, the scheduler, the full-scan driver, progress bars, printing, argument parsing and YAML loading.** Configuration is a record passed in.
- **Floating point.**
  - Numbers are exact reals. A division by zero is modelled as an absent value.
  - pandas gives NaN for 0/0 (which the model matches) and ±inf for x/0. The two differ only for non-positive prices or volumes, where an infinity would pass or fail a comparison that an absent value fails.
  - `round(…, 2)` in output rows is not modelled, and the scores are kept unrounded.
- **Square roots.**
  - The coefficient-of-variation tests are exact squared comparisons (`Stats.CvBelow`).
  - The `volatility_6m` and `volatility_contraction` feature values take a caller-supplied square root.
  - `r_value` of the linear fallback is a parameter, so the fallback's confidence is only proved non-negative.
- **The Prophet fit and forecast.** They are a parameter `fit` returning the forecast frame, or an error when the fit raises. LightGBM training is not part of this model.
- **`linregress`** is the closed-form least-squares slope over reals.
- **Sort stability.** The model's insertion sort is stable. pandas sorts on two keys stably, so the `prefer_base_building` watchlist matches it on ties. A sort on one key uses quicksort, which is not stable: there the model fixes one of the orders pandas may return for tied rows.
- **Non-numeric values.**
  - In the feature extractor, a monthly series with some non-numeric field (other than an all-NaN close column) gives an error instead of NaN-propagated features.
  - A date that does not parse gives an error as well.
  - Bars are numeric records, so windows holding absent values inside a price column do not arise. The "absent window" branches of the trend strength and the MA slope are modelled only for moving-average columns.
- **The in-place overwrite of the `amount` column by the pre-filter.** It replaces the column with its numeric conversion and is only visible to later readers of the same frame. The model reads the converted column.
- **The feature extractor's copy of its input frame.** The model works on values, so the caller's frame cannot be changed.
- **Index labels, the `code`/`name` columns carried through, and the display strings of labels.** The Chinese label texts are a datatype and the default label is the empty list.
- **Date parsing.** Dates in the feature extractor are "%Y-%m-%d" strings, from which only the month is read. The refresh rules work on already-parsed dates.
- **Tracebacks.** The debug traceback printed for one fixed instrument code in the ranker is not modelled.
- Forecast.ExtractResults: a zero last close makes the source's return and confidence infinite or NaN (numpy division only warns), whereas the model gives no prediction. The same holds for `SimpleTrendPredictor`.
- Forecast.ExtractResults: a forecast frame holding fewer rows than the history is treated as no prediction, where pandas would index past the end and raise an error that `predict_trend` then turns into None. The two agree at the level of `predict_trend`.
- Forecast.SimplePredictFacts: the confidence `abs(r_value)` is only known to be non-negative, because `r_value` is a parameter.

## Findings

| source | as written | input that shows it | evidently intended | confidence | as-written member | corrected member |
|---|---|---|---|---|---|---|
| stock_all/weekly_scan.py:110-111 | the ST flag of the last daily row, and the `tradestatus` cells, are compared with the strings '1' and '0'; the daily file is read back with `pd.read_csv`, which parses those columns as numbers, so the comparisons never hold | 60 liquid daily rows with `isST` = 1 and `tradestatus` = 1 read as numbers, `exclude_st` on: the instrument passes the pre-filter | an ST instrument is rejected whether its flag was read as text or as a number | not executed | WeeklyScan.StFlagNeverMatchesNumbers | WeeklyScan.PreFilter |
| stock_all/daily_scan.py:276-290 | a missing ATR, or a disabled structure low, is replaced by the entry price itself before the maximum of the three candidates is taken | any positive entry with `use_structure_low` off: the stop equals the entry and the risk is 0 | a missing or disabled candidate is left out of the maximum, so the stop lies below a positive entry | not executed | DailyScan.StopNotBelowEntryAsWritten | DailyScan.StopBelowEntry |

The scans themselves (`WeeklyScan.ProcessStock`, `DailyScan.SignalRowOf` and the members built on them) use the behaviour as written: `WeeklyScan.PreFilterAsWritten` and `DailyScan.StopLossAsWritten`. The corrected definitions stand beside them, with the intended property proved.
