/** The weekly-stage screener: a pre-filter on the daily bars, the
    three-way monthly trend classifier, the weekly structural scorer (five
    mandatory gates, then bonus tiers), the per-instrument filter chain and
    the watchlist sort and truncation. */
module WeeklyScan {
  import opened Stats
  import opened Market
  import opened Indicators
  import opened Sorting

  // ---------------------------------------------------------------------
  // Pre-filter

  /** A cell of a flag column as `pd.read_csv` yields it: a column whose
      values all look like numbers is read as numbers, otherwise as text. */
  datatype Cell = Text(text: string) | Number(number: real)

  /** The daily frame the pre-filter sees; a column is absent when the file
      has no such header. `amount` is already through `pd.to_numeric`. */
  datatype DailyFrame = DailyFrame(
    bars: seq<Bar>,
    code: Option<seq<string>>,
    isSt: Option<seq<Cell>>,
    tradeStatus: Option<seq<Cell>>,
    amount: Option<seq<Option<real>>>)

  predicate DailyWellFormed(d: DailyFrame)
  {
    var n := |d.bars|;
    && (d.code.Some? ==> |d.code.value| == n)
    && (d.isSt.Some? ==> |d.isSt.value| == n)
    && (d.tradeStatus.Some? ==> |d.tradeStatus.value| == n)
    && (d.amount.Some? ==> |d.amount.value| == n)
  }

  datatype PreFilterConfig = PreFilterConfig(excludeSt: bool, maxSuspendDays5d: int, minAvgAmount20d: real)

  datatype Rejection = StFlag | TooFewRows | TooManySuspended(days: nat) | LowTurnover(avgAmount: real)

  /** How a flag cell is compared with the digit `"1"` or `"0"`. */
  datatype FlagTest = AsWritten | Corrected

  /** `AsWritten` is the source's `== '1'`: pandas compares a number with a
      string as unequal, so a flag read as a number never matches.
      `Corrected` also accepts the number the digit was read as. */
  predicate FlagIs(c: Cell, digit: char, test: FlagTest)
    requires digit == '0' || digit == '1'
  {
    c == Text([digit]) || (test == Corrected && c == Number(if digit == '1' then 1.0 else 0.0))
  }

  function CountFlag(s: seq<Cell>, digit: char, test: FlagTest): (c: nat)
    requires digit == '0' || digit == '1'
    ensures c <= |s|
    decreases |s|
  {
    if |s| == 0 then 0
    else CountFlag(s[..|s| - 1], digit, test) + (if FlagIs(s[|s| - 1], digit, test) then 1 else 0)
  }

  /** `pre_filter_stock` with a choice of flag comparison: `Ok(None)` when
      the stock passes, `Ok(Some(reason))` when it is rejected. Reading the
      ST flag of an empty frame raises (`iloc[-1]`). */
  function PreFilterWith(d: DailyFrame, cfg: PreFilterConfig, test: FlagTest): Result<Option<Rejection>>
    requires DailyWellFormed(d)
  {
    var n := |d.bars|;
    if cfg.excludeSt && d.isSt.Some? && n == 0 then Err("single positional indexer is out-of-bounds")
    else if cfg.excludeSt && d.isSt.Some? && FlagIs(d.isSt.value[n - 1], '1', test) then Ok(Some(StFlag))
    else if n < 60 then Ok(Some(TooFewRows))
    else
      var suspended := if d.tradeStatus.Some? then CountFlag(Tail(d.tradeStatus.value, 5), '0', test) else 0;
      if d.tradeStatus.Some? && suspended > cfg.maxSuspendDays5d then Ok(Some(TooManySuspended(suspended)))
      else
        var avg := if d.amount.Some? then MeanSkipNa(Tail(d.amount.value, 20)) else None;
        if Lt(avg, cfg.minAvgAmount20d) then Ok(Some(LowTurnover(avg.value)))
        else Ok(None)
  }

  /** `pre_filter_stock` as written, the one `process_single_stock` runs:
      the flags are compared with the strings `'1'` and `'0'` only. */
  function PreFilterAsWritten(d: DailyFrame, cfg: PreFilterConfig): Result<Option<Rejection>>
    requires DailyWellFormed(d)
  {
    PreFilterWith(d, cfg, AsWritten)
  }

  /** The pre-filter with the flag test corrected to accept a flag read as
      a number. */
  function PreFilter(d: DailyFrame, cfg: PreFilterConfig): Result<Option<Rejection>>
    requires DailyWellFormed(d)
  {
    PreFilterWith(d, cfg, Corrected)
  }

  /** The pre-filter passes exactly when none of its four rejections
      applies, and the first that applies is the reason given. An absent
      mean amount (no numeric amount in the last 20 rows) is not a
      rejection, since NaN compares false. */
  lemma PreFilterOrder(d: DailyFrame, cfg: PreFilterConfig, test: FlagTest)
    requires DailyWellFormed(d)
    ensures var n := |d.bars|;
      var st := cfg.excludeSt && d.isSt.Some? && n > 0 && FlagIs(d.isSt.value[n - 1], '1', test);
      var susp := d.tradeStatus.Some? && CountFlag(Tail(d.tradeStatus.value, 5), '0', test) > cfg.maxSuspendDays5d;
      var low := d.amount.Some? && Lt(MeanSkipNa(Tail(d.amount.value, 20)), cfg.minAvgAmount20d);
      var r := PreFilterWith(d, cfg, test);
      && (r.Err? <==> cfg.excludeSt && d.isSt.Some? && n == 0)
      && (r.Ok? ==>
        && (r.value == Some(StFlag) <==> st)
        && (r.value == Some(TooFewRows) <==> !st && n < 60)
        && (r.value.Some? && r.value.value.TooManySuspended? <==> !st && n >= 60 && susp)
        && (r.value.Some? && r.value.value.LowTurnover? <==> !st && n >= 60 && !susp && low)
        && (r.value.None? <==> !st && n >= 60 && !susp && !low))
  {
  }

  /** At most five of the last five rows can be suspended. */
  lemma SuspendedAtMostFive(d: DailyFrame, test: FlagTest)
    requires DailyWellFormed(d) && d.tradeStatus.Some?
    ensures CountFlag(Tail(d.tradeStatus.value, 5), '0', test) <= 5
  {
  }

  /** A daily file written from the data source's text fields and read back
      with `pd.read_csv` has a numeric `isST` column; the source's `== '1'`
      then never holds, so an ST stock with 60 clean, liquid rows passes the
      pre-filter instead of being rejected. */
  lemma StFlagNeverMatchesNumbers(d: DailyFrame, cfg: PreFilterConfig)
    requires DailyWellFormed(d) && |d.bars| >= 60 && cfg.excludeSt
    requires d.isSt == Some(seq(|d.bars|, i => Number(1.0)))
    requires d.tradeStatus == Some(seq(|d.bars|, i => Number(1.0)))
    requires d.amount.None?
    ensures PreFilterWith(d, cfg, AsWritten) == (if cfg.maxSuspendDays5d < 0 then Ok(Some(TooManySuspended(0))) else Ok(None))
    ensures PreFilterWith(d, cfg, Corrected) == Ok(Some(StFlag))
  {
    var ts := Tail(d.tradeStatus.value, 5);
    assert forall k :: 0 <= k < |ts| ==> !FlagIs(ts[k], '0', AsWritten);
    NoFlagsCounted(ts, AsWritten);
  }

  lemma {:induction false} NoFlagsCounted(s: seq<Cell>, test: FlagTest)
    requires forall k :: 0 <= k < |s| ==> !FlagIs(s[k], '0', test)
    ensures CountFlag(s, '0', test) == 0
    decreases |s|
  {
    if |s| > 0 {
      NoFlagsCounted(s[..|s| - 1], test);
    }
  }

  // ---------------------------------------------------------------------
  // Monthly trend

  datatype Trend = Uptrend | BaseBuilding | Downtrend

  datatype UptrendConfig = UptrendConfig(closeAboveMa10: bool, ma10SlopeMin: real, maAlignmentCheck: bool, gain6mMin: real)

  datatype BaseConfig = BaseConfig(
    maxDrawdown24m: real,
    consolidationMonthsMin: nat,
    consolidationMonthsMax: nat,
    volatilityThreshold: real,
    ma10SlopeMin: real,
    ma10SlopeMax: real,
    volumeCooperation: bool)

  datatype MonthlyConfig = MonthlyConfig(up: UptrendConfig, base: BaseConfig)

  /** A check that enters the count only when `on`. */
  function Flag(on: bool, b: bool): (r: seq<bool>)
    ensures |r| == (if on then 1 else 0)
    ensures on ==> r[0] == b
  {
    if on then [b] else []
  }

  /** The counted checks pass in at least three quarters of the cases
      (`score / checks >= 0.75`). */
  predicate MostlyPassed(checks: seq<bool>)
  {
    |checks| > 0 && (CountTrue(checks) as real) / (|checks| as real) >= 0.75
  }

  lemma MostlyPassedIff(checks: seq<bool>)
    ensures MostlyPassed(checks) <==> |checks| > 0 && 4 * CountTrue(checks) >= 3 * |checks|
  {
    if |checks| > 0 {
      var c, n := CountTrue(checks), |checks|;
      RatioAtLeastThreeQuarters(c as real, n as real);
      assert (4 * c) as real == 4.0 * (c as real);
      assert (3 * n) as real == 3.0 * (n as real);
    }
  }

  lemma RatioAtLeastThreeQuarters(c: real, n: real)
    requires n > 0.0
    ensures c / n >= 0.75 <==> 4.0 * c >= 3.0 * n
  {
    var q := c / n;
    assert q * n == c;
    if q >= 0.75 {
      MulMono(0.75, q, n);
    } else {
      MulStrict(q, 0.75, n);
    }
  }

  predicate MonthlyFrame(f: Frame)
  {
    WellFormed(f) && |f.bars| >= 12 && 5 in f.ma && 10 in f.ma && 20 in f.ma
  }

  /** MA5 > MA10 > MA20 on the last row (`check_ma_alignment` on `tail(1)`). */
  predicate LastAligned(f: Frame)
    requires MonthlyFrame(f)
  {
    var n := |f.bars|;
    Ordered(f.ma[5][n - 1], f.ma[10][n - 1], true) && Ordered(f.ma[10][n - 1], f.ma[20][n - 1], true)
  }

  /** The gain over six months, from the close seven rows back. */
  function Gain6m(f: Frame): Option<real>
    requires MonthlyFrame(f)
  {
    var n := |f.bars|;
    Div(f.bars[n - 1].close - f.bars[n - 7].close, f.bars[n - 7].close)
  }

  /** The uptrend checks that enter the denominator, in order. The MA10 and
      slope checks count even when the value is absent, as a failure. */
  function UptrendChecks(f: Frame, cfg: UptrendConfig): seq<bool>
    requires MonthlyFrame(f)
  {
    var n := |f.bars|;
    var ma10 := f.ma[10][n - 1];
    Flag(cfg.closeAboveMa10, ma10.Some? && f.bars[n - 1].close > ma10.value)
    + [Ge(f.ma10Slope[n - 1], cfg.ma10SlopeMin)]
    + Flag(cfg.maAlignmentCheck, LastAligned(f))
    + Flag(n >= 6, Ge(Gain6m(f), cfg.gain6mMin))
  }

  /** `(max - min) / max` of the last 24 closes. */
  function Drawdown24(f: Frame): Option<real>
    requires MonthlyFrame(f) && |f.bars| >= 24
  {
    var w := Tail(Closes(f.bars), 24);
    Div(MaxOf(w) - MinOf(w), MaxOf(w))
  }

  /** Some lookback in [min, max] that fits the series has a coefficient of
      variation of the last closes below the threshold. */
  predicate Consolidated(closes: seq<real>, cfg: BaseConfig)
  {
    exists l: nat :: cfg.consolidationMonthsMin <= l <= cfg.consolidationMonthsMax && l <= |closes|
      && CvBelow(Tail(closes, l), cfg.volatilityThreshold)
  }

  /** The base-building checks that enter the denominator, in order; the
      slope band counts only when the slope is present. */
  function BaseChecks(f: Frame, cfg: BaseConfig): seq<bool>
    requires MonthlyFrame(f) && |f.bars| >= 24
  {
    var n := |f.bars|;
    var slope := f.ma10Slope[n - 1];
    [Ge(Drawdown24(f), cfg.maxDrawdown24m)]
    + [Consolidated(Closes(f.bars), cfg)]
    + Flag(slope.Some?, slope.Some? && cfg.ma10SlopeMin <= slope.value <= cfg.ma10SlopeMax)
    + Flag(cfg.volumeCooperation, AnalyzeVolumePattern(Tail(f.bars, 6), 6).cooperation)
  }

  /** `judge_monthly_trend`. */
  function MonthlyTrend(bars: seq<Bar>, cfg: MonthlyConfig): Trend
  {
    if |bars| < 12 then Downtrend
    else FrameTrend(CalculateAllIndicators(bars, Monthly), cfg)
  }

  /** The vote on a monthly frame of at least 12 bars. */
  function FrameTrend(f: Frame, cfg: MonthlyConfig): Trend
    requires MonthlyFrame(f)
  {
    if MostlyPassed(UptrendChecks(f, cfg.up)) then Uptrend
    else if |f.bars| >= 24 && MostlyPassed(BaseChecks(f, cfg.base)) then BaseBuilding
    else Downtrend
  }

  /** The lookback loop of the consolidation check: the first lookback in
      [min, max] whose window is calm ends the search. */
  method FindConsolidation(closes: seq<real>, cfg: BaseConfig) returns (found: bool)
    ensures found <==> Consolidated(closes, cfg)
  {
    var l: nat := cfg.consolidationMonthsMin;
    while l <= cfg.consolidationMonthsMax
      invariant cfg.consolidationMonthsMin <= l
      invariant l <= cfg.consolidationMonthsMax + 1 || l == cfg.consolidationMonthsMin
      invariant forall k: nat :: cfg.consolidationMonthsMin <= k < l && k <= |closes| ==>
        !CvBelow(Tail(closes, k), cfg.volatilityThreshold)
      decreases cfg.consolidationMonthsMax + 1 - l
    {
      if |closes| >= l {
        var window := Tail(closes, l);
        if CvBelow(window, cfg.volatilityThreshold) {
          return true;
        }
      }
      l := l + 1;
    }
    return false;
  }

  lemma CountTrueAppend(s: seq<bool>, on: bool, b: bool)
    ensures |s + Flag(on, b)| == |s| + (if on then 1 else 0)
    ensures CountTrue(s + Flag(on, b)) == CountTrue(s) + (if on && b then 1 else 0)
  {
    if on {
      assert (s + [b])[..|s|] == s;
    } else {
      assert s + [] == s;
    }
  }

  /** One counted check: `score += 1` when it passed, `checks += 1`. */
  method Tally(score: nat, checks: nat, on: bool, ok: bool, ghost done: seq<bool>)
    returns (score': nat, checks': nat)
    requires score == CountTrue(done) && checks == |done|
    ensures score' == CountTrue(done + Flag(on, ok)) && checks' == |done + Flag(on, ok)|
  {
    CountTrueAppend(done, on, ok);
    score', checks' := score, checks;
    if on {
      if ok {
        score' := score' + 1;
      }
      checks' := checks' + 1;
    }
  }

  /** MA5 > MA10 > MA20 on the last row, through `check_ma_alignment`. */
  method LastRowAligned(f: Frame) returns (aligned: bool)
    requires MonthlyFrame(f)
    ensures aligned == LastAligned(f)
  {
    var n := |f.bars|;
    var cols := [[f.ma[5][n - 1]], [f.ma[10][n - 1]], [f.ma[20][n - 1]]];
    var result := CheckMaAlignment(cols, 1, true);
    aligned := result[0];
    assert aligned <==> LastAligned(f) by {
      assert ChainHolds(cols, 1, 0, 2, true) <==>
        Ordered(cols[0][0], cols[1][0], true) && Ordered(cols[1][0], cols[2][0], true);
    }
  }

  /** The uptrend vote of `judge_monthly_trend`, counting passed and
      counted checks as the source does. */
  method UptrendVote(f: Frame, up: UptrendConfig) returns (isUp: bool)
    requires MonthlyFrame(f)
    ensures isUp == MostlyPassed(UptrendChecks(f, up))
  {
    var above, slopeOk, aligned, gained := UptrendTests(f, up);
    var longEnough := |f.bars| >= 6;
    ghost var d1 := Flag(up.closeAboveMa10, above);
    ghost var d2 := d1 + [slopeOk];
    ghost var d3 := d2 + Flag(up.maAlignmentCheck, aligned);
    assert [] + d1 == d1;
    var score, checks := Tally(0, 0, up.closeAboveMa10, above, []);
    score, checks := Tally(score, checks, true, slopeOk, d1);
    score, checks := Tally(score, checks, up.maAlignmentCheck, aligned, d2);
    score, checks := Tally(score, checks, longEnough, gained, d3);
    isUp := checks > 0 && (score as real) / (checks as real) >= 0.75;
  }

  /** The four uptrend tests, evaluated as the source does. */
  method UptrendTests(f: Frame, up: UptrendConfig) returns (above: bool, slopeOk: bool, aligned: bool, gained: bool)
    requires MonthlyFrame(f)
    ensures UptrendChecks(f, up) ==
      Flag(up.closeAboveMa10, above) + [slopeOk] + Flag(up.maAlignmentCheck, aligned) + Flag(|f.bars| >= 6, gained)
  {
    var n := |f.bars|;
    var close := f.bars[n - 1].close;
    var ma10 := f.ma[10][n - 1];
    above := ma10.Some? && close > ma10.value;
    slopeOk := Ge(f.ma10Slope[n - 1], up.ma10SlopeMin);
    aligned := false;
    if up.maAlignmentCheck {
      aligned := LastRowAligned(f);
    }
    gained := false;
    if n >= 6 {
      gained := Ge(Div(close - f.bars[n - 7].close, f.bars[n - 7].close), up.gain6mMin);
    }
    assert n >= 6 ==> gained == Ge(Gain6m(f), up.gain6mMin);
    assert Flag(up.maAlignmentCheck, aligned) == Flag(up.maAlignmentCheck, LastAligned(f));
    assert Flag(n >= 6, gained) == Flag(n >= 6, Ge(Gain6m(f), up.gain6mMin));
  }

  /** The four base-building tests, evaluated as the source does. */
  method BaseTests(f: Frame, base: BaseConfig) returns (deep: bool, calm: bool, flat: bool, cooperating: bool)
    requires MonthlyFrame(f) && |f.bars| >= 24
    ensures BaseChecks(f, base) ==
      [deep] + [calm] + Flag(f.ma10Slope[|f.bars| - 1].Some?, flat) + Flag(base.volumeCooperation, cooperating)
  {
    var n := |f.bars|;
    deep := Ge(Drawdown24(f), base.maxDrawdown24m);
    calm := FindConsolidation(Closes(f.bars), base);
    var slope := f.ma10Slope[n - 1];
    flat := slope.Some? && base.ma10SlopeMin <= slope.value <= base.ma10SlopeMax;
    cooperating := false;
    if base.volumeCooperation {
      cooperating := AnalyzeVolumePattern(Tail(f.bars, 6), 6).cooperation;
    }
    BaseChecksAre(f, base, deep, calm, flat, cooperating);
  }

  /** The base-building vote of `judge_monthly_trend`. */
  method BaseVote(f: Frame, base: BaseConfig) returns (isBase: bool)
    requires MonthlyFrame(f) && |f.bars| >= 24
    ensures isBase == MostlyPassed(BaseChecks(f, base))
  {
    var deep, calm, flat, cooperating := BaseTests(f, base);
    var slopePresent := f.ma10Slope[|f.bars| - 1].Some?;
    ghost var d1 := [deep];
    ghost var d2 := d1 + [calm];
    ghost var d3 := d2 + Flag(slopePresent, flat);
    assert [] + d1 == d1;
    var score, checks := Tally(0, 0, true, deep, []);
    score, checks := Tally(score, checks, true, calm, d1);
    score, checks := Tally(score, checks, slopePresent, flat, d2);
    score, checks := Tally(score, checks, base.volumeCooperation, cooperating, d3);
    isBase := checks > 0 && (score as real) / (checks as real) >= 0.75;
  }

  lemma BaseChecksAre(f: Frame, base: BaseConfig, deep: bool, calm: bool, flat: bool, cooperating: bool)
    requires MonthlyFrame(f) && |f.bars| >= 24
    requires deep == Ge(Drawdown24(f), base.maxDrawdown24m)
    requires calm == Consolidated(Closes(f.bars), base)
    requires var slope := f.ma10Slope[|f.bars| - 1];
      flat == (slope.Some? && base.ma10SlopeMin <= slope.value <= base.ma10SlopeMax)
    requires base.volumeCooperation ==> cooperating == AnalyzeVolumePattern(Tail(f.bars, 6), 6).cooperation
    ensures BaseChecks(f, base) ==
      [deep] + [calm] + Flag(f.ma10Slope[|f.bars| - 1].Some?, flat) + Flag(base.volumeCooperation, cooperating)
  {
  }

  /** `judge_monthly_trend`. */
  method JudgeMonthlyTrend(bars: seq<Bar>, cfg: MonthlyConfig) returns (trend: Trend)
    ensures trend == MonthlyTrend(bars, cfg)
  {
    if |bars| < 12 {
      return Downtrend;
    }
    var f := CalculateAllIndicators(bars, Monthly);
    trend := ClassifyFrame(f, cfg);
  }

  /** The uptrend vote, then, on 24 bars or more, the base vote. */
  method ClassifyFrame(f: Frame, cfg: MonthlyConfig) returns (trend: Trend)
    requires MonthlyFrame(f)
    ensures trend == FrameTrend(f, cfg)
  {
    var isUp := UptrendVote(f, cfg.up);
    if isUp {
      return Uptrend;
    }
    if |f.bars| >= 24 {
      var isBase := BaseVote(f, cfg.base);
      if isBase {
        return BaseBuilding;
      }
    }
    return Downtrend;
  }

  /** Fewer than 12 bars is a downtrend; an uptrend is three quarters of
      its checks passed; a base needs 24 bars, a failed uptrend test and
      three quarters of the base checks. Every check list holds at least
      two counted checks, so the ratio is always defined. */
  lemma MonthlyTrendCases(bars: seq<Bar>, cfg: MonthlyConfig)
    ensures |bars| < 12 ==> MonthlyTrend(bars, cfg) == Downtrend
    ensures |bars| >= 12 ==>
      var f := CalculateAllIndicators(bars, Monthly);
      && 2 <= |UptrendChecks(f, cfg.up)| <= 4
      && (MonthlyTrend(bars, cfg) == Uptrend <==>
            4 * CountTrue(UptrendChecks(f, cfg.up)) >= 3 * |UptrendChecks(f, cfg.up)|)
      && (MonthlyTrend(bars, cfg) == BaseBuilding <==>
            && |bars| >= 24
            && 4 * CountTrue(UptrendChecks(f, cfg.up)) < 3 * |UptrendChecks(f, cfg.up)|
            && 2 <= |BaseChecks(f, cfg.base)| <= 4
            && 4 * CountTrue(BaseChecks(f, cfg.base)) >= 3 * |BaseChecks(f, cfg.base)|)
  {
    if |bars| >= 12 {
      FrameTrendCases(CalculateAllIndicators(bars, Monthly), cfg);
    }
  }

  lemma FrameTrendCases(f: Frame, cfg: MonthlyConfig)
    requires MonthlyFrame(f)
    ensures 2 <= |UptrendChecks(f, cfg.up)| <= 4
    ensures FrameTrend(f, cfg) == Uptrend <==>
      4 * CountTrue(UptrendChecks(f, cfg.up)) >= 3 * |UptrendChecks(f, cfg.up)|
    ensures FrameTrend(f, cfg) == BaseBuilding <==>
      && |f.bars| >= 24
      && 4 * CountTrue(UptrendChecks(f, cfg.up)) < 3 * |UptrendChecks(f, cfg.up)|
      && 2 <= |BaseChecks(f, cfg.base)| <= 4
      && 4 * CountTrue(BaseChecks(f, cfg.base)) >= 3 * |BaseChecks(f, cfg.base)|
  {
    MostlyPassedIff(UptrendChecks(f, cfg.up));
    if |f.bars| >= 24 {
      MostlyPassedIff(BaseChecks(f, cfg.base));
    }
  }

  // ---------------------------------------------------------------------
  // Weekly structure

  /** The bonus for consecutive high-volume weeks (`consecutive_volume`). */
  datatype StreakConfig = StreakConfig(enabled: bool, minWeeks: int, volumeIncreaseRatio: real, maxBonus: int)

  datatype WeeklyConfig = WeeklyConfig(
    closeAboveMa40: bool,
    ma40SlopeMin: real,
    closeAboveMa10: bool,
    macdPositiveOrGolden: bool,
    macdLookback: nat,
    volumeLookback: nat,
    volumeRatioMin: real,
    streak: StreakConfig)

  /** The `details` dictionary: a gate's key is absent unless the gate was
      evaluated. */
  datatype WeeklyDetails = WeeklyDetails(
    ma40Check: Option<bool>,
    ma40SlopeCheck: Option<bool>,
    ma10Check: Option<bool>,
    macdCheck: Option<bool>,
    volumeCheck: Option<bool>,
    volumeRatio: Option<real>,
    consecutiveVolumeWeeks: Option<nat>)

  const NoDetails := WeeklyDetails(None, None, None, None, None, None, None)

  datatype WeeklyResult = WeeklyResult(passed: bool, score: int, details: WeeklyDetails)

  predicate WeeklyFrame(f: Frame)
  {
    WellFormed(f) && |f.bars| >= 40 && 10 in f.ma && 40 in f.ma && f.ma40Slope.Some?
  }

  /** The five mandatory gates. */
  predicate Ma40Gate(f: Frame)
    requires WeeklyFrame(f)
  {
    var n := |f.bars|;
    f.ma[40][n - 1].Some? && f.bars[n - 1].close > f.ma[40][n - 1].value
  }

  predicate Ma40SlopeGate(f: Frame, cfg: WeeklyConfig)
    requires WeeklyFrame(f)
  {
    Ge(f.ma40Slope.value[|f.bars| - 1], cfg.ma40SlopeMin)
  }

  predicate Ma10Gate(f: Frame)
    requires WeeklyFrame(f)
  {
    var n := |f.bars|;
    f.ma[10][n - 1].Some? && f.bars[n - 1].close > f.ma[10][n - 1].value
  }

  /** A positive histogram, or else a recent MACD golden cross. */
  predicate MacdGate(f: Frame, cfg: WeeklyConfig)
    requires WeeklyFrame(f)
  {
    f.macd.hist[|f.bars| - 1] > 0.0 || GoldenCross(Lift(f.macd.line), Lift(f.macd.signal), cfg.macdLookback)
  }

  /** The gates' points, counted when enabled. */
  function MandatoryPoints(cfg: WeeklyConfig): int
  {
    (if cfg.closeAboveMa40 then 20 else 0) + 15 + (if cfg.closeAboveMa10 then 15 else 0)
    + (if cfg.macdPositiveOrGolden then 20 else 0) + 30
  }

  /** The trailing run of `true`s. */
  function TrailingRun(s: seq<bool>): (r: nat)
    ensures r <= |s|
    decreases |s|
  {
    if |s| == 0 || !s[|s| - 1] then 0 else TrailingRun(s[..|s| - 1]) + 1
  }

  /** The trailing run is the longest all-true suffix: every flag in it
      holds, and the flag just before it does not. */
  lemma {:induction false} TrailingRunIsLongestSuffix(s: seq<bool>)
    ensures forall k :: |s| - TrailingRun(s) <= k < |s| ==> s[k]
    ensures TrailingRun(s) < |s| ==> !s[|s| - 1 - TrailingRun(s)]
    decreases |s|
  {
    if |s| > 0 && s[|s| - 1] {
      TrailingRunIsLongestSuffix(s[..|s| - 1]);
    }
  }

  /** Weeks 5..8 of the last 8: volume above `ratio` times the mean volume
      of weeks 1..4. */
  function StreakFlags(bars: seq<Bar>, ratio: real): (flags: seq<bool>)
    requires |bars| >= 8
    ensures |flags| == 4
  {
    var recent := Tail(bars, 8);
    var base := Mean(Volumes(Head(recent, 4)));
    seq(4, k requires 0 <= k < 4 => recent[4 + k].volume > base * ratio)
  }

  /** The reset-on-miss counting loop over the flags. */
  method ConsecutiveCount(flags: seq<bool>) returns (count: nat)
    ensures count == TrailingRun(flags)
  {
    count := 0;
    var i := 0;
    while i < |flags|
      invariant 0 <= i <= |flags|
      invariant count == TrailingRun(flags[..i])
    {
      assert flags[..i + 1][..i] == flags[..i];
      if flags[i] {
        count := count + 1;
      } else {
        count := 0;
      }
      i := i + 1;
    }
    assert flags[..|flags|] == flags;
  }

  /** Five points per week from `min_weeks` on, capped at `max_bonus`. */
  function StreakBonus(count: nat, cfg: StreakConfig): (b: int)
    ensures count < cfg.minWeeks ==> b == 0
    ensures count >= cfg.minWeeks ==>
      && b <= cfg.maxBonus && b <= (count - cfg.minWeeks + 1) * 5
      && (b == cfg.maxBonus || b == (count - cfg.minWeeks + 1) * 5)
  {
    if count >= cfg.minWeeks then
      var earned := (count - cfg.minWeeks + 1) * 5;
      if earned <= cfg.maxBonus then earned else cfg.maxBonus
    else 0
  }

  /** The five 10/10/10/10/5 tiers. A zero MA10 makes the distance above
      it infinite or undefined, and neither lies in a tier. */
  function TierBonus(f: Frame, ratio: real): (b: int)
    requires WeeklyFrame(f)
    ensures 0 <= b <= 45
  {
    var n := |f.bars|;
    var close := f.bars[n - 1].close;
    var slope := f.ma40Slope.value[n - 1];
    var hist := f.macd.hist[n - 1];
    var ma10 := f.ma[10][n - 1];
    var b1 := if Gt(slope, 0.02) then 10 else if Gt(slope, 0.01) then 5 else 0;
    var b2 := if hist > close * 0.02 then 10 else if hist > close * 0.01 then 5 else 0;
    var b3 := if ratio > 1.5 then 10 else if ratio > 1.3 then 5 else 0;
    var above := if ma10.Some? then Div(close - ma10.value, ma10.value) else None;
    var b4 := if above.Some? && 0.02 < above.value < 0.10 then 10
              else if above.Some? && 0.10 <= above.value < 0.20 then 5 else 0;
    var b5 := if f.rsi[n - 1].Some? && 50.0 < f.rsi[n - 1].value < 70.0 then 5 else 0;
    b1 + b2 + b3 + b4 + b5
  }

  /** Every enabled gate holds; the slope and volume gates are always on. */
  predicate GatesPass(f: Frame, cfg: WeeklyConfig, ratio: real)
    requires WeeklyFrame(f)
  {
    && (cfg.closeAboveMa40 ==> Ma40Gate(f))
    && Ma40SlopeGate(f, cfg)
    && (cfg.closeAboveMa10 ==> Ma10Gate(f))
    && (cfg.macdPositiveOrGolden ==> MacdGate(f, cfg))
    && ratio >= cfg.volumeRatioMin
  }

  /** The gate outcomes recorded in `details`, before any streak entry. */
  function GateDetails(f: Frame, cfg: WeeklyConfig, ratio: real): WeeklyDetails
    requires WeeklyFrame(f)
  {
    WeeklyDetails(
      if cfg.closeAboveMa40 then Some(Ma40Gate(f)) else None,
      Some(Ma40SlopeGate(f, cfg)),
      if cfg.closeAboveMa10 then Some(Ma10Gate(f)) else None,
      if cfg.macdPositiveOrGolden then Some(MacdGate(f, cfg)) else None,
      Some(ratio >= cfg.volumeRatioMin),
      Some(ratio),
      None)
  }

  /** The streak count of a long enough series. */
  function StreakCount(bars: seq<Bar>, cfg: StreakConfig): nat
    requires |bars| >= 8
  {
    TrailingRun(StreakFlags(bars, cfg.volumeIncreaseRatio))
  }

  /** The verdict once the volume ratio is known: a failed gate scores 0;
      a pass scores the enabled gates' points, the tier bonus and the
      streak bonus, and records the streak when it earned points. */
  function WeeklyVerdict(f: Frame, cfg: WeeklyConfig, ratio: real): WeeklyResult
    requires WeeklyFrame(f)
  {
    var details := GateDetails(f, cfg, ratio);
    if !GatesPass(f, cfg, ratio) then WeeklyResult(false, 0, details)
    else
      var count := StreakCount(f.bars, cfg.streak);
      var fires := cfg.streak.enabled && count >= cfg.streak.minWeeks;
      var streak := if fires then StreakBonus(count, cfg.streak) else 0;
      WeeklyResult(true, MandatoryPoints(cfg) + TierBonus(f, ratio) + streak,
                   if fires then details.(consecutiveVolumeWeeks := Some(count)) else details)
  }

  /** The scorer on an indicator frame. With fewer bars than
      `volume_lookback` the volume analysis has no `volume_ratio` key and
      the lookup raises. */
  function WeeklyOfFrame(f: Frame, cfg: WeeklyConfig): Result<WeeklyResult>
    requires WeeklyFrame(f)
  {
    var pattern := AnalyzeVolumePattern(Tail(f.bars, cfg.volumeLookback), cfg.volumeLookback);
    if pattern.ratio.None? then Err("volume_ratio")
    else Ok(WeeklyVerdict(f, cfg, pattern.ratio.value))
  }

  /** `check_weekly_structure`: fewer than 40 bars fail with score 0. */
  function WeeklyStructure(bars: seq<Bar>, cfg: WeeklyConfig): Result<WeeklyResult>
  {
    if |bars| < 40 then Ok(WeeklyResult(false, 0, NoDetails))
    else WeeklyOfFrame(CalculateAllIndicators(bars, Weekly), cfg)
  }

  /** The first four gates of `check_weekly_structure`, in the source's
      order, clearing `passed` and recording each outcome. */
  method PriceGates(f: Frame, cfg: WeeklyConfig)
    returns (passed: bool, points: int, details: WeeklyDetails)
    requires WeeklyFrame(f)
    ensures passed <==>
      (cfg.closeAboveMa40 ==> Ma40Gate(f)) && Ma40SlopeGate(f, cfg)
      && (cfg.closeAboveMa10 ==> Ma10Gate(f)) && (cfg.macdPositiveOrGolden ==> MacdGate(f, cfg))
    ensures passed ==> points == MandatoryPoints(cfg) - 30
    ensures details == GateDetails(f, cfg, 0.0).(volumeCheck := None, volumeRatio := None)
  {
    var n := |f.bars|;
    var close := f.bars[n - 1].close;
    passed, points, details := true, 0, NoDetails;
    if cfg.closeAboveMa40 {
      var ma40 := f.ma[40][n - 1];
      if ma40.None? || close <= ma40.value {
        passed := false;
        details := details.(ma40Check := Some(false));
      } else {
        points := points + 20;
        details := details.(ma40Check := Some(true));
      }
    }
    var slope := f.ma40Slope.value[n - 1];
    if slope.None? || slope.value < cfg.ma40SlopeMin {
      passed := false;
      details := details.(ma40SlopeCheck := Some(false));
    } else {
      points := points + 15;
      details := details.(ma40SlopeCheck := Some(true));
    }
    if cfg.closeAboveMa10 {
      var ma10 := f.ma[10][n - 1];
      if ma10.None? || close <= ma10.value {
        passed := false;
        details := details.(ma10Check := Some(false));
      } else {
        points := points + 15;
        details := details.(ma10Check := Some(true));
      }
    }
    if cfg.macdPositiveOrGolden {
      var macdOk := false;
      if f.macd.hist[n - 1] > 0.0 {
        macdOk := true;
      } else {
        macdOk := DetectMacdGoldenCross(Some(f.macd), cfg.macdLookback);
      }
      if !macdOk {
        passed := false;
        details := details.(macdCheck := Some(false));
      } else {
        points := points + 20;
        details := details.(macdCheck := Some(true));
      }
    }
  }

  /** The consecutive-volume bonus of `check_weekly_structure`. */
  method VolumeStreak(bars: seq<Bar>, cfg: StreakConfig) returns (bonus: int, weeks: Option<nat>)
    requires |bars| >= 8
    ensures var fires := cfg.enabled && StreakCount(bars, cfg) >= cfg.minWeeks;
      && bonus == (if fires then StreakBonus(StreakCount(bars, cfg), cfg) else 0)
      && weeks == (if fires then Some(StreakCount(bars, cfg)) else None)
  {
    bonus, weeks := 0, None;
    if cfg.enabled {
      var count := ConsecutiveCount(StreakFlags(bars, cfg.volumeIncreaseRatio));
      if count >= cfg.minWeeks {
        bonus := StreakBonus(count, cfg);
        weeks := Some(count);
      }
    }
  }

  /** The five gates: the four price gates, then the volume gate on the
      known ratio. */
  method AllGates(f: Frame, cfg: WeeklyConfig, ratio: real)
    returns (passed: bool, mandatory: int, details: WeeklyDetails)
    requires WeeklyFrame(f)
    ensures passed == GatesPass(f, cfg, ratio)
    ensures passed ==> mandatory == MandatoryPoints(cfg)
    ensures details == GateDetails(f, cfg, ratio)
  {
    passed, mandatory, details := PriceGates(f, cfg);
    if ratio < cfg.volumeRatioMin {
      passed := false;
      details := details.(volumeCheck := Some(false));
    } else {
      mandatory := mandatory + 30;
      details := details.(volumeCheck := Some(true));
    }
    details := details.(volumeRatio := Some(ratio));
  }

  /** The bonus stage of a passed structure. */
  method PassedVerdict(f: Frame, cfg: WeeklyConfig, ratio: real, mandatory: int, details: WeeklyDetails)
    returns (res: WeeklyResult)
    requires WeeklyFrame(f) && GatesPass(f, cfg, ratio)
    requires mandatory == MandatoryPoints(cfg) && details == GateDetails(f, cfg, ratio)
    ensures res == WeeklyVerdict(f, cfg, ratio)
  {
    var bonus := TierBonus(f, ratio);
    var streak, weeks := VolumeStreak(f.bars, cfg.streak);
    var recorded := details;
    if weeks.Some? {
      recorded := details.(consecutiveVolumeWeeks := weeks);
    }
    res := WeeklyResult(true, mandatory + bonus + streak, recorded);
  }

  /** The scorer on an indicator frame, gate by gate, as the source
      updates its result. The source reads the volume ratio after the price
      gates; those have no effects, so raising first returns the same. */
  method ScoreWeeklyFrame(f: Frame, cfg: WeeklyConfig) returns (r: Result<WeeklyResult>)
    requires WeeklyFrame(f)
    ensures r == WeeklyOfFrame(f, cfg)
  {
    var pattern := AnalyzeVolumePattern(Tail(f.bars, cfg.volumeLookback), cfg.volumeLookback);
    if pattern.ratio.None? {
      return Err("volume_ratio");
    }
    var ratio := pattern.ratio.value;
    var passed, mandatory, details := AllGates(f, cfg, ratio);
    if !passed {
      return Ok(WeeklyResult(false, 0, details));
    }
    var res := PassedVerdict(f, cfg, ratio, mandatory, details);
    return Ok(res);
  }

  /** `check_weekly_structure`. */
  method CheckWeeklyStructure(bars: seq<Bar>, cfg: WeeklyConfig) returns (r: Result<WeeklyResult>)
    ensures r == WeeklyStructure(bars, cfg)
  {
    if |bars| < 40 {
      return Ok(WeeklyResult(false, 0, NoDetails));
    }
    var f := CalculateAllIndicators(bars, Weekly);
    r := ScoreWeeklyFrame(f, cfg);
  }

  /** A short series fails with score 0, and the scorer raises exactly when
      the series is shorter than the volume lookback. */
  lemma WeeklyShortOrMissingRatio(bars: seq<Bar>, cfg: WeeklyConfig)
    ensures |bars| < 40 ==> WeeklyStructure(bars, cfg) == Ok(WeeklyResult(false, 0, NoDetails))
    ensures WeeklyStructure(bars, cfg).Err? <==> 40 <= |bars| < cfg.volumeLookback
  {
  }

  /** The verdict passes exactly when every enabled gate holds, the slope
      and volume gates being evaluated always; a failure scores 0; a pass
      scores its enabled gates' points (between 45 and 100) plus at most 45
      tier points and the streak cap. */
  lemma WeeklyVerdictFacts(f: Frame, cfg: WeeklyConfig, ratio: real)
    requires WeeklyFrame(f)
    ensures var r := WeeklyVerdict(f, cfg, ratio);
      && r.details.ma40SlopeCheck.Some? && r.details.volumeCheck.Some?
      && r.details.volumeRatio == Some(ratio)
      && (r.passed <==>
            && (cfg.closeAboveMa40 ==> Ma40Gate(f))
            && Ma40SlopeGate(f, cfg)
            && (cfg.closeAboveMa10 ==> Ma10Gate(f))
            && (cfg.macdPositiveOrGolden ==> MacdGate(f, cfg))
            && ratio >= cfg.volumeRatioMin)
      && (!r.passed ==> r.score == 0)
      && 45 <= MandatoryPoints(cfg) <= 100
      && (r.passed ==>
            && r.score <= MandatoryPoints(cfg) + 45 + (if cfg.streak.maxBonus > 0 then cfg.streak.maxBonus else 0)
            && (cfg.streak.maxBonus >= 0 ==> MandatoryPoints(cfg) <= r.score))
  {
  }

  /** The same facts for a scored series of 40 bars or more. */
  lemma WeeklyStructureFacts(bars: seq<Bar>, cfg: WeeklyConfig)
    requires |bars| >= 40 && WeeklyStructure(bars, cfg).Ok?
    ensures var f := CalculateAllIndicators(bars, Weekly);
      var pattern := AnalyzeVolumePattern(Tail(bars, cfg.volumeLookback), cfg.volumeLookback);
      && pattern.ratio.Some?
      && WeeklyStructure(bars, cfg).value == WeeklyVerdict(f, cfg, pattern.ratio.value)
  {
  }

  /** The streak count is the number of trailing weeks, among the last
      four, whose volume exceeds `ratio` times the mean volume of the four
      weeks before them; the week just before that run does not. */
  lemma StreakCountMeaning(bars: seq<Bar>, cfg: StreakConfig)
    requires |bars| >= 8
    ensures var c := StreakCount(bars, cfg);
      var recent := Tail(bars, 8);
      var base := Mean(Volumes(Head(recent, 4)));
      && c <= 4
      && (forall k :: 8 - c <= k < 8 ==> recent[k].volume > base * cfg.volumeIncreaseRatio)
      && (c < 4 ==> recent[7 - c].volume <= base * cfg.volumeIncreaseRatio)
  {
    var flags := StreakFlags(bars, cfg.volumeIncreaseRatio);
    TrailingRunIsLongestSuffix(flags);
    var c := StreakCount(bars, cfg);
    var recent := Tail(bars, 8);
    var base := Mean(Volumes(Head(recent, 4)));
    forall k | 8 - c <= k < 8
      ensures recent[k].volume > base * cfg.volumeIncreaseRatio
    {
      assert flags[k - 4];
    }
    if c < 4 {
      assert !flags[3 - c];
    }
  }

  // ---------------------------------------------------------------------
  // Filter chain and watchlist

  datatype ScanConfig = ScanConfig(
    preFilter: PreFilterConfig,
    monthly: MonthlyConfig,
    weekly: WeeklyConfig,
    preferBaseBuilding: bool,
    maxStocks: nat)

  /** What the loader found for one instrument; `None` is a missing file. */
  datatype StockData = StockData(
    code: string,
    daily: Option<DailyFrame>,
    weekly: Option<seq<Bar>>,
    monthly: Option<seq<Bar>>)

  predicate StockWellFormed(s: StockData)
  {
    s.daily.Some? ==> DailyWellFormed(s.daily.value)
  }

  /** A watchlist row. The raw weekly file has no MA40 column (the
      indicator frame is local to the scorer), so `ma40Weekly` is 0. */
  datatype WatchRow = WatchRow(
    code: string,
    name: string,
    trend: Trend,
    weeklyScore: int,
    currentPrice: real,
    ma40Weekly: real,
    volumeRatio: real,
    date: string,
    details: WeeklyDetails)

  /** The loader returns None for a missing file and for an empty one, and
      the instrument is then skipped. */
  predicate Missing(s: StockData)
  {
    || s.daily.None? || s.weekly.None? || s.monthly.None?
    || |s.daily.value.bars| == 0 || |s.weekly.value| == 0 || |s.monthly.value| == 0
  }

  /** `process_single_stock`: `Ok(None)` when the instrument is dropped,
      `Err` when a step raises. */
  function ProcessStock(s: StockData, cfg: ScanConfig): Result<Option<WatchRow>>
    requires StockWellFormed(s)
  {
    if Missing(s) then Ok(None)
    else
      var d := s.daily.value;
      match PreFilterAsWritten(d, cfg.preFilter)
      case Err(e) => Err(e)
      case Ok(rejection) =>
        if rejection.Some? then Ok(None)
        else
          var trend := MonthlyTrend(s.monthly.value, cfg.monthly);
          if trend == Downtrend then Ok(None)
          else
            match WeeklyStructure(s.weekly.value, cfg.weekly)
            case Err(e) => Err(e)
            case Ok(w) =>
              if !w.passed then Ok(None)
              else
                var last := |d.bars| - 1;
                var name := if d.code.Some? then d.code.value[last] else s.code;
                Ok(Some(WatchRow(s.code, name, trend, w.score, d.bars[last].close, 0.0,
                                 OrElse(w.details.volumeRatio, 0.0), d.bars[last].date, w.details)))
  }

  /** `process_single_stock`: the pre-filter, then the monthly trend, then
      the weekly structure, each step ending the instrument's run. */
  method ProcessSingleStock(s: StockData, cfg: ScanConfig) returns (r: Result<Option<WatchRow>>)
    requires StockWellFormed(s)
    ensures r == ProcessStock(s, cfg)
  {
    if Missing(s) {
      return Ok(None);
    }
    var d := s.daily.value;
    var pre := PreFilterAsWritten(d, cfg.preFilter);
    if pre.value.Some? {
      return Ok(None);
    }
    var trend := JudgeMonthlyTrend(s.monthly.value, cfg.monthly);
    if trend == Downtrend {
      return Ok(None);
    }
    var weekly := CheckWeeklyStructure(s.weekly.value, cfg.weekly);
    if weekly.Err? {
      return Err(weekly.reason);
    }
    var w := weekly.value;
    if !w.passed {
      return Ok(None);
    }
    var last := |d.bars| - 1;
    var name := if d.code.Some? then d.code.value[last] else s.code;
    return Ok(Some(WatchRow(s.code, name, trend, w.score, d.bars[last].close, 0.0,
                            OrElse(w.details.volumeRatio, 0.0), d.bars[last].date, w.details)));
  }

  /** A row reaches the watchlist only through the pre-filter, a trend other
      than DOWNTREND and a passed weekly structure, whose score it carries. */
  lemma ProcessStockAdmits(s: StockData, cfg: ScanConfig)
    requires StockWellFormed(s)
    requires ProcessStock(s, cfg).Ok? && ProcessStock(s, cfg).value.Some?
    ensures s.daily.Some? && s.weekly.Some? && s.monthly.Some?
    ensures |s.daily.value.bars| > 0 && |s.weekly.value| > 0 && |s.monthly.value| > 0
    ensures PreFilterAsWritten(s.daily.value, cfg.preFilter) == Ok(None)
    ensures ProcessStock(s, cfg).value.value.trend == MonthlyTrend(s.monthly.value, cfg.monthly)
    ensures ProcessStock(s, cfg).value.value.trend != Downtrend
    ensures WeeklyStructure(s.weekly.value, cfg.weekly).Ok?
    ensures WeeklyStructure(s.weekly.value, cfg.weekly).value.passed
    ensures ProcessStock(s, cfg).value.value.weeklyScore == WeeklyStructure(s.weekly.value, cfg.weekly).value.score
  {
  }

  /** The rows of the instruments that were kept; one that raised is
      skipped, as the source's `except ... continue` does. */
  function Collected(stocks: seq<StockData>, cfg: ScanConfig): seq<WatchRow>
    requires forall i :: 0 <= i < |stocks| ==> StockWellFormed(stocks[i])
    decreases |stocks|
  {
    if |stocks| == 0 then []
    else
      Collected(stocks[..|stocks| - 1], cfg) + Kept(ProcessStock(stocks[|stocks| - 1], cfg))
  }

  /** The row a successful, admitted instrument contributes. */
  function Kept(r: Result<Option<WatchRow>>): seq<WatchRow>
  {
    if r.Ok? && r.value.Some? then [r.value.value] else []
  }

  /** The loop of `main` that appends each kept row to `results`. */
  method CollectResults(stocks: seq<StockData>, cfg: ScanConfig) returns (results: seq<WatchRow>)
    requires forall i :: 0 <= i < |stocks| ==> StockWellFormed(stocks[i])
    ensures results == Collected(stocks, cfg)
  {
    results := [];
    var i := 0;
    while i < |stocks|
      invariant 0 <= i <= |stocks|
      invariant results == Collected(stocks[..i], cfg)
    {
      var r := ProcessSingleStock(stocks[i], cfg);
      CollectedSnoc(stocks, i, cfg);
      if r.Ok? && r.value.Some? {
        results := results + [r.value.value];
      }
      i := i + 1;
    }
    assert stocks[..|stocks|] == stocks;
  }

  lemma CollectedSnoc(stocks: seq<StockData>, i: nat, cfg: ScanConfig)
    requires i < |stocks|
    requires forall k :: 0 <= k < |stocks| ==> StockWellFormed(stocks[k])
    ensures Collected(stocks[..i + 1], cfg) == Collected(stocks[..i], cfg) + Kept(ProcessStock(stocks[i], cfg))
  {
    assert stocks[..i + 1][..i] == stocks[..i];
  }

  /** Every collected row came from some instrument that `ProcessStock`
      kept, so none is a DOWNTREND or gate-failed instrument. */
  lemma {:induction false} CollectedAreAdmitted(stocks: seq<StockData>, cfg: ScanConfig)
    requires forall i :: 0 <= i < |stocks| ==> StockWellFormed(stocks[i])
    ensures forall r :: r in Collected(stocks, cfg) ==>
      r.trend != Downtrend &&
      exists i :: 0 <= i < |stocks| && ProcessStock(stocks[i], cfg) == Ok(Some(r))
    decreases |stocks|
  {
    if |stocks| > 0 {
      var p := stocks[..|stocks| - 1];
      CollectedAreAdmitted(p, cfg);
      var last := stocks[|stocks| - 1];
      forall r | r in Collected(stocks, cfg)
        ensures r.trend != Downtrend
        ensures exists i :: 0 <= i < |stocks| && ProcessStock(stocks[i], cfg) == Ok(Some(r))
      {
        if r in Collected(p, cfg) {
          var i :| 0 <= i < |p| && ProcessStock(p[i], cfg) == Ok(Some(r));
          assert stocks[i] == p[i];
        } else {
          assert ProcessStock(last, cfg) == Ok(Some(r));
          ProcessStockAdmits(last, cfg);
        }
      }
    }
  }

  /** `sort_priority`: BASE_BUILDING 1, UPTREND 2; an unmapped label is NaN,
      which pandas sorts last. */
  function Priority(t: Trend): int
  {
    match t
    case BaseBuilding => 1
    case Uptrend => 2
    case Downtrend => 3
  }

  /** `sort_values('weekly_score', ascending=False)`. */
  predicate ByScore(a: WatchRow, b: WatchRow)
  {
    a.weeklyScore >= b.weeklyScore
  }

  /** `sort_values(['sort_priority', 'weekly_score'], ascending=[True, False])`. */
  predicate ByPriorityThenScore(a: WatchRow, b: WatchRow)
  {
    Priority(a.trend) < Priority(b.trend)
    || (Priority(a.trend) == Priority(b.trend) && a.weeklyScore >= b.weeklyScore)
  }

  function WatchlistOrder(preferBase: bool): (WatchRow, WatchRow) -> bool
  {
    if preferBase then ByPriorityThenScore else ByScore
  }

  lemma OrdersArePreorders()
    ensures Total(WatchlistOrder(true)) && Transitive(WatchlistOrder(true))
    ensures Total(WatchlistOrder(false)) && Transitive(WatchlistOrder(false))
  {
  }

  /** The sort and `head(max_stocks)` of `main`. */
  function Watchlist(rows: seq<WatchRow>, preferBase: bool, maxStocks: nat): seq<WatchRow>
  {
    TopN(rows, maxStocks, WatchlistOrder(preferBase))
  }

  /** The watchlist has at most `max_stocks` rows taken from the results,
      in descending score; with `prefer_base_building`, every BASE_BUILDING
      row precedes every UPTREND row, and scores descend within a group.
      No row cut by `head` ranks above a kept one. */
  lemma WatchlistIsOrdered(rows: seq<WatchRow>, preferBase: bool, maxStocks: nat)
    ensures |Watchlist(rows, preferBase, maxStocks)| == MinNat(maxStocks, |rows|)
    ensures multiset(Watchlist(rows, preferBase, maxStocks)) <= multiset(rows)
    ensures var w := Watchlist(rows, preferBase, maxStocks);
      !preferBase ==> forall i, j :: 0 <= i < j < |w| ==> w[i].weeklyScore >= w[j].weeklyScore
    ensures var w := Watchlist(rows, preferBase, maxStocks);
      preferBase ==> forall i, j :: 0 <= i < j < |w| ==>
        && !(w[i].trend == Uptrend && w[j].trend == BaseBuilding)
        && (w[i].trend == w[j].trend ==> w[i].weeklyScore >= w[j].weeklyScore)
    ensures var w := Watchlist(rows, preferBase, maxStocks);
      var sorted := SortBy(rows, WatchlistOrder(preferBase));
      && (!preferBase ==> forall i, j :: 0 <= i < |w| <= j < |rows| ==> w[i].weeklyScore >= sorted[j].weeklyScore)
      && (preferBase ==> forall i, j :: 0 <= i < |w| <= j < |rows| ==> ByPriorityThenScore(w[i], sorted[j]))
  {
    OrdersArePreorders();
    TopNIsBest(rows, maxStocks, WatchlistOrder(preferBase));
  }
}
