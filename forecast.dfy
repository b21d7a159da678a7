/** The deterministic parts of the monthly trend forecast: the guards
    around the Prophet fit, the return, confidence and trend strength read
    off its forecast frame, the seven-bucket direction, the fixed feature
    dictionary, and the least-squares fallback predictor. The fit itself is
    a parameter. */
module Forecast {
  import opened Stats

  /** `_classify_trend`'s labels, strongest rise first. */
  datatype Direction = StrongUp | Up | WeakUp | Flat | WeakDown | Down | StrongDown

  /** The forecast frame of a fit: one row per history month plus the
      future months. `yearly` is absent when the model has no yearly
      component. */
  datatype ForecastFrame = ForecastFrame(
    yhat: seq<real>,
    yhatLower: seq<real>,
    yhatUpper: seq<real>,
    trend: seq<real>,
    yearly: Option<seq<real>>)

  predicate FrameWellFormed(f: ForecastFrame)
  {
    && |f.yhatLower| == |f.yhat| && |f.yhatUpper| == |f.yhat| && |f.trend| == |f.yhat|
    && (f.yearly.Some? ==> |f.yearly.value| == |f.yhat|)
  }

  /** `prophet_features`. */
  datatype ProphetFeatures = ProphetFeatures(trend: real, trendChange: real, yearlySeasonality: real, trendSlope: real)

  /** The prediction dictionary; the bounds exist only for a Prophet fit. */
  datatype Prediction = Prediction(
    forecastReturn: real,
    direction: Direction,
    confidence: real,
    trendStrength: real,
    features: ProphetFeatures,
    currentPrice: real,
    predictedPrice: real,
    lowerBound: Option<real>,
    upperBound: Option<real>)

  /** `ProphetPredictor`: set once at construction. `enabled` records
      whether the Prophet library could be imported. */
  datatype ProphetPredictor = ProphetPredictor(forecastPeriods: nat, changepointPriorScale: real, enabled: bool)

  /** A month as read: the date and the close after
      `pd.to_numeric(errors='coerce')` (absent when not numeric). */
  datatype MonthRow = MonthRow(date: string, close: Option<real>)

  // ---------------------------------------------------------------------
  // Direction

  /** The position of a label from the strongest rise (0) to the strongest
      fall (6). */
  function Rank(d: Direction): nat
  {
    match d
    case StrongUp => 0
    case Up => 1
    case WeakUp => 2
    case Flat => 3
    case WeakDown => 4
    case Down => 5
    case StrongDown => 6
  }

  /** `_classify_trend`: strict thresholds at 10%, 5%, 2%, -2%, -5%, -10%. */
  function ClassifyTrend(r: real): (d: Direction)
    ensures d == StrongUp <==> r > 0.10
    ensures d == Up <==> 0.05 < r <= 0.10
    ensures d == WeakUp <==> 0.02 < r <= 0.05
    ensures d == Flat <==> -0.02 < r <= 0.02
    ensures d == WeakDown <==> -0.05 < r <= -0.02
    ensures d == Down <==> -0.10 < r <= -0.05
    ensures d == StrongDown <==> r <= -0.10
  {
    if r > 0.10 then StrongUp
    else if r > 0.05 then Up
    else if r > 0.02 then WeakUp
    else if r > -0.02 then Flat
    else if r > -0.05 then WeakDown
    else if r > -0.10 then Down
    else StrongDown
  }

  /** A higher return never gets a weaker label. */
  lemma ClassifyTrendMonotone(r1: real, r2: real)
    requires r1 <= r2
    ensures Rank(ClassifyTrend(r2)) <= Rank(ClassifyTrend(r1))
  {
  }

  // ---------------------------------------------------------------------
  // Confidence and trend strength

  /** `max(0, min(1, 1 - (upper - lower) / current))`. */
  function Confidence(current: real, lower: real, upper: real): (c: real)
    requires current != 0.0
    ensures 0.0 <= c <= 1.0
  {
    Max(0.0, Min(1.0, 1.0 - (upper - lower) / current))
  }

  /** For a positive price, the confidence is the complement of the
      interval's width relative to the price where that lies in [0, 1]; it
      is 1 for an empty or inverted interval and never grows as the
      interval widens. */
  lemma ConfidenceFacts(current: real, lower: real, upper: real, lower2: real, upper2: real)
    requires current > 0.0
    ensures var u := (upper - lower) / current;
      0.0 <= u <= 1.0 ==> Confidence(current, lower, upper) == 1.0 - u
    ensures upper <= lower ==> Confidence(current, lower, upper) == 1.0
    ensures upper - lower <= upper2 - lower2 ==> Confidence(current, lower2, upper2) <= Confidence(current, lower, upper)
  {
    if upper <= lower {
      DivMonotone(upper - lower, 0.0, current);
    }
    if upper - lower <= upper2 - lower2 {
      DivMonotone(upper - lower, upper2 - lower2, current);
    }
  }

  /** Dividing by a positive number keeps the order. */
  lemma DivMonotone(w1: real, w2: real, c: real)
    requires c > 0.0 && w1 <= w2
    ensures w1 / c <= w2 / c
  {
    var u1, u2 := w1 / c, w2 / c;
    assert u1 * c == w1;
    assert u2 * c == w2;
    if u1 > u2 {
      MulStrict(u2, u1, c);
    }
  }

  /** `_calculate_trend_strength`: ten times the absolute least-squares
      slope of the last six trend values relative to the price, capped at
      1; 0 on a frame under six rows. */
  function TrendStrength(trend: seq<real>, current: real): (s: real)
    requires current != 0.0
    ensures s <= 1.0
    ensures |trend| < 6 ==> s == 0.0
    ensures current > 0.0 ==> 0.0 <= s
  {
    if |trend| < 6 then 0.0
    else
      var slope := Slope(Tail(trend, 6));
      var normalized := Abs(slope) / current;
      assert current > 0.0 ==> normalized >= 0.0 by {
        if current > 0.0 && normalized < 0.0 {
          MulStrict(normalized, 0.0, current);
        }
      }
      Min(normalized * 10.0, 1.0)
  }

  /** On a straight-line trend of slope `b` over the last six rows the
      strength is `min(10|b| / price, 1)`; a flat trend has strength 0. */
  lemma TrendStrengthOfLine(trend: seq<real>, current: real, a: real, b: real)
    requires current != 0.0 && |trend| >= 6
    requires forall k :: 0 <= k < 6 ==> Tail(trend, 6)[k] == a + b * (k as real)
    ensures TrendStrength(trend, current) == Min(Abs(b) / current * 10.0, 1.0)
    ensures b == 0.0 ==> TrendStrength(trend, current) == 0.0
  {
    SlopeOfLine(Tail(trend, 6), a, b);
  }

  // ---------------------------------------------------------------------
  // Reading the forecast frame

  /** `_extract_prophet_features` at the last history row `h - 1`: the trend
      there, its change over six rows (from row 0 when fewer exist), the
      yearly component (0 without one) and the slope of the last six trend
      values (0 on a frame under six rows). */
  function ExtractProphetFeatures(f: ForecastFrame, h: nat): ProphetFeatures
    requires FrameWellFormed(f) && 1 <= h <= |f.yhat|
  {
    var last := h - 1;
    var from := if last >= 6 then last - 6 else 0;
    ProphetFeatures(
      f.trend[last],
      f.trend[last] - f.trend[from],
      if f.yearly.Some? then f.yearly.value[last] else 0.0,
      if |f.trend| >= 6 then Slope(Tail(f.trend, 6)) else 0.0)
  }

  /** `_extract_results` on the history closes `y`. A frame shorter than
      the history raises at `iloc`; a zero last close makes the return
      infinite or undefined, and gives no prediction here. */
  function ExtractResults(y: seq<real>, f: ForecastFrame): (r: Result<Prediction>)
    requires FrameWellFormed(f)
    ensures r.Ok? <==> 1 <= |y| <= |f.yhat| && y[|y| - 1] != 0.0
  {
    if |y| == 0 || |f.yhat| < |y| then Err("single positional indexer is out-of-bounds")
    else if y[|y| - 1] == 0.0 then Err("zero current price")
    else
      var current := y[|y| - 1];
      var n := |f.yhat|;
      var predicted := f.yhat[n - 1];
      var ret := (predicted - current) / current;
      var lower := f.yhatLower[n - 1];
      var upper := f.yhatUpper[n - 1];
      Ok(Prediction(
        ret, ClassifyTrend(ret), Confidence(current, lower, upper), TrendStrength(f.trend, current),
        ExtractProphetFeatures(f, |y|), current, predicted, Some(lower), Some(upper)))
  }

  /** A prediction's return is the change from the last close to the last
      forecast value relative to that close; its direction classifies that
      return; its confidence lies in [0, 1] and the strength is at most 1
      (and not negative for a positive price). */
  lemma ExtractResultsFacts(y: seq<real>, f: ForecastFrame)
    requires FrameWellFormed(f)
    requires ExtractResults(y, f).Ok?
    ensures var p := ExtractResults(y, f).value;
      && p.currentPrice == y[|y| - 1]
      && p.predictedPrice == f.yhat[|f.yhat| - 1]
      && p.forecastReturn * p.currentPrice == p.predictedPrice - p.currentPrice
      && p.direction == ClassifyTrend(p.forecastReturn)
      && 0.0 <= p.confidence <= 1.0
      && p.trendStrength <= 1.0
      && (p.currentPrice > 0.0 ==> 0.0 <= p.trendStrength)
      && (p.currentPrice > 0.0 ==> (p.forecastReturn > 0.0 <==> p.predictedPrice > p.currentPrice))
  {
    var p := ExtractResults(y, f).value;
    var c := p.currentPrice;
    var r := p.forecastReturn;
    assert r * c == p.predictedPrice - c;
    if c > 0.0 {
      if r > 0.0 {
        MulStrict(0.0, r, c);
      } else {
        MulMono(r, 0.0, c);
      }
    }
  }

  // ---------------------------------------------------------------------
  // The guards of `predict_trend`

  /** The numeric closes kept by `dropna`. */
  function NumericCloses(rows: seq<MonthRow>): (y: seq<real>)
    ensures |y| <= |rows|
    decreases |rows|
  {
    if |rows| == 0 then []
    else
      var last := rows[|rows| - 1];
      NumericCloses(rows[..|rows| - 1]) + (if last.close.Some? then [last.close.value] else [])
  }

  /** `_prepare_data`: the closes as Prophet's `y`, when the date and close
      columns exist and at least twelve closes are numeric. */
  function PrepareData(rows: seq<MonthRow>, hasColumns: bool): (y: Option<seq<real>>)
    ensures y.Some? ==> |y.value| >= 12 && y.value == NumericCloses(rows)
  {
    if !hasColumns then None
    else
      var y := NumericCloses(rows);
      if |y| < 12 then None else Some(y)
  }

  /** `predict_trend`, with the fit and the forecast of `forecast_periods`
      future months given as `fit`; a fit that raises is an error. */
  function PredictTrend(p: ProphetPredictor, rows: seq<MonthRow>, hasColumns: bool,
                        fit: (seq<real>, nat) -> Result<ForecastFrame>): Option<Prediction>
  {
    if !p.enabled || |rows| < 12 then None
    else
      match PrepareData(rows, hasColumns)
      case None => None
      case Some(y) =>
        match fit(y, p.forecastPeriods)
        case Err(_) => None
        case Ok(frame) =>
          if !FrameWellFormed(frame) then None
          else
            match ExtractResults(y, frame)
            case Err(_) => None
            case Ok(r) => Some(r)
  }

  /** `predict_trend` gives no prediction when the predictor is disabled,
      with fewer than 12 months, without the date or close column, with
      fewer than 12 numeric closes, or when the fit fails; a prediction is
      read off the fit of the numeric closes. */
  lemma PredictTrendGuards(p: ProphetPredictor, rows: seq<MonthRow>, hasColumns: bool,
                           fit: (seq<real>, nat) -> Result<ForecastFrame>)
    ensures !p.enabled ==> PredictTrend(p, rows, hasColumns, fit).None?
    ensures |rows| < 12 ==> PredictTrend(p, rows, hasColumns, fit).None?
    ensures !hasColumns ==> PredictTrend(p, rows, hasColumns, fit).None?
    ensures |NumericCloses(rows)| < 12 ==> PredictTrend(p, rows, hasColumns, fit).None?
    ensures fit(NumericCloses(rows), p.forecastPeriods).Err? ==> PredictTrend(p, rows, hasColumns, fit).None?
    ensures PredictTrend(p, rows, hasColumns, fit).Some? ==>
      var y := NumericCloses(rows);
      && fit(y, p.forecastPeriods).Ok?
      && FrameWellFormed(fit(y, p.forecastPeriods).value)
      && ExtractResults(y, fit(y, p.forecastPeriods).value) == Ok(PredictTrend(p, rows, hasColumns, fit).value)
  {
  }

  // ---------------------------------------------------------------------
  // Features for the ranker

  /** `get_feature_names`. */
  function FeatureNames(): (names: seq<string>)
    ensures |names| == 6
    ensures forall i, j :: 0 <= i < j < |names| ==> names[i] != names[j]
  {
    ["prophet_forecast_return", "prophet_confidence", "prophet_trend_strength",
     "prophet_trend", "prophet_trend_change", "prophet_trend_slope"]
  }

  /** `extract_features_for_ml` on a prediction (or its absence). */
  function FeaturesForMl(prediction: Option<Prediction>): (m: map<string, real>)
    ensures m.Keys == set k | 0 <= k < |FeatureNames()| :: FeatureNames()[k]
    ensures prediction.None? ==> forall name :: name in m ==> m[name] == 0.0
    ensures "prophet_forecast_return" in m && "prophet_confidence" in m && "prophet_trend_strength" in m
    ensures "prophet_trend" in m && "prophet_trend_change" in m && "prophet_trend_slope" in m
    ensures prediction.Some? ==>
      && m["prophet_forecast_return"] == prediction.value.forecastReturn
      && m["prophet_confidence"] == prediction.value.confidence
      && m["prophet_trend_strength"] == prediction.value.trendStrength
      && m["prophet_trend"] == prediction.value.features.trend
      && m["prophet_trend_change"] == prediction.value.features.trendChange
      && m["prophet_trend_slope"] == prediction.value.features.trendSlope
  {
    var names := FeatureNames();
    var values := if prediction.None? then [0.0, 0.0, 0.0, 0.0, 0.0, 0.0]
      else
        var q := prediction.value;
        [q.forecastReturn, q.confidence, q.trendStrength, q.features.trend, q.features.trendChange, q.features.trendSlope];
    var m := map[names[0] := values[0], names[1] := values[1], names[2] := values[2],
                 names[3] := values[3], names[4] := values[4], names[5] := values[5]];
    assert m.Keys == set k | 0 <= k < |names| :: names[k] by {
      forall x | x in m.Keys ensures x in set k | 0 <= k < |names| :: names[k] {
        if x == names[0] { assert names[0] == x; }
        else if x == names[1] { assert names[1] == x; }
        else if x == names[2] { assert names[2] == x; }
        else if x == names[3] { assert names[3] == x; }
        else if x == names[4] { assert names[4] == x; }
        else { assert names[5] == x; }
      }
    }
    m
  }

  // ---------------------------------------------------------------------
  // The fallback predictor

  /** `SimpleTrendPredictor`. */
  datatype SimpleTrendPredictor = SimpleTrendPredictor(forecastPeriods: nat)

  /** `SimpleTrendPredictor.predict_trend`: the least-squares line through
      the last twelve closes at x = 0..11, read at x = 11 +
      `forecast_periods`. The correlation coefficient, which needs a square
      root, comes from `rValue`. A zero last close gives no prediction. */
  function SimplePredictTrend(p: SimpleTrendPredictor, closes: seq<real>, rValue: seq<real> -> real): Option<Prediction>
  {
    if |closes| < 12 then None
    else
      var recent := Tail(closes, 12);
      var slope := Slope(recent);
      var intercept := Intercept(recent);
      var predicted := slope * ((12 + p.forecastPeriods - 1) as real) + intercept;
      var current := recent[11];
      if current == 0.0 then None
      else
        var ret := (predicted - current) / current;
        Some(Prediction(
          ret, if ret > 0.0 then Up else Down, Abs(rValue(recent)), Abs(slope) / current,
          ProphetFeatures(current, slope * 6.0, 0.0, slope), current, predicted, None, None))
  }

  /** On twelve closes lying on the line `a + b*k`, the fallback predicts
      `a + b*(11 + forecast_periods)`, reports slope `b`, and for a
      positive last close says Up exactly when the prediction exceeds it. */
  lemma SimplePredictOfLine(p: SimpleTrendPredictor, closes: seq<real>, rValue: seq<real> -> real, a: real, b: real)
    requires |closes| >= 12
    requires forall k :: 0 <= k < 12 ==> Tail(closes, 12)[k] == a + b * (k as real)
    requires closes[|closes| - 1] != 0.0
    ensures SimplePredictTrend(p, closes, rValue).Some?
    ensures var q := SimplePredictTrend(p, closes, rValue).value;
      && q.predictedPrice == a + b * ((11 + p.forecastPeriods) as real)
      && q.currentPrice == closes[|closes| - 1]
      && q.features.trendSlope == b
      && q.features.trendChange == 6.0 * b
  {
    SlopeOfLine(Tail(closes, 12), a, b);
  }

  /** The fallback's direction is Up exactly on a positive return, which on
      a positive last close is a prediction above it; the return is the
      relative change to the prediction. */
  lemma SimplePredictFacts(p: SimpleTrendPredictor, closes: seq<real>, rValue: seq<real> -> real)
    ensures SimplePredictTrend(p, closes, rValue).None? <==> |closes| < 12 || closes[|closes| - 1] == 0.0
    ensures SimplePredictTrend(p, closes, rValue).Some? ==>
      var q := SimplePredictTrend(p, closes, rValue).value;
      && q.currentPrice == closes[|closes| - 1]
      && q.forecastReturn * q.currentPrice == q.predictedPrice - q.currentPrice
      && (q.direction == Up <==> q.forecastReturn > 0.0)
      && (q.direction == Up || q.direction == Down)
      && 0.0 <= q.confidence
      && (q.currentPrice > 0.0 ==> (q.direction == Up <==> q.predictedPrice > q.currentPrice))
  {
    if SimplePredictTrend(p, closes, rValue).Some? {
      var q := SimplePredictTrend(p, closes, rValue).value;
      var c := q.currentPrice;
      var r := q.forecastReturn;
      assert Tail(closes, 12)[11] == closes[|closes| - 1];
      assert r * c == q.predictedPrice - c;
      if c > 0.0 {
        if r > 0.0 {
          MulStrict(0.0, r, c);
        } else {
          MulMono(r, 0.0, c);
        }
      }
    }
  }
}
