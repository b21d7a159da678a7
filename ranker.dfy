/** The composite rule ranker: a base of 50 points plus fixed tiers on the
    monthly features and the forecast, clamped to [0, 100]; the feature
    dictionary read off the latest month; the key-feature labels; and the
    ranking of the watchlist by that score. */
module Ranker {
  import opened Stats
  import opened Sorting
  import opened Features
  import opened Forecast
  import WeeklyScan

  /** `features.get(name, default)`. */
  function Get(features: map<string, real>, name: string, default: real): real
  {
    if name in features then features[name] else default
  }

  // ---------------------------------------------------------------------
  // The score

  /** 10 points above `high`, 5 above `low` (strictly). */
  function Above(x: real, high: real, low: real): int
  {
    if x > high then 10 else if x > low then 5 else 0
  }

  /** 10 points at or above `high`, 5 at or above `low`. */
  function AtLeast(x: real, high: real, low: real): int
  {
    if x >= high then 10 else if x >= low then 5 else 0
  }

  /** 10 points below `low`, 5 below `high`. */
  function Below(x: real, low: real, high: real): int
  {
    if x < low then 10 else if x < high then 5 else 0
  }

  /** `points` when the condition holds. */
  function Bonus(b: bool, points: int): int
  {
    if b then points else 0
  }

  /** The trend tiers: the slope of MA10, the six-month return and the
      moving-average alignment. */
  function TrendPoints(f: map<string, real>): int
  {
    Above(Get(f, "MA10_slope", 0.0), 0.02, 0.0)
    + Above(Get(f, "return_6m", 0.0), 0.10, 0.0)
    + AtLeast(Get(f, "ma_alignment", 0.0), 2.0, 1.0)
  }

  /** The structure tiers: the volatility contraction (absent counts as 1)
      and the consolidation score. */
  function StructurePoints(f: map<string, real>): int
  {
    Below(Get(f, "volatility_contraction", 1.0), 0.7, 0.9)
    + AtLeast(Get(f, "consolidation_score", 0.0), 6.0, 4.0)
  }

  /** The volume tiers. */
  function VolumePoints(f: map<string, real>): int
  {
    Above(Get(f, "volume_up_down_ratio", 0.0), 1.5, 1.2)
    + Bonus(Get(f, "volume_cooperation", 0.0) == 1.0, 10)
  }

  /** The signal tiers: MACD above zero, a MACD cross, positive momentum. */
  function SignalPoints(f: map<string, real>): int
  {
    Bonus(Get(f, "MACD", 0.0) > 0.0, 3)
    + Bonus(Get(f, "macd_cross", 0.0) == 1.0, 2)
    + Bonus(Get(f, "momentum_6m", 0.0) > 0.0, 5)
  }

  /** The tiers on the features. */
  function FeaturePoints(f: map<string, real>): int
  {
    TrendPoints(f) + StructurePoints(f) + VolumePoints(f) + SignalPoints(f)
  }

  function ReturnPoints(r: real): int
  {
    if r > 0.15 then 15
    else if r > 0.10 then 12
    else if r > 0.05 then 8
    else if r > 0.02 then 4
    else if r < -0.05 then -10
    else 0
  }

  function ConfidencePoints(c: real): int
  {
    if c > 0.8 then 5 else if c > 0.6 then 3 else 0
  }

  /** The forecast tiers; nothing without a forecast. */
  function ForecastPoints(pred: Option<Prediction>): int
  {
    if pred.None? then 0 else ReturnPoints(pred.value.forecastReturn) + ConfidencePoints(pred.value.confidence)
  }

  function RawScore(f: map<string, real>, pred: Option<Prediction>): int
  {
    50 + FeaturePoints(f) + ForecastPoints(pred)
  }

  /** `calculate_score`: the raw score clamped to [0, 100]. */
  function Score(f: map<string, real>, pred: Option<Prediction>): int
  {
    var raw := RawScore(f, pred);
    if raw < 0 then 0 else if raw > 100 then 100 else raw
  }

  /** The trend tiers of `calculate_score`, added one at a time. */
  method AddTrendTiers(f: map<string, real>, score0: int) returns (score: int)
    ensures score == score0 + TrendPoints(f)
  {
    score := score0;
    var ma10Slope := Get(f, "MA10_slope", 0.0);
    if ma10Slope > 0.02 {
      score := score + 10;
    } else if ma10Slope > 0.0 {
      score := score + 5;
    }
    var return6m := Get(f, "return_6m", 0.0);
    if return6m > 0.10 {
      score := score + 10;
    } else if return6m > 0.0 {
      score := score + 5;
    }
    var alignment := Get(f, "ma_alignment", 0.0);
    if alignment >= 2.0 {
      score := score + 10;
    } else if alignment >= 1.0 {
      score := score + 5;
    }
  }

  /** The structure tiers. */
  method AddStructureTiers(f: map<string, real>, score0: int) returns (score: int)
    ensures score == score0 + StructurePoints(f)
  {
    score := score0;
    var contraction := Get(f, "volatility_contraction", 1.0);
    if contraction < 0.7 {
      score := score + 10;
    } else if contraction < 0.9 {
      score := score + 5;
    }
    var consolidation := Get(f, "consolidation_score", 0.0);
    if consolidation >= 6.0 {
      score := score + 10;
    } else if consolidation >= 4.0 {
      score := score + 5;
    }
  }

  /** The volume tiers. */
  method AddVolumeTiers(f: map<string, real>, score0: int) returns (score: int)
    ensures score == score0 + VolumePoints(f)
  {
    score := score0;
    var upDown := Get(f, "volume_up_down_ratio", 0.0);
    if upDown > 1.5 {
      score := score + 10;
    } else if upDown > 1.2 {
      score := score + 5;
    }
    if Get(f, "volume_cooperation", 0.0) == 1.0 {
      score := score + 10;
    }
  }

  /** The signal tiers. */
  method AddSignalTiers(f: map<string, real>, score0: int) returns (score: int)
    ensures score == score0 + SignalPoints(f)
  {
    score := score0;
    if Get(f, "MACD", 0.0) > 0.0 {
      score := score + 3;
    }
    if Get(f, "macd_cross", 0.0) == 1.0 {
      score := score + 2;
    }
    if Get(f, "momentum_6m", 0.0) > 0.0 {
      score := score + 5;
    }
  }

  /** The forecast tiers, when there is a forecast. */
  method AddForecastTiers(pred: Option<Prediction>, score0: int) returns (score: int)
    ensures score == score0 + ForecastPoints(pred)
  {
    score := score0;
    if pred.Some? {
      var r := pred.value.forecastReturn;
      if r > 0.15 {
        score := score + 15;
      } else if r > 0.10 {
        score := score + 12;
      } else if r > 0.05 {
        score := score + 8;
      } else if r > 0.02 {
        score := score + 4;
      } else if r < -0.05 {
        score := score - 10;
      }
      var c := pred.value.confidence;
      if c > 0.8 {
        score := score + 5;
      } else if c > 0.6 {
        score := score + 3;
      }
    }
  }

  /** `calculate_score`: 50 points, the tiers in the source's order, then
      the clamp to [0, 100]. */
  method CalculateScore(f: map<string, real>, pred: Option<Prediction>) returns (score: int)
    ensures score == Score(f, pred)
  {
    score := 50;
    score := AddTrendTiers(f, score);
    score := AddStructureTiers(f, score);
    score := AddVolumeTiers(f, score);
    score := AddSignalTiers(f, score);
    score := AddForecastTiers(pred, score);
    score := if score < 0 then 0 else score;
    score := if score > 100 then 100 else score;
  }

  /** The score lies in [0, 100]. Without a forecast the raw score is in
      [50, 130], so the score is in [50, 100]; with one the raw score is at
      least 40 and at most 150. */
  lemma ScoreBounds(f: map<string, real>, pred: Option<Prediction>)
    ensures 0 <= Score(f, pred) <= 100
    ensures 0 <= FeaturePoints(f) <= 80
    ensures pred.None? ==> ForecastPoints(pred) == 0
    ensures pred.None? ==> 50 <= RawScore(f, pred) <= 130 && 50 <= Score(f, pred)
    ensures pred.Some? ==> 40 <= RawScore(f, pred) <= 150 && 40 <= Score(f, pred)
  {
  }

  /** An empty dictionary scores exactly 50: every default misses its
      tier, the contraction default of 1 included. */
  lemma EmptyScoresFifty()
    ensures Score(map[], None) == 50
  {
  }

  /** A dictionary of zeros scores exactly 60: only the volatility
      contraction of 0 (below 0.7) takes a tier. */
  lemma AllZeroScoresSixty(f: map<string, real>)
    requires forall name :: name in f ==> f[name] == 0.0
    requires "volatility_contraction" in f
    ensures Score(f, None) == 60
  {
  }

  /** Each tier never falls as its feature rises. */
  lemma AboveMonotone(x: real, y: real, high: real, low: real)
    requires x <= y && low <= high
    ensures Above(x, high, low) <= Above(y, high, low)
  {
  }

  lemma AtLeastMonotone(x: real, y: real, high: real, low: real)
    requires x <= y && low <= high
    ensures AtLeast(x, high, low) <= AtLeast(y, high, low)
  {
  }

  /** The contraction tier never rises as the contraction rises. */
  lemma BelowAntitone(x: real, y: real, low: real, high: real)
    requires x <= y && low <= high
    ensures Below(y, low, high) <= Below(x, low, high)
  {
  }

  lemma ForecastTiersMonotone(r1: real, r2: real, c1: real, c2: real)
    requires r1 <= r2 && c1 <= c2
    ensures ReturnPoints(r1) <= ReturnPoints(r2)
    ensures ConfidencePoints(c1) <= ConfidencePoints(c2)
  {
  }

  /** The features that only help, and the one that only hurts. */
  predicate Dominates(f1: map<string, real>, f2: map<string, real>)
  {
    && Get(f1, "MA10_slope", 0.0) <= Get(f2, "MA10_slope", 0.0)
    && Get(f1, "return_6m", 0.0) <= Get(f2, "return_6m", 0.0)
    && Get(f1, "ma_alignment", 0.0) <= Get(f2, "ma_alignment", 0.0)
    && Get(f1, "consolidation_score", 0.0) <= Get(f2, "consolidation_score", 0.0)
    && Get(f1, "volume_up_down_ratio", 0.0) <= Get(f2, "volume_up_down_ratio", 0.0)
    && Get(f1, "momentum_6m", 0.0) <= Get(f2, "momentum_6m", 0.0)
    && Get(f1, "MACD", 0.0) <= Get(f2, "MACD", 0.0)
    && Get(f2, "volatility_contraction", 1.0) <= Get(f1, "volatility_contraction", 1.0)
    && Get(f1, "volume_cooperation", 0.0) == Get(f2, "volume_cooperation", 0.0)
    && Get(f1, "macd_cross", 0.0) == Get(f2, "macd_cross", 0.0)
  }

  /** The score is non-decreasing in the slope, the return, the alignment,
      the consolidation, the up/down volume ratio, the momentum, MACD, the
      forecast return and the confidence, and non-increasing in the
      volatility contraction. */
  lemma ScoreMonotone(f1: map<string, real>, f2: map<string, real>, p1: Option<Prediction>, p2: Option<Prediction>)
    requires Dominates(f1, f2)
    requires p1.Some? <==> p2.Some?
    requires p1.Some? ==> p1.value.forecastReturn <= p2.value.forecastReturn && p1.value.confidence <= p2.value.confidence
    ensures Score(f1, p1) <= Score(f2, p2)
  {
    AboveMonotone(Get(f1, "MA10_slope", 0.0), Get(f2, "MA10_slope", 0.0), 0.02, 0.0);
    AboveMonotone(Get(f1, "return_6m", 0.0), Get(f2, "return_6m", 0.0), 0.10, 0.0);
    AtLeastMonotone(Get(f1, "ma_alignment", 0.0), Get(f2, "ma_alignment", 0.0), 2.0, 1.0);
    assert TrendPoints(f1) <= TrendPoints(f2);
    BelowAntitone(Get(f2, "volatility_contraction", 1.0), Get(f1, "volatility_contraction", 1.0), 0.7, 0.9);
    AtLeastMonotone(Get(f1, "consolidation_score", 0.0), Get(f2, "consolidation_score", 0.0), 6.0, 4.0);
    assert StructurePoints(f1) <= StructurePoints(f2);
    AboveMonotone(Get(f1, "volume_up_down_ratio", 0.0), Get(f2, "volume_up_down_ratio", 0.0), 1.5, 1.2);
    assert VolumePoints(f1) <= VolumePoints(f2);
    assert SignalPoints(f1) <= SignalPoints(f2);
    if p1.Some? {
      ForecastTiersMonotone(p1.value.forecastReturn, p2.value.forecastReturn, p1.value.confidence, p2.value.confidence);
    }
  }
  // ---------------------------------------------------------------------
  // The feature dictionary (`extract_features`)

  /** The set of the core feature names. */
  function CoreNameSet(): set<string>
  {
    set k | 0 <= k < |CoreFeatureNames()| :: CoreFeatureNames()[k]
  }

  /** A feature's value with NaN (and infinity) replaced by 0. */
  function CleanValue(row: FeatureRow, name: string): real
  {
    OrElse(FeatureValue(row, name), 0.0)
  }

  /** The loop over the core names filling the dictionary. */
  method FeatureDict(row: FeatureRow) returns (d: map<string, real>)
    ensures d.Keys == CoreNameSet()
    ensures forall name :: name in d ==> d[name] == CleanValue(row, name)
  {
    var names := CoreFeatureNames();
    d := map[];
    var i := 0;
    while i < |names|
      invariant 0 <= i <= |names|
      invariant d.Keys == set k | 0 <= k < i :: names[k]
      invariant forall name :: name in d ==> d[name] == CleanValue(row, name)
    {
      var value := FeatureValue(row, names[i]);
      d := d[names[i] := if value.Some? then value.value else 0.0];
      assert (set k | 0 <= k < i + 1 :: names[k]) == (set k | 0 <= k < i :: names[k]) + {names[i]};
      i := i + 1;
    }
  }

  /** The dictionary of the latest month as a value. */
  function LatestFeatures(row: FeatureRow): (d: map<string, real>)
    ensures d.Keys == CoreNameSet()
    ensures forall name :: name in d ==> d[name] == CleanValue(row, name)
  {
    map name | name in CoreNameSet() :: CleanValue(row, name)
  }

  /** `extract_features`: no dictionary when the feature table is empty or
      its construction fails; otherwise the core features of the latest
      month. */
  function ExtractFeatures(raw: seq<RawBar>, sqrt: real -> real): Option<map<string, real>>
  {
    match CreateInvestmentFeatures(raw, sqrt)
    case Err(_) => None
    case Ok(Empty) => None
    case Ok(Table(bars, rows)) => if |rows| == 0 then None else Some(LatestFeatures(rows[|rows| - 1]))
  }

  /** A dictionary holds exactly the core feature names, none of them
      absent; there is none when no close is numeric. */
  lemma ExtractFeaturesFacts(raw: seq<RawBar>, sqrt: real -> real)
    ensures NoNumericClose(raw) ==> ExtractFeatures(raw, sqrt).None?
    ensures ExtractFeatures(raw, sqrt).Some? ==> ExtractFeatures(raw, sqrt).value.Keys == CoreNameSet()
    ensures ExtractFeatures(raw, sqrt).Some? ==> |raw| >= 1
  {
    CreateInvestmentFeaturesFacts(raw, sqrt);
  }

  // ---------------------------------------------------------------------
  // Key features (`_extract_key_features`)

  datatype KeyFeature = StrongTrend | VolatilityContracting | VolumeCooperating | MacdGoldenCross | BreakoutSignal

  function KeyRank(k: KeyFeature): nat
  {
    match k
    case StrongTrend => 0
    case VolatilityContracting => 1
    case VolumeCooperating => 2
    case MacdGoldenCross => 3
    case BreakoutSignal => 4
  }

  /** Whether a label's condition holds. */
  predicate Fires(f: map<string, real>, k: KeyFeature)
  {
    match k
    case StrongTrend => Get(f, "MA10_slope", 0.0) > 0.01
    case VolatilityContracting => Get(f, "volatility_contraction", 1.0) < 0.8
    case VolumeCooperating => Get(f, "volume_up_down_ratio", 0.0) > 1.2
    case MacdGoldenCross => Get(f, "macd_cross", 0.0) == 1.0
    case BreakoutSignal => Get(f, "breakout_signal", 0.0) == 1.0
  }

  /** Every label, in the order the labels are listed. */
  function AllKeys(): (ks: seq<KeyFeature>)
    ensures forall i, j :: 0 <= i < j < |ks| ==> KeyRank(ks[i]) < KeyRank(ks[j])
  {
    [StrongTrend, VolatilityContracting, VolumeCooperating, MacdGoldenCross, BreakoutSignal]
  }

  /** The labels of `ks` whose condition holds, in the order of `ks`. */
  function Firing(fires: KeyFeature -> bool, ks: seq<KeyFeature>): seq<KeyFeature>
    decreases |ks|
  {
    if |ks| == 0 then []
    else When(fires(ks[0]), ks[0]) + Firing(fires, ks[1..])
  }

  function When(b: bool, k: KeyFeature): seq<KeyFeature>
  {
    if b then [k] else []
  }

  /** The labels that fire, in their fixed order. */
  function KeyFeatures(f: map<string, real>): seq<KeyFeature>
  {
    InOrder(k => Fires(f, k))
  }

  /** The five conditions checked one after the other. */
  function InOrder(fires: KeyFeature -> bool): seq<KeyFeature>
  {
    When(fires(StrongTrend), StrongTrend)
    + (When(fires(VolatilityContracting), VolatilityContracting)
    + (When(fires(VolumeCooperating), VolumeCooperating)
    + (When(fires(MacdGoldenCross), MacdGoldenCross)
    + When(fires(BreakoutSignal), BreakoutSignal))))
  }

  /** The appending version. */
  method ExtractKeyFeatures(f: map<string, real>) returns (labels: seq<KeyFeature>)
    ensures labels == KeyFeatures(f)
  {
    ghost var w1 := When(Fires(f, StrongTrend), StrongTrend);
    ghost var w2 := When(Fires(f, VolatilityContracting), VolatilityContracting);
    ghost var w3 := When(Fires(f, VolumeCooperating), VolumeCooperating);
    ghost var w4 := When(Fires(f, MacdGoldenCross), MacdGoldenCross);
    ghost var w5 := When(Fires(f, BreakoutSignal), BreakoutSignal);
    labels := [];
    if Get(f, "MA10_slope", 0.0) > 0.01 {
      labels := labels + [StrongTrend];
    }
    assert labels == w1;
    if Get(f, "volatility_contraction", 1.0) < 0.8 {
      labels := labels + [VolatilityContracting];
    }
    assert labels == w1 + w2;
    if Get(f, "volume_up_down_ratio", 0.0) > 1.2 {
      labels := labels + [VolumeCooperating];
    }
    assert labels == (w1 + w2) + w3;
    if Get(f, "macd_cross", 0.0) == 1.0 {
      labels := labels + [MacdGoldenCross];
    }
    assert labels == ((w1 + w2) + w3) + w4;
    if Get(f, "breakout_signal", 0.0) == 1.0 {
      labels := labels + [BreakoutSignal];
    }
    assert labels == (((w1 + w2) + w3) + w4) + w5;
    Associative((w1 + w2) + w3, w4, w5);
    Associative(w1 + w2, w3, w4 + w5);
    Associative(w1, w2, w3 + (w4 + w5));
  }

  lemma Associative<T>(a: seq<T>, b: seq<T>, c: seq<T>)
    ensures (a + b) + c == a + (b + c)
  {
  }

  /** One step of the filter. */
  lemma FiringCons(fires: KeyFeature -> bool, k: KeyFeature, ks: seq<KeyFeature>)
    ensures Firing(fires, [k] + ks) == When(fires(k), k) + Firing(fires, ks)
  {
    assert ([k] + ks)[1..] == ks;
  }

  /** The five conditions in a row are the filter over all labels. */
  lemma InOrderIsFiring(fires: KeyFeature -> bool)
    ensures InOrder(fires) == Firing(fires, AllKeys())
  {
    var s4 := [BreakoutSignal];
    var s3 := [MacdGoldenCross] + s4;
    var s2 := [VolumeCooperating] + s3;
    var s1 := [VolatilityContracting] + s2;
    FiringCons(fires, BreakoutSignal, []);
    assert s4 == [BreakoutSignal] + [];
    assert Firing(fires, s4) == When(fires(BreakoutSignal), BreakoutSignal);
    FiringCons(fires, MacdGoldenCross, s4);
    FiringCons(fires, VolumeCooperating, s3);
    FiringCons(fires, VolatilityContracting, s2);
    FiringCons(fires, StrongTrend, s1);
    assert [StrongTrend] + s1 == AllKeys();
  }

  /** Every label is listed. */
  lemma AllKeysComplete(k: KeyFeature)
    ensures k in AllKeys()
  {
    var ks := AllKeys();
    match k
    case StrongTrend => assert ks[0] == k;
    case VolatilityContracting => assert ks[1] == k;
    case VolumeCooperating => assert ks[2] == k;
    case MacdGoldenCross => assert ks[3] == k;
    case BreakoutSignal => assert ks[4] == k;
  }

  /** A label is kept exactly when it is listed and fires; the kept labels
      keep the listed order. */
  lemma {:induction false} FiringFacts(fires: KeyFeature -> bool, ks: seq<KeyFeature>)
    requires forall i, j :: 0 <= i < j < |ks| ==> KeyRank(ks[i]) < KeyRank(ks[j])
    ensures forall k :: k in Firing(fires, ks) <==> k in ks && fires(k)
    ensures forall i, j :: 0 <= i < j < |Firing(fires, ks)| ==> KeyRank(Firing(fires, ks)[i]) < KeyRank(Firing(fires, ks)[j])
    ensures forall i :: 0 <= i < |Firing(fires, ks)| ==> KeyRank(ks[0]) <= KeyRank(Firing(fires, ks)[i])
    ensures |Firing(fires, ks)| <= |ks|
    decreases |ks|
  {
    if |ks| > 0 {
      var t := ks[1..];
      FiringFacts(fires, t);
      var r := Firing(fires, ks);
      var rest := Firing(fires, t);
      forall k ensures k in r <==> k in ks && fires(k) {
        assert k in ks <==> k == ks[0] || k in t by {
          assert ks == [ks[0]] + t;
        }
      }
      forall i | 0 <= i < |rest| ensures KeyRank(ks[0]) < KeyRank(rest[i]) {
        if |t| > 0 {
          assert KeyRank(ks[0]) < KeyRank(t[0]);
        }
      }
    }
  }

  /** A label is listed exactly when its condition holds, the labels are in
      their fixed order without repetition, and the list is empty exactly
      when no condition holds (the default text is then shown). */
  lemma KeyFeaturesFacts(f: map<string, real>)
    ensures forall k :: k in KeyFeatures(f) <==> Fires(f, k)
    ensures forall i, j :: 0 <= i < j < |KeyFeatures(f)| ==> KeyRank(KeyFeatures(f)[i]) < KeyRank(KeyFeatures(f)[j])
    ensures |KeyFeatures(f)| == 0 <==> forall k :: !Fires(f, k)
    ensures |KeyFeatures(f)| <= 5
  {
    InOrderIsFiring(k => Fires(f, k));
    FiringFacts(k => Fires(f, k), AllKeys());
    forall k ensures k in AllKeys() {
      AllKeysComplete(k);
    }
    if |KeyFeatures(f)| > 0 {
      assert KeyFeatures(f)[0] in KeyFeatures(f);
    }
  }

  // ---------------------------------------------------------------------
  // Ranking the watchlist (`rank_stocks`)

  datatype RankConfig = RankConfig(useProphet: bool, predictor: ProphetPredictor, topN: nat, minScore: real)

  /** A ranked row: the watchlist row with the score, the forecast return
      in percent, its direction and its confidence (0 and no direction
      without a forecast), and the key features. */
  datatype RankedRow = RankedRow(
    info: WeeklyScan.WatchRow,
    mlScore: int,
    forecastReturnPct: real,
    forecastTrend: Option<Direction>,
    confidence: real,
    keyFeatures: seq<KeyFeature>)

  function MonthRows(raw: seq<RawBar>): (r: seq<MonthRow>)
    ensures |r| == |raw|
  {
    seq(|raw|, k requires 0 <= k < |raw| => MonthRow(raw[k].date, raw[k].close))
  }

  /** One instrument of the loop: skipped without monthly data, with fewer
      than 24 months, or without a feature dictionary. A forecast, when
      enabled and available, adds its features to the dictionary. */
  function RankOne(info: WeeklyScan.WatchRow, monthly: Option<seq<RawBar>>, cfg: RankConfig,
                   sqrt: real -> real, fit: (seq<real>, nat) -> Result<ForecastFrame>): Option<RankedRow>
  {
    if monthly.None? || |monthly.value| < 24 then None
    else
      match ExtractFeatures(monthly.value, sqrt)
      case None => None
      case Some(features) =>
        var pred := if cfg.useProphet && cfg.predictor.enabled
          then PredictTrend(cfg.predictor, MonthRows(monthly.value), true, fit) else None;
        var all := if pred.Some? then features + FeaturesForMl(pred) else features;
        Some(RankedRow(
          info, Score(all, pred),
          if pred.Some? then pred.value.forecastReturn * 100.0 else 0.0,
          if pred.Some? then Some(pred.value.direction) else None,
          if pred.Some? then pred.value.confidence else 0.0,
          KeyFeatures(all)))
  }

  /** The rows the loop appends, in watchlist order. */
  function Ranked(watch: seq<(WeeklyScan.WatchRow, Option<seq<RawBar>>)>, cfg: RankConfig,
                  sqrt: real -> real, fit: (seq<real>, nat) -> Result<ForecastFrame>): seq<RankedRow>
    decreases |watch|
  {
    if |watch| == 0 then []
    else
      var w := watch[|watch| - 1];
      var r := RankOne(w.0, w.1, cfg, sqrt, fit);
      Ranked(watch[..|watch| - 1], cfg, sqrt, fit) + (if r.Some? then [r.value] else [])
  }

  method CollectRanked(watch: seq<(WeeklyScan.WatchRow, Option<seq<RawBar>>)>, cfg: RankConfig,
                       sqrt: real -> real, fit: (seq<real>, nat) -> Result<ForecastFrame>)
    returns (results: seq<RankedRow>)
    ensures results == Ranked(watch, cfg, sqrt, fit)
  {
    results := [];
    var i := 0;
    while i < |watch|
      invariant 0 <= i <= |watch|
      invariant results == Ranked(watch[..i], cfg, sqrt, fit)
    {
      assert watch[..i + 1][..i] == watch[..i];
      var r := RankOne(watch[i].0, watch[i].1, cfg, sqrt, fit);
      if r.Some? {
        results := results + [r.value];
      }
      i := i + 1;
    }
    assert watch[..|watch|] == watch;
  }

  predicate ByMlScore(a: RankedRow, b: RankedRow)
  {
    a.mlScore >= b.mlScore
  }

  /** The rows scoring at least `min_score`, in order. */
  function AtLeastScore(rows: seq<RankedRow>, minScore: real): (r: seq<RankedRow>)
    ensures forall i :: 0 <= i < |r| ==> r[i].mlScore as real >= minScore
    ensures multiset(r) <= multiset(rows)
    decreases |rows|
  {
    if |rows| == 0 then []
    else
      var last := rows[|rows| - 1];
      var prefix := rows[..|rows| - 1];
      assert rows == prefix + [last];
      AtLeastScore(prefix, minScore) + (if last.mlScore as real >= minScore then [last] else [])
  }

  /** Keeping the rows that pass a test keeps a sorted order. */
  lemma {:induction false} AtLeastScoreSorted(rows: seq<RankedRow>, minScore: real)
    requires SortedBy(rows, ByMlScore)
    ensures SortedBy(AtLeastScore(rows, minScore), ByMlScore)
    decreases |rows|
  {
    if |rows| > 0 {
      var last := rows[|rows| - 1];
      var prefix := rows[..|rows| - 1];
      assert SortedBy(prefix, ByMlScore);
      AtLeastScoreSorted(prefix, minScore);
      var kept := AtLeastScore(prefix, minScore);
      forall x: RankedRow | x in multiset(kept) ensures x.mlScore >= last.mlScore {
        assert x in multiset(prefix);
        var j :| 0 <= j < |prefix| && prefix[j] == x;
        assert rows[j] == x;
      }
      forall i, j | 0 <= i < j < |AtLeastScore(rows, minScore)|
        ensures ByMlScore(AtLeastScore(rows, minScore)[i], AtLeastScore(rows, minScore)[j])
      {
        var r := AtLeastScore(rows, minScore);
        if j >= |kept| {
          assert r[i] == kept[i];
          assert r[i] in multiset(kept);
        }
      }
    }
  }

  /** The final table: sorted by score, thresholded, truncated. */
  function RankStocks(results: seq<RankedRow>, cfg: RankConfig): seq<RankedRow>
  {
    if |results| == 0 then []
    else Head(AtLeastScore(SortBy(results, ByMlScore), cfg.minScore), cfg.topN)
  }

  /** The ranked rows all score at least `min_score`, come in descending
      score, number at most `top_n`, and are drawn from the results. */
  lemma RankStocksFacts(results: seq<RankedRow>, cfg: RankConfig)
    ensures var r := RankStocks(results, cfg);
      && |r| <= cfg.topN
      && (forall i :: 0 <= i < |r| ==> r[i].mlScore as real >= cfg.minScore)
      && (forall i, j :: 0 <= i < j < |r| ==> r[i].mlScore >= r[j].mlScore)
      && multiset(r) <= multiset(results)
  {
    if |results| > 0 {
      var sorted := SortBy(results, ByMlScore);
      ByMlScoreIsOrder();
      SortBySorted(results, ByMlScore);
      var kept := AtLeastScore(sorted, cfg.minScore);
      AtLeastScoreSorted(sorted, cfg.minScore);
      HeadOfSorted(kept, cfg.topN);
    }
  }

  lemma ByMlScoreIsOrder()
    ensures Total(ByMlScore) && Transitive(ByMlScore)
  {
  }

  /** The first rows of a sorted table are sorted and drawn from it. */
  lemma HeadOfSorted(kept: seq<RankedRow>, n: nat)
    requires SortedBy(kept, ByMlScore)
    ensures SortedBy(Head(kept, n), ByMlScore)
    ensures multiset(Head(kept, n)) <= multiset(kept)
  {
    var r := Head(kept, n);
    assert kept == r + kept[|r|..];
  }

  /** A skipped instrument had no monthly data, fewer than 24 months, or no
      feature dictionary; a ranked one scores within [0, 100]. */
  lemma RankOneFacts(info: WeeklyScan.WatchRow, monthly: Option<seq<RawBar>>, cfg: RankConfig,
                     sqrt: real -> real, fit: (seq<real>, nat) -> Result<ForecastFrame>)
    ensures RankOne(info, monthly, cfg, sqrt, fit).None? <==>
      monthly.None? || |monthly.value| < 24 || ExtractFeatures(monthly.value, sqrt).None?
    ensures RankOne(info, monthly, cfg, sqrt, fit).Some? ==>
      0 <= RankOne(info, monthly, cfg, sqrt, fit).value.mlScore <= 100
  {
    if RankOne(info, monthly, cfg, sqrt, fit).Some? {
      var features := ExtractFeatures(monthly.value, sqrt).value;
      var pred := if cfg.useProphet && cfg.predictor.enabled
        then PredictTrend(cfg.predictor, MonthRows(monthly.value), true, fit) else None;
      var all := if pred.Some? then features + FeaturesForMl(pred) else features;
      ScoreBounds(all, pred);
    }
  }
}
