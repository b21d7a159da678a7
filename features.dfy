/** The monthly feature extractor of the rule ranker: for every month of an
    instrument it derives trend, volatility, volume, momentum, level and
    calendar features from the monthly indicator frame. The index scans
    (trend strength, consolidation length, up/down volume ratio, volume
    cooperation) are loops; the other columns are vector expressions. */
module Features {
  import opened Stats
  import opened Market
  import opened Indicators

  /** A monthly row as read, after `pd.to_numeric(errors='coerce')`: a
      field that did not parse as a number is absent. */
  datatype RawBar = RawBar(date: string, open: Option<real>, high: Option<real>, low: Option<real>, close: Option<real>, volume: Option<real>)

  /** The core features of one month (`get_core_feature_names`), plus the
      RSI position, which the frame also carries. An absent real is NaN. */
  datatype FeatureRow = FeatureRow(
    ma10: Option<real>,
    ma10Slope: Option<real>,
    priceToMa10: Option<real>,
    return6m: Option<real>,
    return12m: Option<real>,
    maAlignment: nat,
    priceTo52wHigh: Option<real>,
    trendStrength: real,
    volatility6m: Option<real>,
    volatilityContraction: Option<real>,
    maxDrawdown24m: Option<real>,
    consolidationScore: nat,
    breakoutSignal: nat,
    volumeRatio: Option<real>,
    volumeUpDownRatio: real,
    obvTrend: Option<real>,
    volumeSurge: nat,
    volumeCooperation: nat,
    macd: real,
    macdHist: real,
    macdCross: nat,
    momentum6m: Option<real>,
    momentumAcceleration: Option<real>,
    rsiPosition: int,
    supportLevel: Option<real>,
    resistanceLevel: Option<real>,
    distanceToResistance: Option<real>,
    quarter: nat,
    isEarningsSeason: nat)

  /** What `create_investment_features` returns: an empty frame when no
      close is numeric, else the bars and one feature row per month. */
  datatype FeatureTable = Empty | Table(bars: seq<Bar>, rows: seq<FeatureRow>)

  /** `a / b` for a present `b`; NaN otherwise. */
  function Ratio(a: real, b: Option<real>): Option<real>
  {
    if b.Some? then Div(a, b.value) else None
  }

  // ---------------------------------------------------------------------
  // Conversion

  predicate Numeric(r: RawBar)
  {
    r.open.Some? && r.high.Some? && r.low.Some? && r.close.Some? && r.volume.Some?
  }

  predicate NoNumericClose(raw: seq<RawBar>)
  {
    forall k :: 0 <= k < |raw| ==> raw[k].close.None?
  }

  function ToBar(r: RawBar): Bar
    requires Numeric(r)
  {
    Bar(r.date, r.open.value, r.high.value, r.low.value, r.close.value, r.volume.value)
  }

  function ToBars(raw: seq<RawBar>): (r: Option<seq<Bar>>)
    ensures r.Some? <==> forall k :: 0 <= k < |raw| ==> Numeric(raw[k])
    ensures r.Some? ==> |r.value| == |raw| && forall k :: 0 <= k < |raw| ==> r.value[k] == ToBar(raw[k])
  {
    if forall k :: 0 <= k < |raw| ==> Numeric(raw[k]) then
      Some(seq(|raw|, k requires 0 <= k < |raw| => ToBar(raw[k])))
    else None
  }

  function Digit(c: char): Option<nat>
  {
    if '0' <= c <= '9' then Some((c as int - '0' as int) as nat) else None
  }

  /** The month of a "%Y-%m-%d" date (`pd.to_datetime(...).dt.month`). */
  function MonthOf(date: string): (m: Option<nat>)
    ensures m.Some? ==> 1 <= m.value <= 12
  {
    if |date| >= 7 && date[4] == '-' && Digit(date[5]).Some? && Digit(date[6]).Some? then
      var m := 10 * Digit(date[5]).value + Digit(date[6]).value;
      if 1 <= m <= 12 then Some(m) else None
    else None
  }

  function Months(bars: seq<Bar>): (r: Option<seq<nat>>)
    ensures r.Some? <==> forall k :: 0 <= k < |bars| ==> MonthOf(bars[k].date).Some?
    ensures r.Some? ==> |r.value| == |bars| && forall k :: 0 <= k < |bars| ==> r.value[k] == MonthOf(bars[k].date).value
  {
    if forall k :: 0 <= k < |bars| ==> MonthOf(bars[k].date).Some? then
      Some(seq(|bars|, k requires 0 <= k < |bars| => MonthOf(bars[k].date).value))
    else None
  }

  // ---------------------------------------------------------------------
  // Trend strength (`_calculate_simple_trend_strength`)

  /** The absolute least-squares slope of the last six closes, relative to
      the current close; 0 before six closes exist or on a zero close. */
  function TrendStrengthAt(closes: seq<real>, i: nat): real
    requires i < |closes|
  {
    if i < 5 then 0.0
    else
      var slope := Slope(Window(closes, i, 6));
      if closes[i] != 0.0 then Abs(slope / closes[i]) else 0.0
  }

  /** The index loop that appends one strength per month. */
  method TrendStrengthColumn(closes: seq<real>) returns (slopes: seq<real>)
    ensures |slopes| == |closes|
    ensures forall i :: 0 <= i < |closes| ==> slopes[i] == TrendStrengthAt(closes, i)
  {
    slopes := [];
    var i := 0;
    while i < |closes|
      invariant 0 <= i <= |closes| && |slopes| == i
      invariant forall k :: 0 <= k < i ==> slopes[k] == TrendStrengthAt(closes, k)
    {
      var s: real;
      if i < 5 {
        s := 0.0;
      } else {
        var slope := Slope(closes[i - 5..i + 1]);
        s := if closes[i] != 0.0 then Abs(slope / closes[i]) else 0.0;
      }
      slopes := slopes + [s];
      i := i + 1;
    }
  }

  /** The strength is never negative and is 0 on the first five months. */
  lemma TrendStrengthFacts(closes: seq<real>, i: nat)
    requires i < |closes|
    ensures TrendStrengthAt(closes, i) >= 0.0
    ensures i < 5 ==> TrendStrengthAt(closes, i) == 0.0
  {
  }

  /** On a straight-line window `a + b*k` of the last six closes the
      strength is `|b| / close`, so a flat window has strength 0. */
  lemma TrendStrengthOfLine(closes: seq<real>, i: nat, a: real, b: real)
    requires 5 <= i < |closes|
    requires forall k :: 0 <= k < 6 ==> Window(closes, i, 6)[k] == a + b * (k as real)
    ensures TrendStrengthAt(closes, i) == if closes[i] != 0.0 then Abs(b / closes[i]) else 0.0
    ensures b == 0.0 ==> TrendStrengthAt(closes, i) == 0.0
  {
    SlopeOfLine(Window(closes, i, 6), a, b);
  }

  // ---------------------------------------------------------------------
  // Consolidation length (`_detect_consolidation`)

  /** The longest lookback `L` in 4..`top` whose last `L` closes have a
      coefficient of variation below 0.15; 0 when there is none. */
  function LongestCalm(closes: seq<real>, i: nat, top: nat): (r: nat)
    requires i < |closes| && top <= i + 1
    ensures r == 0 || 4 <= r <= top
    decreases top
  {
    if top < 4 then 0
    else if CvBelow(Window(closes, i, top), 0.15) then top
    else LongestCalm(closes, i, top - 1)
  }

  function ConsolidationAt(closes: seq<real>, i: nat): nat
    requires i < |closes|
  {
    if i < 8 then 0 else LongestCalm(closes, i, 8)
  }

  /** The inner loop over lookbacks 4..8 keeping the running maximum. */
  method ConsolidationScore(closes: seq<real>, i: nat) returns (score: nat)
    requires i < |closes|
    ensures score == ConsolidationAt(closes, i)
  {
    if i < 8 {
      return 0;
    }
    score := 0;
    var lookback := 4;
    while lookback < 9
      invariant 4 <= lookback <= 9
      invariant score == LongestCalm(closes, i, lookback - 1)
    {
      var period := closes[i - lookback + 1..i + 1];
      assert period == Window(closes, i, lookback);
      if CvBelow(period, 0.15) {
        if lookback > score {
          score := lookback;
        }
      }
      lookback := lookback + 1;
    }
  }

  method ConsolidationColumn(closes: seq<real>) returns (scores: seq<nat>)
    ensures |scores| == |closes|
    ensures forall i :: 0 <= i < |closes| ==> scores[i] == ConsolidationAt(closes, i)
  {
    scores := [];
    var i := 0;
    while i < |closes|
      invariant 0 <= i <= |closes| && |scores| == i
      invariant forall k :: 0 <= k < i ==> scores[k] == ConsolidationAt(closes, k)
    {
      var s := ConsolidationScore(closes, i);
      scores := scores + [s];
      i := i + 1;
    }
  }

  /** The score is 0 or a lookback in 4..8; a positive score is a calm
      lookback and no longer lookback up to `top` is calm; a zero score
      means no lookback in 4..`top` is calm. */
  lemma {:induction false} LongestCalmIsLongest(closes: seq<real>, i: nat, top: nat)
    requires i < |closes| && top <= i + 1
    ensures LongestCalm(closes, i, top) > 0 ==> CvBelow(Window(closes, i, LongestCalm(closes, i, top)), 0.15)
    ensures forall l :: LongestCalm(closes, i, top) < l <= top && 4 <= l ==> !CvBelow(Window(closes, i, l), 0.15)
    decreases top
  {
    if top >= 4 && !CvBelow(Window(closes, i, top), 0.15) {
      LongestCalmIsLongest(closes, i, top - 1);
    }
  }

  /** The consolidation score lies in {0, 4, 5, 6, 7, 8}, is 0 before the
      ninth month, and is the longest calm lookback. */
  lemma ConsolidationFacts(closes: seq<real>, i: nat)
    requires i < |closes|
    ensures var s := ConsolidationAt(closes, i);
      && (s == 0 || 4 <= s <= 8)
      && (i < 8 ==> s == 0)
      && (i >= 8 && s > 0 ==> CvBelow(Window(closes, i, s), 0.15))
      && (i >= 8 ==> forall l :: s < l <= 8 && 4 <= l ==> !CvBelow(Window(closes, i, l), 0.15))
  {
    if i >= 8 {
      LongestCalmIsLongest(closes, i, 8);
    }
  }

  // ---------------------------------------------------------------------
  // Rising and falling months in a window

  /** The values at the rows of `closes` (after the first) whose close
      rose (`rising`) or fell against the previous row; a flat close is
      neither. */
  function Moved<T>(closes: seq<real>, vals: seq<T>, rising: bool): (r: seq<T>)
    requires |closes| == |vals|
    ensures |r| <= if |closes| == 0 then 0 else |closes| - 1
    decreases |closes|
  {
    if |closes| < 2 then []
    else
      var k := |closes| - 1;
      Moved(closes[..k], vals[..k], rising) + (if MovedAt(closes, rising, k) then [vals[k]] else [])
  }

  /** Row `k` moved the right way against the previous row. */
  predicate MovedAt(closes: seq<real>, rising: bool, k: nat)
    requires 1 <= k < |closes|
  {
    if rising then closes[k] > closes[k - 1] else closes[k] < closes[k - 1]
  }

  /** `x` is the value of a row that moved the right way. */
  predicate PickedFrom<T(==)>(closes: seq<real>, vals: seq<T>, rising: bool, x: T)
    requires |closes| == |vals|
  {
    exists k :: 1 <= k < |closes| && MovedAt(closes, rising, k) && vals[k] == x
  }

  /** Every picked value is the value of a row that moved the right way. */
  lemma {:induction false} MovedPicks<T>(closes: seq<real>, vals: seq<T>, rising: bool)
    requires |closes| == |vals|
    ensures forall j :: 0 <= j < |Moved(closes, vals, rising)| ==> PickedFrom(closes, vals, rising, Moved(closes, vals, rising)[j])
    decreases |closes|
  {
    if |closes| >= 2 {
      var k := |closes| - 1;
      MovedPicks(closes[..k], vals[..k], rising);
      var prefix := Moved(closes[..k], vals[..k], rising);
      var r := Moved(closes, vals, rising);
      forall j | 0 <= j < |r|
        ensures PickedFrom(closes, vals, rising, r[j])
      {
        if j < |prefix| {
          assert PickedFrom(closes[..k], vals[..k], rising, prefix[j]);
          var m :| 1 <= m < k && MovedAt(closes[..k], rising, m) && vals[..k][m] == prefix[j];
          assert MovedAt(closes, rising, m);
          assert r[j] == prefix[j];
        } else {
          assert MovedAt(closes, rising, k);
          assert r[j] == vals[k];
        }
      }
    }
  }

  /** A window with no rise (no fall) picks nothing. */
  lemma {:induction false} MovedNone<T>(closes: seq<real>, vals: seq<T>, rising: bool)
    requires |closes| == |vals|
    requires forall k :: 1 <= k < |closes| ==> !MovedAt(closes, rising, k)
    ensures Moved(closes, vals, rising) == []
    decreases |closes|
  {
    if |closes| >= 2 {
      var k := |closes| - 1;
      forall m | 1 <= m < k ensures !MovedAt(closes[..k], rising, m) {
        assert MovedAt(closes[..k], rising, m) == MovedAt(closes, rising, m);
      }
      MovedNone(closes[..k], vals[..k], rising);
    }
  }

  /** Every picked value of a non-negative sequence is non-negative. */
  lemma MovedNonnegative(closes: seq<real>, vals: seq<real>, rising: bool)
    requires |closes| == |vals|
    requires forall k :: 0 <= k < |vals| ==> vals[k] >= 0.0
    ensures forall j :: 0 <= j < |Moved(closes, vals, rising)| ==> Moved(closes, vals, rising)[j] >= 0.0
  {
    MovedPicks(closes, vals, rising);
  }

  // ---------------------------------------------------------------------
  // Up/down volume ratio (`_calculate_volume_up_down_ratio`)

  /** The mean volume of one side, 1 when the side is empty. */
  function SideMean(vols: seq<real>): real
  {
    if |vols| > 0 then Mean(vols) else 1.0
  }

  /** The mean volume of rising months over that of falling months in the
      last six months; 1 before the seventh month and when the falling
      side's mean is not positive. */
  function UpDownRatioAt(bars: seq<Bar>, i: nat): real
    requires i < |bars|
  {
    if i < 6 then 1.0
    else
      var recent := Window(bars, i, 6);
      var up := SideMean(Moved(Closes(recent), Volumes(recent), true));
      var down := SideMean(Moved(Closes(recent), Volumes(recent), false));
      if down > 0.0 then up / down else 1.0
  }

  method VolumeUpDownColumn(bars: seq<Bar>) returns (ratios: seq<real>)
    ensures |ratios| == |bars|
    ensures forall i :: 0 <= i < |bars| ==> ratios[i] == UpDownRatioAt(bars, i)
  {
    ratios := [];
    var i := 0;
    while i < |bars|
      invariant 0 <= i <= |bars| && |ratios| == i
      invariant forall k :: 0 <= k < i ==> ratios[k] == UpDownRatioAt(bars, k)
    {
      var r := 1.0;
      if i >= 6 {
        var recent := bars[i - 5..i + 1];
        assert recent == Window(bars, i, 6);
        var up := SideMean(Moved(Closes(recent), Volumes(recent), true));
        var down := SideMean(Moved(Closes(recent), Volumes(recent), false));
        r := if down > 0.0 then up / down else 1.0;
      }
      ratios := ratios + [r];
      i := i + 1;
    }
  }

  /** The ratio is 1 before the seventh month; after it, when the falling
      side's mean is positive, the ratio exceeds 1 exactly when rising
      months carry more volume on average, and times that mean it gives
      the rising side's mean. */
  lemma UpDownRatioFacts(bars: seq<Bar>, i: nat)
    requires i < |bars|
    ensures i < 6 ==> UpDownRatioAt(bars, i) == 1.0
    ensures i >= 6 ==>
      var recent := Window(bars, i, 6);
      var up := SideMean(Moved(Closes(recent), Volumes(recent), true));
      var down := SideMean(Moved(Closes(recent), Volumes(recent), false));
      down > 0.0 ==> (UpDownRatioAt(bars, i) > 1.0 <==> up > down) && UpDownRatioAt(bars, i) * down == up
  {
    if i >= 6 {
      var recent := Window(bars, i, 6);
      var up := SideMean(Moved(Closes(recent), Volumes(recent), true));
      var down := SideMean(Moved(Closes(recent), Volumes(recent), false));
      QuotientFacts(up, down);
    }
  }

  /** A window of flat closes has ratio 1. */
  lemma UpDownRatioFlat(bars: seq<Bar>, i: nat)
    requires 6 <= i < |bars|
    requires forall k :: i - 5 <= k <= i ==> bars[k].close == bars[i].close
    ensures UpDownRatioAt(bars, i) == 1.0
  {
    var recent := Window(bars, i, 6);
    var c := Closes(recent);
    var v := Volumes(recent);
    forall k | 0 <= k < |c| ensures c[k] == c[0] {
      assert c[k] == bars[i - 5 + k].close;
      assert c[0] == bars[i - 5].close;
    }
    FlatMovesNowhere(c, v);
  }

  /** Non-negative volumes give a non-negative ratio. */
  lemma UpDownRatioNonnegative(bars: seq<Bar>, i: nat)
    requires i < |bars|
    requires forall k :: 0 <= k < |bars| ==> bars[k].volume >= 0.0
    ensures UpDownRatioAt(bars, i) >= 0.0
  {
    if i >= 6 {
      var recent := Window(bars, i, 6);
      var c := Closes(recent);
      var v := Volumes(recent);
      forall k | 0 <= k < |v| ensures v[k] >= 0.0 {
        assert v[k] == bars[i - 5 + k].volume;
      }
      SideMeanNonnegative(c, v);
      QuotientFacts(SideMean(Moved(c, v, true)), SideMean(Moved(c, v, false)));
    }
  }

  /** Flat closes pick nothing on either side. */
  lemma FlatMovesNowhere(c: seq<real>, v: seq<real>)
    requires |c| == |v| && |c| > 0
    requires forall k :: 0 <= k < |c| ==> c[k] == c[0]
    ensures Moved(c, v, true) == [] && Moved(c, v, false) == []
  {
    MovedNone(c, v, true);
    MovedNone(c, v, false);
  }

  /** Non-negative volumes give a non-negative rising-side mean. */
  lemma SideMeanNonnegative(c: seq<real>, v: seq<real>)
    requires |c| == |v|
    requires forall k :: 0 <= k < |v| ==> v[k] >= 0.0
    ensures SideMean(Moved(c, v, true)) >= 0.0
  {
    var upVols := Moved(c, v, true);
    MovedNonnegative(c, v, true);
    if |upVols| > 0 {
      MeanNonnegative(upVols);
    }
  }

  /** The quotient by a positive divisor: its product with the divisor is
      the dividend, and a non-negative dividend gives a non-negative one. */
  lemma QuotientFacts(up: real, down: real)
    ensures down > 0.0 ==> (up / down) * down == up
    ensures down > 0.0 ==> (up / down > 1.0 <==> up > down)
    ensures down > 0.0 && up >= 0.0 ==> up / down >= 0.0
  {
    if down > 0.0 {
      var q := up / down;
      assert q * down == up;
      if q > 1.0 {
        MulStrict(1.0, q, down);
      } else {
        MulMono(q, 1.0, down);
      }
      if up >= 0.0 && q < 0.0 {
        MulStrict(q, 0.0, down);
      }
    }
  }

  // ---------------------------------------------------------------------
  // Volume cooperation (`_check_volume_cooperation`)

  /** 1 when, over the last six months, the mean volume ratio of rising
      months exceeds that of falling months, both being defined. */
  function CooperationAt(f: Frame, i: nat): (r: nat)
    requires WellFormed(f) && i < |f.bars|
    ensures r <= 1
  {
    if i < 6 then 0
    else CooperationOf(Closes(Window(f.bars, i, 6)), Window(f.volumeRatio, i, 6))
  }

  /** 1 when the mean known volume ratio of rising rows exceeds that of
      falling rows. */
  function CooperationOf(closes: seq<real>, ratios: seq<Option<real>>): (r: nat)
    requires |closes| == |ratios|
    ensures r <= 1
  {
    var up := MeanSkipNa(Moved(closes, ratios, true));
    var down := MeanSkipNa(Moved(closes, ratios, false));
    if up.Some? && down.Some? && up.value > down.value then 1 else 0
  }

  method VolumeCooperationColumn(f: Frame) returns (cooperation: seq<nat>)
    requires WellFormed(f)
    ensures |cooperation| == |f.bars|
    ensures forall i :: 0 <= i < |f.bars| ==> cooperation[i] == CooperationAt(f, i)
  {
    cooperation := [];
    var i := 0;
    while i < |f.bars|
      invariant 0 <= i <= |f.bars| && |cooperation| == i
      invariant forall k :: 0 <= k < i ==> cooperation[k] == CooperationAt(f, k)
    {
      var good := 0;
      if i >= 6 {
        var closes := Closes(f.bars[i - 5..i + 1]);
        var ratios := f.volumeRatio[i - 5..i + 1];
        assert f.bars[i - 5..i + 1] == Window(f.bars, i, 6);
        assert ratios == Window(f.volumeRatio, i, 6);
        var up := MeanSkipNa(Moved(closes, ratios, true));
        var down := MeanSkipNa(Moved(closes, ratios, false));
        if up.Some? && down.Some? && up.value > down.value {
          good := 1;
        }
      }
      cooperation := cooperation + [good];
      i := i + 1;
    }
  }

  /** Cooperation needs a rising and a falling month with a known volume
      ratio among the last six, so it is 0 on the first six months and on
      a window of flat closes. */
  lemma CooperationFacts(f: Frame, i: nat)
    requires WellFormed(f) && i < |f.bars|
    ensures i < 6 ==> CooperationAt(f, i) == 0
    ensures i >= 6 && (forall k :: i - 5 <= k <= i ==> f.bars[k].close == f.bars[i].close) ==> CooperationAt(f, i) == 0
    ensures CooperationAt(f, i) == 1 ==>
      exists k :: i - 5 <= k <= i && k >= 1 && f.bars[k].close > f.bars[k - 1].close && f.volumeRatio[k].Some?
  {
    if i >= 6 {
      var closes := Closes(Window(f.bars, i, 6));
      var ratios := Window(f.volumeRatio, i, 6);
      CooperationOfFacts(closes, ratios);
      if forall k :: i - 5 <= k <= i ==> f.bars[k].close == f.bars[i].close {
        forall k | 0 <= k < |closes| ensures closes[k] == closes[0] {
          assert closes[k] == f.bars[i - 5 + k].close;
          assert closes[0] == f.bars[i - 5].close;
        }
      }
      if CooperationAt(f, i) == 1 {
        var m :| 1 <= m < |closes| && closes[m] > closes[m - 1] && ratios[m].Some?;
        assert f.bars[i - 5 + m].close > f.bars[i - 5 + m - 1].close;
        assert f.volumeRatio[i - 5 + m] == ratios[m];
      }
    }
  }

  /** Flat closes cooperate nowhere; cooperation needs a rising row with a
      known ratio. */
  lemma CooperationOfFacts(closes: seq<real>, ratios: seq<Option<real>>)
    requires |closes| == |ratios| && |closes| > 0
    ensures (forall k :: 0 <= k < |closes| ==> closes[k] == closes[0]) ==> CooperationOf(closes, ratios) == 0
    ensures CooperationOf(closes, ratios) == 1 ==>
      exists m :: 1 <= m < |closes| && closes[m] > closes[m - 1] && ratios[m].Some?
  {
    var ups := Moved(closes, ratios, true);
    if forall k :: 0 <= k < |closes| ==> closes[k] == closes[0] {
      MovedNone(closes, ratios, true);
    }
    if CooperationOf(closes, ratios) == 1 {
      MovedPicks(closes, ratios, true);
      var j :| 0 <= j < |ups| && ups[j].Some?;
      assert PickedFrom(closes, ratios, true, ups[j]);
      var m :| 1 <= m < |closes| && MovedAt(closes, true, m) && ratios[m] == ups[j];
      assert closes[m] > closes[m - 1];
    }
  }

  // ---------------------------------------------------------------------
  // Breakout flag (`_detect_breakout`)

  /** 1 when the close beats the highest high of the 20 months before it
      on a volume ratio above 1.3; all 0 on a series under 20 months. */
  function BreakoutAt(f: Frame, i: nat): (r: nat)
    requires WellFormed(f) && i < |f.bars|
    ensures r <= 1
  {
    if |f.bars| < 20 || i < 1 then 0
    else
      var high20 := RollingMaxAt(Highs(f.bars), i - 1, 20);
      if high20.Some? && f.bars[i].close > high20.value && Gt(f.volumeRatio[i], 1.3) then 1 else 0
  }

  /** A breakout month has at least 20 months before it, its close is above
      every one of their highs, and its volume ratio exceeds 1.3; and
      conversely. */
  lemma BreakoutFacts(f: Frame, i: nat)
    requires WellFormed(f) && i < |f.bars|
    ensures BreakoutAt(f, i) == 1 <==>
      && i >= 20
      && (forall k :: i - 20 <= k < i ==> f.bars[k].high < f.bars[i].close)
      && Gt(f.volumeRatio[i], 1.3)
  {
    if i >= 20 {
      var w := Window(Highs(f.bars), i - 1, 20);
      var m := MaxOf(w);
      if forall k :: i - 20 <= k < i ==> f.bars[k].high < f.bars[i].close {
        var j :| 0 <= j < 20 && w[j] == m;
        assert f.bars[i - 20 + j].high == m;
      }
      if f.bars[i].close > m {
        forall k | i - 20 <= k < i ensures f.bars[k].high < f.bars[i].close {
          assert w[k - (i - 20)] == f.bars[k].high;
        }
      }
    }
  }

  // ---------------------------------------------------------------------
  // On-balance volume

  /** The volume signed by the month's direction: positive on a rise,
      negative on a flat or falling month and on the first month. */
  function SignedVolume(bars: seq<Bar>, k: nat): real
    requires k < |bars|
  {
    if k >= 1 && bars[k].close > bars[k - 1].close then bars[k].volume else -bars[k].volume
  }

  /** `obv`: the running sum of the signed volumes. */
  function Obv(bars: seq<Bar>, i: nat): real
    requires i < |bars|
  {
    if i == 0 then SignedVolume(bars, 0) else Obv(bars, i - 1) + SignedVolume(bars, i)
  }

  function ObvTrendAt(bars: seq<Bar>, i: nat): Option<real>
    requires i < |bars|
  {
    if i < 3 then None else Some(Obv(bars, i) - Obv(bars, i - 3))
  }

  /** The three-month OBV change is the sum of the last three signed
      volumes; on a month series of non-negative volumes it is at most
      their volume and at least minus it. */
  lemma ObvTrendFacts(bars: seq<Bar>, i: nat)
    requires i < |bars|
    ensures ObvTrendAt(bars, i).None? <==> i < 3
    ensures i >= 3 ==> ObvTrendAt(bars, i).value == SignedVolume(bars, i) + SignedVolume(bars, i - 1) + SignedVolume(bars, i - 2)
    ensures i >= 3 && (forall k :: 0 <= k < |bars| ==> bars[k].volume >= 0.0) ==>
      var t := bars[i].volume + bars[i - 1].volume + bars[i - 2].volume;
      -t <= ObvTrendAt(bars, i).value <= t
  {
    if i >= 3 {
      assert Obv(bars, i) == Obv(bars, i - 1) + SignedVolume(bars, i);
      assert Obv(bars, i - 1) == Obv(bars, i - 2) + SignedVolume(bars, i - 1);
      assert Obv(bars, i - 2) == Obv(bars, i - 3) + SignedVolume(bars, i - 2);
    }
  }

  // ---------------------------------------------------------------------
  // Small categorical features

  /** `ma_alignment`: one point for MA5 above MA10, one for MA10 above
      MA20; two points exactly when the MA5 > MA10 > MA20 alignment of the
      indicator library holds on that month. */
  function MaAlignmentAt(f: Frame, i: nat): (r: nat)
    requires WellFormed(f) && i < |f.bars| && 5 in f.ma && 10 in f.ma && 20 in f.ma
    ensures r <= 2
    ensures r == 2 <==> AlignedAt([f.ma[5], f.ma[10], f.ma[20]], |f.bars|, i, true)
    ensures r == 0 <==> !Ordered(f.ma[5][i], f.ma[10][i], true) && !Ordered(f.ma[10][i], f.ma[20][i], true)
  {
    var cols := [f.ma[5], f.ma[10], f.ma[20]];
    assert ChainHolds(cols, |f.bars|, i, 2, true) <==> Ordered(cols[0][i], cols[1][i], true) && Ordered(cols[1][i], cols[2][i], true);
    (if Ordered(f.ma[5][i], f.ma[10][i], true) then 1 else 0) + (if Ordered(f.ma[10][i], f.ma[20][i], true) then 1 else 0)
  }

  /** `rsi_position`: -1 below 30, 1 above 70, 0 otherwise and on NaN. */
  function RsiPosition(rsi: Option<real>): (r: int)
    ensures -1 <= r <= 1
    ensures r == -1 <==> Lt(rsi, 30.0)
    ensures r == 1 <==> Gt(rsi, 70.0)
  {
    if Lt(rsi, 30.0) then -1 else if Gt(rsi, 70.0) then 1 else 0
  }

  /** `dt.quarter` of a month. */
  function Quarter(month: nat): (q: nat)
    requires 1 <= month <= 12
    ensures 1 <= q <= 4
    ensures 3 * (q - 1) + 1 <= month <= 3 * q
  {
    (month - 1) / 3 + 1
  }

  /** `is_earnings_season`: April, August and October. */
  function EarningsSeason(month: nat): (r: nat)
    ensures r <= 1
    ensures r == 1 <==> month == 4 || month == 8 || month == 10
  {
    if month in {4, 8, 10} then 1 else 0
  }

  /** `macd_cross`: MACD below its signal on the previous month and above it
      on this one. */
  function MacdCrossAt(f: Frame, i: nat): (r: nat)
    requires WellFormed(f) && i < |f.bars|
    ensures r <= 1
    ensures r == 1 <==> i >= 1 && f.macd.line[i - 1] < f.macd.signal[i - 1] && f.macd.line[i] > f.macd.signal[i]
  {
    if i >= 1 && f.macd.line[i - 1] < f.macd.signal[i - 1] && f.macd.line[i] > f.macd.signal[i] then 1 else 0
  }

  // ---------------------------------------------------------------------
  // Returns, momentum, volatility, levels

  /** `pct_change(k)`: the change over `k` months relative to the close `k`
      months back. */
  function PctChange(closes: seq<real>, i: nat, k: nat): Option<real>
    requires i < |closes|
  {
    if i < k then None else Div(closes[i] - closes[i - k], closes[i - k])
  }

  /** `close - close.shift(k)`. */
  function Momentum(closes: seq<real>, i: nat, k: nat): Option<real>
    requires i < |closes|
  {
    if i < k then None else Some(closes[i] - closes[i - k])
  }

  /** `momentum_3m.diff(3)`. */
  function MomentumAcceleration(closes: seq<real>, i: nat): Option<real>
    requires i < |closes|
  {
    if i < 6 then None else Some(Momentum(closes, i, 3).value - Momentum(closes, i - 3, 3).value)
  }

  /** The six-month return is the six-month momentum relative to the close
      six months back; the acceleration is the second difference of the
      closes three months apart. */
  lemma ReturnMomentumFacts(closes: seq<real>, i: nat)
    requires i < |closes|
    ensures PctChange(closes, i, 6).Some? <==> i >= 6 && closes[i - 6] != 0.0
    ensures PctChange(closes, i, 6).Some? ==> PctChange(closes, i, 6).value * closes[i - 6] == Momentum(closes, i, 6).value
    ensures PctChange(closes, i, 6).Some? && closes[i - 6] > 0.0 ==>
      (PctChange(closes, i, 6).value > 0.0 <==> closes[i] > closes[i - 6])
    ensures MomentumAcceleration(closes, i).Some? <==> i >= 6
    ensures i >= 6 ==> MomentumAcceleration(closes, i).value == closes[i] - 2.0 * closes[i - 3] + closes[i - 6]
  {
    if PctChange(closes, i, 6).Some? && closes[i - 6] > 0.0 {
      var r := PctChange(closes, i, 6).value;
      if r > 0.0 {
        MulStrict(0.0, r, closes[i - 6]);
      } else {
        MulMono(r, 0.0, closes[i - 6]);
      }
    }
  }

  /** `close.rolling(k).std() / close.rolling(k).mean()` with the caller's
      square root. */
  function Volatility(closes: seq<real>, i: nat, k: nat, sqrt: real -> real): Option<real>
    requires i < |closes| && k >= 2
  {
    if i + 1 < k then None
    else
      var w := Window(closes, i, k);
      Div(sqrt(Variance(w)), Mean(w))
  }

  /** `rolling(3).std() / rolling(6).std()`. */
  function VolatilityContraction(closes: seq<real>, i: nat, sqrt: real -> real): Option<real>
    requires i < |closes|
  {
    if i < 5 then None else Div(sqrt(Variance(Window(closes, i, 3))), sqrt(Variance(Window(closes, i, 6))))
  }

  /** With a true square root, the six-month volatility is below `t`
      exactly when the coefficient-of-variation test passes. */
  lemma VolatilityIsCv(closes: seq<real>, i: nat, sqrt: real -> real, t: real)
    requires i < |closes| && i >= 5
    requires IsSquareRoot(sqrt)
    requires Mean(Window(closes, i, 6)) != 0.0
    ensures Volatility(closes, i, 6, sqrt).Some?
    ensures Volatility(closes, i, 6, sqrt).value < t <==> CvBelow(Window(closes, i, 6), t)
  {
    var w := Window(closes, i, 6);
    var sd := sqrt(Variance(w));
    assert sd >= 0.0 && sd * sd == Variance(w);
    CvBelowIsRatioTest(w, t, sd);
  }

  function RollingMinAt(s: seq<real>, i: nat, w: nat): Option<real>
    requires i < |s| && w >= 1
  {
    if i + 1 < w then None else Some(MinOf(Window(s, i, w)))
  }

  /** `(rolling_max - close) / rolling_max` over 24 months. */
  function MaxDrawdownAt(closes: seq<real>, i: nat): Option<real>
    requires i < |closes|
  {
    match RollingMaxAt(closes, i, 24)
    case None => None
    case Some(m) => Div(m - closes[i], m)
  }

  /** `close / close.rolling(12).max()`. */
  function PriceToHighAt(closes: seq<real>, i: nat): Option<real>
    requires i < |closes|
  {
    Ratio(closes[i], RollingMaxAt(closes, i, 12))
  }

  /** On positive closes the 24-month drawdown is in [0, 1). */
  lemma DrawdownFacts(closes: seq<real>, i: nat)
    requires i < |closes|
    requires forall k :: 0 <= k < |closes| ==> closes[k] > 0.0
    ensures MaxDrawdownAt(closes, i).Some? <==> i >= 23
    ensures MaxDrawdownAt(closes, i).Some? ==> 0.0 <= MaxDrawdownAt(closes, i).value < 1.0
  {
    if i >= 23 {
      var w := Window(closes, i, 24);
      var m := MaxOf(w);
      assert w[23] == closes[i];
      assert w[0] > 0.0;
      RatioBounds(m - closes[i], m);
    }
  }

  /** On positive closes the price relative to the 12-month high is in (0, 1]. */
  lemma PriceToHighFacts(closes: seq<real>, i: nat)
    requires i < |closes|
    requires forall k :: 0 <= k < |closes| ==> closes[k] > 0.0
    ensures PriceToHighAt(closes, i).Some? <==> i >= 11
    ensures PriceToHighAt(closes, i).Some? ==> 0.0 < PriceToHighAt(closes, i).value <= 1.0
  {
    if i >= 11 {
      var w := Window(closes, i, 12);
      var m := MaxOf(w);
      assert w[11] == closes[i];
      RatioBounds(closes[i], m);
    }
  }

  /** `x / m` for `0 <= x <= m`, `m > 0`, lies in [0, 1], and below 1 when
      `x < m`, above 0 when `x > 0`. */
  lemma RatioBounds(x: real, m: real)
    requires m > 0.0 && 0.0 <= x <= m
    ensures 0.0 <= x / m <= 1.0
    ensures x < m ==> x / m < 1.0
    ensures x > 0.0 ==> x / m > 0.0
  {
    var q := x / m;
    assert q * m == x;
    DivBounds(x, m, 0.0, 1.0);
    if x < m && q >= 1.0 {
      MulMono(1.0, q, m);
    }
    if x > 0.0 && q <= 0.0 {
      MulMono(q, 0.0, m);
    }
  }

  // ---------------------------------------------------------------------
  // The feature table

  /** One month's features. */
  function FeatureRowAt(f: Frame, months: seq<nat>, sqrt: real -> real, i: nat): FeatureRow
    requires WellFormed(f) && i < |f.bars| && |months| == |f.bars|
    requires 5 in f.ma && 10 in f.ma && 20 in f.ma
    requires forall k :: 0 <= k < |months| ==> 1 <= months[k] <= 12
  {
    var closes := Closes(f.bars);
    var close := closes[i];
    var resistance := RollingMaxAt(Highs(f.bars), i, 20);
    var volumeRatio := f.volumeRatio[i];
    FeatureRow(
      f.ma[10][i], f.ma10Slope[i], Ratio(close, f.ma[10][i]),
      PctChange(closes, i, 6), PctChange(closes, i, 12),
      MaAlignmentAt(f, i), PriceToHighAt(closes, i), TrendStrengthAt(closes, i),
      Volatility(closes, i, 6, sqrt), VolatilityContraction(closes, i, sqrt), MaxDrawdownAt(closes, i),
      ConsolidationAt(closes, i), BreakoutAt(f, i),
      volumeRatio, UpDownRatioAt(f.bars, i), ObvTrendAt(f.bars, i),
      if Gt(volumeRatio, 1.5) then 1 else 0, CooperationAt(f, i),
      f.macd.line[i], f.macd.hist[i], MacdCrossAt(f, i),
      Momentum(closes, i, 6), MomentumAcceleration(closes, i),
      RsiPosition(f.rsi[i]),
      RollingMinAt(Lows(f.bars), i, 20), resistance,
      if resistance.Some? then Div(resistance.value - close, close) else None,
      Quarter(months[i]), EarningsSeason(months[i]))
  }

  /** `create_investment_features` on a copy of the monthly rows. A series
      without a numeric close gives the empty frame. A series with some
      other non-numeric field, or a date that does not parse, is not
      modelled and gives an error. */
  function CreateInvestmentFeatures(raw: seq<RawBar>, sqrt: real -> real): Result<FeatureTable>
  {
    if NoNumericClose(raw) then Ok(Empty)
    else
      match ToBars(raw)
      case None => Err("non-numeric values are not modelled")
      case Some(bars) =>
        match Months(bars)
        case None => Err("unparseable date")
        case Some(months) =>
          var f := CalculateAllIndicators(bars, Monthly);
          Ok(Table(bars, seq(|bars|, i requires 0 <= i < |bars| => FeatureRowAt(f, months, sqrt, i))))
  }

  /** The table is empty exactly when no close is numeric (an empty series
      included); otherwise it has one row per month and keeps every month's
      values as read. */
  lemma CreateInvestmentFeaturesFacts(raw: seq<RawBar>, sqrt: real -> real)
    ensures CreateInvestmentFeatures(raw, sqrt) == Ok(Empty) <==> NoNumericClose(raw)
    ensures |raw| == 0 ==> CreateInvestmentFeatures(raw, sqrt) == Ok(Empty)
    ensures CreateInvestmentFeatures(raw, sqrt).Ok? && CreateInvestmentFeatures(raw, sqrt).value.Table? ==>
      var t := CreateInvestmentFeatures(raw, sqrt).value;
      && |t.rows| == |raw| && |t.bars| == |raw|
      && forall k :: 0 <= k < |raw| ==> Numeric(raw[k]) && t.bars[k] == ToBar(raw[k])
  {
  }

  // ---------------------------------------------------------------------
  // Feature names

  /** `get_core_feature_names`. */
  function CoreFeatureNames(): (names: seq<string>)
    ensures |names| == 28
    ensures forall i, j :: 0 <= i < j < |names| ==> names[i] != names[j]
  {
    ["MA10", "MA10_slope", "price_to_ma10", "return_6m", "return_12m",
     "ma_alignment", "price_to_52w_high", "trend_strength",
     "volatility_6m", "volatility_contraction", "max_drawdown_24m",
     "consolidation_score", "breakout_signal",
     "volume_ratio", "volume_up_down_ratio", "obv_trend",
     "volume_surge", "volume_cooperation",
     "MACD", "MACD_hist", "macd_cross", "momentum_6m", "momentum_acceleration",
     "support_level", "resistance_level", "distance_to_resistance",
     "quarter", "is_earnings_season"]
  }

  function Num(n: int): Option<real> { Some(n as real) }

  /** The value of a named column of a feature row; absent for a name the
      frame does not have. */
  function FeatureValue(row: FeatureRow, name: string): Option<real>
  {
    match name
    case "MA10" => row.ma10
    case "MA10_slope" => row.ma10Slope
    case "price_to_ma10" => row.priceToMa10
    case "return_6m" => row.return6m
    case "return_12m" => row.return12m
    case "ma_alignment" => Num(row.maAlignment)
    case "price_to_52w_high" => row.priceTo52wHigh
    case "trend_strength" => Some(row.trendStrength)
    case "volatility_6m" => row.volatility6m
    case "volatility_contraction" => row.volatilityContraction
    case "max_drawdown_24m" => row.maxDrawdown24m
    case "consolidation_score" => Num(row.consolidationScore)
    case "breakout_signal" => Num(row.breakoutSignal)
    case "volume_ratio" => row.volumeRatio
    case "volume_up_down_ratio" => Some(row.volumeUpDownRatio)
    case "obv_trend" => row.obvTrend
    case "volume_surge" => Num(row.volumeSurge)
    case "volume_cooperation" => Num(row.volumeCooperation)
    case "MACD" => Some(row.macd)
    case "MACD_hist" => Some(row.macdHist)
    case "macd_cross" => Num(row.macdCross)
    case "momentum_6m" => row.momentum6m
    case "momentum_acceleration" => row.momentumAcceleration
    case "support_level" => row.supportLevel
    case "resistance_level" => row.resistanceLevel
    case "distance_to_resistance" => row.distanceToResistance
    case "quarter" => Num(row.quarter)
    case "is_earnings_season" => Num(row.isEarningsSeason)
    case "rsi_position" => Num(row.rsiPosition)
    case "momentum_pct_6m" => row.return6m
    case _ => None
  }
}
