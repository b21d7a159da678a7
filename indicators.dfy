/** The technical-indicator library: rolling means, the EMA-based MACD,
    RSI, ATR, the normalised moving-average slope, volume ratio, price
    position, moving-average alignment, golden crosses, the up/down volume
    pattern and support/resistance levels, all over one instrument's bars.
    A column is a `seq` as long as the frame; `None` is pandas' NaN. */
module Indicators {
  import opened Stats
  import opened Market

  // ---------------------------------------------------------------------
  // Rolling windows (`rolling(window=w)` needs a full window)

  /** `rolling(window=w).mean()` at index `i`. */
  function RollingMeanAt(s: seq<real>, i: nat, w: nat): Option<real>
    requires i < |s| && w >= 1
  {
    if i + 1 < w then None else Some(Mean(Window(s, i, w)))
  }

  function RollingMean(s: seq<real>, w: nat): (r: seq<Option<real>>)
    requires w >= 1
    ensures |r| == |s|
    ensures forall i :: 0 <= i < |s| ==> r[i] == RollingMeanAt(s, i, w)
  {
    seq(|s|, i requires 0 <= i < |s| => RollingMeanAt(s, i, w))
  }

  /** A moving average is absent until the window fills, then lies between
      the window's extremes. */
  lemma RollingMeanBounds(s: seq<real>, w: nat, i: nat)
    requires w >= 1 && i < |s|
    ensures RollingMean(s, w)[i].Some? <==> i + 1 >= w
    ensures RollingMean(s, w)[i].Some? ==>
      MinOf(Window(s, i, w)) <= RollingMean(s, w)[i].value <= MaxOf(Window(s, i, w))
  {
    if i + 1 >= w {
      var win := Window(s, i, w);
      MeanBounds(win, MinOf(win), MaxOf(win));
    }
  }

  /** The moving average of a constant series is that constant once the
      window fills. */
  lemma RollingMeanOfConstant(s: seq<real>, w: nat, c: real)
    requires w >= 1
    requires forall i :: 0 <= i < |s| ==> s[i] == c
    ensures forall i :: w - 1 <= i < |s| ==> RollingMean(s, w)[i] == Some(c)
  {
    forall i | w - 1 <= i < |s| ensures RollingMean(s, w)[i] == Some(c) {
      MeanOfConstant(Window(s, i, w), c);
    }
  }

  /** `rolling(window=w).max()` at index `i`. */
  function RollingMaxAt(s: seq<real>, i: nat, w: nat): Option<real>
    requires i < |s| && w >= 1
  {
    if i + 1 < w then None else Some(MaxOf(Window(s, i, w)))
  }

  // ---------------------------------------------------------------------
  // Moving-average columns

  /** The MA periods `calculate_all_indicators` uses for each frequency. */
  function MaPeriods(freq: Freq): (r: seq<nat>)
    ensures 5 in r && 10 in r && 20 in r
    ensures 40 in r <==> freq != Monthly
    ensures forall k :: 0 <= k < |r| ==> r[k] >= 1
  {
    match freq
    case Daily => [5, 10, 20, 40, 60]
    case Weekly => [5, 10, 20, 40]
    case Monthly => [5, 10, 20]
  }

  /** `calculate_ma`: one `MA<p>` column per period. */
  function CalculateMa(closes: seq<real>, periods: seq<nat>): (r: map<nat, seq<Option<real>>>)
    requires forall k :: 0 <= k < |periods| ==> periods[k] >= 1
    ensures forall p :: p in r <==> p in periods
    ensures forall p :: p in r ==> p >= 1 && r[p] == RollingMean(closes, p)
  {
    map p | p in periods :: RollingMean(closes, p)
  }

  // ---------------------------------------------------------------------
  // EMA and MACD

  /** `ewm(span, adjust=False).mean()` with smoothing factor `alpha`: seeded
      with the first value, then `alpha * x + (1 - alpha) * previous`. */
  function Ema(s: seq<real>, alpha: real): (r: seq<real>)
    ensures |r| == |s|
    decreases |s|
  {
    if |s| == 0 then []
    else
      var p := Ema(s[..|s| - 1], alpha);
      p + [if |p| == 0 then s[0] else alpha * s[|s| - 1] + (1.0 - alpha) * p[|p| - 1]]
  }

  /** alpha = 2 / (span + 1). */
  function Alpha(span: nat): (a: real)
    requires span >= 1
    ensures 0.0 < a <= 1.0
  {
    2.0 / ((span as real) + 1.0)
  }

  lemma ConvexStep(x: real, y: real, a: real, lo: real, hi: real)
    requires 0.0 <= a <= 1.0 && lo <= x <= hi && lo <= y <= hi
    ensures lo <= a * x + (1.0 - a) * y <= hi
  {
    var b := 1.0 - a;
    var p1, q1 := x - lo, y - lo;
    var p2, q2 := hi - x, hi - y;
    ProductNonneg(p1, a);
    ProductNonneg(q1, b);
    ProductNonneg(p2, a);
    ProductNonneg(q2, b);
    assert a * x + b * y == lo + p1 * a + q1 * b;
    assert a * x + b * y == hi - p2 * a - q2 * b;
  }

  lemma ProductNonneg(x: real, y: real)
    requires x >= 0.0 && y >= 0.0
    ensures x * y >= 0.0
  {
    MulMono(0.0, x, y);
  }

  /** Each EMA value is a weighted average of the values so far, so it stays
      within any bounds they respect. */
  lemma {:induction false} EmaBounds(s: seq<real>, alpha: real, lo: real, hi: real)
    requires 0.0 <= alpha <= 1.0
    requires forall i :: 0 <= i < |s| ==> lo <= s[i] <= hi
    ensures forall i :: 0 <= i < |s| ==> lo <= Ema(s, alpha)[i] <= hi
    decreases |s|
  {
    if |s| > 0 {
      var q := s[..|s| - 1];
      EmaBounds(q, alpha, lo, hi);
      var p := Ema(q, alpha);
      if |p| > 0 {
        ConvexStep(s[|s| - 1], p[|p| - 1], alpha, lo, hi);
      }
    }
  }

  /** The recurrence itself, index by index. */
  lemma {:induction false} EmaRecurrence(s: seq<real>, alpha: real, i: nat)
    requires 0 < i < |s|
    ensures Ema(s, alpha)[0] == s[0]
    ensures Ema(s, alpha)[i] == alpha * s[i] + (1.0 - alpha) * Ema(s, alpha)[i - 1]
    decreases |s|
  {
    var q := s[..|s| - 1];
    if i < |s| - 1 {
      EmaRecurrence(q, alpha, i);
      assert Ema(s, alpha)[..|s| - 1] == Ema(q, alpha);
    } else if |q| > 1 {
      EmaRecurrence(q, alpha, |q| - 1);
    }
  }

  datatype Macd = Macd(line: seq<real>, signal: seq<real>, hist: seq<real>)

  function Sub(a: seq<real>, b: seq<real>): (r: seq<real>)
    requires |a| == |b|
    ensures |r| == |a|
    ensures forall i :: 0 <= i < |a| ==> r[i] == a[i] - b[i]
  {
    seq(|a|, i requires 0 <= i < |a| => a[i] - b[i])
  }

  /** `calculate_macd` with its defaults 12, 26 and 9. */
  function CalculateMacd(closes: seq<real>): (m: Macd)
    ensures |m.line| == |m.signal| == |m.hist| == |closes|
    ensures forall i :: 0 <= i < |closes| ==> m.hist[i] == m.line[i] - m.signal[i]
  {
    var line := Sub(Ema(closes, Alpha(12)), Ema(closes, Alpha(26)));
    var signal := Ema(line, Alpha(9));
    Macd(line, signal, Sub(line, signal))
  }

  /** A flat price series has a flat, zero MACD. */
  lemma MacdOfConstant(closes: seq<real>, c: real)
    requires forall i :: 0 <= i < |closes| ==> closes[i] == c
    ensures forall i :: 0 <= i < |closes| ==>
      CalculateMacd(closes).line[i] == 0.0 && CalculateMacd(closes).hist[i] == 0.0
  {
    EmaBounds(closes, Alpha(12), c, c);
    EmaBounds(closes, Alpha(26), c, c);
    var line := CalculateMacd(closes).line;
    EmaBounds(line, Alpha(9), 0.0, 0.0);
  }

  // ---------------------------------------------------------------------
  // RSI

  /** `delta.where(delta > 0, 0)`: the first delta is NaN, which becomes 0. */
  function Gains(closes: seq<real>): (r: seq<real>)
    ensures |r| == |closes|
    ensures forall i :: 0 <= i < |closes| ==> r[i] >= 0.0
  {
    seq(|closes|, i requires 0 <= i < |closes| =>
      if i > 0 && closes[i] - closes[i - 1] > 0.0 then closes[i] - closes[i - 1] else 0.0)
  }

  /** `-delta.where(delta < 0, 0)`. */
  function Losses(closes: seq<real>): (r: seq<real>)
    ensures |r| == |closes|
    ensures forall i :: 0 <= i < |closes| ==> r[i] >= 0.0
  {
    seq(|closes|, i requires 0 <= i < |closes| =>
      if i > 0 && closes[i] - closes[i - 1] < 0.0 then closes[i - 1] - closes[i] else 0.0)
  }

  /** `100 - 100 / (1 + avg_gain / avg_loss)`: a zero average loss makes the
      ratio +inf (RSI 100) or, with no gain either, NaN. */
  function RsiOf(ag: real, al: real): Option<real>
    requires ag >= 0.0 && al >= 0.0
  {
    if al == 0.0 then (if ag > 0.0 then Some(100.0) else None)
    else
      DivBounds(ag, al, 0.0, ag / al);
      Some(100.0 - 100.0 / (1.0 + ag / al))
  }

  function RsiAt(closes: seq<real>, i: nat, period: nat): Option<real>
    requires i < |closes| && period >= 1
  {
    var g, l := Gains(closes), Losses(closes);
    if i + 1 < period then None
    else
      MeanNonnegative(Window(g, i, period));
      MeanNonnegative(Window(l, i, period));
      RsiOf(Mean(Window(g, i, period)), Mean(Window(l, i, period)))
  }

  /** `calculate_rsi`. */
  function CalculateRsi(closes: seq<real>, period: nat): (r: seq<Option<real>>)
    requires period >= 1
    ensures |r| == |closes|
    ensures forall i :: 0 <= i < |closes| ==> r[i] == RsiAt(closes, i, period)
  {
    seq(|closes|, i requires 0 <= i < |closes| => RsiAt(closes, i, period))
  }

  /** RSI is the gain share of all movement, scaled to 100; so it lies in
      [0, 100], is 100 exactly when there were gains and no losses, and is
      absent exactly when there was no movement at all. */
  lemma RsiIsGainShare(ag: real, al: real)
    requires ag >= 0.0 && al >= 0.0
    ensures RsiOf(ag, al).None? <==> ag == 0.0 && al == 0.0
    ensures RsiOf(ag, al).Some? ==> RsiOf(ag, al).value == 100.0 * ag / (ag + al)
    ensures RsiOf(ag, al).Some? ==> 0.0 <= RsiOf(ag, al).value <= 100.0
    ensures RsiOf(ag, al) == Some(100.0) <==> ag > 0.0 && al == 0.0
  {
    if al > 0.0 {
      RsiAlgebra(ag, al);
      DivBounds(100.0 * ag, ag + al, 0.0, 100.0);
    }
  }

  lemma RsiAlgebra(ag: real, al: real)
    requires ag >= 0.0 && al > 0.0
    ensures 100.0 - 100.0 / (1.0 + ag / al) == 100.0 * ag / (ag + al)
  {
    var d := ag + al;
    var rs := ag / al;
    assert rs * al == ag;
    var u := 1.0 + rs;
    assert u * al == d;
    var q := 100.0 * al / d;
    assert q * d == 100.0 * al;
    assert q * u * al == q * d;
    assert q * u == 100.0;
    DivExact(100.0, u, q);
    var g := 100.0 * ag / d;
    assert g * d == 100.0 * ag;
    assert (q + g) * d == q * d + g * d;
    MulCancel(q + g, 100.0, d);
  }

  lemma MulCancel(x: real, y: real, d: real)
    requires d != 0.0 && x * d == y * d
    ensures x == y
  {
    assert (x - y) * d == 0.0;
  }

  /** Every defined RSI value lies in [0, 100]. */
  lemma RsiInRange(closes: seq<real>, period: nat, i: nat)
    requires period >= 1 && i < |closes|
    ensures CalculateRsi(closes, period)[i].Some? ==> i + 1 >= period
    ensures CalculateRsi(closes, period)[i].Some? ==>
      0.0 <= CalculateRsi(closes, period)[i].value <= 100.0
  {
    if i + 1 >= period {
      var g, l := Gains(closes), Losses(closes);
      MeanNonnegative(Window(g, i, period));
      MeanNonnegative(Window(l, i, period));
      RsiIsGainShare(Mean(Window(g, i, period)), Mean(Window(l, i, period)));
    }
  }

  // ---------------------------------------------------------------------
  // ATR

  /** The true range; the first bar has no previous close, and the
      row-wise max skips the NaN candidates, leaving `high - low`. */
  function TrueRange(bars: seq<Bar>, i: nat): (r: real)
    requires i < |bars|
    ensures r >= bars[i].high - bars[i].low
    ensures i > 0 ==> r >= 0.0
  {
    var hl := bars[i].high - bars[i].low;
    if i == 0 then hl
    else Max(hl, Max(Abs(bars[i].high - bars[i - 1].close), Abs(bars[i].low - bars[i - 1].close)))
  }

  function TrueRanges(bars: seq<Bar>): (r: seq<real>)
    ensures |r| == |bars|
    ensures forall i :: 0 <= i < |bars| ==> r[i] == TrueRange(bars, i)
  {
    seq(|bars|, i requires 0 <= i < |bars| => TrueRange(bars, i))
  }

  /** `calculate_atr`. */
  function CalculateAtr(bars: seq<Bar>, period: nat): (r: seq<Option<real>>)
    requires period >= 1
    ensures |r| == |bars|
  {
    RollingMean(TrueRanges(bars), period)
  }

  /** With `low <= high` on the first bar the ATR is never negative (every
      later true range is at least a distance). */
  lemma AtrNonnegative(bars: seq<Bar>, period: nat, i: nat)
    requires period >= 1 && i < |bars|
    requires |bars| > 0 && bars[0].low <= bars[0].high
    ensures CalculateAtr(bars, period)[i].Some? <==> i + 1 >= period
    ensures CalculateAtr(bars, period)[i].Some? ==> CalculateAtr(bars, period)[i].value >= 0.0
  {
    if i + 1 >= period {
      var tr := TrueRanges(bars);
      var win := Window(tr, i, period);
      forall k | 0 <= k < period ensures win[k] >= 0.0 {
        assert win[k] == TrueRange(bars, i + 1 - period + k);
      }
      MeanNonnegative(win);
    }
  }

  // ---------------------------------------------------------------------
  // Volume ratio and price position

  function VolumeRatioAt(volumes: seq<real>, i: nat, period: nat): Option<real>
    requires i < |volumes| && period >= 1
  {
    match RollingMeanAt(volumes, i, period)
    case None => None
    case Some(avg) => Div(volumes[i], avg)
  }

  /** `calculate_volume_ratio`: volume over its `period`-bar mean. */
  function CalculateVolumeRatio(volumes: seq<real>, period: nat): (r: seq<Option<real>>)
    requires period >= 1
    ensures |r| == |volumes|
    ensures forall i :: 0 <= i < |volumes| ==> r[i] == VolumeRatioAt(volumes, i, period)
  {
    seq(|volumes|, i requires 0 <= i < |volumes| => VolumeRatioAt(volumes, i, period))
  }

  /** With non-negative volumes a zero mean forces the current volume to 0,
      and pandas gives 0/0 = NaN: the absent ratio is exact there. Where the
      ratio exists it is non-negative, and it is 1 on a flat volume series. */
  lemma VolumeRatioFacts(volumes: seq<real>, i: nat, period: nat)
    requires period >= 1 && i < |volumes|
    requires forall k :: 0 <= k < |volumes| ==> volumes[k] >= 0.0
    ensures VolumeRatioAt(volumes, i, period).None? && i + 1 >= period ==> volumes[i] == 0.0
    ensures VolumeRatioAt(volumes, i, period).Some? ==> VolumeRatioAt(volumes, i, period).value >= 0.0
    ensures i + 1 >= period && volumes[i] > 0.0 && (forall k :: 0 <= k < |volumes| ==> volumes[k] == volumes[i])
      ==> VolumeRatioAt(volumes, i, period) == Some(1.0)
  {
    if i + 1 >= period {
      var win := Window(volumes, i, period);
      MeanBounds(win, 0.0, MaxOf(win));
      assert win[period - 1] == volumes[i];
      if Mean(win) == 0.0 {
        ZeroMeanOfNonnegative(win);
      } else {
        DivBounds(volumes[i], Mean(win), 0.0, volumes[i] / Mean(win));
      }
      if volumes[i] > 0.0 && (forall k :: 0 <= k < |volumes| ==> volumes[k] == volumes[i]) {
        FlatVolumeRatio(volumes, i, period);
      }
    }
  }

  /** On a flat, positive volume series the ratio is exactly 1. */
  lemma FlatVolumeRatio(volumes: seq<real>, i: nat, period: nat)
    requires period >= 1 && period <= i + 1 && i < |volumes|
    requires volumes[i] > 0.0
    requires forall k :: 0 <= k < |volumes| ==> volumes[k] == volumes[i]
    ensures VolumeRatioAt(volumes, i, period) == Some(1.0)
  {
    var win := Window(volumes, i, period);
    assert forall k :: 0 <= k < |win| ==> win[k] == volumes[i];
    MeanOfConstant(win, volumes[i]);
    assert RollingMeanAt(volumes, i, period) == Some(volumes[i]);
    assert volumes[i] / volumes[i] == 1.0;
  }

  lemma {:induction false} ZeroMeanOfNonnegative(s: seq<real>)
    requires |s| > 0 && Mean(s) == 0.0
    requires forall k :: 0 <= k < |s| ==> s[k] >= 0.0
    ensures forall k :: 0 <= k < |s| ==> s[k] == 0.0
  {
    assert Sum(s) == 0.0;
    forall k | 0 <= k < |s| ensures s[k] == 0.0 {
      SumWithout(s, k);
    }
  }

  /** The sum of non-negative values is at least any one of them. */
  lemma {:induction false} SumWithout(s: seq<real>, k: nat)
    requires k < |s|
    requires forall j :: 0 <= j < |s| ==> s[j] >= 0.0
    ensures Sum(s) >= s[k]
    decreases |s|
  {
    var p := s[..|s| - 1];
    SumBounds(p, 0.0, MaxOf(s));
    if k < |s| - 1 {
      SumWithout(p, k);
    }
  }

  function PricePositionAt(closes: seq<real>, i: nat, period: nat): Option<real>
    requires i < |closes| && period >= 1
  {
    match RollingMaxAt(closes, i, period)
    case None => None
    case Some(hi) => Div(closes[i], hi)
  }

  /** `calculate_price_position`: close over the `period`-bar highest close.
      For positive closes it is in (0, 1] and 1 exactly at a new high. */
  function CalculatePricePosition(closes: seq<real>, period: nat): (r: seq<Option<real>>)
    requires period >= 1
    ensures |r| == |closes|
    ensures forall i :: 0 <= i < |closes| ==> r[i] == PricePositionAt(closes, i, period)
  {
    seq(|closes|, i requires 0 <= i < |closes| => PricePositionAt(closes, i, period))
  }

  lemma PricePositionBounds(closes: seq<real>, i: nat, period: nat)
    requires period >= 1 && i < |closes|
    requires forall k :: 0 <= k < |closes| ==> closes[k] > 0.0
    ensures PricePositionAt(closes, i, period).Some? <==> i + 1 >= period
    ensures PricePositionAt(closes, i, period).Some? ==>
      0.0 < PricePositionAt(closes, i, period).value <= 1.0
  {
    if i + 1 >= period {
      var win := Window(closes, i, period);
      assert win[period - 1] == closes[i];
      var hi := MaxOf(win);
      DivBounds(closes[i], hi, 0.0, 1.0);
      assert closes[i] / hi > 0.0;
    }
  }

  // ---------------------------------------------------------------------
  // Normalised moving-average slope

  predicate AllPresent(w: seq<Option<real>>)
  {
    forall k :: 0 <= k < |w| ==> w[k].Some?
  }

  function Values(w: seq<Option<real>>): (y: seq<real>)
    requires AllPresent(w)
    ensures |y| == |w|
    ensures forall k :: 0 <= k < |w| ==> y[k] == w[k].value
    decreases |w|
  {
    if |w| == 0 then [] else Values(w[..|w| - 1]) + [w[|w| - 1].value]
  }

  /** The slope of `calculate_ma_slope` at index `i`: the least-squares
      slope of the last `lookback` MA values against 0..lookback-1, over the
      current MA value (0 when that is 0); absent before the window fills or
      when any value in it is absent. */
  function SlopeAt(ma: seq<Option<real>>, i: nat, lookback: nat): Option<real>
    requires i < |ma| && lookback >= 2
  {
    if i + 1 < lookback || ma[i].None? then None
    else
      var w := Window(ma, i, lookback);
      if !AllPresent(w) then None
      else
        var slope := Slope(Values(w));
        Some(if ma[i].value != 0.0 then slope / ma[i].value else 0.0)
  }

  function MaSlope(ma: seq<Option<real>>, lookback: nat): (r: seq<Option<real>>)
    requires lookback >= 2
    ensures |r| == |ma|
    ensures forall i :: 0 <= i < |ma| ==> r[i] == SlopeAt(ma, i, lookback)
  {
    seq(|ma|, i requires 0 <= i < |ma| => SlopeAt(ma, i, lookback))
  }

  /** One slope of `calculate_ma_slope`: the window, the fit, the
      normalisation by the current MA value. */
  method SlopeStep(ma: seq<Option<real>>, i: nat, lookback: nat) returns (s: Option<real>)
    requires i < |ma| && lookback >= 2
    ensures s == SlopeAt(ma, i, lookback)
  {
    if i < lookback - 1 || ma[i].None? {
      return None;
    }
    var y := ma[i - lookback + 1..i + 1];
    assert y == Window(ma, i, lookback);
    if !AllPresent(y) {
      return None;
    }
    var slope := Slope(Values(y));
    var normalized := if ma[i].value != 0.0 then slope / ma[i].value else 0.0;
    return Some(normalized);
  }

  /** `calculate_ma_slope`, appending one slope per bar. */
  method CalculateMaSlope(ma: seq<Option<real>>, lookback: nat) returns (slopes: seq<Option<real>>)
    requires lookback >= 2
    ensures slopes == MaSlope(ma, lookback)
  {
    slopes := [];
    var i := 0;
    while i < |ma|
      invariant 0 <= i <= |ma|
      invariant |slopes| == i
      invariant forall k :: 0 <= k < i ==> slopes[k] == SlopeAt(ma, k, lookback)
    {
      var s := SlopeStep(ma, i, lookback);
      slopes := slopes + [s];
      i := i + 1;
    }
  }

  /** On a window where the MA moves along a straight line `a + b*k`, the
      slope is `b` over the current value; a flat window gives 0. */
  lemma SlopeOfLinearMa(ma: seq<Option<real>>, i: nat, lookback: nat, a: real, b: real)
    requires lookback >= 2 && lookback <= i + 1 < |ma| + 1
    requires forall k :: 0 <= k < lookback ==> Window(ma, i, lookback)[k] == Some(a + b * (k as real))
    ensures ma[i].Some?
    ensures SlopeAt(ma, i, lookback) ==
      Some(if ma[i].value != 0.0 then b / ma[i].value else 0.0)
  {
    var w := Window(ma, i, lookback);
    assert w[lookback - 1] == ma[i];
    var y := Values(w);
    SlopeOfLine(y, a, b);
  }

  /** The absent cases and the zero-MA case, exactly. */
  lemma SlopeAtCases(ma: seq<Option<real>>, i: nat, lookback: nat)
    requires lookback >= 2 && i < |ma|
    ensures SlopeAt(ma, i, lookback).Some? <==>
      i + 1 >= lookback && AllPresent(Window(ma, i, lookback))
    ensures SlopeAt(ma, i, lookback).Some? && ma[i].value == 0.0 ==>
      SlopeAt(ma, i, lookback) == Some(0.0)
  {
    if i + 1 >= lookback {
      assert Window(ma, i, lookback)[lookback - 1] == ma[i];
    }
  }

  // ---------------------------------------------------------------------
  // Moving-average alignment

  /** One link of the chain: `a > b` (ascending) or `a < b`; NaN fails. */
  predicate Ordered(a: Option<real>, b: Option<real>, ascending: bool)
  {
    a.Some? && b.Some? && (if ascending then a.value > b.value else a.value < b.value)
  }

  predicate SameLength(cols: seq<seq<Option<real>>>, n: nat)
  {
    forall c :: 0 <= c < |cols| ==> |cols[c]| == n
  }

  /** The first `links` links of the chain hold at row `r`. */
  predicate ChainHolds(cols: seq<seq<Option<real>>>, n: nat, r: nat, links: nat, ascending: bool)
    requires SameLength(cols, n) && r < n && links < |cols|
  {
    forall c :: 0 <= c < links ==> Ordered(cols[c][r], cols[c + 1][r], ascending)
  }

  /** Row `r` is aligned: every adjacent pair of columns is ordered. */
  predicate AlignedAt(cols: seq<seq<Option<real>>>, n: nat, r: nat, ascending: bool)
    requires SameLength(cols, n) && r < n
  {
    |cols| < 2 || ChainHolds(cols, n, r, |cols| - 1, ascending)
  }

  /** `check_ma_alignment` over a frame of `n` rows: `result &=` each
      adjacent comparison in turn. */
  method CheckMaAlignment(cols: seq<seq<Option<real>>>, n: nat, ascending: bool) returns (result: seq<bool>)
    requires SameLength(cols, n)
    ensures |result| == n
    ensures forall r :: 0 <= r < n ==> (result[r] <==> AlignedAt(cols, n, r, ascending))
  {
    result := seq(n, r => true);
    if |cols| < 2 {
      return;
    }
    var c := 0;
    while c < |cols| - 1
      invariant 0 <= c <= |cols| - 1
      invariant |result| == n
      invariant forall r :: 0 <= r < n ==> (result[r] <==> ChainHolds(cols, n, r, c, ascending))
    {
      var prev := result;
      result := seq(n, r requires 0 <= r < n => prev[r] && Ordered(cols[c][r], cols[c + 1][r], ascending));
      c := c + 1;
    }
  }

  /** An aligned row is strictly ordered between any two of its columns,
      not only adjacent ones. */
  lemma {:induction false} AlignedIsStrictChain(cols: seq<seq<Option<real>>>, n: nat, r: nat, i: nat, j: nat)
    requires SameLength(cols, n) && r < n && i < j < |cols|
    requires AlignedAt(cols, n, r, true)
    ensures Ordered(cols[i][r], cols[j][r], true)
    decreases j - i
  {
    assert Ordered(cols[i][r], cols[i + 1][r], true);
    if i + 1 < j {
      AlignedIsStrictChain(cols, n, r, i + 1, j);
    }
  }

  // ---------------------------------------------------------------------
  // Golden crosses

  /** `fast - slow` is at most 0 (NaN compares false). */
  predicate AtOrBelow(fast: Option<real>, slow: Option<real>)
  {
    fast.Some? && slow.Some? && fast.value - slow.value <= 0.0
  }

  predicate Above(fast: Option<real>, slow: Option<real>)
  {
    fast.Some? && slow.Some? && fast.value - slow.value > 0.0
  }

  /** The fast line crosses above the slow one between rows `k-1` and `k`. */
  predicate CrossAt(fast: seq<Option<real>>, slow: seq<Option<real>>, k: nat)
    requires 0 < k < |fast| == |slow|
  {
    AtOrBelow(fast[k - 1], slow[k - 1]) && Above(fast[k], slow[k])
  }

  /** A cross happened inside the last `lookback + 1` rows. */
  predicate GoldenCross(fast: seq<Option<real>>, slow: seq<Option<real>>, lookback: nat)
    requires |fast| == |slow|
  {
    && |fast| >= lookback + 1
    && exists k :: |fast| - lookback <= k < |fast| && 0 < k && CrossAt(fast, slow, k)
  }

  /** `detect_golden_cross`: scan the tail, return at the first cross. */
  method DetectGoldenCross(fast: seq<Option<real>>, slow: seq<Option<real>>, lookback: nat)
    returns (crossed: bool)
    requires |fast| == |slow|
    ensures crossed <==> GoldenCross(fast, slow, lookback)
  {
    var n := |fast|;
    if n < lookback + 1 {
      return false;
    }
    var start := n - (lookback + 1);
    var i := 1;
    while i < lookback + 1
      invariant 1 <= i <= lookback + 1
      invariant forall k :: start + 1 <= k < start + i ==> !CrossAt(fast, slow, k)
    {
      var prev := if fast[start + i - 1].Some? && slow[start + i - 1].Some?
                  then Some(fast[start + i - 1].value - slow[start + i - 1].value) else None;
      var curr := if fast[start + i].Some? && slow[start + i].Some?
                  then Some(fast[start + i].value - slow[start + i].value) else None;
      if prev.Some? && prev.value <= 0.0 && curr.Some? && curr.value > 0.0 {
        assert CrossAt(fast, slow, start + i);
        return true;
      }
      i := i + 1;
    }
    return false;
  }

  function Lift(s: seq<real>): (r: seq<Option<real>>)
    ensures |r| == |s|
    ensures forall i :: 0 <= i < |s| ==> r[i] == Some(s[i])
  {
    seq(|s|, i requires 0 <= i < |s| => Some(s[i]))
  }

  /** `detect_macd_golden_cross`: false without MACD columns, otherwise the
      same scan on MACD against its signal line. */
  method DetectMacdGoldenCross(macd: Option<Macd>, lookback: nat) returns (crossed: bool)
    requires macd.Some? ==> |macd.value.line| == |macd.value.signal|
    ensures crossed <==>
      macd.Some? && GoldenCross(Lift(macd.value.line), Lift(macd.value.signal), lookback)
  {
    if macd.None? {
      return false;
    }
    crossed := DetectGoldenCross(Lift(macd.value.line), Lift(macd.value.signal), lookback);
  }

  // ---------------------------------------------------------------------
  // Volume pattern

  /** `analyze_volume_pattern`'s dictionary; `ratio` is absent when the
      dictionary has no `volume_ratio` key. */
  datatype VolumePattern = VolumePattern(upVolume: real, downVolume: real, cooperation: bool, ratio: Option<real>)

  /** Volumes of the bars whose close rose (or fell) from the bar before. */
  function UpVolumes(bars: seq<Bar>): (r: seq<real>)
    decreases |bars|
  {
    if |bars| < 2 then []
    else
      var grew := bars[|bars| - 1].close - bars[|bars| - 2].close > 0.0;
      UpVolumes(bars[..|bars| - 1]) + (if grew then [bars[|bars| - 1].volume] else [])
  }

  function DownVolumes(bars: seq<Bar>): (r: seq<real>)
    decreases |bars|
  {
    if |bars| < 2 then []
    else
      var fell := bars[|bars| - 1].close - bars[|bars| - 2].close < 0.0;
      DownVolumes(bars[..|bars| - 1]) + (if fell then [bars[|bars| - 1].volume] else [])
  }

  function AnalyzeVolumePattern(bars: seq<Bar>, lookback: nat): (p: VolumePattern)
    ensures |bars| < lookback ==> p == VolumePattern(0.0, 0.0, false, None)
    ensures |bars| >= lookback ==> p.ratio.Some? && (p.cooperation <==> p.ratio.value > 1.2)
  {
    if |bars| < lookback then VolumePattern(0.0, 0.0, false, None)
    else
      var recent := Tail(bars, lookback);
      var up, down := UpVolumes(recent), DownVolumes(recent);
      var upVolume := if |up| > 0 then Mean(up) else 0.0;
      var downVolume := if |down| > 0 then Mean(down) else 1.0;
      var ratio := if downVolume > 0.0 then upVolume / downVolume else 0.0;
      VolumePattern(upVolume, downVolume, ratio > 1.2, Some(ratio))
  }

  /** Without a rising bar the ratio is 0 and there is no cooperation;
      without a falling bar the down mean is 1 and the ratio is the up mean;
      with non-negative volumes the ratio is never negative. */
  lemma VolumePatternCases(bars: seq<Bar>, lookback: nat)
    requires |bars| >= lookback
    requires forall i :: 0 <= i < |bars| ==> bars[i].volume >= 0.0
    ensures var p := AnalyzeVolumePattern(bars, lookback);
      && (|UpVolumes(Tail(bars, lookback))| == 0 ==> p.ratio == Some(0.0) && !p.cooperation)
      && (|DownVolumes(Tail(bars, lookback))| == 0 ==> p.downVolume == 1.0 && p.ratio == Some(p.upVolume))
      && p.ratio.value >= 0.0
  {
    var recent := Tail(bars, lookback);
    var up, down := UpVolumes(recent), DownVolumes(recent);
    assert forall i :: 0 <= i < |recent| ==> recent[i].volume >= 0.0;
    VolumesNonnegative(recent);
    if |up| > 0 {
      MeanBounds(up, 0.0, MaxOf(up));
    }
    if |down| > 0 {
      MeanBounds(down, 0.0, MaxOf(down));
    }
    var u := if |up| > 0 then Mean(up) else 0.0;
    var d := if |down| > 0 then Mean(down) else 1.0;
    assert AnalyzeVolumePattern(bars, lookback).ratio == Some(if d > 0.0 then u / d else 0.0);
    PatternRatio(u, d);
  }

  /** The ratio of two non-negative means is non-negative, and a ratio to
      a down mean of 1 is the up mean. */
  lemma PatternRatio(u: real, d: real)
    requires u >= 0.0 && d >= 0.0
    ensures (if d > 0.0 then u / d else 0.0) >= 0.0
    ensures d == 1.0 ==> u / d == u
    ensures u == 0.0 ==> (if d > 0.0 then u / d else 0.0) == 0.0
  {
    if d > 0.0 {
      DivBounds(u, d, 0.0, u / d);
    }
  }

  lemma {:induction false} VolumesNonnegative(bars: seq<Bar>)
    requires forall i :: 0 <= i < |bars| ==> bars[i].volume >= 0.0
    ensures forall i :: 0 <= i < |UpVolumes(bars)| ==> UpVolumes(bars)[i] >= 0.0
    ensures forall i :: 0 <= i < |DownVolumes(bars)| ==> DownVolumes(bars)[i] >= 0.0
    decreases |bars|
  {
    if |bars| >= 2 {
      VolumesNonnegative(bars[..|bars| - 1]);
    }
  }

  // ---------------------------------------------------------------------
  // Support and resistance

  datatype Levels = NoLevels | Levels(support: real, resistance: real, current: real)

  /** `find_support_resistance`: the lowest low and highest high of the last
      `lookback` bars, and the last close. */
  function FindSupportResistance(bars: seq<Bar>, lookback: nat): (r: Levels)
    requires lookback >= 1
    ensures r.NoLevels? <==> |bars| < lookback
    ensures r.Levels? ==>
      && (forall i :: |bars| - lookback <= i < |bars| ==> r.support <= bars[i].low)
      && (exists i :: |bars| - lookback <= i < |bars| && r.support == bars[i].low)
      && (forall i :: |bars| - lookback <= i < |bars| ==> bars[i].high <= r.resistance)
      && (exists i :: |bars| - lookback <= i < |bars| && r.resistance == bars[i].high)
      && r.current == bars[|bars| - 1].close
  {
    if |bars| < lookback then NoLevels
    else
      var lows, highs := Window(Lows(bars), |bars| - 1, lookback), Window(Highs(bars), |bars| - 1, lookback);
      var support, resistance := MinOf(lows), MaxOf(highs);
      assert forall i :: |bars| - lookback <= i < |bars| ==> lows[i - (|bars| - lookback)] == bars[i].low;
      assert forall i :: |bars| - lookback <= i < |bars| ==> highs[i - (|bars| - lookback)] == bars[i].high;
      Levels(support, resistance, bars[|bars| - 1].close)
  }

  /** When every bar has `low <= high`, support is at most resistance. */
  lemma SupportBelowResistance(bars: seq<Bar>, lookback: nat)
    requires lookback >= 1
    requires forall i :: 0 <= i < |bars| ==> bars[i].low <= bars[i].high
    ensures FindSupportResistance(bars, lookback).Levels? ==>
      FindSupportResistance(bars, lookback).support <= FindSupportResistance(bars, lookback).resistance
  {
    if |bars| >= lookback {
      var r := FindSupportResistance(bars, lookback);
      assert r.support <= bars[|bars| - 1].low;
    }
  }

  // ---------------------------------------------------------------------
  // All indicators

  /** The frame `calculate_all_indicators` returns. `ma40Slope` is absent
      when there is no MA40 column (monthly bars). */
  datatype Frame = Frame(
    bars: seq<Bar>,
    ma: map<nat, seq<Option<real>>>,
    macd: Macd,
    rsi: seq<Option<real>>,
    atr: seq<Option<real>>,
    volumeRatio: seq<Option<real>>,
    pricePosition: seq<Option<real>>,
    ma10Slope: seq<Option<real>>,
    ma40Slope: Option<seq<Option<real>>>)

  /** Every column is as long as the bars. */
  predicate WellFormed(f: Frame)
  {
    var n := |f.bars|;
    && (forall p :: p in f.ma ==> |f.ma[p]| == n)
    && |f.macd.line| == n && |f.macd.signal| == n && |f.macd.hist| == n
    && |f.rsi| == n && |f.atr| == n && |f.volumeRatio| == n && |f.pricePosition| == n
    && |f.ma10Slope| == n
    && (f.ma40Slope.Some? ==> |f.ma40Slope.value| == n)
  }

  /** `calculate_all_indicators`: MAs by frequency, MACD(12, 26, 9), RSI(14),
      ATR(14), a 20-bar volume ratio, a 52-bar price position, and the
      6-bar slopes of MA10 and (when present) MA40. */
  function CalculateAllIndicators(bars: seq<Bar>, freq: Freq): (f: Frame)
    ensures WellFormed(f) && f.bars == bars
    ensures forall p :: p in f.ma <==> p in MaPeriods(freq)
    ensures 5 in f.ma && 10 in f.ma && 20 in f.ma
    ensures 40 in f.ma <==> freq != Monthly
    ensures f.ma40Slope.Some? <==> 40 in f.ma
    ensures forall p :: p in f.ma ==> f.ma[p] == RollingMean(Closes(bars), p)
    ensures f.ma10Slope == MaSlope(f.ma[10], 6)
    ensures f.ma40Slope.Some? ==> f.ma40Slope.value == MaSlope(f.ma[40], 6)
    ensures f.rsi == CalculateRsi(Closes(bars), 14)
    ensures f.volumeRatio == CalculateVolumeRatio(Volumes(bars), 20)
  {
    var closes := Closes(bars);
    var periods := MaPeriods(freq);
    var ma := CalculateMa(closes, periods);
    assert forall p :: p in ma ==> |ma[p]| == |bars|;
    Frame(
      bars, ma, CalculateMacd(closes), CalculateRsi(closes, 14), CalculateAtr(bars, 14),
      CalculateVolumeRatio(Volumes(bars), 20), CalculatePricePosition(closes, 52),
      MaSlope(ma[10], 6),
      if 40 in ma then Some(MaSlope(ma[40], 6)) else None)
  }
}
