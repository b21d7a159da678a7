/** The daily trigger detector: breakout and pullback triggers on the
    daily indicator frame of a watchlisted instrument, the stop-loss built
    from three candidates and clamped to a 10% risk, the choice of trigger
    with the weekly pivot, and the composite ranking of the signals. */
module DailyScan {
  import opened Stats
  import opened Market
  import opened Indicators
  import opened Sorting
  import WeeklyScan

  datatype BreakoutConfig = BreakoutConfig(volumeRatioMin: real, rsiThreshold: real, newHighDays: nat)

  datatype PullbackConfig = PullbackConfig(
    lookbackDays: nat,
    maSupport: seq<nat>,
    volumeShrinkRatio: real,
    recoveryVolumeRatio: real,
    maxDrawbackPct: real)

  datatype StopLossConfig = StopLossConfig(initialPct: real, atrMultiplier: real, useStructureLow: bool)

  datatype DailyConfig = DailyConfig(
    breakout: BreakoutConfig,
    pullback: PullbackConfig,
    stopLoss: StopLossConfig,
    maxSignals: nat)

  datatype Trigger = Breakout | Pullback

  /** A trigger's dictionary. The volume ratio and RSI are the latest row's
      (absent as NaN); a pullback has no RSI key, so its row shows 0. */
  datatype Signal = Signal(
    trigger: Trigger,
    strength: nat,
    volumeRatio: Option<real>,
    rsi: Option<real>,
    supportMa: Option<nat>,
    drawdown: Option<real>)

  predicate DailyFrame(f: Frame)
  {
    WellFormed(f) && |f.bars| >= 1
  }

  // ---------------------------------------------------------------------
  // Breakout

  /** The close before row `j`; the first row of a frame has none and the
      source substitutes 0. */
  function PrevClose(closes: seq<real>, j: nat): real
    requires j < |closes|
  {
    if j >= 1 then closes[j - 1] else 0.0
  }

  /** Some row among the last three closes above the pivot after a close at
      or below it. */
  predicate CrossedPivot(closes: seq<real>, pivot: real)
  {
    exists j :: |closes| - MinNat(3, |closes|) <= j < |closes| && CrossesAt(closes, pivot, j)
  }

  /** Row `j` closes above the pivot after a close at or below it. */
  predicate CrossesAt(closes: seq<real>, pivot: real, j: nat)
    requires j < |closes|
  {
    closes[j] > pivot && PrevClose(closes, j) <= pivot
  }

  /** Some row in [lo, hi) crosses the pivot. */
  predicate AnyCrossing(closes: seq<real>, pivot: real, lo: nat, hi: nat)
    requires lo <= hi <= |closes|
    decreases hi - lo
  {
    hi > lo && (AnyCrossing(closes, pivot, lo, hi - 1) || CrossesAt(closes, pivot, hi - 1))
  }

  lemma {:induction false} AnyCrossingIff(closes: seq<real>, pivot: real, lo: nat, hi: nat)
    requires lo <= hi <= |closes|
    ensures AnyCrossing(closes, pivot, lo, hi) <==> exists j :: lo <= j < hi && CrossesAt(closes, pivot, j)
    decreases hi - lo
  {
    if hi > lo {
      AnyCrossingIff(closes, pivot, lo, hi - 1);
      if exists j :: lo <= j < hi && CrossesAt(closes, pivot, j) {
        var j :| lo <= j < hi && CrossesAt(closes, pivot, j);
        if j < hi - 1 {
          assert exists j' :: lo <= j' < hi - 1 && CrossesAt(closes, pivot, j');
        }
      }
    }
  }

  /** The breakthrough loop over `tail(3)`. */
  method ScanBreakthrough(closes: seq<real>, pivot: real) returns (crossed: bool)
    ensures crossed == CrossedPivot(closes, pivot)
  {
    var n := |closes|;
    var recent := Tail(closes, 3);
    var start := n - |recent|;
    crossed := false;
    var i := 0;
    while i < |recent|
      invariant 0 <= i <= |recent|
      invariant crossed == AnyCrossing(closes, pivot, start, start + i)
    {
      assert recent[i] == closes[start + i];
      var prev := if i == 0 then (if n >= 4 then closes[n - 4] else 0.0) else recent[i - 1];
      assert prev == PrevClose(closes, start + i);
      if recent[i] > pivot && prev <= pivot {
        crossed := true;
      }
      i := i + 1;
    }
    AnyCrossingIff(closes, pivot, start, n);
  }

  /** The latest close reaches the highest high of the last `days` rows
      (never, when the window is empty and its maximum is NaN). */
  predicate NewHigh(bars: seq<Bar>, days: nat)
    requires |bars| >= 1
  {
    var h := MaxOpt(Highs(Tail(bars, days)));
    h.Some? && bars[|bars| - 1].close >= h.value
  }

  /** One point for the RSI above its threshold, one for a new high. */
  function BreakoutStrength(bars: seq<Bar>, rsi: Option<real>, cfg: BreakoutConfig): nat
    requires |bars| >= 1
  {
    (if Gt(rsi, cfg.rsiThreshold) then 1 else 0) + (if NewHigh(bars, cfg.newHighDays) then 1 else 0)
  }

  /** The tests after the length check, on the bars and the latest volume
      ratio and RSI. */
  function BreakoutGates(bars: seq<Bar>, ratio: Option<real>, rsi: Option<real>, pivot: real, cfg: BreakoutConfig): Option<Signal>
    requires |bars| >= 1
  {
    if bars[|bars| - 1].close <= pivot then None
    else if !CrossedPivot(Closes(bars), pivot) then None
    else if Lt(ratio, cfg.volumeRatioMin) then None
    else
      var strength := BreakoutStrength(bars, rsi, cfg);
      if strength == 0 then None
      else Some(Signal(Breakout, strength, ratio, rsi, None, None))
  }

  /** `detect_breakout_trigger`. */
  function DetectBreakout(f: Frame, pivot: real, cfg: BreakoutConfig): Option<Signal>
    requires WellFormed(f)
  {
    var n := |f.bars|;
    if n < 20 then None
    else BreakoutGates(f.bars, f.volumeRatio[n - 1], f.rsi[n - 1], pivot, cfg)
  }

  /** One point for the RSI, one for the close reaching the highest high
      of the last `new_high_days` rows. */
  method CountStrength(bars: seq<Bar>, rsi: Option<real>, cfg: BreakoutConfig) returns (strength: nat)
    requires |bars| >= 1
    ensures strength == BreakoutStrength(bars, rsi, cfg)
  {
    strength := 0;
    if Gt(rsi, cfg.rsiThreshold) {
      strength := strength + 1;
    }
    if NewHigh(bars, cfg.newHighDays) {
      strength := strength + 1;
    }
  }

  /** The tests step by step. */
  method BreakoutChecks(bars: seq<Bar>, ratio: Option<real>, rsi: Option<real>, pivot: real, cfg: BreakoutConfig)
    returns (s: Option<Signal>)
    requires |bars| >= 1
    ensures s == BreakoutGates(bars, ratio, rsi, pivot, cfg)
  {
    var n := |bars|;
    if bars[n - 1].close <= pivot {
      return None;
    }
    var crossed := ScanBreakthrough(Closes(bars), pivot);
    if !crossed {
      return None;
    }
    if ratio.Some? && ratio.value < cfg.volumeRatioMin {
      return None;
    }
    var strength := CountStrength(bars, rsi, cfg);
    if strength == 0 {
      return None;
    }
    return Some(Signal(Breakout, strength, ratio, rsi, None, None));
  }

  /** `detect_breakout_trigger`. */
  method BreakoutTrigger(f: Frame, pivot: real, cfg: BreakoutConfig) returns (s: Option<Signal>)
    requires WellFormed(f)
    ensures s == DetectBreakout(f, pivot, cfg)
  {
    var n := |f.bars|;
    if n < 20 {
      return None;
    }
    s := BreakoutChecks(f.bars, f.volumeRatio[n - 1], f.rsi[n - 1], pivot, cfg);
  }

  /** The gates pass exactly when the latest close is above the pivot, the
      pivot was crossed in the last three sessions, the volume ratio is not
      below its minimum, and the RSI or the new-high test holds; the
      strength counts those two. */
  lemma BreakoutGatesFacts(bars: seq<Bar>, ratio: Option<real>, rsi: Option<real>, pivot: real, cfg: BreakoutConfig)
    requires |bars| >= 1
    ensures var g := BreakoutGates(bars, ratio, rsi, pivot, cfg);
      && (g.Some? <==>
        && bars[|bars| - 1].close > pivot
        && CrossedPivot(Closes(bars), pivot)
        && !Lt(ratio, cfg.volumeRatioMin)
        && (Gt(rsi, cfg.rsiThreshold) || NewHigh(bars, cfg.newHighDays)))
      && (g.Some? ==>
        && g.value.trigger == Breakout
        && 1 <= g.value.strength <= 2
        && (g.value.strength == 2 <==> Gt(rsi, cfg.rsiThreshold) && NewHigh(bars, cfg.newHighDays)))
  {
  }

  /** A breakout signal exists exactly when there are 20 rows and the gates
      pass; its strength is 1 or 2, and 2 when both the RSI and the new-high
      tests hold. */
  lemma BreakoutFacts(f: Frame, pivot: real, cfg: BreakoutConfig)
    requires WellFormed(f)
    ensures var n := |f.bars|;
      DetectBreakout(f, pivot, cfg).Some? <==>
        && n >= 20
        && f.bars[n - 1].close > pivot
        && CrossedPivot(Closes(f.bars), pivot)
        && !Lt(f.volumeRatio[n - 1], cfg.volumeRatioMin)
        && (Gt(f.rsi[n - 1], cfg.rsiThreshold) || NewHigh(f.bars, cfg.newHighDays))
    ensures DetectBreakout(f, pivot, cfg).Some? ==>
      var s := DetectBreakout(f, pivot, cfg).value;
      var n := |f.bars|;
      && s.trigger == Breakout
      && 1 <= s.strength <= 2
      && (s.strength == 2 <==> Gt(f.rsi[n - 1], cfg.rsiThreshold) && NewHigh(f.bars, cfg.newHighDays))
  {
    var n := |f.bars|;
    if n >= 20 {
      BreakoutGatesFacts(f.bars, f.volumeRatio[n - 1], f.rsi[n - 1], pivot, cfg);
    }
  }

  /** With four rows or more, the prior close of the first of the last
      three sessions is the fourth-last close; a crossing needs a close
      above the pivot. */
  lemma CrossingNeedsCloseAbove(closes: seq<real>, pivot: real)
    requires CrossedPivot(closes, pivot)
    ensures |closes| >= 1
    ensures exists k :: |closes| - 3 <= k < |closes| && 0 <= k && closes[k] > pivot
    ensures |closes| >= 4 ==> PrevClose(closes, |closes| - 3) == closes[|closes| - 4]
  {
    var j :| |closes| - MinNat(3, |closes|) <= j < |closes| && CrossesAt(closes, pivot, j);
    assert |closes| - 3 <= j;
  }

  // ---------------------------------------------------------------------
  // Pullback

  /** The first row of the touch window: `max(1, len(recent) - 5)`. */
  function TouchStart(l: nat): nat
  {
    if l >= 6 then l - 5 else 1
  }

  /** Row `i` of the last `l` rows has a low within 2% of the moving
      average `p`; a NaN average never touches, and a zero one gives an
      infinite or undefined distance. */
  predicate Touches(f: Frame, p: nat, l: nat, i: nat)
    requires WellFormed(f) && p in f.ma && l <= |f.bars| && i < l
  {
    var row := |f.bars| - l + i;
    var m := f.ma[p][row];
    m.Some? && Lt(Div(Abs(f.bars[row].low - m.value), m.value), 0.02)
  }

  predicate MaTouched(f: Frame, p: nat, l: nat)
    requires WellFormed(f) && p in f.ma && l <= |f.bars|
  {
    exists i :: TouchStart(l) <= i < l && Touches(f, p, l, i)
  }

  /** The first configured average, in order, that exists and was touched. */
  function SupportMa(f: Frame, periods: seq<nat>, l: nat): (r: Option<nat>)
    requires WellFormed(f) && l <= |f.bars|
    ensures r.Some? ==> l >= 2 && r.value in f.ma && MaTouched(f, r.value, l)
    decreases |periods|
  {
    if |periods| == 0 then None
    else if periods[0] in f.ma && MaTouched(f, periods[0], l) then Some(periods[0])
    else SupportMa(f, periods[1..], l)
  }

  /** The support is the first period of the list that touches; with none,
      no period touches. */
  lemma {:induction false} SupportMaIsFirst(f: Frame, periods: seq<nat>, l: nat)
    requires WellFormed(f) && l <= |f.bars|
    ensures SupportMa(f, periods, l).Some? ==>
      exists k :: 0 <= k < |periods| && periods[k] == SupportMa(f, periods, l).value
        && forall j :: 0 <= j < k ==> !(periods[j] in f.ma && MaTouched(f, periods[j], l))
    ensures SupportMa(f, periods, l).None? ==>
      forall j :: 0 <= j < |periods| ==> !(periods[j] in f.ma && MaTouched(f, periods[j], l))
    decreases |periods|
  {
    if |periods| > 0 && !(periods[0] in f.ma && MaTouched(f, periods[0], l)) {
      var rest := periods[1..];
      SupportMaIsFirst(f, rest, l);
      if SupportMa(f, rest, l).Some? {
        var k :| 0 <= k < |rest| && rest[k] == SupportMa(f, rest, l).value
          && forall j :: 0 <= j < k ==> !(rest[j] in f.ma && MaTouched(f, rest[j], l));
        assert periods[k + 1] == rest[k];
        forall j | 0 <= j < k + 1
          ensures !(periods[j] in f.ma && MaTouched(f, periods[j], l))
        {
          if j > 0 {
            assert periods[j] == rest[j - 1];
          }
        }
      } else {
        forall j | 0 <= j < |periods|
          ensures !(periods[j] in f.ma && MaTouched(f, periods[j], l))
        {
          if j > 0 {
            assert periods[j] == rest[j - 1];
          }
        }
      }
    }
  }

  /** The inner scan over the touch window of one average. */
  method ScanTouch(f: Frame, p: nat, l: nat) returns (touched: bool)
    requires WellFormed(f) && p in f.ma && l <= |f.bars|
    ensures touched == MaTouched(f, p, l)
  {
    var n := |f.bars|;
    var i := TouchStart(l);
    while i < l
      invariant TouchStart(l) <= i <= l || (i == TouchStart(l) && l < i)
      invariant forall k :: TouchStart(l) <= k < i && k < l ==> !Touches(f, p, l, k)
    {
      var row := n - l + i;
      var m := f.ma[p][row];
      if m.Some? {
        var distance := Div(Abs(f.bars[row].low - m.value), m.value);
        if distance.Some? && distance.value < 0.02 {
          assert Touches(f, p, l, i);
          return true;
        }
      }
      i := i + 1;
    }
    return false;
  }

  /** The nested loops of `detect_pullback_trigger` that set `support_ma`. */
  method FindSupportMa(f: Frame, periods: seq<nat>, l: nat) returns (support: Option<nat>)
    requires WellFormed(f) && l <= |f.bars|
    ensures support == SupportMa(f, periods, l)
  {
    var k := 0;
    while k < |periods|
      invariant 0 <= k <= |periods|
      invariant SupportMa(f, periods, l) == SupportMa(f, periods[k..], l)
    {
      assert periods[k..][1..] == periods[k + 1..];
      var p := periods[k];
      if p in f.ma {
        var touched := ScanTouch(f, p, l);
        if touched {
          return Some(p);
        }
      }
      k := k + 1;
    }
    return None;
  }

  /** The latest close beats the highs of the four rows before it
      (`recent.tail(5).iloc[:-1]`). */
  predicate PriorHighBroken(recent: seq<Bar>)
    requires |recent| >= 1
  {
    var last5 := Tail(recent, 5);
    var h := MaxOpt(Highs(last5[..|last5| - 1]));
    h.Some? && recent[|recent| - 1].close > h.value
  }

  /** Whether the last five sessions traded on less volume than the
      window's mean times the shrink ratio. */
  predicate VolumeShrunk(recent: seq<Bar>, shrinkRatio: real)
    requires |recent| >= 1
  {
    Mean(Volumes(Tail(recent, 5))) <= Mean(Volumes(recent)) * shrinkRatio
  }

  /** The fall from the window's highest high to its lowest low, as a
      fraction of the high; undefined (infinite or NaN in the source) when
      that high is zero. */
  function Drawdown(recent: seq<Bar>): Option<real>
    requires |recent| >= 1
  {
    var maxHigh := MaxOf(Highs(recent));
    Div(maxHigh - MinOf(Lows(recent)), maxHigh)
  }

  /** What a found support leads to, on the last `lookback_days` rows and
      the latest volume ratio: volume shrink, a green latest session, the
      recovery volume, the drawdown cap and the strength. */
  function PullbackGates(recent: seq<Bar>, ratio: Option<real>, cfg: PullbackConfig, support: nat): Option<Signal>
    requires |recent| >= 1
  {
    var latest := recent[|recent| - 1];
    if !VolumeShrunk(recent, cfg.volumeShrinkRatio) then None
    else if latest.close <= latest.open then None
    else if Lt(ratio, cfg.recoveryVolumeRatio) then None
    else if Gt(Drawdown(recent), cfg.maxDrawbackPct) then None
    else Some(Signal(Pullback, if PriorHighBroken(recent) then 2 else 1, ratio, Some(0.0), Some(support), Drawdown(recent)))
  }

  /** `detect_pullback_trigger`. */
  function DetectPullback(f: Frame, cfg: PullbackConfig): Option<Signal>
    requires WellFormed(f)
  {
    var n := |f.bars|;
    if n < cfg.lookbackDays + 5 then None
    else
      match SupportMa(f, cfg.maSupport, cfg.lookbackDays)
      case None => None
      case Some(p) => PullbackGates(Tail(f.bars, cfg.lookbackDays), f.volumeRatio[n - 1], cfg, p)
  }

  /** The steps after the support scan, as the source orders them. */
  method PullbackChecks(recent: seq<Bar>, ratio: Option<real>, cfg: PullbackConfig, support: nat) returns (s: Option<Signal>)
    requires |recent| >= 1
    ensures s == PullbackGates(recent, ratio, cfg, support)
  {
    var latest := recent[|recent| - 1];
    var shrunk := VolumeShrunk(recent, cfg.volumeShrinkRatio);
    if !shrunk {
      return None;
    }
    if latest.close <= latest.open {
      return None;
    }
    if ratio.Some? && ratio.value < cfg.recoveryVolumeRatio {
      return None;
    }
    var drawdown := Drawdown(recent);
    if drawdown.Some? && drawdown.value > cfg.maxDrawbackPct {
      return None;
    }
    var strength := 1;
    var broken := PriorHighBroken(recent);
    if broken {
      strength := strength + 1;
    }
    s := Some(Signal(Pullback, strength, ratio, Some(0.0), Some(support), drawdown));
    assert s == PullbackGates(recent, ratio, cfg, support) by {
      assert strength == if PriorHighBroken(recent) then 2 else 1;
    }
  }

  /** `detect_pullback_trigger` step by step. */
  method PullbackTrigger(f: Frame, cfg: PullbackConfig) returns (s: Option<Signal>)
    requires WellFormed(f)
    ensures s == DetectPullback(f, cfg)
  {
    var n := |f.bars|;
    if n < cfg.lookbackDays + 5 {
      return None;
    }
    var support := FindSupportMa(f, cfg.maSupport, cfg.lookbackDays);
    if support.None? {
      return None;
    }
    s := PullbackChecks(Tail(f.bars, cfg.lookbackDays), f.volumeRatio[n - 1], cfg, support.value);
  }

  /** A signal from the gates passed every gate; its strength is 2 exactly
      when the close beats the four prior highs. */
  lemma PullbackGatesFacts(recent: seq<Bar>, ratio: Option<real>, cfg: PullbackConfig, support: nat)
    requires |recent| >= 1
    ensures var s := PullbackGates(recent, ratio, cfg, support);
      var latest := recent[|recent| - 1];
      s.Some? <==>
        && VolumeShrunk(recent, cfg.volumeShrinkRatio)
        && latest.close > latest.open
        && !Lt(ratio, cfg.recoveryVolumeRatio)
        && !Gt(Drawdown(recent), cfg.maxDrawbackPct)
    ensures var s := PullbackGates(recent, ratio, cfg, support);
      s.Some? ==>
        && s.value.trigger == Pullback
        && s.value.supportMa == Some(support)
        && s.value.volumeRatio == ratio
        && (s.value.drawdown.Some? ==> s.value.drawdown.value <= cfg.maxDrawbackPct)
        && (s.value.strength == 1 || s.value.strength == 2)
        && (s.value.strength == 2 <==> PriorHighBroken(recent))
  {
  }

  /** A pullback signal needs `lookback_days + 5` rows and a touched support
      average; the gates then judge the last `lookback_days` rows, whose
      last row is the latest one. */
  lemma PullbackFacts(f: Frame, cfg: PullbackConfig)
    requires WellFormed(f)
    ensures var n := |f.bars|;
      var l := cfg.lookbackDays;
      DetectPullback(f, cfg).Some? ==>
        && n >= l + 5 && l >= 2
        && SupportMa(f, cfg.maSupport, l).Some?
        && MaTouched(f, SupportMa(f, cfg.maSupport, l).value, l)
        && Tail(f.bars, l)[l - 1] == f.bars[n - 1]
  {
    var n := |f.bars|;
    var l := cfg.lookbackDays;
    if n >= l + 5 {
      var support := SupportMa(f, cfg.maSupport, l);
      if support.Some? {
        var recent := Tail(f.bars, l);
        assert |recent| == l;
        if l >= 1 {
          assert recent[l - 1] == f.bars[n - l + (l - 1)];
        }
      }
    }
  }

  // ---------------------------------------------------------------------
  // Stop-loss

  datatype Stop = Stop(price: real, riskPct: real)

  /** The 10% clamp and the risk ratio. */
  function Clamp(entry: real, stop: real): Stop
    requires entry != 0.0
  {
    var price := if (entry - stop) / entry > 0.10 then entry * 0.90 else stop;
    Stop(price, (entry - price) / entry)
  }

  /** For a positive entry the clamp keeps the risk at most 10%, never
      lowers the stop, and leaves the stop at least 90% of the entry; the
      risk is the fraction of the entry below it. */
  lemma ClampBounds(entry: real, stop: real)
    requires entry > 0.0
    ensures var c := Clamp(entry, stop);
      && c.riskPct <= 0.10
      && c.price >= stop
      && c.price >= entry * 0.90
      && c.riskPct * entry == entry - c.price
  {
    var q := (entry - stop) / entry;
    assert q * entry == entry - stop;
    var c := Clamp(entry, stop);
    assert c.riskPct * entry == entry - c.price;
    if q > 0.10 {
      MulStrict(0.10, q, entry);
      assert c.price == entry * 0.90;
      DivExact(entry - entry * 0.90, entry, 0.10);
    } else {
      MulMono(q, 0.10, entry);
      assert c.riskPct == q;
    }
  }

  /** A stop below a positive entry stays below it, with a risk in (0, 10%]. */
  lemma ClampBelowEntry(entry: real, stop: real)
    requires entry > 0.0 && stop < entry
    ensures Clamp(entry, stop).price < entry
    ensures 0.0 < Clamp(entry, stop).riskPct <= 0.10
  {
    ClampBounds(entry, stop);
    var c := Clamp(entry, stop);
    if c.riskPct <= 0.0 {
      MulMono(c.riskPct, 0.0, entry);
    }
  }

  /** A stop at or above a positive entry is left alone, with no risk. */
  lemma ClampNotBelowEntry(entry: real, stop: real)
    requires entry > 0.0 && stop >= entry
    ensures Clamp(entry, stop).price == stop
    ensures Clamp(entry, stop).riskPct <= 0.0
  {
    var q := (entry - stop) / entry;
    assert q * entry == entry - stop;
    if q > 0.0 {
      MulStrict(0.0, q, entry);
    }
    var c := Clamp(entry, stop);
    assert c.riskPct * entry == entry - c.price;
    if c.riskPct > 0.0 {
      MulStrict(0.0, c.riskPct, entry);
    }
  }

  /** The three candidates: a fixed percentage below the entry, a multiple
      of the latest ATR below it (when the ATR is known), and 1% under the
      lowest low of the last 20 rows (when enabled). */
  function PctStop(entry: real, pct: real): real
  {
    entry * (1.0 - pct)
  }

  function AtrStop(f: Frame, entry: real, mult: real): Option<real>
    requires DailyFrame(f)
  {
    var atr := f.atr[|f.bars| - 1];
    if atr.Some? then Some(entry - atr.value * mult) else None
  }

  function LowStop(f: Frame, useStructureLow: bool): Option<real>
    requires DailyFrame(f)
  {
    if useStructureLow then Some(MinOf(Lows(Tail(f.bars, 20))) * 0.99) else None
  }

  /** The maximum as written: a missing candidate stands in as the entry. */
  function HighestAsWritten(entry: real, stop1: real, stop2: Option<real>, stop3: Option<real>): real
  {
    Max(Max(stop1, OrElse(stop2, entry)), OrElse(stop3, entry))
  }

  /** The maximum over the candidates that exist. */
  function Highest(stop1: real, stop2: Option<real>, stop3: Option<real>): (r: real)
    ensures r >= stop1
    ensures stop2.Some? ==> r >= stop2.value
    ensures stop3.Some? ==> r >= stop3.value
    ensures r == stop1 || (stop2.Some? && r == stop2.value) || (stop3.Some? && r == stop3.value)
  {
    Max(Max(stop1, OrElse(stop2, stop1)), OrElse(stop3, stop1))
  }

  /** `calculate_stop_loss` as written. An empty frame raises at
      `iloc[-1]`, a zero entry at the division. */
  function StopLossAsWritten(f: Frame, entry: real, cfg: StopLossConfig): Result<Stop>
    requires WellFormed(f)
  {
    if |f.bars| == 0 then Err("single positional indexer is out-of-bounds")
    else if entry == 0.0 then Err("float division by zero")
    else Ok(Clamp(entry, HighestAsWritten(entry, PctStop(entry, cfg.initialPct),
                                           AtrStop(f, entry, cfg.atrMultiplier), LowStop(f, cfg.useStructureLow))))
  }

  /** The stop-loss with a missing or disabled candidate left out of the
      maximum instead of standing in as the entry. */
  function StopLoss(f: Frame, entry: real, cfg: StopLossConfig): Result<Stop>
    requires WellFormed(f)
  {
    if |f.bars| == 0 then Err("single positional indexer is out-of-bounds")
    else if entry == 0.0 then Err("float division by zero")
    else Ok(Clamp(entry, Highest(PctStop(entry, cfg.initialPct),
                                 AtrStop(f, entry, cfg.atrMultiplier), LowStop(f, cfg.useStructureLow))))
  }

  /** On a positive entry both versions keep the risk at most 10%, the stop
      at least 90% of the entry and no lower than the percentage stop. */
  lemma StopLossBounds(f: Frame, entry: real, cfg: StopLossConfig)
    requires DailyFrame(f) && entry > 0.0
    ensures StopLoss(f, entry, cfg).Ok? && StopLossAsWritten(f, entry, cfg).Ok?
    ensures var s := StopLoss(f, entry, cfg).value;
      s.riskPct <= 0.10 && s.price >= entry * 0.90 && s.price >= PctStop(entry, cfg.initialPct)
    ensures var s := StopLossAsWritten(f, entry, cfg).value;
      s.riskPct <= 0.10 && s.price >= entry * 0.90 && s.price >= PctStop(entry, cfg.initialPct)
  {
    var stop1 := PctStop(entry, cfg.initialPct);
    var stop2 := AtrStop(f, entry, cfg.atrMultiplier);
    var stop3 := LowStop(f, cfg.useStructureLow);
    ClampBounds(entry, Highest(stop1, stop2, stop3));
    ClampBounds(entry, HighestAsWritten(entry, stop1, stop2, stop3));
  }

  /** As written, a disabled structure low or a missing ATR makes the entry
      a candidate, so the stop is never below the entry and the risk is
      never positive. */
  lemma StopNotBelowEntryAsWritten(f: Frame, entry: real, cfg: StopLossConfig)
    requires DailyFrame(f) && entry > 0.0
    requires !cfg.useStructureLow || f.atr[|f.bars| - 1].None?
    ensures StopLossAsWritten(f, entry, cfg).Ok?
    ensures StopLossAsWritten(f, entry, cfg).value.price >= entry
    ensures StopLossAsWritten(f, entry, cfg).value.riskPct <= 0.0
  {
    var stop1 := PctStop(entry, cfg.initialPct);
    var stop2 := AtrStop(f, entry, cfg.atrMultiplier);
    var stop3 := LowStop(f, cfg.useStructureLow);
    assert stop2.None? || stop3.None?;
    ClampNotBelowEntry(entry, HighestAsWritten(entry, stop1, stop2, stop3));
  }

  /** The corrected stop lies strictly below a positive entry whenever every
      candidate that takes part does, so the risk is then in (0, 10%]. */
  lemma StopBelowEntry(f: Frame, entry: real, cfg: StopLossConfig)
    requires DailyFrame(f) && entry > 0.0 && cfg.initialPct > 0.0
    requires f.atr[|f.bars| - 1].Some? ==> f.atr[|f.bars| - 1].value * cfg.atrMultiplier > 0.0
    requires cfg.useStructureLow ==> MinOf(Lows(Tail(f.bars, 20))) * 0.99 < entry
    ensures StopLoss(f, entry, cfg).Ok?
    ensures StopLoss(f, entry, cfg).value.price < entry
    ensures 0.0 < StopLoss(f, entry, cfg).value.riskPct <= 0.10
  {
    var stop1 := PctStop(entry, cfg.initialPct);
    assert entry - stop1 == entry * cfg.initialPct;
    PositiveProduct(entry, cfg.initialPct);
    var stop2 := AtrStop(f, entry, cfg.atrMultiplier);
    var stop3 := LowStop(f, cfg.useStructureLow);
    ClampBelowEntry(entry, Highest(stop1, stop2, stop3));
  }

  // ---------------------------------------------------------------------
  // One instrument

  /** The signal row of `process_single_stock` (before rounding); the risk
      and a pullback's drawdown are in percent. */
  datatype SignalRow = SignalRow(
    code: string,
    name: string,
    trigger: Trigger,
    entryPrice: real,
    stopLoss: real,
    riskPct: real,
    volumeRatio: Option<real>,
    rsi: Option<real>,
    strength: nat,
    weeklyScore: int,
    monthlyTrend: WeeklyScan.Trend,
    support: real,
    resistance: real,
    date: string,
    supportMa: Option<nat>,
    drawdown: Option<real>)

  /** The weekly pivot: the highest high of the last 20 weekly rows. */
  function WeeklyPivot(weekly: seq<Bar>): (p: Option<real>)
    ensures p.Some? <==> |weekly| > 0
    ensures p.Some? ==> forall k :: 0 <= k < |Tail(weekly, 20)| ==> Tail(weekly, 20)[k].high <= p.value
    ensures p.Some? ==> exists k :: 0 <= k < |Tail(weekly, 20)| && Tail(weekly, 20)[k].high == p.value
  {
    var h := Highs(Tail(weekly, 20));
    if |h| == 0 then None else Some(MaxOf(h))
  }

  /** A breakout first; a pullback only when there is none. Without a
      pivot (an empty weekly frame) every comparison with it is false and
      there is no breakout. */
  function SelectSignal(f: Frame, pivot: Option<real>, cfg: DailyConfig): Option<Signal>
    requires WellFormed(f)
  {
    var b := if pivot.Some? then DetectBreakout(f, pivot.value, cfg.breakout) else None;
    if b.Some? then b else DetectPullback(f, cfg.pullback)
  }

  /** `process_single_stock` of the daily scan. The loader gives None for
      a missing or an empty file, and the instrument is then skipped. */
  function ScanStock(info: WeeklyScan.WatchRow, daily: Option<seq<Bar>>, weekly: Option<seq<Bar>>, cfg: DailyConfig)
    : Result<Option<SignalRow>>
  {
    if daily.None? || weekly.None? || |daily.value| == 0 || |weekly.value| == 0 then Ok(None)
    else
      var f := CalculateAllIndicators(daily.value, Daily);
      var n := |f.bars|;
      if n < 60 then Ok(None)
      else
        match SelectSignal(f, WeeklyPivot(weekly.value), cfg)
        case None => Ok(None)
        case Some(s) => SignalRowOf(info, f, s, cfg.stopLoss)
  }

  /** The row of a signal: the entry is the latest close, the stop comes
      from the stop-loss as written, the levels from the last 20 rows; a failing
      stop-loss fails the instrument. */
  function SignalRowOf(info: WeeklyScan.WatchRow, f: Frame, s: Signal, cfg: StopLossConfig): Result<Option<SignalRow>>
    requires WellFormed(f) && |f.bars| >= 60
  {
    var n := |f.bars|;
    var entry := f.bars[n - 1].close;
    match StopLossAsWritten(f, entry, cfg)
    case Err(e) => Err(e)
    case Ok(stop) =>
      var levels := FindSupportResistance(f.bars, 20);
      Ok(Some(SignalRow(
        info.code, info.name, s.trigger, entry, stop.price, stop.riskPct * 100.0,
        s.volumeRatio, s.rsi, s.strength, info.weeklyScore, info.trend,
        levels.support, levels.resistance, f.bars[n - 1].date,
        if s.trigger == Pullback then s.supportMa else None,
        if s.trigger == Pullback && s.drawdown.Some? then Some(s.drawdown.value * 100.0) else None)))
  }

  /** The trigger selection with the two detector methods. */
  method ChooseSignal(f: Frame, pivot: Option<real>, cfg: DailyConfig) returns (signal: Option<Signal>)
    requires WellFormed(f)
    ensures signal == SelectSignal(f, pivot, cfg)
  {
    signal := None;
    if pivot.Some? {
      signal := BreakoutTrigger(f, pivot.value, cfg.breakout);
    }
    if signal.None? {
      signal := PullbackTrigger(f, cfg.pullback);
    }
  }

  /** `process_single_stock` step by step. */
  method ScanSingleStock(info: WeeklyScan.WatchRow, daily: Option<seq<Bar>>, weekly: Option<seq<Bar>>, cfg: DailyConfig)
    returns (r: Result<Option<SignalRow>>)
    ensures r == ScanStock(info, daily, weekly, cfg)
  {
    if daily.None? || weekly.None? || |daily.value| == 0 || |weekly.value| == 0 {
      return Ok(None);
    }
    var f := CalculateAllIndicators(daily.value, Daily);
    var n := |f.bars|;
    if n < 60 {
      return Ok(None);
    }
    var signal := ChooseSignal(f, WeeklyPivot(weekly.value), cfg);
    if signal.None? {
      return Ok(None);
    }
    r := SignalRowOf(info, f, signal.value, cfg.stopLoss);
  }

  /** A pullback is chosen only when no breakout was found; the strength of
      any chosen signal is 1 or 2. */
  lemma SelectSignalFacts(f: Frame, pivot: Option<real>, cfg: DailyConfig)
    requires WellFormed(f)
    ensures var s := SelectSignal(f, pivot, cfg);
      && (s.Some? && s.value.trigger == Pullback ==>
            (pivot.None? || DetectBreakout(f, pivot.value, cfg.breakout).None?) && s == DetectPullback(f, cfg.pullback))
      && (s.Some? && s.value.trigger == Breakout ==>
            pivot.Some? && s == DetectBreakout(f, pivot.value, cfg.breakout))
      && (s.Some? ==> 1 <= s.value.strength <= 2)
  {
    if pivot.Some? {
      BreakoutFacts(f, pivot.value, cfg.breakout);
    }
    if DetectPullback(f, cfg.pullback).Some? {
      PullbackFacts(f, cfg.pullback);
    }
  }

  /** A row's stop and risk on a positive entry: the risk is at most 10%
      (in percent, at most 10) and the stop is at least 90% of the entry. */
  lemma ScanStockRisk(info: WeeklyScan.WatchRow, daily: Option<seq<Bar>>, weekly: Option<seq<Bar>>, cfg: DailyConfig)
    requires ScanStock(info, daily, weekly, cfg).Ok? && ScanStock(info, daily, weekly, cfg).value.Some?
    requires ScanStock(info, daily, weekly, cfg).value.value.entryPrice > 0.0
    ensures var row := ScanStock(info, daily, weekly, cfg).value.value;
      && row.riskPct <= 10.0
      && row.stopLoss >= row.entryPrice * 0.90
      && 1 <= row.strength <= 2
  {
    var f := CalculateAllIndicators(daily.value, Daily);
    StopLossBounds(f, f.bars[|f.bars| - 1].close, cfg.stopLoss);
    SelectSignalFacts(f, WeeklyPivot(weekly.value), cfg);
    var s := SelectSignal(f, WeeklyPivot(weekly.value), cfg).value;
    assert ScanStock(info, daily, weekly, cfg) == SignalRowOf(info, f, s, cfg.stopLoss);
  }

  // ---------------------------------------------------------------------
  // Ranking

  /** `signal_strength * 30 + weekly_score * 0.7`. */
  function Composite(r: SignalRow): real
  {
    (r.strength as real) * 30.0 + (r.weeklyScore as real) * 0.7
  }

  predicate ByComposite(a: SignalRow, b: SignalRow)
  {
    Composite(a) >= Composite(b)
  }

  /** The sort by composite score and `head(max_signals)`. */
  function RankSignals(rows: seq<SignalRow>, maxSignals: nat): seq<SignalRow>
  {
    TopN(rows, maxSignals, ByComposite)
  }

  /** At most `max_signals` rows, drawn from the signals, in descending
      composite score, and none left out scores above one kept. */
  lemma RankSignalsIsOrdered(rows: seq<SignalRow>, maxSignals: nat)
    ensures var r := RankSignals(rows, maxSignals);
      && |r| == MinNat(maxSignals, |rows|)
      && multiset(r) <= multiset(rows)
      && (forall i, j :: 0 <= i < j < |r| ==> Composite(r[i]) >= Composite(r[j]))
      && (forall i, j :: 0 <= i < |r| <= j < |rows| ==> Composite(r[i]) >= Composite(SortBy(rows, ByComposite)[j]))
  {
    assert Total(ByComposite) && Transitive(ByComposite);
    TopNIsBest(rows, maxSignals, ByComposite);
  }

  /** The signals of the watchlist; an instrument that raised is skipped. */
  function Signals(watch: seq<(WeeklyScan.WatchRow, Option<seq<Bar>>, Option<seq<Bar>>)>, cfg: DailyConfig): seq<SignalRow>
    decreases |watch|
  {
    if |watch| == 0 then []
    else
      var w := watch[|watch| - 1];
      var r := ScanStock(w.0, w.1, w.2, cfg);
      Signals(watch[..|watch| - 1], cfg) + (if r.Ok? && r.value.Some? then [r.value.value] else [])
  }

  /** The loop of `main` over the watchlist. */
  method CollectSignals(watch: seq<(WeeklyScan.WatchRow, Option<seq<Bar>>, Option<seq<Bar>>)>, cfg: DailyConfig)
    returns (signals: seq<SignalRow>)
    ensures signals == Signals(watch, cfg)
  {
    signals := [];
    var i := 0;
    while i < |watch|
      invariant 0 <= i <= |watch|
      invariant signals == Signals(watch[..i], cfg)
    {
      assert watch[..i + 1][..i] == watch[..i];
      var w := watch[i];
      var r := ScanSingleStock(w.0, w.1, w.2, cfg);
      if r.Ok? && r.value.Some? {
        signals := signals + [r.value.value];
      }
      i := i + 1;
    }
    assert watch[..|watch|] == watch;
  }
}
