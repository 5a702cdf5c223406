/**
 * SuperTrend bands over trained volatility regimes: src/binance/adaptiveSuperTrend.ts and wilderAtr in indicators.ts.
 */
module AdaptiveSuperTrend {
  import opened Common
  import opened VolatilityRegimes

  datatype Candle = Candle(high: real, low: real, close: real)

  datatype Trend = Bullish | Bearish

  datatype Band = Band(upper: real, lower: real, line: real, trend: Trend)

  datatype Bar = Bar(candle: Candle, atr: real, centroids: Centroids, regime: Regime, assignedAtr: real,
                     superTrend: real, trend: Trend, trendShift: Option<Trend>, regimeShift: Option<Regime>)

  /** Half the band: the factor times the assigned volatility. */
  function Width(factor: real, assignedAtr: real): real {
    factor * assignedAtr
  }

  /** `nextBandState` (adaptiveSuperTrend.ts:84-102). */
  function NextBand(candle: Candle, previousClose: real, assignedAtr: real, factor: real,
                    previous: Option<Band>): Band {
    var hl2 := (candle.high + candle.low) / 2.0;
    var upper := hl2 + Width(factor, assignedAtr);
    var lower := hl2 - Width(factor, assignedAtr);
    match previous
    case None => Band(upper, lower, upper, Bearish)
    case Some(p) =>
      var lower := if lower > p.lower || previousClose < p.lower then lower else p.lower;
      var upper := if upper < p.upper || previousClose > p.upper then upper else p.upper;
      var trend := if p.trend.Bearish? then (if candle.close > upper then Bullish else Bearish)
                   else if candle.close < lower then Bearish else Bullish;
      Band(upper, lower, if trend.Bullish? then lower else upper, trend)
  }

  // ----- Wilder's ATR -----

  function TrueRange(candles: seq<Candle>, i: nat): (tr: real)
    requires i < |candles|
    ensures candles[i].high >= candles[i].low ==> tr >= 0.0
  {
    var c := candles[i];
    var previousClose := if i > 0 then candles[i - 1].close else c.close;
    Max(c.high - c.low, Max(Abs(c.high - previousClose), Abs(c.low - previousClose)))
  }

  /** The true range of a real candle spans its own prices and the close before it, when there is one. */
  lemma TrueRangeSpans(candles: seq<Candle>, i: nat)
    requires i < |candles| && candles[i].low <= candles[i].high
    requires i == 0 ==> candles[i].low <= candles[i].close <= candles[i].high
    ensures
      var c, tr := candles[i], TrueRange(candles, i);
      if i == 0 then tr == c.high - c.low
      else tr == Max(c.high, candles[i - 1].close) - Min(c.low, candles[i - 1].close)
  {}

  function TrueRangeSum(candles: seq<Candle>, n: nat): real
    requires n <= |candles|
  {
    if n == 0 then 0.0 else TrueRangeSum(candles, n - 1) + TrueRange(candles, n - 1)
  }

  function Smoothed(previous: real, period: nat, tr: real): real
    requires period > 0
  {
    (previous * (period - 1) as real + tr) / period as real
  }

  /** The ATR from index `period - 1` on. */
  function AtrAt(candles: seq<Candle>, period: nat, i: nat): real
    requires 0 < period <= i + 1 <= |candles|
    decreases i
  {
    if i == period - 1 then Mean(TrueRangeSum(candles, period), period)
    else Smoothed(AtrAt(candles, period, i - 1), period, TrueRange(candles, i))
  }

  /** `wilderAtr` (indicators.ts:35-48); entries before the seed are undefined. */
  method WilderAtr(candles: seq<Candle>, period: nat) returns (series: seq<Option<real>>)
    ensures |series| == |candles|
    ensures period == 0 || |candles| < period ==> forall i :: 0 <= i < |series| ==> series[i].None?
    ensures 0 < period <= |candles| ==>
              forall i :: 0 <= i < |series| ==>
                series[i] == if i < period - 1 then None else Some(AtrAt(candles, period, i))
  {
    series := seq(|candles|, _ => None);
    if period == 0 || |candles| < period {
      return;
    }
    var trSum := 0.0;
    for i := 0 to |candles|
      invariant |series| == |candles|
      invariant trSum == TrueRangeSum(candles, if i < period then i else period)
      invariant forall k :: 0 <= k < i ==> series[k] == if k < period - 1 then None else Some(AtrAt(candles, period, k))
      invariant forall k :: i <= k < |series| ==> series[k].None?
    {
      var tr := TrueRange(candles, i);
      if i < period {
        trSum := trSum + tr;
      }
      if i == period - 1 {
        series := series[i := Some(trSum / period as real)];
      }
      if i >= period {
        series := series[i := Some(Smoothed(series[i - 1].value, period, tr))];
      }
    }
  }

  /** A candle closes inside its range. */
  ghost predicate RealCandles(candles: seq<Candle>) {
    forall i :: 0 <= i < |candles| ==> candles[i].low <= candles[i].close <= candles[i].high
  }

  lemma SmoothedIsPositiveIff(previous: real, period: nat, tr: real)
    requires period > 0 && tr >= 0.0 && previous >= 0.0
    ensures Smoothed(previous, period, tr) >= 0.0
    ensures Smoothed(previous, period, tr) > 0.0 <==> (period > 1 && previous > 0.0) || tr > 0.0
  {
    var k := (period - 1) as real;
    if period > 1 && previous > 0.0 {
      assert previous * k > 0.0;
    }
  }

  lemma {:induction false} AtrIsNonnegative(candles: seq<Candle>, period: nat, i: nat)
    requires RealCandles(candles) && 0 < period <= i + 1 <= |candles|
    ensures AtrAt(candles, period, i) >= 0.0
    decreases i
  {
    if i == period - 1 {
      SumIsNonnegative(candles, period);
    } else {
      AtrIsNonnegative(candles, period, i - 1);
      SmoothedIsPositiveIff(AtrAt(candles, period, i - 1), period, TrueRange(candles, i));
    }
  }

  lemma {:induction false} SumIsNonnegative(candles: seq<Candle>, n: nat)
    requires RealCandles(candles) && n <= |candles|
    ensures TrueRangeSum(candles, n) >= 0.0
  {
    if n > 0 {
      SumIsNonnegative(candles, n - 1);
    }
  }

  /** An ATR once positive stays positive at every later candle, except over single candles that do not move at all. */
  lemma {:induction false} AtrStaysPositive(candles: seq<Candle>, period: nat, i: nat, j: nat)
    requires RealCandles(candles) && 0 < period <= i + 1 && i < j < |candles|
    requires AtrAt(candles, period, i) > 0.0
    ensures AtrAt(candles, period, j) > 0.0 <==> period > 1 || TrueRange(candles, j) > 0.0
  {
    if i < j - 1 {
      AtrStaysPositive(candles, period, i, j - 1);
    }
    AtrIsNonnegative(candles, period, j - 1);
    SmoothedIsPositiveIff(AtrAt(candles, period, j - 1), period, TrueRange(candles, j));
  }

  // ----- the indicator -----

  datatype Options = Options(atrLength: nat, factor: real, trainingPeriod: nat)

  /** Lengths of one and one together would read a candle before the first. */
  predicate Usable(o: Options) {
    o.trainingPeriod > 0 && !(o.atrLength == 1 && o.trainingPeriod == 1)
  }

  /** Candle `i` has a full training window of ATRs behind it. */
  predicate Trainable(candles: seq<Candle>, o: Options, i: nat) {
    Usable(o) && o.atrLength > 0 && o.atrLength + o.trainingPeriod - 2 <= i < |candles|
  }

  function Atr(candles: seq<Candle>, o: Options, i: nat): real
    requires 0 < o.atrLength <= i + 1 <= |candles|
  {
    AtrAt(candles, o.atrLength, i)
  }

  /** The training window of ATRs ending at candle `i`. */
  function Window(candles: seq<Candle>, o: Options, i: nat): (w: seq<real>)
    requires Trainable(candles, o, i)
    ensures |w| == o.trainingPeriod
  {
    seq(o.trainingPeriod, k requires 0 <= k < o.trainingPeriod => Atr(candles, o, i - o.trainingPeriod + 1 + k))
  }

  /** What the volatility model says about one candle. */
  datatype Reading = Reading(atr: real, centroids: Centroids, regime: Regime)

  function ReadingAt(candles: seq<Candle>, o: Options, i: nat): Reading
    requires Trainable(candles, o, i)
  {
    var atr, c := Atr(candles, o, i), Trained(Window(candles, o, i));
    Reading(atr, c, Nearest(atr, c))
  }

  /** `readings` is right about every candle with a training window, and says nothing of the others. */
  ghost predicate Reads(candles: seq<Candle>, o: Options, readings: seq<Reading>) {
    && |readings| == |candles|
    && forall i: nat {:trigger Trainable(candles, o, i)} :: i < |candles| ==>
         if Trainable(candles, o, i) then readings[i] == ReadingAt(candles, o, i) else readings[i].atr <= 0.0
  }

  ghost function Readings(candles: seq<Candle>, o: Options): (readings: seq<Reading>)
    ensures Reads(candles, o, readings)
  {
    seq(|candles|, i requires 0 <= i < |candles| =>
      if Trainable(candles, o, i) then ReadingAt(candles, o, i) else Reading(0.0, Centroids(0.0, 0.0, 0.0), High))
  }

  /** The volatility assigned: the centroid of the nearest regime. */
  function Assigned(r: Reading): real {
    r.centroids.At(r.regime)
  }

  /** A bar is emitted for candle `i`. */
  predicate Emits(readings: seq<Reading>, i: nat)
    requires i < |readings|
  {
    readings[i].atr > 0.0
  }

  /** The last candle before `i` that a bar was emitted for. */
  function Last(readings: seq<Reading>, i: nat): (e: Option<nat>)
    requires i <= |readings|
    ensures e.Some? ==> e.value < i && Emits(readings, e.value)
  {
    if i == 0 then None
    else if Emits(readings, i - 1) then Some(i - 1)
    else Last(readings, i - 1)
  }

  /** As many readings as candles, and no bar for the first candle. */
  predicate Fit(candles: seq<Candle>, readings: seq<Reading>) {
    |candles| == |readings| && (|readings| > 0 ==> !Emits(readings, 0))
  }

  /** The band at candle `i`, chained to the last one emitted. */
  function BandAt(candles: seq<Candle>, readings: seq<Reading>, factor: real, i: nat): Band
    requires Fit(candles, readings) && 0 < i < |candles|
    decreases i
  {
    NextBand(candles[i], candles[i - 1].close, Assigned(readings[i]), factor, StateAt(candles, readings, factor, i))
  }

  /** The state the loop carries to candle `i`. */
  function StateAt(candles: seq<Candle>, readings: seq<Reading>, factor: real, i: nat): Option<Band>
    requires Fit(candles, readings) && i <= |candles|
    decreases i, 0
  {
    var e := Last(readings, i);
    if e.None? then None else Some(BandAt(candles, readings, factor, e.value))
  }

  /** `buildBar` (adaptiveSuperTrend.ts:104-122). */
  function BuildBar(candle: Candle, r: Reading, next: Band, previous: Option<Bar>): Bar {
    Bar(candle, r.atr, r.centroids, r.regime, Assigned(r), next.line, next.trend,
        if previous.Some? && previous.value.trend != next.trend then Some(next.trend) else None,
        if previous.Some? && previous.value.regime != r.regime then Some(r.regime) else None)
  }

  /** The candles before `n` that bars are emitted for. */
  function Emitted(readings: seq<Reading>, n: nat): (e: seq<nat>)
    requires n <= |readings|
    ensures forall k :: 0 <= k < |e| ==> e[k] < n && Emits(readings, e[k])
  {
    if n == 0 then []
    else if Emits(readings, n - 1) then Emitted(readings, n - 1) + [n - 1]
    else Emitted(readings, n - 1)
  }

  /** They are exactly the emitting ones, in order. */
  lemma {:induction false} EmittedAreAll(readings: seq<Reading>, n: nat, i: nat)
    requires n <= |readings| && i < n
    ensures i in Emitted(readings, n) <==> Emits(readings, i)
    ensures var e := Emitted(readings, n); forall k :: 0 < k < |e| ==> e[k - 1] < e[k]
  {
    if i < n - 1 {
      EmittedAreAll(readings, n - 1, i);
    } else if n > 1 {
      EmittedAreAll(readings, n - 1, 0);
    }
  }

  /** Bar `k` is that of the `k`-th emitting candle, chained to the bar before. */
  ghost predicate IsBar(candles: seq<Candle>, readings: seq<Reading>, factor: real, bars: seq<Bar>, k: nat, i: nat)
    requires Fit(candles, readings) && 0 < i < |candles| && k < |bars|
  {
    bars[k] == BuildBar(candles[i], readings[i], BandAt(candles, readings, factor, i),
                        if k == 0 then None else Some(bars[k - 1]))
  }

  /** The bars are those of the emitting candles, in order, each chained to the bar before. */
  ghost predicate BarsUpTo(candles: seq<Candle>, readings: seq<Reading>, factor: real, n: nat, bars: seq<Bar>)
    requires Fit(candles, readings) && n <= |candles|
  {
    var e := Emitted(readings, n);
    |bars| == |e| && forall k :: 0 <= k < |bars| ==> IsBar(candles, readings, factor, bars, k, e[k])
  }

  /** One more bar leaves the others what they were. */
  lemma BarsExtend(candles: seq<Candle>, readings: seq<Reading>, factor: real, i: nat, bars: seq<Bar>, bar: Bar)
    requires Fit(candles, readings) && 0 < i < |candles| && Emits(readings, i)
    requires BarsUpTo(candles, readings, factor, i, bars)
    requires bar == BuildBar(candles[i], readings[i], BandAt(candles, readings, factor, i),
                             if bars == [] then None else Some(bars[|bars| - 1]))
    ensures BarsUpTo(candles, readings, factor, i + 1, bars + [bar])
    ensures StateAt(candles, readings, factor, i + 1) == Some(BandAt(candles, readings, factor, i))
  {
    var e := Emitted(readings, i);
    forall k | 0 <= k < |bars| ensures IsBar(candles, readings, factor, bars + [bar], k, e[k]) {
      assert IsBar(candles, readings, factor, bars, k, e[k]);
    }
  }

  /**
   * `calculateAdaptiveSuperTrend` (adaptiveSuperTrend.ts:125-145): a bar for exactly the candles with a trained window
   * and a positive ATR, in order, each chained to the bar before it. An index below zero reads no ATR.
   */
  method Calculate(candles: seq<Candle>, o: Options) returns (bars: seq<Bar>)
    requires Usable(o)
    ensures Fit(candles, Readings(candles, o))
    ensures BarsUpTo(candles, Readings(candles, o), o.factor, |candles|, bars)
  {
    var atrs := WilderAtr(candles, o.atrLength);
    bars := Scan(candles, o, atrs, Readings(candles, o));
  }

  /** The loop over the candles (adaptiveSuperTrend.ts:134-144). */
  method Scan(candles: seq<Candle>, o: Options, atrs: seq<Option<real>>, ghost readings: seq<Reading>)
      returns (bars: seq<Bar>)
    requires Usable(o) && Reads(candles, o, readings) && Series(candles, o, atrs) && Fit(candles, readings)
    ensures BarsUpTo(candles, readings, o.factor, |candles|, bars)
  {
    bars := [];
    var state: Option<Band> := None;
    var start: nat := if o.atrLength + o.trainingPeriod < 2 then 0 else o.atrLength + o.trainingPeriod - 2;
    NothingBefore(candles, o, readings, if start < |candles| then start else |candles|);
    if start >= |candles| {
      return;
    }
    for i := start to |candles|
      invariant BarsUpTo(candles, readings, o.factor, i, bars) && state == StateAt(candles, readings, o.factor, i)
    {
      EmitsIff(candles, o, atrs, readings, i);
      if atrs[i].Some? && atrs[i].value > 0.0 {
        bars, state := EmitBar(candles, o, atrs, i, bars, state, readings);
      } else {
        BarsSkip(candles, readings, o.factor, i, bars);
      }
    }
  }

  /** The loop's body at an emitting candle (adaptiveSuperTrend.ts:135-142). */
  method EmitBar(candles: seq<Candle>, o: Options, atrs: seq<Option<real>>, i: nat, bars: seq<Bar>, state: Option<Band>,
                 ghost readings: seq<Reading>)
      returns (longer: seq<Bar>, after: Option<Band>)
    requires Reads(candles, o, readings) && Series(candles, o, atrs) && Fit(candles, readings)
    requires Trainable(candles, o, i) && 0 < i && Emits(readings, i)
    requires BarsUpTo(candles, readings, o.factor, i, bars) && state == StateAt(candles, readings, o.factor, i)
    ensures BarsUpTo(candles, readings, o.factor, i + 1, longer) && after == StateAt(candles, readings, o.factor, i + 1)
  {
    var reading := ReadCandle(candles, o, i, atrs, readings);
    var next := NextBand(candles[i], candles[i - 1].close, Assigned(reading), o.factor, state);
    var bar := BuildBar(candles[i], reading, next, if |bars| > 0 then Some(bars[|bars| - 1]) else None);
    BarsExtend(candles, readings, o.factor, i, bars, bar);
    longer, after := bars + [bar], Some(next);
  }

  lemma EmitsIff(candles: seq<Candle>, o: Options, atrs: seq<Option<real>>, readings: seq<Reading>, i: nat)
    requires Usable(o) && Reads(candles, o, readings) && i < |candles| && o.atrLength + o.trainingPeriod - 2 <= i
    requires Series(candles, o, atrs)
    ensures atrs[i].Some? && atrs[i].value > 0.0 <==> Emits(readings, i)
    ensures Emits(readings, i) ==> Trainable(candles, o, i) && i > 0
  {
    assert Trainable(candles, o, i) <==> o.atrLength > 0;
  }

  lemma BarsSkip(candles: seq<Candle>, readings: seq<Reading>, factor: real, i: nat, bars: seq<Bar>)
    requires Fit(candles, readings) && i < |candles| && !Emits(readings, i)
             && BarsUpTo(candles, readings, factor, i, bars)
    ensures BarsUpTo(candles, readings, factor, i + 1, bars)
    ensures StateAt(candles, readings, factor, i + 1) == StateAt(candles, readings, factor, i)
  {
    assert Emitted(readings, i + 1) == Emitted(readings, i);
  }

  /** Without a trained window there is no bar. */
  lemma {:induction false} NothingBefore(candles: seq<Candle>, o: Options, readings: seq<Reading>, n: nat)
    requires Reads(candles, o, readings) && Fit(candles, readings)
    requires n == 0 || (n <= |candles| && n <= o.atrLength + o.trainingPeriod - 2)
    ensures BarsUpTo(candles, readings, o.factor, n, []) && StateAt(candles, readings, o.factor, n) == None
  {
    if n > 0 {
      NothingBefore(candles, o, readings, n - 1);
      assert !Trainable(candles, o, n - 1);
    }
  }

  ghost predicate Series(candles: seq<Candle>, o: Options, atrs: seq<Option<real>>)
  {
    && |atrs| == |candles|
    && if 0 < o.atrLength <= |candles|
       then forall k :: o.atrLength - 1 <= k < |atrs| ==> atrs[k] == Some(Atr(candles, o, k))
       else forall k :: 0 <= k < |atrs| ==> atrs[k].None?
  }

  /** Centroids and regime of candle `i` (adaptiveSuperTrend.ts:136-139). */
  method ReadCandle(candles: seq<Candle>, o: Options, i: nat, atrs: seq<Option<real>>, ghost readings: seq<Reading>)
      returns (r: Reading)
    requires Trainable(candles, o, i) && Series(candles, o, atrs) && Reads(candles, o, readings)
    ensures r == readings[i]
  {
    var window := TrainingWindow(candles, o, i, atrs);
    var c := KMeans(window, InitialCentroids(window));
    var regime := NearestRegime(atrs[i].value, c);
    r := Reading(atrs[i].value, c, regime);
  }

  /** The ATRs that the regimes at candle `i` are trained on (adaptiveSuperTrend.ts:136). */
  method TrainingWindow(candles: seq<Candle>, o: Options, i: nat, atrs: seq<Option<real>>) returns (window: seq<real>)
    requires Trainable(candles, o, i) && Series(candles, o, atrs)
    ensures window == Window(candles, o, i)
  {
    window := [];
    for k := 0 to o.trainingPeriod
      invariant |window| == k
      invariant forall j :: 0 <= j < k ==> window[j] == Atr(candles, o, i - o.trainingPeriod + 1 + j)
    {
      window := window + [atrs[i - o.trainingPeriod + 1 + k].value];
    }
  }

  // ----- the ratchet -----

  /** A bar that stays in the trend closes on its own side of the line. */
  ghost predicate Holds(candle: Candle, b: Band) {
    if b.trend.Bullish? then candle.close >= b.lower && b.line == b.lower
    else candle.close <= b.upper && b.line == b.upper
  }

  /** `a` is at least as close to the price as `b`. */
  predicate Closer(trend: Trend, a: Band, b: Band) {
    if trend.Bullish? then a.line >= b.line else a.line <= b.line
  }

  lemma StayingHolds(candle: Candle, previousClose: real, atr: real, factor: real, previous: Band)
    requires NextBand(candle, previousClose, atr, factor, Some(previous)).trend == previous.trend
    ensures Holds(candle, NextBand(candle, previousClose, atr, factor, Some(previous)))
  {}

  lemma HoldingRatchets(candle: Candle, held: Candle, atr: real, factor: real, previous: Band)
    requires Holds(held, previous)
    requires NextBand(candle, held.close, atr, factor, Some(previous)).trend == previous.trend
    ensures Closer(previous.trend, NextBand(candle, held.close, atr, factor, Some(previous)), previous)
  {}

  /** Once bars are emitted, a candle without one closes where the candle before it did. */
  ghost predicate Quiet(candles: seq<Candle>, readings: seq<Reading>)
    requires Fit(candles, readings)
  {
    forall k :: 0 < k < |candles| && !Emits(readings, k) && Last(readings, k).Some? ==>
      candles[k].close == candles[k - 1].close
  }

  /**
   * Only a candle that did not move at all is skipped again: then the ATR is over single candles, and it has no range.
   */
  lemma SkippedAreQuiet(candles: seq<Candle>, o: Options, readings: seq<Reading>)
    requires RealCandles(candles) && Reads(candles, o, readings) && Fit(candles, readings)
    ensures Quiet(candles, readings)
  {
    forall k | 0 < k < |candles| && !Emits(readings, k) && Last(readings, k).Some?
      ensures candles[k].close == candles[k - 1].close
    {
      var e := Last(readings, k).value;
      assert Trainable(candles, o, e) && Trainable(candles, o, k);
      AtrStaysPositive(candles, o.atrLength, e, k);
    }
  }

  /** The close the next band is compared with is the one its state was left with. */
  lemma {:induction false} HeldClose(candles: seq<Candle>, readings: seq<Reading>, i: nat)
    requires Fit(candles, readings) && Quiet(candles, readings) && 0 < i <= |candles| && Last(readings, i).Some?
    ensures candles[i - 1].close == candles[Last(readings, i).value].close
  {
    if !Emits(readings, i - 1) {
      HeldClose(candles, readings, i - 1);
    }
  }

  lemma {:induction false} LastIsPrevious(readings: seq<Reading>, n: nat, k: nat)
    requires n <= |readings| && k < |Emitted(readings, n)|
    ensures Last(readings, Emitted(readings, n)[k]) == if k == 0 then None else Some(Emitted(readings, n)[k - 1])
  {
    if k < |Emitted(readings, n - 1)| {
      LastIsPrevious(readings, n - 1, k);
    } else {
      LastIsTail(readings, n - 1);
    }
  }

  lemma {:induction false} LastIsTail(readings: seq<Reading>, n: nat)
    requires n <= |readings|
    ensures var e := Emitted(readings, n); Last(readings, n) == if e == [] then None else Some(e[|e| - 1])
  {
    if n > 0 {
      LastIsTail(readings, n - 1);
    }
  }

  /** The band of the `k`-th bar. */
  function BarBand(candles: seq<Candle>, readings: seq<Reading>, factor: real, k: nat): Band
    requires Fit(candles, readings) && k < |Emitted(readings, |candles|)|
  {
    BandAt(candles, readings, factor, Emitted(readings, |candles|)[k])
  }

  /** Each bar's band is the next one of the bar before it, compared with that bar's own close. */
  lemma BandsChain(candles: seq<Candle>, readings: seq<Reading>, factor: real, k: nat)
    requires Fit(candles, readings) && Quiet(candles, readings) && 0 < k < |Emitted(readings, |candles|)|
    ensures var e := Emitted(readings, |candles|);
            BarBand(candles, readings, factor, k) ==
            NextBand(candles[e[k]], candles[e[k - 1]].close, Assigned(readings[e[k]]), factor,
                     Some(BarBand(candles, readings, factor, k - 1)))
  {
    var e := Emitted(readings, |candles|);
    LastIsPrevious(readings, |candles|, k);
    HeldClose(candles, readings, e[k]);
    assert StateAt(candles, readings, factor, e[k]) == Some(BandAt(candles, readings, factor, e[k - 1]));
  }

  /** The bars `from..to` are of one trend. */
  ghost predicate TrendRun(candles: seq<Candle>, readings: seq<Reading>, factor: real, trend: Trend, from: nat, to: nat)
    requires Fit(candles, readings)
  {
    && to < |Emitted(readings, |candles|)|
    && forall k :: from <= k <= to ==> BarBand(candles, readings, factor, k).trend == trend
  }

  lemma RunStep(candles: seq<Candle>, readings: seq<Reading>, factor: real, trend: Trend, from: nat, k: nat)
    requires Fit(candles, readings) && Quiet(candles, readings)
    requires from < k - 1 && TrendRun(candles, readings, factor, trend, from, k)
    ensures Closer(trend, BarBand(candles, readings, factor, k), BarBand(candles, readings, factor, k - 1))
  {
    var e := Emitted(readings, |candles|);
    var older, previous := BarBand(candles, readings, factor, k - 2), BarBand(candles, readings, factor, k - 1);
    BandsChain(candles, readings, factor, k - 1);
    BandsChain(candles, readings, factor, k);
    assert older.trend == trend && previous.trend == trend && BarBand(candles, readings, factor, k).trend == trend;
    StayingHolds(candles[e[k - 1]], candles[e[k - 2]].close, Assigned(readings[e[k - 1]]), factor, older);
    HoldingRatchets(candles[e[k]], candles[e[k - 1]], Assigned(readings[e[k]]), factor, previous);
  }

  /**
   * Main result: inside an unbroken trend, from its second bar on, the line only moves toward the
   * price whatever the volatility assigned: a bullish line never falls and a bearish line never rises.
   */
  lemma {:induction false} LineOnlyRatchets(candles: seq<Candle>, readings: seq<Reading>, factor: real, trend: Trend,
                                            from: nat, i: nat, j: nat)
    requires Fit(candles, readings) && Quiet(candles, readings)
    requires from < i <= j && TrendRun(candles, readings, factor, trend, from, j)
    ensures Closer(trend, BarBand(candles, readings, factor, j), BarBand(candles, readings, factor, i))
    decreases j - i
  {
    if i < j {
      LineOnlyRatchets(candles, readings, factor, trend, from, i, j - 1);
      RunStep(candles, readings, factor, trend, from, j);
    }
  }

  lemma BarShowsBand(candles: seq<Candle>, readings: seq<Reading>, factor: real, bars: seq<Bar>, k: nat)
    requires Fit(candles, readings) && BarsUpTo(candles, readings, factor, |candles|, bars) && k < |bars|
    ensures bars[k].trend == BarBand(candles, readings, factor, k).trend
    ensures bars[k].superTrend == BarBand(candles, readings, factor, k).line
  {
    assert IsBar(candles, readings, factor, bars, k, Emitted(readings, |candles|)[k]);
  }

  /**
   * The same of the bars emitted: their lines only move toward the price inside an unbroken trend, from its second bar
   * on.
   */
  lemma EmittedLineOnlyRatchets(candles: seq<Candle>, o: Options, readings: seq<Reading>, bars: seq<Bar>,
                                from: nat, i: nat, j: nat)
    requires RealCandles(candles) && Reads(candles, o, readings) && Fit(candles, readings)
    requires BarsUpTo(candles, readings, o.factor, |candles|, bars)
    requires from < i <= j < |bars| && forall k :: from <= k <= j ==> bars[k].trend == bars[j].trend
    ensures if bars[j].trend.Bullish? then bars[i].superTrend <= bars[j].superTrend
            else bars[i].superTrend >= bars[j].superTrend
  {
    SkippedAreQuiet(candles, o, readings);
    forall k | from <= k <= j ensures BarBand(candles, readings, o.factor, k).trend == bars[j].trend {
      BarShowsBand(candles, readings, o.factor, bars, k);
    }
    LineOnlyRatchets(candles, readings, o.factor, bars[j].trend, from, i, j);
    BarShowsBand(candles, readings, o.factor, bars, i);
    BarShowsBand(candles, readings, o.factor, bars, j);
  }

  function RawLower(candle: Candle, assignedAtr: real, factor: real): real {
    (candle.high + candle.low) / 2.0 - Width(factor, assignedAtr)
  }

  function RawUpper(candle: Candle, assignedAtr: real, factor: real): real {
    (candle.high + candle.low) / 2.0 + Width(factor, assignedAtr)
  }

  /**
   * Exactly when the line of an unbroken trend moves away from the price: the close before ended on the wrong side of
   * the band it left, and the candle's own band lies beyond it. After its second bar a run has no such bar, so this is
   * the second.
   */
  lemma LineRetreatsIff(candles: seq<Candle>, readings: seq<Reading>, factor: real, i: nat)
    requires Fit(candles, readings) && 0 < i < |candles| && StateAt(candles, readings, factor, i).Some?
    requires BandAt(candles, readings, factor, i).trend == StateAt(candles, readings, factor, i).value.trend
    ensures
      var p := StateAt(candles, readings, factor, i).value;
      var line, previousClose := BandAt(candles, readings, factor, i).line, candles[i - 1].close;
      if p.trend.Bullish? then
        line < p.line <==> previousClose < p.lower && RawLower(candles[i], Assigned(readings[i]), factor) < p.lower
      else
        line > p.line <==> previousClose > p.upper && RawUpper(candles[i], Assigned(readings[i]), factor) > p.upper
  {
    var p := BandAt(candles, readings, factor, Last(readings, i).value);
    assert p.line == if p.trend.Bullish? then p.lower else p.upper;
  }

  /**
   * Each edge of the band is held at the tighter of its last place and the candle's own, while the close before had
   * not crossed it; a trend turns exactly when the close crosses the edge it is held by; and the line is that edge.
   */
  lemma TurnsThroughItsEdge(candle: Candle, previousClose: real, atr: real, factor: real, p: Band)
    ensures
      var n := NextBand(candle, previousClose, atr, factor, Some(p));
      var lower, upper := RawLower(candle, atr, factor), RawUpper(candle, atr, factor);
      && n.lower == (if previousClose >= p.lower then Max(lower, p.lower) else lower)
      && n.upper == (if previousClose <= p.upper then Min(upper, p.upper) else upper)
      && (n.trend != p.trend <==> if p.trend.Bullish? then candle.close < n.lower else candle.close > n.upper)
      && n.line == if n.trend.Bullish? then n.lower else n.upper
  {}

  /**
   * A bar announces a trend exactly when the bar before showed the other one, and then its own; the same of the regime.
   * The first bar announces nothing.
   */
  lemma BarsAnnounceTheirChanges(candles: seq<Candle>, readings: seq<Reading>, factor: real, bars: seq<Bar>, k: nat)
    requires Fit(candles, readings) && BarsUpTo(candles, readings, factor, |candles|, bars) && k < |bars|
    ensures
      var changed := k > 0 && bars[k].trend != bars[k - 1].trend;
      (bars[k].trendShift.Some? <==> changed) && (changed ==> bars[k].trendShift.value == bars[k].trend)
    ensures
      var changed := k > 0 && bars[k].regime != bars[k - 1].regime;
      (bars[k].regimeShift.Some? <==> changed) && (changed ==> bars[k].regimeShift.value == bars[k].regime)
    ensures bars[k].assignedAtr == bars[k].centroids.At(bars[k].regime)
  {
    assert IsBar(candles, readings, factor, bars, k, Emitted(readings, |candles|)[k]);
  }

  const JUMP: seq<Candle> := [Candle(100.0, 99.0, 99.5), Candle(100.0, 99.0, 99.5), Candle(130.0, 90.0, 101.0),
                              Candle(105.0, 103.0, 104.0)]

  /** ATRs over two candles, each its own training window, and bands of a tenth of it. */
  const NARROW: Options := Options(2, 0.1, 1)

  /** A window of one ATR trains every regime to it. */
  lemma SingleWindow(candles: seq<Candle>, o: Options, i: nat)
    requires Trainable(candles, o, i) && o.trainingPeriod == 1
    ensures Assigned(ReadingAt(candles, o, i)) == Atr(candles, o, i)
  {
    TrainedRegimes(Window(candles, o, i));
  }

  lemma JumpReads(readings: seq<Reading>)
    requires Reads(JUMP, NARROW, readings)
    ensures |readings| == 4 && Emitted(readings, 4) == [1, 2, 3] && Emits(readings, 1) && Emits(readings, 2)
    ensures Assigned(readings[1]) == 1.0 && Assigned(readings[2]) == 20.5 && Assigned(readings[3]) == 12.25
  {
    JumpAtrs();
    assert !Trainable(JUMP, NARROW, 0);
    JumpReading(readings, 1); JumpReading(readings, 2); JumpReading(readings, 3);
    assert Emitted(readings, 1) == [] && Emitted(readings, 2) == [1] && Emitted(readings, 3) == [1, 2];
  }

  lemma JumpAtrs()
    ensures AtrAt(JUMP, 2, 1) == 1.0 && AtrAt(JUMP, 2, 2) == 20.5 && AtrAt(JUMP, 2, 3) == 12.25
  {
    assert TrueRange(JUMP, 0) == 1.0 && TrueRange(JUMP, 1) == 1.0;
    assert TrueRange(JUMP, 2) == 40.0 && TrueRange(JUMP, 3) == 4.0;
    assert TrueRangeSum(JUMP, 1) == 1.0 && TrueRangeSum(JUMP, 2) == 2.0;
  }

  lemma JumpReading(readings: seq<Reading>, i: nat)
    requires Reads(JUMP, NARROW, readings) && 0 < i < 4
    ensures readings[i].atr == AtrAt(JUMP, 2, i) && Assigned(readings[i]) == AtrAt(JUMP, 2, i)
  {
    assert Trainable(JUMP, NARROW, i);
    SingleWindow(JUMP, NARROW, i);
  }

  /**
   * Such a bar among those the indicator emits: a wide candle turns the trend and still closes below the lower band it
   * leaves behind, and the next bullish line lies lower.
   */
  lemma SecondBarMayFall(readings: seq<Reading>, bars: seq<Bar>)
    requires Reads(JUMP, NARROW, readings) && Fit(JUMP, readings)
    requires BarsUpTo(JUMP, readings, NARROW.factor, |JUMP|, bars)
    ensures |bars| == 3 && bars[1].trend.Bullish? && bars[2].trend.Bullish? && bars[2].superTrend < bars[1].superTrend
  {
    JumpReads(readings);
    assert BandAt(JUMP, readings, 0.1, 1) == Band(99.6, 99.4, 99.6, Bearish);
    assert BandAt(JUMP, readings, 0.1, 2) == Band(99.6, 107.95, 107.95, Bullish);
    assert BandAt(JUMP, readings, 0.1, 3).lower == 102.775;
    BarShowsBand(JUMP, readings, 0.1, bars, 1);
    BarShowsBand(JUMP, readings, 0.1, bars, 2);
  }

  /**
   * What every bar assigns: with ordered regimes, a volatility inside its window's range, from the nearest centroid.
   */
  lemma AssignedVolatility(window: seq<real>, atr: real, r: Regime)
    requires |window| > 0
    ensures
      var c := Trained(window);
      var nearest := c.At(Nearest(atr, c));
      && Ordered(c) && Lowest(window) <= nearest <= Highest(window) && Abs(atr - nearest) <= Abs(atr - c.At(r))
  {
    TrainedRegimes(window);
    var c := Trained(window);
    assert Distance(atr, c, Nearest(atr, c)) <= Distance(atr, c, r);
  }
}
