/**
 * The carry simulation read as two legs of one unit of notional each: spot bought and perp sold short, with a fill
 * for every order, funding on the perp's value, and the path of the equity.
 */
module CarryLedger {
  import opened Common
  import opened CarryBacktest
  import opened Sums

  // ----- the legs -----

  /** What a leg of one unit of notional at its entry price is worth at another price. */
  function Worth(entry: Positive, price: real): real {
    price / entry
  }

  /** The bought leg earns what it is worth more than one, the sold leg what it is worth less. */
  function LegsResult(pos: OpenPosition, spotPx: real, perpPx: real): real {
    (Worth(pos.spotPx, spotPx) - 1.0) + (1.0 - Worth(pos.perpPx, perpPx))
  }

  function SpotFill(c: Costs): real {
    c.spotFeeRate + c.slippageRate
  }

  function PerpFill(c: Costs): real {
    c.perpFeeRate + c.slippageRate
  }

  lemma ChangeIsWorth(from: Positive, to: real)
    ensures Change(from, to) == Worth(from, to) - 1.0
  {
    assert (to - from) / from == to / from - from / from;
  }

  /**
   * A cycle reports, in percent of the notional, the funding its position received, the result of its legs and one fee
   * and slippage for every fill: four, or three after a liquidation, which takes the whole margin instead of a fill.
   */
  lemma CycleIsItsFills(pos: OpenPosition, at: int, spotPx: real, perpPx: real, reason: Reason, p: Params)
    ensures
      var c, cost := CycleOf(pos, at, spotPx, perpPx, reason, p), p.costs;
      && c.funding == 100.0 * pos.funding && c.net == c.funding + c.basis - c.costs
      && c.enteredAt == pos.at && c.exitedAt == at && c.intervals == pos.intervals && c.reason == reason
      && (reason != Liquidated ==>
            && c.basis == 100.0 * LegsResult(pos, spotPx, perpPx)
            && c.costs == 100.0 * (2.0 * SpotFill(cost) + 2.0 * PerpFill(cost)))
      && (reason == Liquidated ==>
            && c.basis == 100.0 * (Worth(pos.spotPx, spotPx) - 1.0 - 1.0 / p.perpLeverage)
            && c.costs == 100.0 * (2.0 * SpotFill(cost) + PerpFill(cost)))
  {
    ChangeIsWorth(pos.spotPx, spotPx);
    ChangeIsWorth(pos.perpPx, perpPx);
  }

  /** Closing realises what the cycle reports but for the entry's two fills, which were realised when it opened. */
  lemma ClosingRealisesTheCycle(sim: Sim, pos: OpenPosition, at: int, spotPx: real, perpPx: real, reason: Reason,
                                p: Params)
    ensures
      var after := Close(sim, pos, at, spotPx, perpPx, reason, p);
      && after.open.None? && |after.cycles| == |sim.cycles| + 1
      && 100.0 * (after.realised - sim.realised) ==
         after.cycles[|sim.cycles|].net + 100.0 * (SpotFill(p.costs) + PerpFill(p.costs))
  {}

  /** When both prices have moved by the same factor the legs cancel. */
  lemma ParallelMovesCancel(pos: OpenPosition, factor: real)
    ensures PriceLeg(pos, factor * pos.spotPx, factor * pos.perpPx) == 0.0
  {
    ChangeIsWorth(pos.spotPx, factor * pos.spotPx);
    ChangeIsWorth(pos.perpPx, factor * pos.perpPx);
    WorthOfScaled(pos.spotPx, factor * pos.spotPx, factor);
    WorthOfScaled(pos.perpPx, factor * pos.perpPx, factor);
  }

  // ----- holding -----

  /** The short has lost its margin but for the maintenance margin. */
  predicate IsExhausted(pos: OpenPosition, p: Params, perpPx: real) {
    Worth(pos.perpPx, perpPx) - 1.0 >= 1.0 / p.perpLeverage - p.maintenanceMarginRate
  }

  lemma LiquidationPriceExhausts(pos: OpenPosition, p: Params)
    ensures Worth(pos.perpPx, LiquidationPrice(pos, p)) - 1.0 == 1.0 / p.perpLeverage - p.maintenanceMarginRate
    ensures forall price: real :: price >= LiquidationPrice(pos, p) <==> IsExhausted(pos, p, price)
  {
    var level := LiquidationPrice(pos, p);
    var factor := 1.0 + Margin(p) - p.maintenanceMarginRate;
    WorthOfScaled(pos.perpPx, level, factor);
    forall price: real ensures price >= level <==> Worth(pos.perpPx, price) >= Worth(pos.perpPx, level) {
      WorthGrows(pos.perpPx, price, level);
    }
  }

  lemma WorthOfScaled(entry: Positive, price: real, factor: real)
    requires price == entry * factor
    ensures Worth(entry, price) == factor
  {}

  lemma WorthGrows(entry: Positive, a: real, b: real)
    ensures a >= b <==> Worth(entry, a) >= Worth(entry, b)
  {
    var x, y := Worth(entry, a), Worth(entry, b);
    assert x * entry == a && y * entry == b;
    assert (x - y) * entry == a - b;
  }

  /** What the short receives at a rate when its perp leg stands at a price. */
  function Received(rate: real, pos: OpenPosition, perpPx: real): real {
    rate * Worth(pos.perpPx, perpPx)
  }

  lemma AccrualIsReceived(rate: real, pos: OpenPosition, perpPx: real)
    ensures Accrual(rate, pos, perpPx) == Received(rate, pos, perpPx)
  {}

  /** A perp bar that opens in the interval and exhausts the short at its high. */
  predicate Strikes(b: Bar, from: int, to: int, pos: OpenPosition, p: Params) {
    from <= b.openTime <= to && IsExhausted(pos, p, b.high)
  }

  /** The first bar that strikes. */
  ghost predicate IsFirstStrike(perp: seq<Bar>, k: int, from: int, to: int, pos: OpenPosition, p: Params) {
    && 0 <= k < |perp| && Strikes(perp[k], from, to, pos, p)
    && forall j :: 0 <= j < k ==> !Strikes(perp[j], from, to, pos, p)
  }

  /** One more cycle: the spot leg sold when bar `k` struck, at the latest price known by then, and the short lost. */
  ghost predicate IsLiquidation(after: seq<Cycle>, before: seq<Cycle>, held: OpenPosition, spot: seq<Bar>, at: int,
                                p: Params, s: Bar)
  {
    var sold := BarAt(spot, at);
    after == before + [CycleOf(held, at, if sold.Some? then sold.value.open else s.open, 0.0, Liquidated, p)]
  }

  lemma {:induction false} BreachIsFirstStrike(perp: seq<Bar>, from: int, to: int, pos: OpenPosition, p: Params)
      returns (k: int)
    requires FirstBreach(perp, from, to, LiquidationPrice(pos, p)).Some?
    ensures IsFirstStrike(perp, k, from, to, pos, p)
            && perp[k] == FirstBreach(perp, from, to, LiquidationPrice(pos, p)).value
  {
    LiquidationPriceExhausts(pos, p);
    if Breaches(perp[0], from, to, LiquidationPrice(pos, p)) {
      k := 0;
    } else {
      var rest := BreachIsFirstStrike(perp[1..], from, to, pos, p);
      k := rest + 1;
      forall j | 0 <= j < k ensures !Strikes(perp[j], from, to, pos, p) {
        assert j > 0 ==> perp[j] == perp[1..][j - 1];
      }
    }
  }

  /**
   * An open position receives the interval's rate on what its perp leg is worth now, and counts the interval. It is
   * liquidated exactly when a perp bar opening in the interval exhausts the short at its high, and then at the
   * liquidation price.
   */
  lemma HoldingAccrues(sim: Sim, funding: seq<FundingPoint>, i: nat, spot: seq<Bar>, perp: seq<Bar>, p: Params, s: Bar,
                       q: Bar)
    requires i < |funding| && sim.open.Some?
    ensures
      var pos := sim.open.value;
      var held := pos.(funding := pos.funding + Received(funding[i].rate, pos, q.open),
                           intervals := pos.intervals + 1);
      var from := if i > 0 then funding[i - 1].time else pos.at;
      var (after, liquidated) := Hold(sim, funding, i, spot, perp, p, s, q);
      && (liquidated <==> exists k :: 0 <= k < |perp| && Strikes(perp[k], from, funding[i].time, pos, p))
      && after.inMarket == sim.inMarket + 1
      && (!liquidated ==> after == sim.(open := Some(held), inMarket := sim.inMarket + 1))
      && (liquidated ==>
            && after.open.None?
            && exists k :: IsFirstStrike(perp, k, from, funding[i].time, pos, p)
                           && IsLiquidation(after.cycles, sim.cycles, held, spot, perp[k].openTime, p, s))
  {
    var pos := sim.open.value;
    LiquidationPriceExhausts(pos, p);
    AccrualIsReceived(funding[i].rate, pos, q.open);
    var from := ScanFrom(funding, i, pos);
    var breach := FirstBreach(perp, from, funding[i].time, LiquidationPrice(pos, p));
    if breach.Some? {
      var k := BreachIsFirstStrike(perp, from, funding[i].time, pos, p);
      assert Strikes(perp[k], from, funding[i].time, pos, p);
    } else {
      forall k | 0 <= k < |perp| ensures !Strikes(perp[k], from, funding[i].time, pos, p) {
        assert !Breaches(perp[k], from, funding[i].time, LiquidationPrice(pos, p));
      }
    }
  }

  // ----- deciding -----

  function RateOf(f: FundingPoint): real {
    f.rate
  }

  lemma {:induction false} SumRatesIsSum(funding: seq<FundingPoint>)
    ensures SumRates(funding) == Sum(funding, RateOf)
  {
    if funding != [] {
      SumRatesIsSum(funding[..|funding| - 1]);
    }
  }

  function Scaled(x: real, factor: real): real {
    x * factor
  }

  /** A year's funding at the mean of the last `lookback` rates up to `i`. */
  ghost predicate YearlyMean(funding: seq<FundingPoint>, i: nat, lookback: nat, yearly: real)
    requires i < |funding|
  {
    && 0 < lookback <= i + 1
    && Scaled(yearly, lookback as real) == 3.0 * 365.0 * Sum(funding[i + 1 - lookback..i + 1], RateOf)
  }

  lemma MeanIsYearly(funding: seq<FundingPoint>, i: nat, lookback: nat, apr: real)
    requires i < |funding|
    ensures TrailingMean(funding, i, lookback).Some? <==> 0 < lookback <= i + 1
    ensures
      var mean := TrailingMean(funding, i, lookback);
      mean.Some? ==> YearlyMean(funding, i, lookback, 1095.0 * mean.value)
                     && (mean.value >= AprToRate(apr) <==> 1095.0 * mean.value >= apr)
  {
    var mean := TrailingMean(funding, i, lookback);
    if mean.Some? {
      var window := funding[i + 1 - lookback..i + 1];
      SumRatesIsSum(window);
      QuotientScalesBack(Sum(window, RateOf), lookback as real);
    }
  }

  lemma QuotientScalesBack(total: real, n: real)
    requires n > 0.0
    ensures Scaled(1095.0 * (total / n), n) == 1095.0 * total
  {
    assert Scaled(total / n, n) == total;
    assert Scaled(1095.0 * (total / n), n) == 1095.0 * Scaled(total / n, n);
  }

  /**
   * A flat simulation enters exactly when the trailing mean, over a year, is at least the entry threshold and it did
   * not close in this step; an open one leaves by signal exactly when it is below the exit threshold and the position
   * has been held long enough; without a full window of rates nothing is decided.
   */
  lemma DecidesOnTheMean(sim: Sim, justClosed: bool, funding: seq<FundingPoint>, i: nat, p: Params, s: Bar, q: Bar,
                         yearly: real)
    requires i < |funding|
    requires p.lookback == 0 || i + 1 < p.lookback || YearlyMean(funding, i, p.lookback, yearly)
    ensures
      var after, known := Decide(sim, justClosed, funding, i, p, s, q), 0 < p.lookback <= i + 1;
      if known && sim.open.None? && !justClosed && yearly >= p.entryApr then
        after == sim.(open := Some(OpenPosition(funding[i].time, s.open, q.open, 0.0, 0)),
                      realised := sim.realised - SpotFill(p.costs) - PerpFill(p.costs))
      else if known && sim.open.Some? && yearly < p.exitApr && sim.open.value.intervals >= p.minHoldIntervals then
        after == Close(sim, sim.open.value, funding[i].time, s.open, q.open, Signal, p)
      else after == sim
  {
    MeanIsYearly(funding, i, p.lookback, p.entryApr);
    MeanIsYearly(funding, i, p.lookback, p.exitApr);
    var mean := TrailingMean(funding, i, p.lookback);
    if mean.Some? {
      SameQuotient(yearly, 1095.0 * mean.value, p.lookback as real);
    }
  }

  lemma SameQuotient(a: real, b: real, n: real)
    requires n > 0.0 && Scaled(a, n) == Scaled(b, n)
    ensures a == b
  {
    assert Scaled(a - b, n) == 0.0;
  }

  // ----- the equity path -----

  /** What is realised, and what the open position has received and its legs have earned. */
  function AtMarket(sim: Sim, s: Bar, q: Bar): real {
    sim.realised + if sim.open.None? then 0.0 else
      sim.open.value.funding + LegsResult(sim.open.value, s.open, q.open)
  }

  /** The equity before the first point and at every point with a price on both legs. */
  function Path(funding: seq<FundingPoint>, n: nat, spot: seq<Bar>, perp: seq<Bar>, p: Params): (path: seq<real>)
    requires n <= |funding|
    ensures path != []
  {
    if n == 0 then [0.0]
    else
      var earlier := Path(funding, n - 1, spot, perp, p);
      var s, q := BarAt(spot, funding[n - 1].time), BarAt(perp, funding[n - 1].time);
      if s.None? || q.None? then earlier
      else
        earlier + [AtMarket(RunTo(funding, n, spot, perp, p), s.value, q.value)]
  }

  ghost predicate IsPeak(path: seq<real>, peak: real) {
    peak in path && forall i :: 0 <= i < |path| ==> path[i] <= peak
  }

  /** The largest fall from a point of the path to the same or a later one. */
  ghost predicate IsLargestFall(path: seq<real>, fall: real) {
    && (exists i, j :: 0 <= i <= j < |path| && path[i] - path[j] == fall)
    && forall i, j :: 0 <= i <= j < |path| ==> path[i] - path[j] <= fall
  }

  /** The recorded peak and drawdown are the path's, and every observed point is on it. */
  ghost predicate Follows(sim: Sim, path: seq<real>) {
    IsPeak(path, sim.peak) && IsLargestFall(path, sim.maxDrawdown) && sim.observed + 1 == |path|
  }

  lemma PathGrows(path: seq<real>, equity: real, peak: real, fall: real)
    requires IsPeak(path, peak) && IsLargestFall(path, fall)
    ensures IsPeak(path + [equity], Max(peak, equity))
    ensures IsLargestFall(path + [equity], Max(fall, Max(peak, equity) - equity))
  {
    var longer, n := path + [equity], |path|;
    var top :| 0 <= top < n && path[top] == peak;
    var i, j :| 0 <= i <= j < n && path[i] - path[j] == fall;
    assert longer[top] == peak && longer[n] == equity && longer[i] - longer[j] == fall;
    if peak - equity > fall {
      assert longer[top] - longer[n] == Max(fall, Max(peak, equity) - equity);
    }
    forall i, j | 0 <= i <= j < |longer| ensures longer[i] - longer[j] <= Max(fall, Max(peak, equity) - equity) {
      if j < n {
        assert longer[i] - longer[j] == path[i] - path[j];
      } else if i < n {
        assert longer[i] == path[i];
      }
    }
  }

  lemma EquityIsLegs(sim: Sim, s: Bar, q: Bar)
    ensures Equity(sim, s, q) == AtMarket(sim, s, q)
  {
    if sim.open.Some? {
      ChangeIsWorth(sim.open.value.spotPx, s.open);
      ChangeIsWorth(sim.open.value.perpPx, q.open);
    }
  }

  /**
   * Over any run the recorded peak and drawdown are the peak of the equity path and its largest fall, and the points
   * observed are the points of the path.
   */
  lemma {:induction false} DrawdownIsTheLargestFall(funding: seq<FundingPoint>, n: nat, spot: seq<Bar>, perp: seq<Bar>,
                                                    p: Params)
    requires n <= |funding|
    ensures
      Follows(RunTo(funding, n, spot, perp, p), Path(funding, n, spot, perp, p))
  {
    if n == 0 {
      assert [0.0][0] - [0.0][0] == 0.0;
    } else {
      DrawdownIsTheLargestFall(funding, n - 1, spot, perp, p);
      var before := RunTo(funding, n - 1, spot, perp, p);
      var s, q := BarAt(spot, funding[n - 1].time), BarAt(perp, funding[n - 1].time);
      if s.Some? && q.Some? {
        StepFollows(before, Path(funding, n - 1, spot, perp, p), funding, n - 1, spot, perp, p, s.value, q.value);
        PathNext(funding, n, spot, perp, p, s.value, q.value);
      }
    }
  }

  lemma PathNext(funding: seq<FundingPoint>, n: nat, spot: seq<Bar>, perp: seq<Bar>, p: Params, s: Bar, q: Bar)
    requires 0 < n <= |funding|
    requires BarAt(spot, funding[n - 1].time) == Some(s) && BarAt(perp, funding[n - 1].time) == Some(q)
    ensures
      var after := PricedStep(RunTo(funding, n - 1, spot, perp, p), funding, n - 1, spot, perp, p, s, q);
      && RunTo(funding, n, spot, perp, p) == after
      && Path(funding, n, spot, perp, p) == Path(funding, n - 1, spot, perp, p) + [AtMarket(after, s, q)]
  {}

  lemma StepFollows(sim: Sim, path: seq<real>, funding: seq<FundingPoint>, i: nat, spot: seq<Bar>, perp: seq<Bar>,
                    p: Params, s: Bar, q: Bar)
    requires i < |funding| && Follows(sim, path)
    ensures
      var after := PricedStep(sim, funding, i, spot, perp, p, s, q);
      Follows(after, path + [AtMarket(after, s, q)])
  {
    StepMarks(sim, funding, i, spot, perp, p, s, q);
    PathGrows(path, AtMarket(PricedStep(sim, funding, i, spot, perp, p, s, q), s, q), sim.peak, sim.maxDrawdown);
  }

  lemma StepMarks(sim: Sim, funding: seq<FundingPoint>, i: nat, spot: seq<Bar>, perp: seq<Bar>, p: Params, s: Bar,
                  q: Bar)
    requires i < |funding|
    ensures
      var after := PricedStep(sim, funding, i, spot, perp, p, s, q);
      var equity := AtMarket(after, s, q);
      && after.peak == Max(sim.peak, equity) && after.observed == sim.observed + 1
      && after.maxDrawdown == Max(sim.maxDrawdown, after.peak - equity)
  {
    EquityIsLegs(PricedStep(sim, funding, i, spot, perp, p, s, q), s, q);
    MarkingSeesItself(Decide(Hold(sim.(observed := sim.observed + 1), funding, i, spot, perp, p, s, q).0,
                             Hold(sim.(observed := sim.observed + 1), funding, i, spot, perp, p, s, q).1,
                             funding, i, p, s, q), s, q);
  }

  lemma MarkingSeesItself(sim: Sim, s: Bar, q: Bar)
    ensures Equity(MarkEquity(sim, s, q), s, q) == Equity(sim, s, q)
  {}

  // ----- time in the market -----

  function IntervalsOf(c: Cycle): real {
    c.intervals as real
  }

  function OpenIntervals(sim: Sim): real {
    if sim.open.None? then 0.0 else sim.open.value.intervals as real
  }

  /** The intervals counted in the market are those of the cycles and of the open position. */
  ghost predicate CountsIntervals(sim: Sim) {
    sim.inMarket as real == Sum(sim.cycles, IntervalsOf) + OpenIntervals(sim)
  }

  lemma PricedStepCounts(sim: Sim, funding: seq<FundingPoint>, i: nat, spot: seq<Bar>, perp: seq<Bar>, p: Params,
                         s: Bar, q: Bar)
    requires i < |funding| && CountsIntervals(sim)
    ensures CountsIntervals(PricedStep(sim, funding, i, spot, perp, p, s, q))
  {
    var (held, liquidated) := Hold(sim.(observed := sim.observed + 1), funding, i, spot, perp, p, s, q);
    forall cycles: seq<Cycle>, c: Cycle
      ensures Sum(cycles + [c], IntervalsOf) == Sum(cycles, IntervalsOf) + IntervalsOf(c) {
      SumAppend(cycles, c, IntervalsOf);
    }
    assert CountsIntervals(held);
    assert CountsIntervals(Decide(held, liquidated, funding, i, p, s, q));
  }

  lemma {:induction false} TimeInMarketIsTheCycles(funding: seq<FundingPoint>, n: nat, spot: seq<Bar>, perp: seq<Bar>,
                                                   p: Params)
    requires n <= |funding|
    ensures CountsIntervals(RunTo(funding, n, spot, perp, p))
  {
    if n > 0 {
      TimeInMarketIsTheCycles(funding, n - 1, spot, perp, p);
      var s, q := BarAt(spot, funding[n - 1].time), BarAt(perp, funding[n - 1].time);
      if s.Some? && q.Some? {
        PricedStepCounts(RunTo(funding, n - 1, spot, perp, p), funding, n - 1, spot, perp, p, s.value, q.value);
      }
    }
  }
}
