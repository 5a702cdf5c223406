/** Delta-neutral funding carry: src/backtesting/CarryBacktest.ts. */
module CarryBacktest {
  import opened Common

  type Positive = x: real | x > 0.0 witness 1.0

  datatype FundingPoint = FundingPoint(time: int, rate: real)

  datatype Bar = Bar(openTime: int, open: Positive, high: Positive)

  datatype Costs = Costs(spotFeeRate: real, perpFeeRate: real, slippageRate: real)

  datatype Params = Params(entryApr: real, exitApr: real, lookback: nat, perpLeverage: Positive,
                           maintenanceMarginRate: real, costs: Costs, minHoldIntervals: nat)

  datatype Reason = Signal | Liquidated | EndOfData

  /** Funding, basis, costs and net are in percent of notional. */
  datatype Cycle = Cycle(enteredAt: int, exitedAt: int, intervals: nat, funding: real, basis: real, costs: real,
                         net: real, reason: Reason)

  datatype OpenPosition = OpenPosition(at: int, spotPx: Positive, perpPx: Positive, funding: real, intervals: nat)

  /** The loop variables of the simulation. */
  datatype Sim = Sim(open: Option<OpenPosition>, realised: real, peak: real, maxDrawdown: real,
                     inMarket: nat, observed: nat, cycles: seq<Cycle>)

  const START := Sim(None, 0.0, 0.0, 0.0, 0, 0, [])

  const INTERVALS_PER_YEAR := 1095.0

  function AprToRate(apr: real): real {
    apr / INTERVALS_PER_YEAR
  }

  // ----- lookups -----

  ghost predicate SortedBars(bars: seq<Bar>) {
    forall i, j :: 0 <= i <= j < |bars| ==> bars[i].openTime <= bars[j].openTime
  }

  ghost predicate SortedFunding(funding: seq<FundingPoint>) {
    forall i, j :: 0 <= i <= j < |funding| ==> funding[i].time <= funding[j].time
  }

  /** The last bar of the sequence opening at or before `t`. */
  function BarAt(bars: seq<Bar>, t: int): Option<Bar> {
    if bars == [] then None
    else if bars[|bars| - 1].openTime <= t then Some(bars[|bars| - 1])
    else BarAt(bars[..|bars| - 1], t)
  }

  lemma {:induction false} BarAtSplit(bars: seq<Bar>, t: int, k: nat)
    requires k <= |bars|
    requires k > 0 ==> bars[k - 1].openTime <= t
    requires forall i :: k <= i < |bars| ==> bars[i].openTime > t
    ensures BarAt(bars, t) == if k == 0 then None else Some(bars[k - 1])
  {
    if |bars| > k {
      BarAtSplit(bars[..|bars| - 1], t, k);
    }
  }

  /** `barAt` (CarryBacktest.ts:77-86): the binary search finds the last bar at or before `t`. */
  method FindBar(bars: seq<Bar>, t: int) returns (found: Option<Bar>)
    requires SortedBars(bars)
    ensures found == BarAt(bars, t)
  {
    var lo, hi := 0, |bars| - 1;
    found := None;
    while lo <= hi
      invariant 0 <= lo <= hi + 1 <= |bars|
      invariant found == if lo == 0 then None else Some(bars[lo - 1])
      invariant lo > 0 ==> bars[lo - 1].openTime <= t
      invariant forall i :: hi < i < |bars| ==> bars[i].openTime > t
      decreases hi - lo
    {
      var mid := (lo + hi) / 2;
      if bars[mid].openTime <= t {
        found := Some(bars[mid]);
        lo := mid + 1;
      } else {
        hi := mid - 1;
      }
    }
    BarAtSplit(bars, t, lo);
  }

  /** What the search means: nothing in the history is both later and not after `t`. */
  lemma {:induction false} BarAtIsLatest(bars: seq<Bar>, t: int)
    requires SortedBars(bars)
    ensures BarAt(bars, t).None? <==> forall i :: 0 <= i < |bars| ==> bars[i].openTime > t
    ensures BarAt(bars, t).Some? ==>
              && BarAt(bars, t).value in bars && BarAt(bars, t).value.openTime <= t
              && forall i :: 0 <= i < |bars| && bars[i].openTime <= t ==>
                 bars[i].openTime <= BarAt(bars, t).value.openTime
  {
    if bars != [] && bars[|bars| - 1].openTime > t {
      BarAtIsLatest(bars[..|bars| - 1], t);
    }
  }

  predicate Breaches(b: Bar, from: int, to: int, liqPrice: real) {
    from <= b.openTime <= to && b.high >= liqPrice
  }

  /** The scan stops at the earliest breach; afterwards nothing earlier in the interval can liquidate. */
  function FirstBreach(perp: seq<Bar>, from: int, to: int, liqPrice: real): (b: Option<Bar>)
    ensures b.Some? ==> b.value in perp && Breaches(b.value, from, to, liqPrice)
    ensures b.None? ==> forall i :: 0 <= i < |perp| ==> !Breaches(perp[i], from, to, liqPrice)
  {
    if perp == [] then None
    else if Breaches(perp[0], from, to, liqPrice) then Some(perp[0])
    else FirstBreach(perp[1..], from, to, liqPrice)
  }

  /** `liquidationBar` (CarryBacktest.ts:94-96). */
  method LiquidationBar(perp: seq<Bar>, from: int, to: int, liqPrice: real) returns (b: Option<Bar>)
    ensures b == FirstBreach(perp, from, to, liqPrice)
  {
    for i := 0 to |perp|
      invariant FirstBreach(perp, from, to, liqPrice) == FirstBreach(perp[i..], from, to, liqPrice)
    {
      if Breaches(perp[i], from, to, liqPrice) {
        return Some(perp[i]);
      }
    }
    b := None;
  }

  // ----- one funding interval -----

  /** Paid on both legs at once, per unit of notional. */
  function EntryCost(c: Costs): real {
    (c.spotFeeRate + c.slippageRate) + (c.perpFeeRate + c.slippageRate)
  }

  /** What closing costs after a liquidation, when there is no perp leg left to close. */
  function SpotOnlyCost(c: Costs): real {
    c.spotFeeRate + c.slippageRate
  }

  function Percent(x: real): real {
    x * 100.0
  }

  function Change(from: Positive, to: real): real {
    (to - from) / from
  }

  /** Price result of the two legs: long spot, short perp. */
  function PriceLeg(pos: OpenPosition, spotPx: real, perpPx: real): real {
    Change(pos.spotPx, spotPx) - Change(pos.perpPx, perpPx)
  }

  /** One interval's rate, scaled by how far the perp has moved since entry. */
  function Accrual(rate: real, pos: OpenPosition, perpPx: real): real {
    rate * (perpPx / pos.perpPx)
  }

  function Margin(p: Params): real {
    1.0 / p.perpLeverage
  }

  function LiquidationPrice(pos: OpenPosition, p: Params): real {
    pos.perpPx * (1.0 + Margin(p) - p.maintenanceMarginRate)
  }

  /** The result of the legs without funding and fees: hedged, or after a liquidation the spot move less the margin. */
  function Basis(pos: OpenPosition, spotPx: real, perpPx: real, reason: Reason, p: Params): real {
    if reason.Liquidated? then Change(pos.spotPx, spotPx) - Margin(p) else PriceLeg(pos, spotPx, perpPx)
  }

  function ExitCost(reason: Reason, p: Params): real {
    if reason.Liquidated? then SpotOnlyCost(p.costs) else EntryCost(p.costs)
  }

  function CycleOf(pos: OpenPosition, at: int, spotPx: real, perpPx: real, reason: Reason, p: Params): Cycle {
    var basis := Basis(pos, spotPx, perpPx, reason, p);
    var costs := EntryCost(p.costs) + ExitCost(reason, p);
    Cycle(pos.at, at, pos.intervals, Percent(pos.funding), Percent(basis), Percent(costs),
          Percent(pos.funding + basis - costs), reason)
  }

  /** CarryBacktest.ts:124-138. */
  function Close(sim: Sim, pos: OpenPosition, at: int, spotPx: real, perpPx: real, reason: Reason, p: Params): Sim {
    sim.(open := None,
         realised := sim.realised + (pos.funding + Basis(pos, spotPx, perpPx, reason, p) - ExitCost(reason, p)),
         cycles := sim.cycles + [CycleOf(pos, at, spotPx, perpPx, reason, p)])
  }

  /** Where the liquidation scan starts: the previous settlement, or the entry. */
  function ScanFrom(funding: seq<FundingPoint>, i: nat, pos: OpenPosition): int
    requires i < |funding|
  {
    if i > 0 then funding[i - 1].time else pos.at
  }

  /** Funding accrual and the liquidation check of an open position; the flag says it was liquidated. */
  function Hold(sim: Sim, funding: seq<FundingPoint>, i: nat, spot: seq<Bar>, perp: seq<Bar>, p: Params, s: Bar,
                q: Bar): (Sim, bool)
    requires i < |funding|
  {
    if sim.open.None? then (sim, false)
    else
      var pos := sim.open.value;
      var held := pos.(funding := pos.funding + Accrual(funding[i].rate, pos, q.open), intervals := pos.intervals + 1);
      var breach := FirstBreach(perp, ScanFrom(funding, i, pos), funding[i].time, LiquidationPrice(pos, p));
      var counted := sim.(open := Some(held), inMarket := sim.inMarket + 1);
      if breach.None? then (counted, false)
      else
        var sold := BarAt(spot, breach.value.openTime);
        (Close(counted, held, breach.value.openTime, if sold.Some? then sold.value.open else s.open,
               LiquidationPrice(pos, p), Liquidated, p), true)
  }

  function SumRates(funding: seq<FundingPoint>): real {
    if funding == [] then 0.0 else SumRates(funding[..|funding| - 1]) + funding[|funding| - 1].rate
  }

  /** The trailing mean over exactly `lookback` known rates, if there are that many. */
  function TrailingMean(funding: seq<FundingPoint>, i: nat, lookback: nat): Option<real>
    requires i < |funding|
  {
    if lookback == 0 || i + 1 < lookback then None
    else Some(SumRates(funding[i + 1 - lookback..i + 1]) / lookback as real)
  }

  /** Opens, keeps or closes on the mean of the rates up to this interval. */
  function Decide(sim: Sim, justClosed: bool, funding: seq<FundingPoint>, i: nat, p: Params, s: Bar, q: Bar): Sim
    requires i < |funding|
  {
    var mean := TrailingMean(funding, i, p.lookback);
    if mean.None? then sim
    else if sim.open.None? && !justClosed && mean.value >= AprToRate(p.entryApr) then
      sim.(open := Some(OpenPosition(funding[i].time, s.open, q.open, 0.0, 0)),
           realised := sim.realised - EntryCost(p.costs))
    else if sim.open.Some? && mean.value < AprToRate(p.exitApr) && sim.open.value.intervals >= p.minHoldIntervals then
      Close(sim, sim.open.value, funding[i].time, s.open, q.open, Signal, p)
    else sim
  }

  function Equity(sim: Sim, s: Bar, q: Bar): real {
    sim.realised + if sim.open.Some? then sim.open.value.funding + PriceLeg(sim.open.value, s.open, q.open) else 0.0
  }

  function MarkEquity(sim: Sim, s: Bar, q: Bar): Sim {
    var equity := Equity(sim, s, q);
    var peak := Max(sim.peak, equity);
    sim.(peak := peak, maxDrawdown := Max(sim.maxDrawdown, peak - equity))
  }

  /** One funding point with a price on both legs (CarryBacktest.ts:145-176). */
  function PricedStep(sim: Sim, funding: seq<FundingPoint>, i: nat, spot: seq<Bar>, perp: seq<Bar>, p: Params, s: Bar,
                      q: Bar): Sim
    requires i < |funding|
  {
    var (held, liquidated) := Hold(sim.(observed := sim.observed + 1), funding, i, spot, perp, p, s, q);
    MarkEquity(Decide(held, liquidated, funding, i, p, s, q), s, q)
  }

  /** One pass of the loop (CarryBacktest.ts:140-177); points without a price on both legs are skipped. */
  function Step(sim: Sim, funding: seq<FundingPoint>, i: nat, spot: seq<Bar>, perp: seq<Bar>, p: Params): Sim
    requires i < |funding|
  {
    var s, q := BarAt(spot, funding[i].time), BarAt(perp, funding[i].time);
    if s.None? || q.None? then sim else PricedStep(sim, funding, i, spot, perp, p, s.value, q.value)
  }

  /** The simulation after the first `n` funding points. */
  function RunTo(funding: seq<FundingPoint>, n: nat, spot: seq<Bar>, perp: seq<Bar>, p: Params): Sim
    requires n <= |funding|
  {
    if n == 0 then START else Step(RunTo(funding, n - 1, spot, perp, p), funding, n - 1, spot, perp, p)
  }

  /** The open position, if any, is marked out at the last funding point (CarryBacktest.ts:179-184). */
  function Finish(sim: Sim, funding: seq<FundingPoint>, spot: seq<Bar>, perp: seq<Bar>, p: Params): Sim {
    if sim.open.None? || funding == [] then sim
    else
      var last := funding[|funding| - 1].time;
      var s, q := BarAt(spot, last), BarAt(perp, last);
      if s.None? || q.None? then sim else Close(sim, sim.open.value, last, s.value.open, q.value.open, EndOfData, p)
  }

  function Simulated(funding: seq<FundingPoint>, spot: seq<Bar>, perp: seq<Bar>, p: Params): Sim {
    Finish(RunTo(funding, |funding|, spot, perp, p), funding, spot, perp, p)
  }

  /** `simulateCarry` up to its summary (CarryBacktest.ts:107-184). */
  method SimulateCarry(funding: seq<FundingPoint>, spot: seq<Bar>, perp: seq<Bar>, p: Params) returns (sim: Sim)
    requires SortedBars(spot) && SortedBars(perp)
    ensures sim == Simulated(funding, spot, perp, p)
  {
    sim := START;
    for i := 0 to |funding|
      invariant sim == RunTo(funding, i, spot, perp, p)
    {
      var f := funding[i];
      var s := FindBar(spot, f.time);
      var q := FindBar(perp, f.time);
      if s.Some? && q.Some? {
        sim := sim.(observed := sim.observed + 1);
        var closedThisStep := false;
        if sim.open.Some? {
          sim, closedThisStep := HoldInterval(sim, funding, i, spot, perp, p, s.value, q.value);
        }
        sim := Decide(sim, closedThisStep, funding, i, p, s.value, q.value);
        sim := MarkEquity(sim, s.value, q.value);
      }
    }
    if sim.open.Some? && |funding| > 0 {
      var last := funding[|funding| - 1];
      var s := FindBar(spot, last.time);
      var q := FindBar(perp, last.time);
      if s.Some? && q.Some? {
        sim := Close(sim, sim.open.value, last.time, s.value.open, q.value.open, EndOfData, p);
      }
    }
  }

  /** CarryBacktest.ts:148-159. */
  method HoldInterval(sim: Sim, funding: seq<FundingPoint>, i: nat, spot: seq<Bar>, perp: seq<Bar>, p: Params, s: Bar,
                      q: Bar)
      returns (held: Sim, closed: bool)
    requires i < |funding| && sim.open.Some? && SortedBars(spot)
    ensures (held, closed) == Hold(sim, funding, i, spot, perp, p, s, q)
  {
    var pos := sim.open.value;
    var grown := pos.(funding := pos.funding + Accrual(funding[i].rate, pos, q.open), intervals := pos.intervals + 1);
    held := sim.(open := Some(grown), inMarket := sim.inMarket + 1);
    closed := false;
    var liqPx := LiquidationPrice(pos, p);
    var breach := LiquidationBar(perp, ScanFrom(funding, i, pos), funding[i].time, liqPx);
    if breach.Some? {
      var sold := FindBar(spot, breach.value.openTime);
      held := Close(held, grown, breach.value.openTime, if sold.Some? then sold.value.open
                    else s.open, liqPx, Liquidated, p);
      closed := true;
    }
  }
}
