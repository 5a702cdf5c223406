/** What the carry backtest promises: money adds up, cycles are disjoint, history is never rewritten. */
module CarryGuarantees {
  import opened Common
  import opened CarryBacktest

  // ----- money -----

  function TotalNet(cycles: seq<Cycle>): real {
    if cycles == [] then 0.0 else TotalNet(cycles[..|cycles| - 1]) + cycles[|cycles| - 1].net
  }

  lemma TotalNetAppend(cycles: seq<Cycle>, c: Cycle)
    ensures TotalNet(cycles + [c]) == TotalNet(cycles) + c.net
  {
    assert (cycles + [c])[..|cycles|] == cycles;
  }

  /** Realised profit is the cycles' net results, less the entry already paid for an open position. */
  ghost predicate Balanced(sim: Sim, p: Params) {
    Percent(sim.realised) == TotalNet(sim.cycles) - (if sim.open.Some? then Percent(EntryCost(p.costs)) else 0.0)
  }

  lemma CloseBalances(sim: Sim, pos: OpenPosition, at: int, spotPx: real, perpPx: real, reason: Reason, p: Params)
    requires sim.open.Some? && Balanced(sim, p)
    ensures Balanced(Close(sim, pos, at, spotPx, perpPx, reason, p), p)
  {
    TotalNetAppend(sim.cycles, CycleOf(pos, at, spotPx, perpPx, reason, p));
  }

  lemma HoldBalances(sim: Sim, funding: seq<FundingPoint>, i: nat, spot: seq<Bar>, perp: seq<Bar>, p: Params, s: Bar,
                     q: Bar)
    requires i < |funding| && Balanced(sim, p)
    ensures Balanced(Hold(sim, funding, i, spot, perp, p, s, q).0, p)
  {
    if sim.open.Some? {
      var pos := sim.open.value;
      var held := pos.(funding := pos.funding + Accrual(funding[i].rate, pos, q.open), intervals := pos.intervals + 1);
      var counted := sim.(open := Some(held), inMarket := sim.inMarket + 1);
      var breach := FirstBreach(perp, ScanFrom(funding, i, pos), funding[i].time, LiquidationPrice(pos, p));
      if breach.Some? {
        var sold := BarAt(spot, breach.value.openTime);
        CloseBalances(counted, held, breach.value.openTime, if sold.Some? then sold.value.open else s.open,
                      LiquidationPrice(pos, p), Liquidated, p);
      }
    }
  }

  lemma DecideBalances(sim: Sim, justClosed: bool, funding: seq<FundingPoint>, i: nat, p: Params, s: Bar, q: Bar)
    requires i < |funding| && Balanced(sim, p)
    ensures Balanced(Decide(sim, justClosed, funding, i, p, s, q), p)
  {
    if sim.open.Some? {
      CloseBalances(sim, sim.open.value, funding[i].time, s.open, q.open, Signal, p);
    }
  }

  lemma PricedStepBalances(sim: Sim, funding: seq<FundingPoint>, i: nat, spot: seq<Bar>, perp: seq<Bar>, p: Params,
                           s: Bar, q: Bar)
    requires i < |funding| && Balanced(sim, p)
    ensures Balanced(PricedStep(sim, funding, i, spot, perp, p, s, q), p)
  {
    var seen := sim.(observed := sim.observed + 1);
    HoldBalances(seen, funding, i, spot, perp, p, s, q);
    var (held, liquidated) := Hold(seen, funding, i, spot, perp, p, s, q);
    DecideBalances(held, liquidated, funding, i, p, s, q);
  }

  lemma StepBalances(sim: Sim, funding: seq<FundingPoint>, i: nat, spot: seq<Bar>, perp: seq<Bar>, p: Params)
    requires i < |funding| && Balanced(sim, p)
    ensures Balanced(Step(sim, funding, i, spot, perp, p), p)
  {
    var s, q := BarAt(spot, funding[i].time), BarAt(perp, funding[i].time);
    if s.Some? && q.Some? {
      PricedStepBalances(sim, funding, i, spot, perp, p, s.value, q.value);
    }
  }

  lemma {:induction false} RunBalances(funding: seq<FundingPoint>, n: nat, spot: seq<Bar>, perp: seq<Bar>, p: Params)
    requires n <= |funding|
    ensures Balanced(RunTo(funding, n, spot, perp, p), p)
  {
    if n > 0 {
      RunBalances(funding, n - 1, spot, perp, p);
      StepBalances(RunTo(funding, n - 1, spot, perp, p), funding, n - 1, spot, perp, p);
    }
  }

  /** An open position was priced on both legs when it was entered. */
  ghost predicate Priced(sim: Sim, spot: seq<Bar>, perp: seq<Bar>, t: int) {
    sim.open.Some? ==> BarAt(spot, t).Some? && BarAt(perp, t).Some?
  }

  lemma {:induction false} OpenIsPriced(funding: seq<FundingPoint>, n: nat, spot: seq<Bar>, perp: seq<Bar>, p: Params,
                                        t: int)
    requires SortedBars(spot) && SortedBars(perp) && SortedFunding(funding)
    requires n <= |funding| && (n > 0 ==> funding[n - 1].time <= t)
    ensures Priced(RunTo(funding, n, spot, perp, p), spot, perp, t)
  {
    if n > 0 {
      OpenIsPriced(funding, n - 1, spot, perp, p, t);
      PricedLater(spot, funding[n - 1].time, t);
      PricedLater(perp, funding[n - 1].time, t);
    }
  }

  lemma PricedLater(bars: seq<Bar>, t: int, later: int)
    requires SortedBars(bars) && t <= later
    ensures BarAt(bars, t).Some? ==> BarAt(bars, later).Some?
  {
    BarAtIsLatest(bars, t);
    BarAtIsLatest(bars, later);
  }

  /** Main result: nothing is left open, and the realised profit is exactly the sum of the cycles' net results. */
  lemma RealisedIsTotalNet(funding: seq<FundingPoint>, spot: seq<Bar>, perp: seq<Bar>, p: Params)
    requires SortedBars(spot) && SortedBars(perp) && SortedFunding(funding)
    ensures
      var sim := Simulated(funding, spot, perp, p);
      sim.open.None? && Percent(sim.realised) == TotalNet(sim.cycles)
  {
    var sim := RunTo(funding, |funding|, spot, perp, p);
    RunBalances(funding, |funding|, spot, perp, p);
    if sim.open.Some? && funding != [] {
      var last := funding[|funding| - 1].time;
      OpenIsPriced(funding, |funding|, spot, perp, p, last);
      CloseBalances(sim, sim.open.value, last, BarAt(spot, last).value.open, BarAt(perp, last).value.open, EndOfData,
                    p);
    }
  }

  // ----- time -----

  /** Every cycle ends no earlier than it starts and no later than the next one starts. */
  ghost predicate Disjoint(cycles: seq<Cycle>) {
    && (forall k :: 0 <= k < |cycles| ==> cycles[k].enteredAt <= cycles[k].exitedAt)
    && (forall k, l :: 0 <= k < l < |cycles| ==> cycles[k].exitedAt <= cycles[l].enteredAt)
  }

  ghost predicate OverBy(cycles: seq<Cycle>, t: int) {
    forall k :: 0 <= k < |cycles| ==> cycles[k].exitedAt <= t
  }

  ghost predicate Timeline(cycles: seq<Cycle>, open: Option<OpenPosition>, t: int) {
    && Disjoint(cycles) && OverBy(cycles, t)
    && (open.Some? ==> open.value.at <= t && OverBy(cycles, open.value.at))
  }

  /** The settlement before point `i`. */
  function Before(funding: seq<FundingPoint>, i: nat): int
    requires i < |funding|
  {
    if i > 0 then funding[i - 1].time else funding[i].time
  }

  lemma CloseKeepsTimeline(sim: Sim, pos: OpenPosition, at: int, spotPx: real, perpPx: real, reason: Reason, p: Params,
                           t: int)
    requires Disjoint(sim.cycles) && OverBy(sim.cycles, pos.at) && pos.at <= at <= t
    ensures Timeline(Close(sim, pos, at, spotPx, perpPx, reason, p).cycles, None, t)
  {}

  lemma HoldKeepsTimeline(sim: Sim, funding: seq<FundingPoint>, i: nat, spot: seq<Bar>, perp: seq<Bar>, p: Params,
                          s: Bar, q: Bar)
    requires i < |funding|
    requires sim.open.Some? ==> i > 0
    requires Timeline(sim.cycles, sim.open, Before(funding, i)) && Before(funding, i) <= funding[i].time
    ensures var held := Hold(sim, funding, i, spot, perp, p, s, q).0; Timeline(held.cycles, held.open, funding[i].time)
  {
    if sim.open.Some? {
      var pos := sim.open.value;
      var held := pos.(funding := pos.funding + Accrual(funding[i].rate, pos, q.open), intervals := pos.intervals + 1);
      var counted := sim.(open := Some(held), inMarket := sim.inMarket + 1);
      var breach := FirstBreach(perp, ScanFrom(funding, i, pos), funding[i].time, LiquidationPrice(pos, p));
      if breach.Some? {
        var sold := BarAt(spot, breach.value.openTime);
        CloseKeepsTimeline(counted, held, breach.value.openTime, if sold.Some? then sold.value.open else s.open,
                           LiquidationPrice(pos, p), Liquidated, p, funding[i].time);
      }
    }
  }

  lemma DecideKeepsTimeline(sim: Sim, justClosed: bool, funding: seq<FundingPoint>, i: nat, p: Params, s: Bar, q: Bar)
    requires i < |funding| && Timeline(sim.cycles, sim.open, funding[i].time)
    ensures var next := Decide(sim, justClosed, funding, i, p, s, q); Timeline(next.cycles, next.open, funding[i].time)
  {
    if sim.open.Some? {
      CloseKeepsTimeline(sim, sim.open.value, funding[i].time, s.open, q.open, Signal, p, funding[i].time);
    }
  }

  lemma LaterTimeline(cycles: seq<Cycle>, open: Option<OpenPosition>, t: int, later: int)
    requires Timeline(cycles, open, t) && t <= later
    ensures Timeline(cycles, open, later)
  {}

  lemma PricedStepKeepsTimeline(sim: Sim, funding: seq<FundingPoint>, i: nat, spot: seq<Bar>, perp: seq<Bar>,
                                p: Params, s: Bar, q: Bar)
    requires i < |funding|
    requires sim.open.Some? ==> i > 0
    requires Timeline(sim.cycles, sim.open, Before(funding, i)) && Before(funding, i) <= funding[i].time
    ensures var next := PricedStep(sim, funding, i, spot, perp, p, s, q);
            Timeline(next.cycles, next.open, funding[i].time)
  {
    var seen := sim.(observed := sim.observed + 1);
    HoldKeepsTimeline(seen, funding, i, spot, perp, p, s, q);
    var (held, liquidated) := Hold(seen, funding, i, spot, perp, p, s, q);
    DecideKeepsTimeline(held, liquidated, funding, i, p, s, q);
  }

  lemma StepKeepsTimeline(sim: Sim, funding: seq<FundingPoint>, i: nat, spot: seq<Bar>, perp: seq<Bar>, p: Params)
    requires i < |funding|
    requires sim.open.Some? ==> i > 0
    requires Timeline(sim.cycles, sim.open, Before(funding, i)) && Before(funding, i) <= funding[i].time
    ensures var next := Step(sim, funding, i, spot, perp, p); Timeline(next.cycles, next.open, funding[i].time)
  {
    var s, q := BarAt(spot, funding[i].time), BarAt(perp, funding[i].time);
    if s.Some? && q.Some? {
      PricedStepKeepsTimeline(sim, funding, i, spot, perp, p, s.value, q.value);
    } else {
      LaterTimeline(sim.cycles, sim.open, Before(funding, i), funding[i].time);
    }
  }

  lemma {:induction false} RunKeepsTimeline(funding: seq<FundingPoint>, n: nat, spot: seq<Bar>, perp: seq<Bar>,
                                            p: Params)
    requires 0 < n <= |funding| && SortedFunding(funding)
    ensures var sim := RunTo(funding, n, spot, perp, p); Timeline(sim.cycles, sim.open, funding[n - 1].time)
  {
    var sim := RunTo(funding, n - 1, spot, perp, p);
    if n > 1 {
      RunKeepsTimeline(funding, n - 1, spot, perp, p);
    } else {
      assert sim == START;
    }
    assert Before(funding, n - 1) <= funding[n - 1].time;
    StepKeepsTimeline(sim, funding, n - 1, spot, perp, p);
  }

  /** Main result: the cycles come out in time order and never overlap. */
  lemma CyclesAreDisjoint(funding: seq<FundingPoint>, spot: seq<Bar>, perp: seq<Bar>, p: Params)
    requires SortedFunding(funding)
    ensures Disjoint(Simulated(funding, spot, perp, p).cycles)
  {
    var n := |funding|;
    if n > 0 {
      RunKeepsTimeline(funding, n, spot, perp, p);
    }
    var sim := RunTo(funding, n, spot, perp, p);
    if sim.open.Some? && n > 0 {
      var last := funding[n - 1].time;
      var s, q := BarAt(spot, last), BarAt(perp, last);
      if s.Some? && q.Some? {
        CloseKeepsTimeline(sim, sim.open.value, last, s.value.open, q.value.open, EndOfData, p, last);
      }
    }
  }

  // ----- history -----

  /** The bars added to a history all open after `t`. */
  ghost predicate AllAfter(bars: seq<Bar>, t: int) {
    forall i :: 0 <= i < |bars| ==> bars[i].openTime > t
  }

  lemma {:induction false} BarAtIgnoresLater(bars: seq<Bar>, more: seq<Bar>, last: int, t: int)
    requires AllAfter(more, last) && t <= last
    ensures BarAt(bars + more, t) == BarAt(bars, t)
    decreases |more|
  {
    if more == [] {
      assert bars + more == bars;
    } else {
      assert (bars + more)[..|bars + more| - 1] == bars + more[..|more| - 1];
      BarAtIgnoresLater(bars, more[..|more| - 1], last, t);
    }
  }

  lemma {:induction false} BreachIgnoresLater(perp: seq<Bar>, more: seq<Bar>, from: int, to: int, liqPrice: real)
    requires AllAfter(more, to)
    ensures FirstBreach(perp + more, from, to, liqPrice) == FirstBreach(perp, from, to, liqPrice)
  {
    if perp != [] {
      assert (perp + more)[1..] == perp[1..] + more;
      BreachIgnoresLater(perp[1..], more, from, to, liqPrice);
    } else {
      assert perp + more == more;
      NoBreachAfter(more, from, to, liqPrice);
    }
  }

  lemma {:induction false} NoBreachAfter(bars: seq<Bar>, from: int, to: int, liqPrice: real)
    requires AllAfter(bars, to)
    ensures FirstBreach(bars, from, to, liqPrice).None?
  {
    if bars != [] {
      NoBreachAfter(bars[1..], from, to, liqPrice);
    }
  }

  lemma HoldIgnoresLater(sim: Sim, funding: seq<FundingPoint>, i: nat, later: seq<FundingPoint>, spot: seq<Bar>,
                         moreSpot: seq<Bar>, perp: seq<Bar>, morePerp: seq<Bar>, p: Params, s: Bar, q: Bar)
    requires i < |funding| && AllAfter(moreSpot, funding[i].time) && AllAfter(morePerp, funding[i].time)
    ensures Hold(sim, funding + later, i, spot + moreSpot, perp + morePerp, p, s, q) ==
            Hold(sim, funding, i, spot, perp, p, s, q)
  {
    assert (funding + later)[i] == funding[i];
    assert i > 0 ==> (funding + later)[i - 1] == funding[i - 1];
    if sim.open.Some? {
      var pos := sim.open.value;
      var breach := FirstBreach(perp, ScanFrom(funding, i, pos), funding[i].time, LiquidationPrice(pos, p));
      BreachIgnoresLater(perp, morePerp, ScanFrom(funding, i, pos), funding[i].time, LiquidationPrice(pos, p));
      if breach.Some? {
        BarAtIgnoresLater(spot, moreSpot, funding[i].time, breach.value.openTime);
      }
    }
  }

  lemma DecideIgnoresLater(sim: Sim, justClosed: bool, funding: seq<FundingPoint>, i: nat, later: seq<FundingPoint>,
                           p: Params, s: Bar, q: Bar)
    requires i < |funding|
    ensures Decide(sim, justClosed, funding + later, i, p, s, q) == Decide(sim, justClosed, funding, i, p, s, q)
  {
    assert (funding + later)[i] == funding[i];
    if 0 < p.lookback <= i + 1 {
      assert (funding + later)[i + 1 - p.lookback..i + 1] == funding[i + 1 - p.lookback..i + 1];
    }
  }

  lemma StepIgnoresLater(sim: Sim, funding: seq<FundingPoint>, i: nat, later: seq<FundingPoint>, spot: seq<Bar>,
                         moreSpot: seq<Bar>, perp: seq<Bar>, morePerp: seq<Bar>, p: Params)
    requires i < |funding| && AllAfter(moreSpot, funding[i].time) && AllAfter(morePerp, funding[i].time)
    ensures Step(sim, funding + later, i, spot + moreSpot, perp + morePerp, p) == Step(sim, funding, i, spot, perp, p)
  {
    assert (funding + later)[i] == funding[i];
    BarAtIgnoresLater(spot, moreSpot, funding[i].time, funding[i].time);
    BarAtIgnoresLater(perp, morePerp, funding[i].time, funding[i].time);
    var s, q := BarAt(spot, funding[i].time), BarAt(perp, funding[i].time);
    if s.Some? && q.Some? {
      var seen := sim.(observed := sim.observed + 1);
      HoldIgnoresLater(seen, funding, i, later, spot, moreSpot, perp, morePerp, p, s.value, q.value);
      var (held, liquidated) := Hold(seen, funding, i, spot, perp, p, s.value, q.value);
      DecideIgnoresLater(held, liquidated, funding, i, later, p, s.value, q.value);
    }
  }

  /** The bars added to both legs open after the first `n` funding points. */
  ghost predicate LaterBars(funding: seq<FundingPoint>, n: nat, moreSpot: seq<Bar>, morePerp: seq<Bar>)
    requires n <= |funding|
  {
    forall i :: 0 <= i < n ==> AllAfter(moreSpot, funding[i].time) && AllAfter(morePerp, funding[i].time)
  }

  lemma {:induction false} RunIgnoresLater(funding: seq<FundingPoint>, n: nat, later: seq<FundingPoint>, spot: seq<Bar>,
                                           moreSpot: seq<Bar>, perp: seq<Bar>, morePerp: seq<Bar>, p: Params)
    requires n <= |funding| && LaterBars(funding, n, moreSpot, morePerp)
    ensures RunTo(funding + later, n, spot + moreSpot, perp + morePerp, p) == RunTo(funding, n, spot, perp, p)
  {
    if n > 0 {
      RunIgnoresLater(funding, n - 1, later, spot, moreSpot, perp, morePerp, p);
      assert AllAfter(moreSpot, funding[n - 1].time);
      StepIgnoresLater(RunTo(funding, n - 1, spot, perp, p), funding, n - 1, later, spot, moreSpot, perp, morePerp, p);
    }
  }

  lemma StepOnlyAppends(sim: Sim, funding: seq<FundingPoint>, i: nat, spot: seq<Bar>, perp: seq<Bar>, p: Params)
    requires i < |funding|
    ensures sim.cycles <= Step(sim, funding, i, spot, perp, p).cycles
  {}

  lemma {:induction false} RunOnlyAppends(funding: seq<FundingPoint>, n: nat, m: nat, spot: seq<Bar>, perp: seq<Bar>,
                                          p: Params)
    requires n <= m <= |funding|
    ensures RunTo(funding, n, spot, perp, p).cycles <= RunTo(funding, m, spot, perp, p).cycles
    decreases m
  {
    if n < m {
      RunOnlyAppends(funding, n, m - 1, spot, perp, p);
      StepOnlyAppends(RunTo(funding, m - 1, spot, perp, p), funding, m - 1, spot, perp, p);
    }
  }

  ghost predicate Settled(c: Cycle) {
    c.reason.Signal? || c.reason.Liquidated?
  }

  lemma {:induction false} RunCyclesAreSettled(funding: seq<FundingPoint>, n: nat, spot: seq<Bar>, perp: seq<Bar>,
                                               p: Params)
    requires n <= |funding|
    ensures forall k :: 0 <= k < |RunTo(funding, n, spot, perp, p).cycles| ==>
              Settled(RunTo(funding, n, spot, perp, p).cycles[k])
  {
    if n > 0 {
      RunCyclesAreSettled(funding, n - 1, spot, perp, p);
    }
  }

  /**
   * Main result: extending the history, with later funding points and with bars that open after the
   * last known one, never changes a cycle already closed by signal or liquidation: those cycles, and
   * no others than a trailing end-of-data one, are a prefix of the longer run's.
   */
  lemma ExtendingKeepsSettledCycles(funding: seq<FundingPoint>, later: seq<FundingPoint>, spot: seq<Bar>,
                                    moreSpot: seq<Bar>,
                                    perp: seq<Bar>, morePerp: seq<Bar>, p: Params)
    requires LaterBars(funding, |funding|, moreSpot, morePerp)
    ensures
      var before := Simulated(funding, spot, perp, p).cycles;
      var after := Simulated(funding + later, spot + moreSpot, perp + morePerp, p).cycles;
      exists n :: 0 <= n <= |before| && n <= |after| && before[..n] == after[..n]
                  && (forall k :: 0 <= k < n ==> Settled(before[k])) && |before| <= n + 1
                  && (forall k :: n <= k < |before| ==> before[k].reason.EndOfData?)
  {
    var n := |funding|;
    RunIgnoresLater(funding, n, later, spot, moreSpot, perp, morePerp, p);
    RunOnlyAppends(funding + later, n, |funding + later|, spot + moreSpot, perp + morePerp, p);
    RunCyclesAreSettled(funding, n, spot, perp, p);
    var settled := RunTo(funding, n, spot, perp, p).cycles;
    var before := Simulated(funding, spot, perp, p).cycles;
    var after := Simulated(funding + later, spot + moreSpot, perp + morePerp, p).cycles;
    assert settled <= before && settled <= after;
    assert before[..|settled|] == settled == after[..|settled|];
  }
}
