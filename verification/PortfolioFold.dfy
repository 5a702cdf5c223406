/** Folding partial legs into one record per position: foldSimTrades, PortfolioSimulator.ts:336-354. */
module PortfolioFold {
  import opened Common
  import opened ExecutionSimulator
  import opened PortfolioSimulator
  import opened Sums

  predicate IsLegOf(t: SimTrade, id: PositionId) {
    t.partial && t.id == Some(id)
  }

  /** The partial legs of one position, in order. */
  function Legs(trades: seq<SimTrade>, id: PositionId): seq<SimTrade> {
    if trades == [] then []
    else
      var last := trades[|trades| - 1];
      var earlier := Legs(trades[..|trades| - 1], id);
      if IsLegOf(last, id) then earlier + [last] else earlier
  }

  function LegsOf(trades: seq<SimTrade>, t: SimTrade): seq<SimTrade> {
    if t.id.Some? then Legs(trades, t.id.value) else []
  }

  function QtyOf(t: SimTrade): real {
    t.qty
  }

  function PnlOf(t: SimTrade): real {
    t.pnl
  }

  function FeesOf(t: SimTrade): real {
    t.fees
  }

  /** The exit that gives the folded quantity its folded result. */
  function FoldedExit(t: SimTrade, qty: real, pnl: real): real {
    if qty > 0.0 then t.entry + Times(Direction(t.side), pnl) / qty else t.exit
  }

  /** One final close with its legs absorbed. */
  function Absorb(t: SimTrade, legs: seq<SimTrade>): SimTrade {
    if legs == [] then t
    else
      var qty, pnl := t.qty + Sum(legs, QtyOf), t.pnl + Sum(legs, PnlOf);
      t.(qty := qty, pnl := pnl, exit := FoldedExit(t, qty, pnl), fees := Round6(t.fees + Sum(legs, FeesOf)))
  }

  /** The records of the first `n` trades' final closes. */
  function FoldTo(trades: seq<SimTrade>, n: nat): seq<SimTrade>
    requires n <= |trades|
  {
    if n == 0 then []
    else
      var t := trades[n - 1];
      if t.partial then FoldTo(trades, n - 1) else FoldTo(trades, n - 1) + [Absorb(t, LegsOf(trades, t))]
  }

  function Fold(trades: seq<SimTrade>): seq<SimTrade> {
    FoldTo(trades, |trades|)
  }

  /** `foldSimTrades`: group the legs by position, then absorb them into the closes. */
  method FoldSimTrades(trades: seq<SimTrade>) returns (folded: seq<SimTrade>)
    ensures folded == Fold(trades)
  {
    var legs := GroupLegs(trades);
    folded := [];
    for i := 0 to |trades|
      invariant folded == FoldTo(trades, i)
    {
      var t := trades[i];
      if !t.partial {
        var parts := if t.id.Some? && t.id.value in legs then legs[t.id.value] else [];
        assert parts == LegsOf(trades, t);
        folded := folded + [Absorb(t, parts)];
      }
    }
  }

  method GroupLegs(trades: seq<SimTrade>) returns (legs: map<PositionId, seq<SimTrade>>)
    ensures forall id: PositionId :: Legs(trades, id) == if id in legs then legs[id] else []
  {
    legs := map[];
    for i := 0 to |trades|
      invariant forall id: PositionId :: Legs(trades[..i], id) == if id in legs then legs[id] else []
    {
      assert trades[..i + 1][..i] == trades[..i];
      var t := trades[i];
      if t.partial && t.id.Some? {
        legs := legs[t.id.value := (if t.id.value in legs then legs[t.id.value] else []) + [t]];
      }
    }
    assert trades[..|trades|] == trades;
  }

  // ----- a folded record is consistent -----

  lemma DirectionTwice(side: Side, x: real)
    ensures Times(Direction(side), Times(Direction(side), x)) == x
  {}

  lemma QuotientTimes(x: real, q: real)
    requires q > 0.0
    ensures Times(x / q, q) == x
  {}

  /**
   * (exit - entry) x quantity x direction is the record's PnL: true of every close and leg as booked,
   * and still true of a folded record, scale-ins between its legs included.
   */
  lemma FoldedPnlIsGross(t: SimTrade, legs: seq<SimTrade>)
    requires t.pnl == Gross(t.side, t.entry, t.exit, t.qty)
    requires legs != [] ==> t.qty + Sum(legs, QtyOf) > 0.0
    ensures var f := Absorb(t, legs); f.pnl == Gross(f.side, f.entry, f.exit, f.qty)
  {
    if legs != [] {
      var f := Absorb(t, legs);
      var x := Times(Direction(t.side), f.pnl);
      QuotientTimes(x, f.qty);
      assert f.exit - f.entry == x / f.qty;
      DirectionTwice(t.side, f.pnl);
    }
  }

  // ----- totals -----

  function Finals(trades: seq<SimTrade>): seq<SimTrade> {
    if trades == [] then []
    else
      var earlier := Finals(trades[..|trades| - 1]);
      if trades[|trades| - 1].partial then earlier else earlier + [trades[|trades| - 1]]
  }

  function Partials(trades: seq<SimTrade>): seq<SimTrade> {
    if trades == [] then []
    else
      var earlier := Partials(trades[..|trades| - 1]);
      if trades[|trades| - 1].partial then earlier + [trades[|trades| - 1]] else earlier
  }

  function CountOf(finals: seq<SimTrade>, id: PositionId): nat {
    if finals == [] then 0
    else CountOf(finals[..|finals| - 1], id) + (if finals[|finals| - 1].id == Some(id) then 1 else 0)
  }

  /** Every partial leg belongs to a position with exactly one final close. */
  ghost predicate EveryLegClosesOnce(trades: seq<SimTrade>) {
    forall i :: 0 <= i < |trades| && trades[i].partial ==>
      trades[i].id.Some? && CountOf(Finals(trades), trades[i].id.value) == 1
  }

  /** What the legs among `parts` add to the final `t`. */
  function LegPart(parts: seq<SimTrade>, x: SimTrade -> real): SimTrade -> real {
    (t: SimTrade) => Sum(LegsOf(parts, t), x)
  }

  function IfLeg(p: SimTrade, x: SimTrade -> real): SimTrade -> real {
    (t: SimTrade) => if p.partial && p.id.Some? && t.id == p.id then x(p) else 0.0
  }

  lemma LegPartAppend(parts: seq<SimTrade>, p: SimTrade, x: SimTrade -> real, t: SimTrade)
    ensures LegPart(parts + [p], x)(t) == LegPart(parts, x)(t) + IfLeg(p, x)(t)
  {
    assert (parts + [p])[..|parts|] == parts;
    if t.id.Some? && IsLegOf(p, t.id.value) {
      SumAppend(Legs(parts, t.id.value), p, x);
    }
  }

  lemma {:induction false} LegSumAppend(finals: seq<SimTrade>, parts: seq<SimTrade>, p: SimTrade, x: SimTrade -> real)
    ensures Sum(finals, LegPart(parts + [p], x)) == Sum(finals, LegPart(parts, x)) + Sum(finals, IfLeg(p, x))
  {
    if finals != [] {
      LegSumAppend(finals[..|finals| - 1], parts, p, x);
      LegPartAppend(parts, p, x, finals[|finals| - 1]);
    }
  }

  /** A leg is absorbed by exactly as many records as its position has final closes. */
  lemma {:induction false} AbsorbedCount(finals: seq<SimTrade>, p: SimTrade, x: SimTrade -> real)
    requires p.partial && p.id.Some?
    ensures Sum(finals, IfLeg(p, x)) == Times(CountOf(finals, p.id.value) as real, x(p))
  {
    if finals == [] {
      assert Times(0.0, x(p)) == 0.0;
    } else {
      var n := |finals| - 1;
      AbsorbedCount(finals[..n], p, x);
      OneMore(CountOf(finals[..n], p.id.value), x(p));
    }
  }

  lemma OneMore(n: nat, x: real)
    ensures Times((n + 1) as real, x) == Times(n as real, x) + x
    ensures Times(1.0, x) == x
  {}

  ghost predicate PartsOnce(finals: seq<SimTrade>, parts: seq<SimTrade>) {
    forall i :: 0 <= i < |parts| && parts[i].partial ==> parts[i].id.Some? && CountOf(finals, parts[i].id.value) == 1
  }

  lemma {:induction false} LegsAbsorbedOnce(finals: seq<SimTrade>, parts: seq<SimTrade>, x: SimTrade -> real)
    requires PartsOnce(finals, parts)
    ensures Sum(finals, LegPart(parts, x)) == Sum(Partials(parts), x)
    decreases |parts|
  {
    if parts == [] {
      forall i | 0 <= i < |finals| ensures LegPart(parts, x)(finals[i]) == 0.0 {}
      SumOfZeros(finals, LegPart(parts, x));
    } else {
      var n := |parts| - 1;
      var p := parts[n];
      LegsAbsorbedOnce(finals, parts[..n], x);
      LegSumAppend(finals, parts[..n], p, x);
      assert parts[..n] + [p] == parts;
      if p.partial {
        AbsorbedCount(finals, p, x);
        OneMore(0, x(p));
        SumAppend(Partials(parts[..n]), p, x);
      } else {
        SumOfZeros(finals, IfLeg(p, x));
      }
    }
  }

  lemma {:induction false} SplitTotal(trades: seq<SimTrade>, x: SimTrade -> real)
    ensures Sum(trades, x) == Sum(Finals(trades), x) + Sum(Partials(trades), x)
  {
    if trades != [] {
      var earlier, last := trades[..|trades| - 1], trades[|trades| - 1];
      SplitTotal(earlier, x);
      if last.partial {
        SumAppend(Partials(earlier), last, x);
      } else {
        SumAppend(Finals(earlier), last, x);
      }
    }
  }

  /** A quantity that absorbing adds up exactly: the record's is the close's plus its legs'. */
  ghost predicate Additive(x: SimTrade -> real) {
    forall t: SimTrade, legs: seq<SimTrade> {:trigger Absorb(t, legs)} :: x(Absorb(t, legs)) == x(t) + Sum(legs, x)
  }

  lemma AbsorbAdds(trades: seq<SimTrade>, t: SimTrade, x: SimTrade -> real)
    requires Additive(x)
    ensures x(Absorb(t, LegsOf(trades, t))) == x(t) + LegPart(trades, x)(t)
  {}

  lemma AppendRecord(folded: seq<SimTrade>, f: SimTrade, finals: seq<SimTrade>, t: SimTrade, x: SimTrade -> real,
                     y: SimTrade -> real)
    requires Sum(folded, x) == Sum(finals, x) + Sum(finals, y) && x(f) == x(t) + y(t)
    ensures Sum(folded + [f], x) == Sum(finals + [t], x) + Sum(finals + [t], y)
  {
    SumAppend(folded, f, x);
    SumAppend(finals, t, x);
    SumAppend(finals, t, y);
  }

  lemma {:induction false} FoldSum(trades: seq<SimTrade>, n: nat, x: SimTrade -> real)
    requires n <= |trades| && Additive(x)
    ensures Sum(FoldTo(trades, n), x) == Sum(Finals(trades[..n]), x) + Sum(Finals(trades[..n]), LegPart(trades, x))
  {
    if n > 0 {
      FoldSum(trades, n - 1, x);
      var t := trades[n - 1];
      assert trades[..n][..n - 1] == trades[..n - 1];
      if !t.partial {
        AbsorbAdds(trades, t, x);
        AppendRecord(FoldTo(trades, n - 1), Absorb(t, LegsOf(trades, t)), Finals(trades[..n - 1]), t, x,
                     LegPart(trades, x));
      }
    }
  }

  /** Folding preserves the total of every additive quantity when each leg's position closes exactly once. */
  lemma FoldKeepsTotal(trades: seq<SimTrade>, x: SimTrade -> real)
    requires EveryLegClosesOnce(trades) && Additive(x)
    ensures Sum(Fold(trades), x) == Sum(trades, x)
  {
    FoldSum(trades, |trades|, x);
    LegsAbsorbedOnce(Finals(trades), trades, x);
    SplitTotal(trades, x);
    assert trades[..|trades|] == trades;
  }

  /** Main result: folding keeps total PnL and total quantity exactly. */
  lemma FoldKeepsPnlAndQty(trades: seq<SimTrade>)
    requires EveryLegClosesOnce(trades)
    ensures Sum(Fold(trades), PnlOf) == Sum(trades, PnlOf)
    ensures Sum(Fold(trades), QtyOf) == Sum(trades, QtyOf)
  {
    assert Additive(PnlOf);
    assert Additive(QtyOf);
    FoldKeepsTotal(trades, PnlOf);
    FoldKeepsTotal(trades, QtyOf);
  }
}
