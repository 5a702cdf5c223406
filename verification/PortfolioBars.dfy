/** What a bar leaves of a replay position: src/backtesting/PortfolioSimulator.ts:122-211. */
module PortfolioBars {
  import opened Common
  import opened ExecutionSimulator
  import opened PortfolioSimulator
  import opened Sums

  /** The price is no better than the level for a position of this side. */
  predicate NoBetter(side: Side, price: real, level: real) {
    if side.Long? then price <= level else price >= level
  }

  /** A level that exists and the price has come to, or past it. */
  predicate IsHit(side: Side, price: real, level: Option<real>) {
    level.Some? && NoBetter(side, price, level.value)
  }

  /** A target that exists and the price has come to, or past it. */
  predicate IsMet(side: Side, price: real, level: Option<real>) {
    level.Some? && NoBetter(side, level.value, price)
  }

  /** The bar's worst price is at the position's stop or its liquidation level. */
  predicate IsLost(pos: SimPosition, bar: Candle) {
    || IsHit(pos.side, Adverse(pos.side, bar), pos.stopLoss)
    || IsHit(pos.side, Adverse(pos.side, bar), LiquidationPrice(pos.side, pos.entry, pos.leverage))
  }

  lemma ExitIffReached(pos: SimPosition, takeProfit: Option<real>, bar: Candle)
    requires RealBar(bar)
    ensures
      ExitOf(pos, pos.stopLoss, takeProfit, bar).Some? <==>
        IsLost(pos, bar) || IsMet(pos.side, Favourable(pos.side, bar), takeProfit)
  {
    ExitIsConservative(pos.side, pos.entry, pos.stopLoss, takeProfit, pos.leverage, bar);
  }

  /**
   * Without a manager a bar closes the position exactly when it reached the stop, the liquidation level or the target,
   * and otherwise only marks it at the close.
   */
  lemma UnmanagedBarClosesTheReached(b: Book, i: nat, symbol: string, bar: Candle, c: Costs)
    requires RealBar(bar) && i < |b.positions| && b.positions[i].symbol == symbol
    ensures
      var pos, after := b.positions[i], BarAt(b, i, symbol, bar, None, c);
      if IsLost(pos, bar) || IsMet(pos.side, Favourable(pos.side, bar), pos.takeProfit)
      then after.positions == Remove(b.positions, i) && |after.trades| == |b.trades| + 1
      else after == b.(positions := b.positions[i := pos.(mark := bar.close)])
  {
    ExitIffReached(b.positions[i], b.positions[i].takeProfit, bar);
  }

  /**
   * With a manager a position that the bar leaves open reached neither its stop nor its liquidation level, is marked at
   * the close, has not met the target it is left with, and does not carry a stop moved on this bar that the close is at
   * or past.
   */
  lemma ManagedSurvivorIsUnreached(b: Book, i: nat, symbol: string, bar: Candle, manager: Manager, c: Costs)
    requires RealBar(bar) && i < |b.positions| && b.positions[i].symbol == symbol
    requires |BarAt(b, i, symbol, bar, Some(manager), c).positions| == |b.positions|
    ensures
      var pos, now := b.positions[i], BarAt(b, i, symbol, bar, Some(manager), c).positions[i];
      && !IsLost(pos, bar) && now.mark == bar.close && now.side == pos.side
      && !IsMet(now.side, Favourable(now.side, bar), now.takeProfit)
      && (now.stopLoss != pos.stopLoss ==> !IsHit(now.side, bar.close, now.stopLoss))
  {
    var pos, marked := b.positions[i], Replaced(b, i, b.positions[i].(mark := bar.close));
    var closedAt := bar.openTime + FIFTEEN_MINUTES_MS;
    ExitIffReached(pos, None, bar);
    var (managed, moved) := ManagedAt(marked, i, bar, manager, closedAt, c);
    ManagedFrame(marked, i, bar, manager, closedAt, c);
    var now := managed.positions[i];
    ExitIsConservative(now.side, now.entry, None, now.takeProfit, now.leverage, bar);
    SideOfStop(now, bar);
  }

  lemma SideOfStop(pos: SimPosition, bar: Candle)
    ensures MovedStopHit(pos, bar) <==> IsHit(pos.side, bar.close, pos.stopLoss)
  {}

  /** The manager leaves the mark and the side alone, and flags every change of the stop. */
  lemma ManagedFrame(b: Book, i: nat, bar: Candle, manager: Manager, closedAt: int, c: Costs)
    requires i < |b.positions|
    ensures
      var (managed, moved) := ManagedAt(b, i, bar, manager, closedAt, c);
      var before, now := b.positions[i], managed.positions[i];
      now.mark == before.mark && now.side == before.side && (now.stopLoss != before.stopLoss ==> moved)
  {
    var (pm, actions) := manager(b.positions[i], bar);
    if pm.Some? {
      ActedFrame(Replaced(b, i, b.positions[i].(pm := pm)), i, actions, bar, closedAt, c);
    }
  }

  lemma {:induction false} ActedFrame(b: Book, i: nat, actions: seq<Action>, bar: Candle, closedAt: int, c: Costs)
    requires i < |b.positions|
    ensures
      var (acted, moved) := ActedOn(b, i, actions, bar, closedAt, c);
      var before, now := b.positions[i], acted.positions[i];
      now.mark == before.mark && now.side == before.side && (now.stopLoss != before.stopLoss ==> moved)
    decreases |actions|
  {
    if actions != [] {
      ActedFrame(b, i, actions[..|actions| - 1], bar, closedAt, c);
    }
  }

  /**
   * A partial leg fills at its level, or at the open of a bar that began past it: at the better of the two for the
   * position, and inside a bar that reached the level.
   */
  lemma PartialsFillAtTheirLevelOrBetter(side: Side, level: real, bar: Candle)
    requires RealBar(bar) && NoBetter(side, level, Favourable(side, bar))
    ensures
      var price := PartialPrice(side, level, bar);
      && NoBetter(side, level, price) && NoBetter(side, bar.open, price) && (price == level || price == bar.open)
      && bar.low <= price <= bar.high
  {}

  /**
   * A new position is what was asked for at the fill, owing its fee; the recorded risk is what a unit loses from the
   * fill to the stop, when the stop is on the losing side.
   */
  lemma NewPositionIsTheRequest(r: OpenRequest, counter: nat)
    ensures
      var pos, risk := NewPosition(r, counter), NewPosition(r, counter).initialRisk;
      && pos.symbol == r.symbol && pos.strategy == r.strategy && pos.side == r.side && pos.qty == r.qty
      && pos.entry == r.fillPrice == pos.mark && pos.leverage == r.leverage && pos.openedAt == r.openedAt
      && pos.stopLoss == r.stopLoss && pos.takeProfit == r.takeProfit && pos.fees == r.fee && pos.funding == 0.0
      && (risk.Some? <==> r.stopLoss.Some?)
      && (r.stopLoss.Some? && NoBetter(r.side, r.stopLoss.value, r.fillPrice) ==>
            risk.value == if r.side.Long? then r.fillPrice - r.stopLoss.value else r.stopLoss.value - r.fillPrice)
  {}

  /** An addition brings its own levels and keeps those it leaves out: a protected position stays protected. */
  lemma AddingKeepsLevels(pos: SimPosition, r: OpenRequest)
    ensures
      var after := ScaledIn(pos, r);
      && after.leverage == r.leverage && after.initialRisk == pos.initialRisk && after.fees == pos.fees + r.fee
      && after.mark == r.fillPrice && after.pm.None?
      && (r.stopLoss.Some? ==> after.stopLoss == r.stopLoss) && (r.stopLoss.None? ==> after.stopLoss == pos.stopLoss)
      && (r.takeProfit.Some? ==> after.takeProfit == r.takeProfit)
      && (r.takeProfit.None? ==> after.takeProfit == pos.takeProfit)
  {}
}
