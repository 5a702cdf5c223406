/** What a fill on the paper account costs, and what it leaves of a position: src/binance/paperEngine.ts. */
module PaperFills {
  import opened Common
  import opened PaperEngine
  import opened Sums

  /**
   * Every fill is worse than the mark by exactly the slippage rate: an entry pays it and an exit gives it up, so the
   * two at one mark lie evenly around it.
   */
  lemma FillsAreAdverse(side: Side, mark: real, costs: PaperCosts)
    ensures Signed(side, FillPrice(side, mark, true, costs) - mark) == Notional(mark, costs.slippageRate)
    ensures Signed(side, FillPrice(side, mark, false, costs) - mark) == -Notional(mark, costs.slippageRate)
  {
    var s := costs.slippageRate;
    assert Part(s, 1.0) == s && Part(s, -1.0) == -s;
    assert Notional(mark, 1.0 + s) == mark + Notional(mark, s);
    assert Notional(mark, 1.0 - s) == mark - Notional(mark, s);
  }

  /** Opening and closing the same quantity at one mark loses the slippage and the fee on its value twice. */
  lemma RoundTripCosts(params: FillParams, mark: real, now: real, reason: ExitReason, costs: PaperCosts)
    requires params.qty > 0.0
    ensures
      var pos := Create(params, FillPrice(params.side, mark, true, costs), now, costs);
      var closed := Reduce(pos, params.qty, mark, reason, costs);
      && closed.left.qty == 0.0
      && closed.trade.pnl == -2.0 * Notional(Notional(mark, params.qty), costs.slippageRate + costs.takerFeeRate)
  {
    var qty, entry, exit := params.qty, FillPrice(params.side, mark, true, costs),
                            FillPrice(params.side, mark, false, costs);
    FillsAreAdverse(params.side, mark, costs);
    assert qty / qty == 1.0;
    var pos := Create(params, entry, now, costs);
    assert Part(pos.openFee, 1.0) == pos.openFee && Part(0.0, 1.0) == 0.0;
    var slip := Notional(mark, costs.slippageRate);
    assert Signed(params.side, exit - entry) == -2.0 * slip;
    MoveIsOnQuantity(params.side, exit - entry, qty);
    FeesAdd(entry, exit, qty, costs);
    assert entry + exit == 2.0 * mark;
    TwiceTheValue(mark, qty, costs);
  }

  lemma MoveIsOnQuantity(side: Side, move: real, qty: real)
    ensures Signed(side, Notional(move, qty)) == Notional(Signed(side, move), qty)
  {}

  lemma FeesAdd(a: real, b: real, qty: real, costs: PaperCosts)
    ensures Fee(Notional(a, qty), costs) + Fee(Notional(b, qty), costs)
         == Notional(Notional(a + b, qty), costs.takerFeeRate)
  {}

  lemma TwiceTheValue(mark: real, qty: real, costs: PaperCosts)
    ensures Notional(-2.0 * Notional(mark, costs.slippageRate), qty)
            - Notional(Notional(2.0 * mark, qty), costs.takerFeeRate)
         == -2.0 * Notional(Notional(mark, qty), costs.slippageRate + costs.takerFeeRate)
  {}

  /**
   * A record is the position's own: what the closed quantity cost at the entry, plus the record's pnl and the fees it
   * paid and less the funding it takes over, is what it brought for a long, and the other way round for a short. What
   * is left keeps the open fee and the funding in proportion to the quantity left.
   */
  lemma RecordsAreNet(pos: Position, qty: real, mark: real, reason: ExitReason, costs: PaperCosts)
    requires pos.qty > 0.0
    ensures
      var r := Reduce(pos, qty, mark, reason, costs);
      var t, fees, funding := r.trade, pos.openFee - r.left.openFee + r.fill.fee, pos.funding - r.left.funding;
      && t.symbol == pos.symbol && t.strategy == pos.strategy && t.side == pos.side && t.reason == reason
      && t.entry == pos.entry && t.exit == r.fill.price && t.qty == pos.qty - r.left.qty
      && t.pnl + fees - funding ==
         if t.side.Long? then Notional(t.exit, t.qty) - Notional(t.entry, t.qty)
         else Notional(t.entry, t.qty) - Notional(t.exit, t.qty)
    ensures
      var left := Reduce(pos, qty, mark, reason, costs).left;
      && Notional(left.openFee, pos.qty) == Notional(pos.openFee, left.qty)
      && Notional(left.funding, pos.qty) == Notional(pos.funding, left.qty)
  {
    var t := Reduce(pos, qty, mark, reason, costs).trade;
    PartStaysInProportion(pos.openFee, pos.qty, t.qty);
    PartStaysInProportion(pos.funding, pos.qty, t.qty);
    assert Notional(t.exit - t.entry, t.qty) == Notional(t.exit, t.qty) - Notional(t.entry, t.qty);
  }

  lemma PartStaysInProportion(amount: real, qty: real, closed: real)
    requires qty > 0.0
    ensures Notional(amount - Part(amount, closed / qty), qty) == Notional(amount, qty - closed)
  {
    var share := closed / qty;
    assert Notional(share, qty) == closed;
    assert Notional(Part(amount, share), qty) == Notional(amount, Notional(share, qty));
  }

  /** A new position is worth what it cost but for its fee, and the risk recorded is the distance to its stop. */
  lemma NewPositionOwesItsFee(params: FillParams, price: real, now: real, costs: PaperCosts)
    ensures
      var pos := Create(params, price, now, costs);
      && pos.symbol == params.symbol && pos.strategy == params.strategy && pos.side == params.side
      && pos.entry == price && pos.qty == params.qty && pos.leverage == params.leverage && pos.openedAt == Some(now)
      && pos.funding == 0.0 && pos.upnl == -Notional(Notional(price, params.qty), costs.takerFeeRate)
      && (pos.initialRisk.Some? <==> pos.stopLoss.Some?)
      && pos.stopLoss == (if IsPrice(params.stopLoss) then params.stopLoss else None)
      && pos.takeProfit == (if IsPrice(params.takeProfit) then params.takeProfit else None)
      && (pos.stopLoss.Some? && Signed(params.side, price - pos.stopLoss.value) >= 0.0 ==>
            pos.initialRisk.value == Signed(params.side, price - pos.stopLoss.value))
  {
    assert Notional(0.0, params.qty) == 0.0;
  }

  /** An addition brings its own levels and keeps those it leaves out; zero is no level. */
  lemma AddingKeepsLevels(pos: Position, params: FillParams, price: real, now: real, costs: PaperCosts)
    requires pos.qty > 0.0 && params.qty > 0.0
    ensures
      var after := ScaledIn(pos, params, price, now, costs);
      && after.leverage == params.leverage && after.initialRisk == pos.initialRisk && after.mark == price
      && after.stopLoss == (if IsPrice(params.stopLoss) then params.stopLoss else pos.stopLoss)
      && after.takeProfit == (if IsPrice(params.takeProfit) then params.takeProfit else pos.takeProfit)
  {}

  // ----- orders -----

  /** The signed quantity a strategy holds of a symbol. */
  function HeldBy(ps: seq<Position>, symbol: string, strategy: string): real {
    var found := Find(ps, symbol, strategy);
    if found.None? then 0.0 else Signed(ps[found.value].side, ps[found.value].qty)
  }

  /** What a filled order leaves of the quantity held: reduce-only brings it toward zero, the other side replaces it. */
  function Ordered(held: real, params: FillParams): real {
    var bought := Signed(params.side, params.qty);
    if params.reduceOnly then
      if held > 0.0 then Max(0.0, held - params.qty) else Min(0.0, held + params.qty)
    else if (held > 0.0 && bought < 0.0) || (held < 0.0 && bought > 0.0) then bought
    else held + bought
  }

  ghost predicate OnePerKey(ps: seq<Position>) {
    forall i, j :: 0 <= i < j < |ps| ==> ps[i].symbol != ps[j].symbol || ps[i].strategy != ps[j].strategy
  }

  lemma FoundIs(ps: seq<Position>, i: nat)
    requires i < |ps| && OnePerKey(ps)
    ensures Find(ps, ps[i].symbol, ps[i].strategy) == Some(i)
  {}

  lemma RemovedIsGone(ps: seq<Position>, i: nat)
    requires i < |ps| && OnePerKey(ps)
    ensures Find(Remove(ps, i), ps[i].symbol, ps[i].strategy).None? && OnePerKey(Remove(ps, i))
  {
    forall k | 0 <= k < |ps| - 1 ensures Remove(ps, i)[k] == ps[if k < i then k else k + 1] {}
  }

  lemma AppendedIsFound(ps: seq<Position>, pos: Position)
    requires Find(ps, pos.symbol, pos.strategy).None?
    ensures Find(ps + [pos], pos.symbol, pos.strategy) == Some(|ps|)
  {
    assert (ps + [pos])[..|ps|] == ps;
  }

  /**
   * A filled order moves its strategy's position by its quantity: it opens or adds on its side, reverses the other side
   * whatever its size, or, reduce-only, shrinks what there is without turning it.
   */
  lemma OrdersMoveTheirPosition(b: Book, params: FillParams, lastPrices: map<string, real>, now: real,
                                costs: PaperCosts)
    requires Quantities(b.positions) && OnePerKey(b.positions) && params.qty > 0.0
    ensures
      var (outcome, after, _) := Open(b, params, lastPrices, now, costs);
      HeldBy(after.positions, params.symbol, params.strategy) ==
      if outcome.Filled? then Ordered(HeldBy(b.positions, params.symbol, params.strategy), params)
      else HeldBy(b.positions, params.symbol, params.strategy)
  {
    var found, price := Find(b.positions, params.symbol, params.strategy), PriceFor(b, params, lastPrices);
    if price.Some? && found.None? {
      AppendedIsFound(b.positions, Create(params, FillPrice(params.side, price.value, true, costs), now, costs));
    } else if price.Some? {
      var i, pos := found.value, b.positions[found.value];
      RemovedIsGone(b.positions, i);
      if params.reduceOnly {
        var left := Reduce(pos, params.qty, price.value, Close, costs).left;
        if left.qty > 0.0 {
          FoundIs(b.positions[i := left], i);
        }
      } else if pos.side == params.side {
        var fill := FillPrice(params.side, price.value, true, costs);
        FoundIs(b.positions[i := ScaledIn(pos, params, fill, now, costs)], i);
      } else {
        AppendedIsFound(Remove(b.positions, i),
                        Create(params, FillPrice(params.side, price.value, true, costs), now, costs));
      }
    }
  }

  // ----- liquidation -----

  /**
   * At its liquidation price a position has lost its margin less the maintenance margin, both on the entry notional;
   * there is none exactly for a long whose margin covers a fall to zero.
   */
  lemma LiquidatedAtMarginLoss(pos: Position)
    requires pos.entry > 0.0 && pos.qty > 0.0
    ensures
      var liq, notional := LiquidationPrice(pos), Notional(pos.entry, pos.qty);
      && (liq.Some? ==> Notional(Signed(pos.side, pos.entry - liq.value), pos.qty) ==
                        notional / pos.leverage - Notional(0.005, notional))
      && (liq.None? <==> pos.side.Long? && notional <= notional / pos.leverage)
  {
    var notional := Notional(pos.entry, pos.qty);
    assert notional > 0.0;
    QuotientIsAtLeast(notional, pos.leverage);
    if !(pos.side.Long? && pos.leverage <= 1.0) {
      var buffer := 1.0 / pos.leverage - MAINTENANCE_MARGIN_RATE;
      LossOnBuffer(pos, buffer);
      assert Notional(notional, 1.0 / pos.leverage) == notional / pos.leverage;
      assert Notional(notional, buffer) == Notional(notional, 1.0 / pos.leverage) - Notional(0.005, notional);
    }
  }

  lemma QuotientIsAtLeast(x: real, d: Leverage)
    requires x > 0.0
    ensures x <= x / d <==> d <= 1.0
  {
    var q := x / d;
    assert Notional(q, d) == x;
    if d <= 1.0 {
      assert Notional(q, 1.0 - d) >= 0.0;
      assert Notional(q, 1.0 - d) == q - Notional(q, d);
    } else {
      assert q > 0.0;
      assert Notional(q, d - 1.0) > 0.0;
      assert Notional(q, d - 1.0) == Notional(q, d) - q;
    }
  }

  lemma LossOnBuffer(pos: Position, buffer: real)
    ensures
      var level := Notional(pos.entry, if pos.side.Long? then 1.0 - buffer else 1.0 + buffer);
      Notional(Signed(pos.side, pos.entry - level), pos.qty) == Notional(Notional(pos.entry, pos.qty), buffer)
  {
    var level := Notional(pos.entry, if pos.side.Long? then 1.0 - buffer else 1.0 + buffer);
    assert Notional(pos.entry, 1.0 - buffer) == pos.entry - Notional(pos.entry, buffer);
    assert Notional(pos.entry, 1.0 + buffer) == pos.entry + Notional(pos.entry, buffer);
    assert Signed(pos.side, pos.entry - level) == Notional(pos.entry, buffer);
  }

  // ----- funding -----

  /** The marked value of the inventory: bought less sold. */
  function SignedValue(pos: Position): real {
    Notional(pos.mark, if pos.side.Long? then pos.qty else -pos.qty)
  }

  /** What an accrual costs a position: the rate on its signed value, for every boundary it was open through. */
  function Owed(rates: map<string, real>, clock: int, slot: int): Position -> real {
    (pos: Position) =>
      if pos.symbol in rates && Crossed(pos, clock, slot) > 0
      then Notional(rates[pos.symbol], Part(SignedValue(pos), Crossed(pos, clock, slot) as real)) else 0.0
  }

  lemma FundingIsOnSignedValue(pos: Position, rate: real, crossed: int)
    ensures FundingOf(pos, rate, crossed) == -Notional(rate, Part(SignedValue(pos), crossed as real))
  {
    var unit := Notional(Notional(rate, pos.qty), pos.mark);
    assert Notional(pos.mark, -pos.qty) == -Notional(pos.mark, pos.qty);
    assert unit == Notional(rate, Notional(pos.mark, pos.qty));
    RateOnPart(rate, Notional(pos.mark, pos.qty), crossed as real);
  }

  lemma RateOnPart(rate: real, value: real, n: real)
    ensures Part(Notional(rate, value), n) == Notional(rate, Part(value, n))
    ensures Notional(rate, Part(-value, n)) == -Notional(rate, Part(value, n))
  {}

  /** An accrual pays, on every position, minus what it owes: at a positive rate a long loses what a short gains. */
  lemma AccrualPaysOnTheInventory(book: Book, rates: map<string, real>, now: real)
    ensures
      var slot := SlotOf(now);
      Accrue(book, rates, now).1.funding ==
      if book.clock < 0 || slot <= book.clock then 0.0 else -Sum(book.positions, Owed(rates, book.clock, slot))
  {
    TotalChargeIsOwed(book.positions, rates, book.clock, SlotOf(now));
  }

  lemma {:induction false} TotalChargeIsOwed(ps: seq<Position>, rates: map<string, real>, clock: int, slot: int)
    ensures TotalCharge(ps, rates, clock, slot) == -Sum(ps, Owed(rates, clock, slot))
  {
    if ps != [] {
      var pos := ps[|ps| - 1];
      TotalChargeIsOwed(ps[..|ps| - 1], rates, clock, slot);
      if pos.symbol in rates {
        FundingIsOnSignedValue(pos, rates[pos.symbol], Crossed(pos, clock, slot));
      }
    }
  }

  /** A long and a short of the same value that were open through the same boundaries net to nothing. */
  lemma MatchedPositionsNet(long: Position, short: Position, rates: map<string, real>, clock: int, slot: int)
    requires long.side.Long? && short.side.Short? && long.symbol == short.symbol
    requires Notional(long.mark, long.qty) == Notional(short.mark, short.qty)
    requires Crossed(long, clock, slot) == Crossed(short, clock, slot)
    ensures Charge(long, rates, clock, slot) + Charge(short, rates, clock, slot) == 0.0
    ensures
      long.symbol in rates && Crossed(long, clock, slot) > 0 && Notional(long.mark, long.qty) > 0.0 ==>
        (rates[long.symbol] > 0.0 <==> Charge(long, rates, clock, slot) < 0.0)
  {
    if long.symbol in rates && Crossed(long, clock, slot) > 0 {
      var rate, value, n := rates[long.symbol], Notional(long.mark, long.qty), Crossed(long, clock, slot) as real;
      FundingIsOnSignedValue(long, rate, Crossed(long, clock, slot));
      FundingIsOnSignedValue(short, rate, Crossed(long, clock, slot));
      assert Notional(short.mark, -short.qty) == -value;
      RateOnPart(rate, value, n);
      if value > 0.0 {
        SignOfCharge(rate, Part(value, n));
      }
    }
  }

  lemma SignOfCharge(rate: real, value: real)
    requires value > 0.0
    ensures rate > 0.0 <==> Notional(rate, value) > 0.0
  {}

  // ----- the price of an order -----

  predicate IsPrice(p: Option<real>) {
    p.Some? && p.value != 0.0
  }

  /**
   * An order fills at the price it names, else at the last one seen for its symbol, else at the mark of its own
   * position; a price of zero counts as none, and without any the order is turned away.
   */
  lemma PriceIsTheFirstKnown(book: Book, params: FillParams, lastPrices: map<string, real>)
    ensures
      var named, seen, held := params.entryPrice, Get(lastPrices, params.symbol),
                               Find(book.positions, params.symbol, params.strategy);
      var price := PriceFor(book, params, lastPrices);
      && (IsPrice(named) ==> price == named)
      && (!IsPrice(named) && IsPrice(seen) ==> price == seen)
      && (!IsPrice(named) && !IsPrice(seen) ==>
            if held.Some? && book.positions[held.value].mark != 0.0 then price == Some(book.positions[held.value].mark)
            else price.None?)
  {}
}
