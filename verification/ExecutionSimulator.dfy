/** Bar-based fills and exits with frictions: src/backtesting/ExecutionSimulator.ts. */
module ExecutionSimulator {
  import opened Common

  const FIFTEEN_MINUTES_MS: int := 900_000

  const MAINTENANCE_MARGIN_RATE: real := 0.005

  type Leverage = x: real | x > 0.0 witness 1.0

  datatype Candle = Candle(openTime: int, open: real, high: real, low: real, close: real)

  datatype Costs = Costs(takerFeeBps: real, spreadBps: real, slippageBps: real)

  datatype FillQuote = FillQuote(price: real, fee: real)

  datatype ExitReason = StopLoss | TakeProfit | Liquidated | PartialTp | Close | Flip

  datatype Exit = Exit(price: real, reason: ExitReason)

  function Times(a: real, b: real): real {
    a * b
  }

  function Friction(c: Costs): real {
    (c.spreadBps / 2.0 + c.slippageBps) / 10000.0
  }

  /** ExecutionSimulator.ts:55-64; `direction` is +1 for a buy and -1 for a sell. */
  function Quote(direction: real, mid: real, qty: real, c: Costs): FillQuote {
    var price := Times(mid, 1.0 + Times(direction, Friction(c)));
    FillQuote(price, Times(Abs(Times(price, qty)), c.takerFeeBps / 10000.0))
  }

  function EntryQuote(side: Side, refPrice: real, qty: real, c: Costs): FillQuote {
    Quote(Direction(side), refPrice, qty, c)
  }

  function ExitQuote(side: Side, refPrice: real, qty: real, c: Costs): FillQuote {
    Quote(-Direction(side), refPrice, qty, c)
  }

  /** Isolated-margin liquidation price; none for a long at 1x or less (ExecutionSimulator.ts:19-28). */
  function LiquidationPrice(side: Side, entry: real, leverage: Leverage): Option<real> {
    if side.Long? && leverage <= 1.0 then None
    else
      var buffer := 1.0 / leverage - MAINTENANCE_MARGIN_RATE;
      Some(Times(entry, if side.Long? then 1.0 - buffer else 1.0 + buffer))
  }

  /** ExecutionSimulator.ts:71-102. */
  function EvaluateExit(side: Side, entry: real, stopLoss: Option<real>, takeProfit: Option<real>, leverage: Leverage,
                        bar: Candle): Option<Exit>
  {
    var liq := LiquidationPrice(side, entry, leverage);
    if side.Long? then
      if stopLoss.Some? && bar.open <= stopLoss.value then Some(Exit(bar.open, StopLoss))
      else if stopLoss.Some? && bar.low <= stopLoss.value then Some(Exit(stopLoss.value, StopLoss))
      else if takeProfit.Some? && bar.open >= takeProfit.value then Some(Exit(bar.open, TakeProfit))
      else if takeProfit.Some? && bar.high >= takeProfit.value then Some(Exit(takeProfit.value, TakeProfit))
      else if liq.Some? && bar.low <= liq.value then Some(Exit(liq.value, Liquidated))
      else None
    else
      if stopLoss.Some? && bar.open >= stopLoss.value then Some(Exit(bar.open, StopLoss))
      else if stopLoss.Some? && bar.high >= stopLoss.value then Some(Exit(stopLoss.value, StopLoss))
      else if takeProfit.Some? && bar.open <= takeProfit.value then Some(Exit(bar.open, TakeProfit))
      else if takeProfit.Some? && bar.low <= takeProfit.value then Some(Exit(takeProfit.value, TakeProfit))
      else if liq.Some? && bar.high >= liq.value then Some(Exit(liq.value, Liquidated))
      else None
  }

  /** The bar's price nearest the position's loss, and nearest its gain. */
  function Adverse(side: Side, bar: Candle): real {
    if side.Long? then bar.low else bar.high
  }

  function Favourable(side: Side, bar: Candle): real {
    if side.Long? then bar.high else bar.low
  }

  /** How much better `a` is than `b` for a position of this side. */
  function Better(side: Side, a: real, b: real): real {
    Times(Direction(side), a - b)
  }

  ghost predicate RealBar(bar: Candle) {
    bar.low <= bar.open <= bar.high && bar.low <= bar.close <= bar.high
  }

  /**
   * The pessimistic order: a touched stop always wins, fills at its level or worse when the open gaps
   * through it, and never outside the bar; a target fills at its level or better, only with the stop untouched. A
   * bar that reaches neither liquidates the position, at its level, exactly when it reaches that.
   */
  lemma ExitIsConservative(side: Side, entry: real, stopLoss: Option<real>, takeProfit: Option<real>,
                           leverage: Leverage, bar: Candle)
    requires RealBar(bar)
    ensures
      var exit := EvaluateExit(side, entry, stopLoss, takeProfit, leverage, bar);
      && (stopLoss.Some? && Better(side, Adverse(side, bar), stopLoss.value) <= 0.0 <==>
          exit.Some? && exit.value.reason.StopLoss?)
      && (exit.Some? && exit.value.reason.StopLoss? ==>
            Better(side, exit.value.price, stopLoss.value) <= 0.0 && bar.low <= exit.value.price <= bar.high)
      && (exit.Some? && exit.value.reason.TakeProfit? ==>
            && takeProfit.Some? && Better(side, exit.value.price, takeProfit.value) >= 0.0
            && bar.low <= exit.value.price <= bar.high
            && (stopLoss.Some? ==> Better(side, Adverse(side, bar), stopLoss.value) > 0.0))
      && (exit.None? && takeProfit.Some? ==> Better(side, Favourable(side, bar), takeProfit.value) < 0.0)
    ensures
      var exit := EvaluateExit(side, entry, stopLoss, takeProfit, leverage, bar);
      var liq := LiquidationPrice(side, entry, leverage);
      var reached := liq.Some? && Better(side, Adverse(side, bar), liq.value) <= 0.0;
      && (exit.Some? ==> exit.value.reason in {StopLoss, TakeProfit, Liquidated})
      && (exit.Some? && exit.value.reason.Liquidated? ==>
            && reached && exit.value.price == liq.value
            && (takeProfit.Some? ==> Better(side, Favourable(side, bar), takeProfit.value) < 0.0))
      && (reached ==> exit.Some?)
  {}

  /**
   * At its liquidation price a position has lost its margin less the maintenance margin, both on the entry notional;
   * there is none exactly for a long whose margin covers a fall to zero.
   */
  lemma LiquidatedAtMarginLoss(side: Side, entry: real, leverage: Leverage, qty: real)
    requires entry > 0.0 && qty > 0.0
    ensures
      var liq, notional := LiquidationPrice(side, entry, leverage), Times(entry, qty);
      && (liq.Some? ==> Times(-Better(side, liq.value, entry), qty) ==
                        notional / leverage - Times(0.005, notional))
      && (liq.None? <==> side.Long? && notional <= notional / leverage)
  {
    var notional := Times(entry, qty);
    assert notional > 0.0;
    QuotientIsAtLeast(notional, leverage);
    if !(side.Long? && leverage <= 1.0) {
      var buffer := 1.0 / leverage - MAINTENANCE_MARGIN_RATE;
      LossOnBuffer(side, entry, buffer, qty);
      assert Times(notional, 1.0 / leverage) == notional / leverage;
      assert Times(notional, buffer) == Times(notional, 1.0 / leverage) - Times(MAINTENANCE_MARGIN_RATE, notional);
    }
  }

  lemma QuotientIsAtLeast(x: real, d: Leverage)
    requires x > 0.0
    ensures x <= x / d <==> d <= 1.0
  {
    var q := x / d;
    assert Times(q, d) == x;
    if d <= 1.0 {
      assert Times(q, 1.0 - d) >= 0.0;
      assert Times(q, 1.0 - d) == q - Times(q, d);
    } else {
      assert q > 0.0;
      assert Times(q, d - 1.0) > 0.0;
      assert Times(q, d - 1.0) == Times(q, d) - q;
    }
  }

  lemma LossOnBuffer(side: Side, entry: real, buffer: real, qty: real)
    ensures
      var level := Times(entry, if side.Long? then 1.0 - buffer else 1.0 + buffer);
      Times(-Better(side, level, entry), qty) == Times(Times(entry, qty), buffer)
  {
    var level := Times(entry, if side.Long? then 1.0 - buffer else 1.0 + buffer);
    assert Times(entry, 1.0 - buffer) == entry - Times(entry, buffer);
    assert Times(entry, 1.0 + buffer) == entry + Times(entry, buffer);
    assert -Better(side, level, entry) == Times(entry, buffer);
  }

  /**
   * Buying and selling at the same reference price loses the spread and twice the slippage on the price, and each side
   * pays the taker fee on what it trades.
   */
  lemma RoundTripCosts(side: Side, refPrice: real, qty: real, c: Costs)
    ensures
      var entry, exit := EntryQuote(side, refPrice, qty, c), ExitQuote(side, refPrice, qty, c);
      && Better(side, entry.price, exit.price) == Times(refPrice, c.spreadBps + 2.0 * c.slippageBps) / 10000.0
      && entry.price + exit.price == 2.0 * refPrice
      && entry.fee == Times(c.takerFeeBps, Abs(Times(entry.price, qty))) / 10000.0
      && exit.fee == Times(c.takerFeeBps, Abs(Times(exit.price, qty))) / 10000.0
  {
    var f := Friction(c);
    assert Times(refPrice, 1.0 + f) == refPrice + Times(refPrice, f);
    assert Times(refPrice, 1.0 - f) == refPrice - Times(refPrice, f);
    assert 2.0 * f == (c.spreadBps + 2.0 * c.slippageBps) / 10000.0;
  }

  /** Frictions always work against the trader: an entry costs more and an exit brings less than the reference price. */
  lemma FillsAreAdverse(side: Side, refPrice: real, qty: real, c: Costs)
    requires refPrice >= 0.0 && c.spreadBps >= 0.0 && c.slippageBps >= 0.0 && c.takerFeeBps >= 0.0
    ensures Better(side, EntryQuote(side, refPrice, qty, c).price, refPrice) >= 0.0
    ensures Better(side, ExitQuote(side, refPrice, qty, c).price, refPrice) <= 0.0
    ensures EntryQuote(side, refPrice, qty, c).fee >= 0.0 && ExitQuote(side, refPrice, qty, c).fee >= 0.0
  {
    FrictionIsAgainst(Direction(side), refPrice, Friction(c));
    FeeIsNonNegative(EntryQuote(side, refPrice, qty, c).price, qty, c);
    FeeIsNonNegative(ExitQuote(side, refPrice, qty, c).price, qty, c);
  }

  lemma FrictionIsAgainst(d: real, price: real, f: real)
    requires price >= 0.0 && f >= 0.0 && (d == 1.0 || d == -1.0)
    ensures Times(d, Times(price, 1.0 + Times(d, f)) - price) >= 0.0
    ensures Times(d, Times(price, 1.0 + Times(-d, f)) - price) <= 0.0
  {
    assert price * f >= 0.0;
    assert Times(price, 1.0 + f) == price + price * f;
    assert Times(price, 1.0 - f) == price - price * f;
  }

  lemma FeeIsNonNegative(price: real, qty: real, c: Costs)
    requires c.takerFeeBps >= 0.0
    ensures Times(Abs(Times(price, qty)), c.takerFeeBps / 10000.0) >= 0.0
  {}
}
