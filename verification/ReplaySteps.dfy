/** When the replay settles, decides and grades: src/backtesting/ReplayService.ts:151-288. */
module ReplaySteps {
  import opened Common
  import opened ExecutionSimulator
  import opened PortfolioSimulator
  import opened PortfolioSteps
  import opened PortfolioLedger
  import opened MarketDataFeed
  import opened Replay
  import opened ReplayGuarantees

  // ----- funding windows -----

  /** The step whose window the moment falls into. */
  predicate Covers(d: Data, i: nat, t: int)
    requires Usable(d) && i < StepCount(d)
  {
    ViewAt(d, i).previousClose < t <= ViewAt(d, i).closeTime
  }

  /**
   * The steps' windows leave no gap and do not overlap: every moment from a quarter of an hour before the first close
   * to the last close is in the window of exactly one step, so no funding boundary is missed or settled twice.
   */
  lemma EveryMomentIsOneSteps(d: Data, t: int)
    requires Usable(d) && GridInOrder(d)
    requires StepTime(d, 0) - 900_000 < t <= StepTime(d, StepCount(d) - 1)
    ensures exists i: nat :: i < StepCount(d) && Covers(d, i, t)
                             && forall j: nat :: j < StepCount(d) && Covers(d, j, t) ==> j == i
  {
    var i := FirstNotBefore(d, t, 0);
    assert Covers(d, i, t);
  }

  ghost function FirstNotBefore(d: Data, t: int, from: nat): (i: nat)
    requires Usable(d) && from < StepCount(d) && t <= StepTime(d, StepCount(d) - 1)
    requires from > 0 ==> StepTime(d, from - 1) < t
    ensures i < StepCount(d) && t <= StepTime(d, i) && (i > 0 ==> StepTime(d, i - 1) < t)
    decreases StepCount(d) - from
  {
    if t <= StepTime(d, from) then from else FirstNotBefore(d, t, from + 1)
  }

  // ----- decisions -----

  /**
   * Orders are decided on every step from the end of the warm-up to the last but one, and on no other: nothing decided
   * is left without a next bar to fill on.
   */
  lemma OrdersHaveANextBar<M>(d: Data, n: nat, mind: M, cfg: Config, p: Pipeline<M>)
    requires Usable(d) && n <= StepCount(d)
    ensures RunTo(d, n, mind, cfg, p).pending != [] ==> cfg.warmupBars < n < StepCount(d)
    ensures
      cfg.warmupBars < n < StepCount(d) ==>
        exists m: M, context: Context :: context.closeTime == StepTime(d, n - 1)
          && p.decide(m, context) == (RunTo(d, n, mind, cfg, p).mind, RunTo(d, n, mind, cfg, p).pending)
  {
    if n > 0 {
      RunNext(d, n - 1, mind, cfg, p);
      DecidedOn(RunTo(d, n - 1, mind, cfg, p), n - 1, ViewAt(d, n - 1), cfg, p);
    }
  }

  lemma DecidedOn<M>(s: State<M>, step: nat, v: StepView, cfg: Config, p: Pipeline<M>)
    ensures
      var t := StepOn(s, step, v, cfg, p);
      if step < cfg.warmupBars || !v.hasNext then t.pending == []
      else exists m: M, context: Context ::
             context.closeTime == v.closeTime && p.decide(m, context) == (t.mind, t.pending)
  {
    var filled := FillPhase(s, |s.pending|, v, cfg.costs, p);
    var exited := filled.(book := ExitPhase(filled.book, |v.universe|, v, p.manager(filled.mind), cfg.costs));
    var graded := Grade(exited.(book := FundingPhase(exited.book, v, cfg.funding)), p);
    var context := Context(v.closeTime, v.closed, Rates(v, cfg.funding), graded.book);
    assert step >= cfg.warmupBars && v.hasNext ==>
        p.decide(graded.mind, context) == (StepOn(s, step, v, cfg, p).mind, StepOn(s, step, v, cfg, p).pending);
  }

  // ----- grading -----

  ghost function AtLeast(n: nat): Property {
    (b: Book) => |b.trades| >= n
  }

  lemma AtLeastIsKept(n: nat, manager: Option<Manager>, c: Costs)
    ensures KeptByFills(AtLeast(n), AnyOrder(), c) && KeptOnBars(AtLeast(n), manager, c) && KeptByFunding(AtLeast(n))
  {
    AnyManagerKeeps(AtLeast(n), manager, c);
  }

  /** After every step the strategies have graded every trade booked so far. */
  lemma EverythingIsGraded<M(!new)>(d: Data, n: nat, mind: M, cfg: Config, p: Pipeline<M>)
    requires Usable(d) && n <= StepCount(d)
    ensures RunTo(d, n, mind, cfg, p).graded == |RunTo(d, n, mind, cfg, p).book.trades|
  {
    var isGraded := (s: State<M>) => s.graded == |s.book.trades|;
    forall s: State<M>, i: nat, v: StepView | isGraded(s) ensures isGraded(Stepper(cfg, p)(s, i, v)) {
      GradedOn(s, i, v, cfg, p);
    }
    IterateKeeps(isGraded, d, n, Start(mind), Stepper(cfg, p));
  }

  lemma GradedOn<M(!new)>(s: State<M>, step: nat, v: StepView, cfg: Config, p: Pipeline<M>)
    requires s.graded == |s.book.trades|
    ensures StepOn(s, step, v, cfg, p).graded == |StepOn(s, step, v, cfg, p).book.trades|
  {
    var P := AtLeast(|s.book.trades|);
    var filled := FillPhase(s, |s.pending|, v, cfg.costs, p);
    var manager := p.manager(filled.mind);
    AtLeastIsKept(|s.book.trades|, manager, cfg.costs);
    FillPhaseKeeps(P, AnyOrder(), s, |s.pending|, v, cfg.costs, p);
    FillPhaseGrades(s, |s.pending|, v, cfg.costs, p);
    ExitPhaseKeeps(P, filled.book, |v.universe|, v, manager, cfg.costs);
    FundingPhaseKeeps(P, ExitPhase(filled.book, |v.universe|, v, manager, cfg.costs), v, cfg.funding);
  }

  lemma {:induction false} FillPhaseGrades<M>(s: State<M>, n: nat, v: StepView, c: Costs, p: Pipeline<M>)
    requires n <= |s.pending|
    ensures FillPhase(s, n, v, c, p).graded == s.graded
  {
    if n > 0 {
      FillPhaseGrades(s, n - 1, v, c, p);
    }
  }

  /** Grading hands over the whole journal when it has grown, and otherwise does not disturb the strategies. */
  lemma GradesNewTradesOnly<M>(s: State<M>, p: Pipeline<M>)
    requires s.graded <= |s.book.trades|
    ensures Grade(s, p).graded == |s.book.trades|
    ensures Grade(s, p).mind == if s.graded == |s.book.trades| then s.mind else p.grade(s.mind, s.book.trades)
  {}

  // ----- fills -----

  /** The trade of an order at the open of the bar after its decision, at the quoted price and fee. */
  ghost predicate TradesAtOpen(b: Book, after: Book, o: PendingOrder, bar: Candle, c: Costs) {
    var quote := EntryQuote(o.side, bar.open, o.qty, c);
    Trades(b, after, o.symbol, Signed(o.side, o.qty), quote.price, quote.fee)
  }

  /**
   * What an order does at the open: nothing on another strategy's symbol; on a flat symbol or on its strategy's
   * position of its side it trades its quantity; a position of the other side is first traded away whole, at the price
   * of the order. What it opens is its strategy's, of its side and quantity, with its levels and the bar's time.
   */
  lemma OrdersFillAtTheOpen(b: Book, o: PendingOrder, bar: Candle, c: Costs)
    requires o.qty > 0.0 && forall k :: 0 <= k < |b.positions| ==> b.positions[k].qty > 0.0
    ensures
      var h, after := HolderOf(b.positions, o.symbol), Filled(b, o, bar, c);
      if h == |b.positions| then TradesAtOpen(b, after, o, bar, c) && IsOpened(after, o, bar)
      else
        var pos := b.positions[h];
        if pos.strategy != o.strategy then after == b
        else if pos.side == o.side then TradesAtOpen(b, after, o, bar, c)
        else
          var x := ExitQuote(pos.side, EntryQuote(o.side, bar.open, o.qty, c).price, pos.qty, c);
          && IsOpened(after, o, bar)
          && exists mid: Book ::
               && Trades(b, mid, o.symbol, -Signed(pos.side, pos.qty), x.price, x.fee)
               && TradesAtOpen(mid, after, o, bar, c)
  {
    var h := HolderOf(b.positions, o.symbol);
    var quote := EntryQuote(o.side, bar.open, o.qty, c);
    var request := RequestOf(o, quote, bar.openTime);
    if h == |b.positions| {
      OpeningTrades(b, request);
    } else if b.positions[h].strategy == o.strategy {
      if b.positions[h].side == o.side {
        ScalingTrades(b, h, request);
      } else {
        ClosingTrades(b, h, quote.price, Flip, bar.openTime, c);
        var mid := ClosedAt(b, h, quote.price, Flip, bar.openTime, c);
        OpeningTrades(mid, request);
        assert TradesAtOpen(mid, Filled(b, o, bar, c), o, bar, c);
      }
    }
  }

  ghost predicate IsOpened(after: Book, o: PendingOrder, bar: Candle) {
    && after.positions != []
    && var pos := after.positions[|after.positions| - 1];
       && pos.symbol == o.symbol && pos.strategy == o.strategy && pos.side == o.side && pos.qty == o.qty
       && pos.stopLoss == o.stopLoss && pos.takeProfit == o.takeProfit && pos.leverage == o.leverage
       && pos.openedAt == bar.openTime
  }

  // ----- the curve -----

  /** Every step appends its close and the equity of the state it leaves. */
  ghost predicate DrawsItsPoint<M(!new)>(step: (State<M>, nat, StepView) -> State<M>, equity: State<M> -> real) {
    forall s: State<M>, i: nat, v: StepView ::
      step(s, i, v).curve == s.curve + [EquityPoint(v.closeTime, equity(step(s, i, v)))]
  }

  lemma {:induction false} IterateDraws<M(!new)>(d: Data, n: nat, start: State<M>,
                                                 step: (State<M>, nat, StepView) -> State<M>,
                                                 equity: State<M> -> real, k: nat)
    requires Usable(d) && k < n <= StepCount(d) && start.curve == [] && DrawsItsPoint(step, equity)
    ensures |Iterate(d, n, start, step).curve| == n
    ensures Iterate(d, n, start, step).curve[k] == EquityPoint(StepTime(d, k), equity(Iterate(d, k + 1, start, step)))
  {
    if k < n - 1 {
      IterateDraws(d, n - 1, start, step, equity, k);
    } else if n > 1 {
      IterateDraws(d, n - 1, start, step, equity, 0);
    }
  }

  /** The curve has one point for every step: its close, and the equity of the book it left. */
  lemma CurveIsTheEquity<M(!new)>(d: Data, n: nat, mind: M, cfg: Config, p: Pipeline<M>, k: nat)
    requires Usable(d) && k < n <= StepCount(d)
    ensures |RunTo(d, n, mind, cfg, p).curve| == n
    ensures RunTo(d, n, mind, cfg, p).curve[k]
         == EquityPoint(StepTime(d, k), Equity(RunTo(d, k + 1, mind, cfg, p).book, cfg.initialEquity))
  {
    var equity := (s: State<M>) => Equity(s.book, cfg.initialEquity);
    forall s: State<M>, i: nat, v: StepView
      ensures Stepper(cfg, p)(s, i, v).curve == s.curve + [EquityPoint(v.closeTime, equity(Stepper(cfg, p)(s, i, v)))] {
      CurveGrows(s, i, v, cfg, p);
    }
    IterateDraws(d, n, Start(mind), Stepper(cfg, p), equity, k);
  }

  lemma CurveGrows<M>(s: State<M>, step: nat, v: StepView, cfg: Config, p: Pipeline<M>)
    ensures
      var t := StepOn(s, step, v, cfg, p);
      t.curve == s.curve + [EquityPoint(v.closeTime, Equity(t.book, cfg.initialEquity))]
  {
    FillPhaseDrawsNothing(s, |s.pending|, v, cfg.costs, p);
  }

  lemma {:induction false} FillPhaseDrawsNothing<M>(s: State<M>, n: nat, v: StepView, c: Costs, p: Pipeline<M>)
    requires n <= |s.pending|
    ensures FillPhase(s, n, v, c, p).curve == s.curve
  {
    if n > 0 {
      FillPhaseDrawsNothing(s, n - 1, v, c, p);
    }
  }

  /** An order is noted as filled exactly when it changed the portfolio. */
  lemma FillsExactlyWhenItTrades(b: Book, o: PendingOrder, bar: Candle, c: Costs)
    requires o.qty != 0.0
    ensures Fills(b, o) <==> Filled(b, o, bar, c) != b
  {
    var h := HolderOf(b.positions, o.symbol);
    if h < |b.positions| && b.positions[h].strategy == o.strategy && b.positions[h].side == o.side {
      assert Filled(b, o, bar, c).positions[h].qty == b.positions[h].qty + o.qty;
    } else if Fills(b, o) {
      assert Filled(b, o, bar, c).counter == b.counter + 1;
    }
  }
}
