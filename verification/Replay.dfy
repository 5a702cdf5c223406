/** The replay's step loop: src/backtesting/ReplayService.ts. */
module Replay {
  import opened Common
  import opened ExecutionSimulator
  import opened PortfolioSimulator
  import opened MarketDataFeed
  import opened Sums

  datatype PendingOrder = PendingOrder(symbol: string, side: Side, qty: real, leverage: Leverage, strategy: string,
                                       stopLoss: Option<real>, takeProfit: Option<real>)

  datatype RatePoint = RatePoint(time: int, rate: real)

  datatype FundingConfig = FundingConfig(enabled: bool, intervalHours: nat, rate: real,
                                         series: map<string, seq<RatePoint>>)

  datatype Config = Config(costs: Costs, initialEquity: real, warmupBars: nat, funding: FundingConfig)

  /** What the decision phase is shown (ReplayService.ts:365-403). */
  datatype Context = Context(closeTime: int, closed: map<string, Frames>, rates: map<string, real>, book: Book)

  /**
   * The strategy side, as deterministic functions of their own state `M`: the decision pipeline with its
   * journal, the grading of closed trades, the note of a fill, and the manager built from the last features.
   */
  datatype Pipeline<!M> = Pipeline(
    decide: (M, Context) -> (M, seq<PendingOrder>),
    grade: (M, seq<SimTrade>) -> M,
    noteFill: (M, PendingOrder, int) -> M,
    manager: M -> Option<Manager>)

  datatype EquityPoint = EquityPoint(t: int, equity: real)

  datatype State<M> = State(book: Book, pending: seq<PendingOrder>, mind: M, graded: nat, curve: seq<EquityPoint>)

  // ----- what one step reads -----

  /** Everything a step takes from the data: its slot, what had closed, and whether a next bar exists. */
  datatype StepView = StepView(closeTime: int, previousClose: int, universe: seq<string>,
                               slots: map<string, Option<Candle>>,
                               closed: map<string, Frames>, hasNext: bool)

  function SlotsAt(d: Data, i: nat): map<string, Option<Candle>> {
    map s | s in d.symbols :: BarFor(d, s, i)
  }

  function ClosedFrames(d: Data, s: string, t: int): Frames {
    Frames(Closed(Series(d, s, M1), M1, t), Closed(Series(d, s, M5), M5, t), Closed(Series(d, s, M15), M15, t),
           Closed(Series(d, s, H1), H1, t), Closed(Series(d, s, H4), H4, t))
  }

  function ClosedAll(d: Data, t: int): map<string, Frames> {
    map s | s in d.symbols :: ClosedFrames(d, s, t)
  }

  function ViewAt(d: Data, i: nat): StepView
    requires Usable(d) && i < StepCount(d)
  {
    StepView(StepTime(d, i), if i > 0 then StepTime(d, i - 1) else StepTime(d, i) - FIFTEEN_MINUTES_MS,
             d.symbols, SlotsAt(d, i), ClosedAll(d, StepTime(d, i)), i + 1 < StepCount(d))
  }

  function SlotOf(v: StepView, symbol: string): Option<Candle> {
    if symbol in v.slots then v.slots[symbol] else None
  }

  // ----- the phases -----

  function RequestOf(o: PendingOrder, quote: FillQuote, openedAt: int): OpenRequest {
    OpenRequest(o.symbol, o.side, o.qty, o.leverage, o.strategy, o.stopLoss, o.takeProfit, quote.price, quote.fee,
                openedAt)
  }

  /** The first position of the symbol. */
  function HolderOf(ps: seq<SimPosition>, symbol: string): (i: nat)
    ensures i <= |ps|
    ensures i < |ps| ==> ps[i].symbol == symbol
    ensures forall k :: 0 <= k < i ==> ps[k].symbol != symbol
  {
    if ps == [] || ps[0].symbol == symbol then 0 else 1 + HolderOf(ps[1..], symbol)
  }

  /**
   * One order at the bar's open: add, reverse or open; another strategy's symbol is left alone
   * (ReplayService.ts:155-169).
   */
  function Filled(b: Book, o: PendingOrder, bar: Candle, c: Costs): Book {
    var h := HolderOf(b.positions, o.symbol);
    var quote := EntryQuote(o.side, bar.open, o.qty, c);
    var request := RequestOf(o, quote, bar.openTime);
    if h == |b.positions| then Opened(b, request)
    else if b.positions[h].strategy != o.strategy then b
    else if b.positions[h].side == o.side then ScaledAt(b, h, request)
    else Opened(ClosedAt(b, h, quote.price, Flip, bar.openTime, c), request)
  }

  predicate Fills(b: Book, o: PendingOrder) {
    var h := HolderOf(b.positions, o.symbol);
    h == |b.positions| || b.positions[h].strategy == o.strategy
  }

  function FillPhase<M>(s: State<M>, n: nat, v: StepView, c: Costs, p: Pipeline<M>): State<M>
    requires n <= |s.pending|
  {
    if n == 0 then s
    else
      var before := FillPhase(s, n - 1, v, c, p);
      var o := s.pending[n - 1];
      var bar := SlotOf(v, o.symbol);
      if bar.None? then before
      else
        before.(book := Filled(before.book, o, bar.value, c),
                mind := if Fills(before.book, o) then p.noteFill(before.mind, o, bar.value.openTime) else before.mind)
  }

  /** Exits of the first `n` symbols on their bars (ReplayService.ts:180-183). */
  function ExitPhase(b: Book, n: nat, v: StepView, manager: Option<Manager>, c: Costs): Book
    requires n <= |v.universe|
  {
    if n == 0 then b
    else
      var before := ExitPhase(b, n - 1, v, manager, c);
      var bar := SlotOf(v, v.universe[n - 1]);
      if bar.None? then before else OnBarFrom(before, 0, v.universe[n - 1], bar.value, manager, c)
  }

  /** `fundingRateAt` (ReplayService.ts:405-415). */
  function RateAt(f: FundingConfig, symbol: string, at: int): real {
    if !f.enabled then 0.0
    else if symbol !in f.series || f.series[symbol] == [] then f.rate
    else LastRate(f.series[symbol], 0, at, f.series[symbol][0].rate)
  }

  /** The scan: the rate of the last leading point not after `at`, else the one given. */
  function LastRate(series: seq<RatePoint>, i: nat, at: int, rate: real): real
    requires i <= |series|
    decreases |series| - i
  {
    if i < |series| && series[i].time <= at then LastRate(series, i + 1, at, series[i].rate) else rate
  }

  method FundingRateAt(f: FundingConfig, symbol: string, at: int) returns (rate: real)
    ensures rate == RateAt(f, symbol, at)
  {
    if !f.enabled {
      return 0.0;
    }
    if symbol !in f.series || f.series[symbol] == [] {
      return f.rate;
    }
    var series := f.series[symbol];
    rate := series[0].rate;
    for i := 0 to |series|
      invariant LastRate(series, i, at, rate) == LastRate(series, 0, at, series[0].rate)
    {
      if series[i].time <= at {
        rate := series[i].rate;
      } else {
        break;
      }
    }
  }

  /** One boundary settles every symbol (ReplayService.ts:189-191). */
  function SettleBoundary(b: Book, n: nat, universe: seq<string>, f: FundingConfig, boundary: int): Book
    requires n <= |universe|
  {
    if n == 0 then b
    else
      var before := SettleBoundary(b, n - 1, universe, f, boundary);
      FundedTo(before, |before.positions|, universe[n - 1], RateAt(f, universe[n - 1], boundary))
  }

  /** The boundaries from `boundary` up to the close, each once (ReplayService.ts:188-192). */
  function SettleFrom(b: Book, boundary: int, interval: int, closeTime: int, universe: seq<string>,
                      f: FundingConfig): Book
    requires interval > 0
    decreases closeTime + 1 - boundary
  {
    if boundary > closeTime then b
    else SettleFrom(SettleBoundary(b, |universe|, universe, f, boundary), boundary + interval, interval, closeTime,
                    universe, f)
  }

  function FundingPhase(b: Book, v: StepView, f: FundingConfig): Book {
    var interval := f.intervalHours * 3_600_000;
    if !f.enabled || interval == 0 then b
    else SettleFrom(b, v.previousClose / interval * interval + interval, interval, v.closeTime, v.universe, f)
  }

  /** Newly closed trades grade the whole journal (ReplayService.ts:201-208). */
  function Grade<M>(s: State<M>, p: Pipeline<M>): State<M> {
    if |s.book.trades| > s.graded then s.(mind := p.grade(s.mind, s.book.trades), graded := |s.book.trades|) else s
  }

  function Rates(v: StepView, f: FundingConfig): map<string, real> {
    map s | s in v.universe :: RateAt(f, s, v.closeTime)
  }

  /** Decisions are taken after the warm-up and only while a next bar can fill them (ReplayService.ts:211-281). */
  function Decide<M>(s: State<M>, step: nat, v: StepView, cfg: Config, p: Pipeline<M>): State<M> {
    if step < cfg.warmupBars || !v.hasNext then s.(pending := [])
    else
      var (mind, orders) := p.decide(s.mind, Context(v.closeTime, v.closed, Rates(v, cfg.funding), s.book));
      s.(mind := mind, pending := orders)
  }

  /** One pass of the loop (ReplayService.ts:151-288). */
  function StepOn<M>(s: State<M>, step: nat, v: StepView, cfg: Config, p: Pipeline<M>): State<M> {
    var filled := FillPhase(s, |s.pending|, v, cfg.costs, p);
    var exited := filled.(book := ExitPhase(filled.book, |v.universe|, v, p.manager(filled.mind), cfg.costs));
    var funded := exited.(book := FundingPhase(exited.book, v, cfg.funding));
    var decided := Decide(Grade(funded, p), step, v, cfg, p);
    decided.(curve := decided.curve + [EquityPoint(v.closeTime, Equity(decided.book, cfg.initialEquity))])
  }

  function Start<M>(mind: M): State<M> {
    State(Book([], 0.0, 0, []), [], mind, 0, [])
  }

  /** The state after `n` steps of a loop whose body sees nothing of the data but the step's view. */
  function Iterate<S>(d: Data, n: nat, start: S, step: (S, nat, StepView) -> S): S
    requires Usable(d) && n <= StepCount(d)
  {
    if n == 0 then start else step(Iterate(d, n - 1, start, step), n - 1, ViewAt(d, n - 1))
  }

  function Stepper<M>(cfg: Config, p: Pipeline<M>): (State<M>, nat, StepView) -> State<M> {
    (s: State<M>, step: nat, v: StepView) => StepOn(s, step, v, cfg, p)
  }

  /** The replay after its first `n` steps. */
  function RunTo<M>(d: Data, n: nat, mind: M, cfg: Config, p: Pipeline<M>): State<M>
    requires Usable(d) && n <= StepCount(d)
  {
    Iterate(d, n, Start(mind), Stepper(cfg, p))
  }

  lemma RunNext<M>(d: Data, n: nat, mind: M, cfg: Config, p: Pipeline<M>)
    requires Usable(d) && n < StepCount(d)
    ensures RunTo(d, n + 1, mind, cfg, p) == StepOn(RunTo(d, n, mind, cfg, p), n, ViewAt(d, n), cfg, p)
  {}

  /** The step loop, phase by phase. */
  method Run<M>(d: Data, mind: M, cfg: Config, p: Pipeline<M>) returns (s: State<M>)
    requires Usable(d)
    ensures s == RunTo(d, StepCount(d), mind, cfg, p)
  {
    var n := StepCount(d);
    s := Start(mind);
    assert s == RunTo(d, 0, mind, cfg, p);
    for step := 0 to n
      invariant s == RunTo(d, step, mind, cfg, p)
    {
      s := RunOn(d, s, step, mind, cfg, p);
    }
  }

  method RunOn<M>(d: Data, start: State<M>, step: nat, ghost mind: M, cfg: Config, p: Pipeline<M>) returns (s: State<M>)
    requires Usable(d) && step < StepCount(d)
    requires start == RunTo(d, step, mind, cfg, p)
    ensures s == RunTo(d, step + 1, mind, cfg, p)
  {
    s := RunStep(start, step, ViewAt(d, step), cfg, p);
    RunNext(d, step, mind, cfg, p);
  }

  method RunStep<M>(start: State<M>, step: nat, v: StepView, cfg: Config, p: Pipeline<M>) returns (s: State<M>)
    ensures s == StepOn(start, step, v, cfg, p)
  {
    s := FillOrders(start, v, cfg.costs, p);
    var exited := ExitOnBars(s.book, v, p.manager(s.mind), cfg.costs);
    var funded := Settle(exited, v, cfg.funding);
    s := Decide(Grade(s.(book := funded), p), step, v, cfg, p);
    s := s.(curve := s.curve + [EquityPoint(v.closeTime, Equity(s.book, cfg.initialEquity))]);
  }

  method FillOrders<M>(start: State<M>, v: StepView, c: Costs, p: Pipeline<M>) returns (s: State<M>)
    ensures s == FillPhase(start, |start.pending|, v, c, p)
  {
    s := start;
    for k := 0 to |start.pending|
      invariant s == FillPhase(start, k, v, c, p)
    {
      var o := start.pending[k];
      var bar := SlotOf(v, o.symbol);
      if bar.Some? {
        s := s.(book := Filled(s.book, o, bar.value, c),
                mind := if Fills(s.book, o) then p.noteFill(s.mind, o, bar.value.openTime) else s.mind);
      }
    }
  }

  method ExitOnBars(start: Book, v: StepView, manager: Option<Manager>, c: Costs) returns (b: Book)
    ensures b == ExitPhase(start, |v.universe|, v, manager, c)
  {
    b := start;
    for k := 0 to |v.universe|
      invariant b == ExitPhase(start, k, v, manager, c)
    {
      var bar := SlotOf(v, v.universe[k]);
      if bar.Some? {
        b := OnBarFrom(b, 0, v.universe[k], bar.value, manager, c);
      }
    }
  }

  method Settle(start: Book, v: StepView, f: FundingConfig) returns (b: Book)
    ensures b == FundingPhase(start, v, f)
  {
    b := start;
    var interval := f.intervalHours * 3_600_000;
    if !f.enabled || interval == 0 {
      return;
    }
    var boundary := v.previousClose / interval * interval + interval;
    while boundary <= v.closeTime
      invariant SettleFrom(b, boundary, interval, v.closeTime, v.universe, f) == FundingPhase(start, v, f)
      decreases v.closeTime + 1 - boundary
    {
      b := SettleAt(b, v.universe, f, boundary);
      boundary := boundary + interval;
    }
  }

  method SettleAt(start: Book, universe: seq<string>, f: FundingConfig, boundary: int) returns (b: Book)
    ensures b == SettleBoundary(start, |universe|, universe, f, boundary)
  {
    b := start;
    for k := 0 to |universe|
      invariant b == SettleBoundary(start, k, universe, f, boundary)
    {
      var rate := FundingRateAt(f, universe[k], boundary);
      b := FundedTo(b, |b.positions|, universe[k], rate);
    }
  }
}
