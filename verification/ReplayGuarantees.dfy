/** The replay never looks ahead, and its accounts balance. */
module ReplayGuarantees {
  import opened Common
  import opened ExecutionSimulator
  import opened PortfolioSimulator
  import opened PortfolioFold
  import opened PortfolioGuarantees
  import opened PortfolioSteps
  import opened MarketDataFeed
  import opened Replay
  import opened Sums

  // ----- causality -----

  /** Both datasets go on past step `n`. */
  ghost predicate Continues(d: Data, n: nat)
    requires Usable(d)
  {
    n + 1 < StepCount(d)
  }

  lemma GridAgrees(d: Data, e: Data, n: nat, i: nat)
    requires Usable(d) && Usable(e) && i <= n < StepCount(d) && GridInOrder(d)
    requires AgreeUpTo(d, e, StepTime(d, n))
    ensures i < StepCount(e) && StepTime(e, i) == StepTime(d, i)
  {
    var s, t := d.symbols[0], StepTime(d, n);
    assert StepTime(d, i) <= t;
    ClosedKeepsSlot(Series(d, s, M15), M15, t, i);
    assert Closed(Series(d, s, M15), M15, t) == Closed(Series(e, s, M15), M15, t);
  }

  lemma ClosedFramesAgree(d: Data, e: Data, s: string, t: int)
    requires AgreeUpTo(d, e, t) && s in d.symbols
    ensures ClosedFrames(d, s, t) == ClosedFrames(e, s, t)
  {
    forall tf: Timeframe ensures Closed(Series(d, s, tf), tf, t) == Closed(Series(e, s, tf), tf, t) {}
  }

  /** A step reads the same from two datasets that agree on what had closed by it. */
  lemma ViewsAgree(d: Data, e: Data, n: nat, i: nat)
    requires Usable(d) && Usable(e) && NeverAhead(d) && NeverAhead(e) && GridInOrder(d)
    requires i <= n && Continues(d, n) && Continues(e, n) && AgreeUpTo(d, e, StepTime(d, n))
    ensures ViewAt(d, i) == ViewAt(e, i)
  {
    GridAgrees(d, e, n, i);
    if i > 0 {
      GridAgrees(d, e, n, i - 1);
    }
    AgreeEarlier(d, e, StepTime(d, i), StepTime(d, n));
    SlotsAtAgree(d, e, i);
    ClosedAllAgrees(d, e, StepTime(d, i));
  }

  lemma SlotsAtAgree(d: Data, e: Data, i: nat)
    requires Usable(d) && Usable(e) && NeverAhead(d) && NeverAhead(e)
    requires i < StepCount(d) && i < StepCount(e) && StepTime(d, i) == StepTime(e, i) && AgreeUpTo(d, e, StepTime(d, i))
    ensures SlotsAt(d, i) == SlotsAt(e, i)
  {
    forall s | s in d.symbols ensures BarFor(d, s, i) == BarFor(e, s, i) {
      SlotsAgree(d, e, s, i, StepTime(d, i));
    }
  }

  lemma ClosedAllAgrees(d: Data, e: Data, t: int)
    requires AgreeUpTo(d, e, t)
    ensures ClosedAll(d, t) == ClosedAll(e, t)
  {
    forall s | s in d.symbols ensures ClosedFrames(d, s, t) == ClosedFrames(e, s, t) {
      ClosedFramesAgree(d, e, s, t);
    }
  }

  lemma {:induction false} IterateAgrees<S>(d: Data, e: Data, n: nat, k: nat, start: S, step: (S, nat, StepView) -> S)
    requires Usable(d) && Usable(e) && NeverAhead(d) && NeverAhead(e) && GridInOrder(d)
    requires Continues(d, n) && Continues(e, n) && AgreeUpTo(d, e, StepTime(d, n))
    requires k <= n + 1
    ensures Iterate(d, k, start, step) == Iterate(e, k, start, step)
  {
    if k > 0 {
      IterateAgrees(d, e, n, k - 1, start, step);
      ViewsAgree(d, e, n, k - 1);
    }
  }

  /**
   * Main result: no lookahead. Two datasets whose slots are never ahead of the grid, that agree on all
   * bars closed by step n and both go on past it, give the same portfolio, pending orders, strategy
   * state, trades and equity curve through step n, whatever the strategies compute.
   */
  lemma NoLookahead<M>(d: Data, e: Data, n: nat, k: nat, mind: M, cfg: Config, p: Pipeline<M>)
    requires Usable(d) && Usable(e) && NeverAhead(d) && NeverAhead(e) && GridInOrder(d)
    requires Continues(d, n) && Continues(e, n) && AgreeUpTo(d, e, StepTime(d, n))
    requires k <= n + 1
    ensures RunTo(d, k, mind, cfg, p) == RunTo(e, k, mind, cfg, p)
  {
    IterateAgrees(d, e, n, k, Start(mind), Stepper(cfg, p));
  }

  /** In particular for histories on one shared gapless grid. */
  lemma AlignedHasNoLookahead<M>(d: Data, e: Data, start: int, n: nat, mind: M, cfg: Config, p: Pipeline<M>)
    requires Usable(d) && Usable(e) && Aligned(d, start) && Aligned(e, start)
    requires Continues(d, n) && Continues(e, n) && AgreeUpTo(d, e, StepTime(d, n))
    ensures RunTo(d, n + 1, mind, cfg, p) == RunTo(e, n + 1, mind, cfg, p)
  {
    AlignedIsNeverAhead(d, start);
    AlignedIsNeverAhead(e, start);
    NoLookahead(d, e, n, n + 1, mind, cfg, p);
  }

  function Bar15(openTime: int, price: real): Candle {
    Candle(openTime, price, price, price, price)
  }

  function Only15(bars: seq<Candle>): Frames {
    Frames([], [], bars, [], [])
  }

  /** A grid symbol `A` over three bars, and a `B` that starts one bar late and moves to `price`. */
  function LateStart(price: real): Data {
    Data(["A", "B"],
         map["A" := Only15([Bar15(0, 1.0), Bar15(900_000, 1.0), Bar15(1_800_000, 1.0)]),
             "B" := Only15([Bar15(900_000, 1.0), Bar15(1_800_000, price)])])
  }

  /**
   * Slots are read by index, so a history that starts late runs ahead of the grid: these two datasets
   * agree on every bar closed by step 1, yet step 1 already reads the bar that opens when it closes.
   */
  lemma LateStartLooksAhead()
    ensures
      var d, e := LateStart(1.0), LateStart(2.0);
      && Usable(d) && Usable(e) && GridInOrder(d) && !NeverAhead(d)
      && AgreeUpTo(d, e, StepTime(d, 1))
      && BarFor(d, "B", 1) != BarFor(e, "B", 1)
  {
    var d, e := LateStart(1.0), LateStart(2.0);
    var t := StepTime(d, 1);
    assert t == 1_800_000;
    forall s: string, tf: Timeframe | s in d.symbols
      ensures Closed(Series(d, s, tf), tf, t) == Closed(Series(e, s, tf), tf, t) {
      if s == "B" && tf == M15 {
        LateClosed(1.0);
        LateClosed(2.0);
      }
    }
    assert !ClosedBy(Series(d, "B", M15)[1], M15, StepTime(d, 1));
  }

  lemma LateClosed(price: real)
    ensures Closed([Bar15(900_000, 1.0), Bar15(1_800_000, price)], M15, 1_800_000) == [Bar15(900_000, 1.0)]
  {
    ClosedSplit([Bar15(900_000, 1.0), Bar15(1_800_000, price)], M15, 1_800_000, 1);
  }

  /** The same symbols with the same 15m bar times; the bars may differ. */
  ghost predicate SameTimes(d: Data, e: Data) {
    && d.symbols == e.symbols
    && forall s: string :: s in d.symbols ==>
         && |Series(d, s, M15)| == |Series(e, s, M15)|
         && forall k :: 0 <= k < |Series(d, s, M15)| ==> Series(d, s, M15)[k].openTime == Series(e, s, M15)[k].openTime
  }

  ghost predicate HistoriesInOrder(d: Data) {
    forall s: string :: s in d.symbols ==> InTimeOrder(Series(d, s, M15))
  }

  /** What a step reads from its slots is settled by what had closed by then. */
  ghost predicate SlotsAreSettled(d: Data)
    requires Usable(d)
  {
    forall e: Data, i: nat :: SameTimes(d, e) && i < StepCount(d) && AgreeUpTo(d, e, StepTime(d, i)) ==>
      SlotsAt(d, i) == SlotsAt(e, i)
  }

  /** The dataset with another close in one slot. */
  function Altered(d: Data, s: string, i: nat): Data
    requires s in d.frames && i < |d.frames[s].m15|
  {
    var bar := d.frames[s].m15[i];
    d.(frames := d.frames[s := d.frames[s].(m15 := d.frames[s].m15[i := bar.(close := bar.close + 1.0)])])
  }

  /** A bar that has not closed is not among the closed ones, whatever it is. */
  lemma {:induction false} ClosedIgnoresUnclosed(bars: seq<Candle>, tf: Timeframe, t: int, i: nat, bar: Candle)
    requires InTimeOrder(bars) && i < |bars| && !ClosedBy(bars[i], tf, t) && bar.openTime == bars[i].openTime
    ensures Closed(bars[i := bar], tf, t) == Closed(bars, tf, t)
  {
    var n := |bars| - 1;
    assert !ClosedBy(bars[n], tf, t);
    if i < n {
      assert bars[i := bar][..n] == bars[..n][i := bar];
      ClosedIgnoresUnclosed(bars[..n], tf, t, i, bar);
    } else {
      assert bars[i := bar][..n] == bars[..n];
    }
  }

  lemma AlteredAgrees(d: Data, s: string, i: nat, t: int)
    requires HistoriesInOrder(d) && s in d.symbols && s in d.frames && i < |d.frames[s].m15|
             && !ClosedBy(d.frames[s].m15[i], M15, t)
    ensures SameTimes(d, Altered(d, s, i)) && AgreeUpTo(d, Altered(d, s, i), t)
  {
    var e := Altered(d, s, i);
    forall u: string, tf: Timeframe | u in d.symbols
      ensures Closed(Series(d, u, tf), tf, t) == Closed(Series(e, u, tf), tf, t) {
      if u == s && tf == M15 {
        assert InTimeOrder(Series(d, s, M15));
        ClosedIgnoresUnclosed(d.frames[s].m15, M15, t, i, e.frames[s].m15[i]);
      }
    }
  }

  /**
   * Exactly when slots read by index do not look ahead: when no slot's bar closes after its step. The histories may
   * have gaps and start at different times.
   */
  lemma NeverAheadIff(d: Data)
    requires Usable(d) && HistoriesInOrder(d)
    ensures NeverAhead(d) <==> SlotsAreSettled(d)
  {
    if NeverAhead(d) {
      forall e: Data, i: nat | SameTimes(d, e) && i < StepCount(d) && AgreeUpTo(d, e, StepTime(d, i))
        ensures SlotsAt(d, i) == SlotsAt(e, i)
      {
        forall s | s in d.symbols ensures BarFor(d, s, i) == BarFor(e, s, i) {
          SlotsAgree(d, e, s, i, StepTime(d, i));
        }
      }
    } else {
      var s: string, i: nat :| s in d.symbols && i < StepCount(d) && i < |Series(d, s, M15)|
                               && !ClosedBy(Series(d, s, M15)[i], M15, StepTime(d, i));
      AlteredAgrees(d, s, i, StepTime(d, i));
      var e := Altered(d, s, i);
      assert BarFor(d, s, i) != BarFor(e, s, i);
      assert SlotsAt(d, i)[s] != SlotsAt(e, i)[s];
    }
  }

  // ----- funding rates -----

  ghost predicate RatesInOrder(series: seq<RatePoint>) {
    forall i, j :: 0 <= i <= j < |series| ==> series[i].time <= series[j].time
  }

  lemma {:induction false} LastRateIsLatest(series: seq<RatePoint>, i: nat, at: int, rate: real, k: nat)
    requires RatesInOrder(series) && i <= k <= |series|
    requires k > i ==> series[k - 1].time <= at
    requires k < |series| ==> series[k].time > at
    ensures LastRate(series, i, at, rate) == if k == i then rate else series[k - 1].rate
    decreases |series| - i
  {
    if i < k {
      assert series[i].time <= series[k - 1].time;
      LastRateIsLatest(series, i + 1, at, series[i].rate, k);
    }
  }

  /** The leading points published by `at`. */
  function Known(series: seq<RatePoint>, at: int): (r: seq<RatePoint>)
    ensures r <= series
  {
    if series == [] || series[0].time > at then [] else [series[0]] + Known(series[1..], at)
  }

  lemma {:induction false} KnownStops(series: seq<RatePoint>, at: int)
    ensures var k := |Known(series, at)|;
      && (k > 0 ==> series[k - 1].time <= at)
      && (k < |series| ==> series[k].time > at)
  {
    if series != [] && series[0].time <= at {
      KnownStops(series[1..], at);
    }
  }

  predicate HasRates(f: FundingConfig, symbol: string) {
    f.enabled && symbol in f.series && f.series[symbol] != []
  }

  /**
   * The rate settled at a boundary is the latest one published by then; before the first point it is the first
   * point's.
   */
  lemma RateIsLatestKnown(f: FundingConfig, symbol: string, at: int)
    requires HasRates(f, symbol) && RatesInOrder(f.series[symbol])
    ensures var known := Known(f.series[symbol], at);
            RateAt(f, symbol, at) == if known == [] then f.series[symbol][0].rate else known[|known| - 1].rate
  {
    KnownStops(f.series[symbol], at);
    LastRateIsLatest(f.series[symbol], 0, at, f.series[symbol][0].rate, |Known(f.series[symbol], at)|);
  }

  /** Every other history of rates that is the same up to `at` settles the same rate. */
  ghost predicate RateIsSettledBy(f: FundingConfig, symbol: string, at: int)
    requires HasRates(f, symbol)
  {
    forall g: FundingConfig ::
      HasRates(g, symbol) && RatesInOrder(g.series[symbol]) &&
      Known(g.series[symbol], at) == Known(f.series[symbol], at) ==>
        RateAt(g, symbol, at) == RateAt(f, symbol, at)
  }

  /** Exactly when a boundary's rate does not look ahead: when a point was published by then. */
  lemma RateLooksAheadIff(f: FundingConfig, symbol: string, at: int)
    requires HasRates(f, symbol) && RatesInOrder(f.series[symbol])
    ensures f.series[symbol][0].time <= at <==> RateIsSettledBy(f, symbol, at)
  {
    var series := f.series[symbol];
    RateIsLatestKnown(f, symbol, at);
    if series[0].time <= at {
      forall g: FundingConfig | HasRates(g, symbol) && RatesInOrder(g.series[symbol])
        && Known(g.series[symbol], at) == Known(series, at)
        ensures RateAt(g, symbol, at) == RateAt(f, symbol, at)
      {
        RateIsLatestKnown(g, symbol, at);
      }
    } else {
      var other := series[0 := series[0].(rate := series[0].rate + 1.0)];
      var g := f.(series := f.series[symbol := other]);
      assert RatesInOrder(other) && Known(other, at) == [] == Known(series, at);
      RateIsLatestKnown(g, symbol, at);
    }
  }

  // ----- soundness of the replay's accounts -----

  ghost predicate OnePerSymbol(ps: seq<SimPosition>) {
    forall i, j :: 0 <= i < j < |ps| ==> ps[i].symbol != ps[j].symbol
  }

  lemma FilledKeeps(b: Book, o: PendingOrder, bar: Candle, c: Costs)
    requires Sound(b)
    ensures Sound(Filled(b, o, bar, c))
  {
    var h := HolderOf(b.positions, o.symbol);
    var quote := EntryQuote(o.side, bar.open, o.qty, c);
    var request := RequestOf(o, quote, bar.openTime);
    if h == |b.positions| {
      OpenedKeeps(b, request);
    } else if b.positions[h].strategy == o.strategy {
      if b.positions[h].side == o.side {
        PayKeeps(b, h, ScaledIn(b.positions[h], request), -request.fee);
      } else {
        ClosedKeeps(b, h, quote.price, Flip, bar.openTime, c);
        OpenedKeeps(ClosedAt(b, h, quote.price, Flip, bar.openTime, c), request);
      }
    }
  }

  type Fairness = PendingOrder -> bool

  ghost predicate KeptByFills(P: Property, fair: Fairness, c: Costs) {
    forall b: Book, o: PendingOrder, bar: Candle :: fair(o) && P(b) ==> P(Filled(b, o, bar, c))
  }

  predicate AllFair(orders: seq<PendingOrder>, fair: Fairness) {
    forall k :: 0 <= k < |orders| ==> fair(orders[k])
  }

  /** The strategies order only what is fair. */
  ghost predicate OrdersAreFair<M(!new)>(p: Pipeline<M>, fair: Fairness) {
    forall mind: M, context: Context :: AllFair(p.decide(mind, context).1, fair)
  }

  ghost predicate KeptByManagers<M(!new)>(P: Property, p: Pipeline<M>, c: Costs) {
    forall mind: M :: KeptOnBars(P, p.manager(mind), c)
  }

  /** Kept by everything the loop does to the portfolio. */
  ghost predicate KeptByLoop<M(!new)>(P: Property, fair: Fairness, p: Pipeline<M>, c: Costs) {
    OrdersAreFair(p, fair) && KeptByFills(P, fair, c) && KeptByManagers(P, p, c) && KeptByFunding(P)
  }

  lemma {:induction false} FillPhaseKeeps<M>(P: Property, fair: Fairness, s: State<M>, n: nat, v: StepView, c: Costs,
                                             p: Pipeline<M>)
    requires KeptByFills(P, fair, c) && P(s.book) && AllFair(s.pending, fair) && n <= |s.pending|
    ensures P(FillPhase(s, n, v, c, p).book)
  {
    if n > 0 {
      FillPhaseKeeps(P, fair, s, n - 1, v, c, p);
      assert fair(s.pending[n - 1]);
    }
  }

  lemma {:induction false} ExitPhaseKeeps(P: Property, b: Book, n: nat, v: StepView, manager: Option<Manager>, c: Costs)
    requires KeptOnBars(P, manager, c) && P(b) && n <= |v.universe|
    ensures P(ExitPhase(b, n, v, manager, c))
  {
    if n > 0 {
      ExitPhaseKeeps(P, b, n - 1, v, manager, c);
      var bar := SlotOf(v, v.universe[n - 1]);
      if bar.Some? {
        OnBarKeeps(P, ExitPhase(b, n - 1, v, manager, c), 0, v.universe[n - 1], bar.value, manager, c);
      }
    }
  }

  lemma {:induction false} SettleBoundaryKeeps(P: Property, b: Book, n: nat, universe: seq<string>, f: FundingConfig,
                                               boundary: int)
    requires KeptByFunding(P) && P(b) && n <= |universe|
    ensures P(SettleBoundary(b, n, universe, f, boundary))
  {
    if n > 0 {
      SettleBoundaryKeeps(P, b, n - 1, universe, f, boundary);
      var before := SettleBoundary(b, n - 1, universe, f, boundary);
      FundedKeeps(P, before, |before.positions|, universe[n - 1], RateAt(f, universe[n - 1], boundary));
    }
  }

  lemma {:induction false} SettleFromKeeps(P: Property, b: Book, boundary: int, interval: int, closeTime: int,
                                           universe: seq<string>, f: FundingConfig)
    requires KeptByFunding(P) && P(b) && interval > 0
    ensures P(SettleFrom(b, boundary, interval, closeTime, universe, f))
    decreases closeTime + 1 - boundary
  {
    if boundary <= closeTime {
      SettleBoundaryKeeps(P, b, |universe|, universe, f, boundary);
      SettleFromKeeps(P, SettleBoundary(b, |universe|, universe, f, boundary), boundary + interval, interval,
                      closeTime, universe, f);
    }
  }

  lemma FundingPhaseKeeps(P: Property, b: Book, v: StepView, f: FundingConfig)
    requires KeptByFunding(P) && P(b)
    ensures P(FundingPhase(b, v, f))
  {
    var interval := f.intervalHours * 3_600_000;
    if interval > 0 {
      SettleFromKeeps(P, b, v.previousClose / interval * interval + interval, interval, v.closeTime, v.universe, f);
    }
  }

  lemma StepKeeps<M(!new)>(P: Property, fair: Fairness, s: State<M>, step: nat, v: StepView, cfg: Config,
                           p: Pipeline<M>)
    requires KeptByLoop(P, fair, p, cfg.costs) && P(s.book) && AllFair(s.pending, fair)
    ensures P(StepOn(s, step, v, cfg, p).book) && AllFair(StepOn(s, step, v, cfg, p).pending, fair)
  {
    FillPhaseKeeps(P, fair, s, |s.pending|, v, cfg.costs, p);
    var filled := FillPhase(s, |s.pending|, v, cfg.costs, p);
    var manager := p.manager(filled.mind);
    ExitPhaseKeeps(P, filled.book, |v.universe|, v, manager, cfg.costs);
    FundingPhaseKeeps(P, ExitPhase(filled.book, |v.universe|, v, manager, cfg.costs), v, cfg.funding);
  }

  ghost predicate StepKeepsIt<M(!new)>(Q: State<M> -> bool, step: (State<M>, nat, StepView) -> State<M>) {
    forall s: State<M>, i: nat, v: StepView :: Q(s) ==> Q(step(s, i, v))
  }

  lemma {:induction false} IterateKeeps<M(!new)>(Q: State<M> -> bool, d: Data, n: nat, start: State<M>,
                                                 step: (State<M>, nat, StepView) -> State<M>)
    requires Usable(d) && n <= StepCount(d) && Q(start) && StepKeepsIt(Q, step)
    ensures Q(Iterate(d, n, start, step))
  {
    if n > 0 {
      IterateKeeps(Q, d, n - 1, start, step);
    }
  }

  /** A property of the empty book that the loop keeps holds after every step of every replay. */
  lemma ReplayKeeps<M(!new)>(P: Property, fair: Fairness, d: Data, n: nat, mind: M, cfg: Config, p: Pipeline<M>)
    requires Usable(d) && n <= StepCount(d) && P(START) && KeptByLoop(P, fair, p, cfg.costs)
    ensures P(RunTo(d, n, mind, cfg, p).book)
  {
    var Q := (s: State<M>) => P(s.book) && AllFair(s.pending, fair);
    forall s: State<M>, i: nat, v: StepView | Q(s) ensures Q(Stepper(cfg, p)(s, i, v)) {
      StepKeeps(P, fair, s, i, v, cfg, p);
    }
    IterateKeeps(Q, d, n, Start(mind), Stepper(cfg, p));
  }

  function AnyOrder(): Fairness {
    (o: PendingOrder) => true
  }

  lemma ReplayIsSound<M(!new)>(d: Data, n: nat, mind: M, cfg: Config, p: Pipeline<M>)
    requires Usable(d) && n <= StepCount(d)
    ensures Sound(RunTo(d, n, mind, cfg, p).book)
  {
    StartIsSound();
    SoundIsKept(None, cfg.costs);
    forall mind: M ensures KeptOnBars(Sound, p.manager(mind), cfg.costs) {
      SoundIsKept(p.manager(mind), cfg.costs);
    }
    forall b: Book, o: PendingOrder, bar: Candle | Sound(b) ensures Sound(Filled(b, o, bar, cfg.costs)) {
      FilledKeeps(b, o, bar, cfg.costs);
    }
    ReplayKeeps(Sound, AnyOrder(), d, n, mind, cfg, p);
  }

  /** The last closes seen, for the symbols that have one (ReplayService.ts:290-296). */
  function FinalMarks(d: Data): map<string, real>
    requires Usable(d)
  {
    var at := StepTime(d, StepCount(d) - 1);
    map s | s in d.symbols && LastClose(d, s, at).Some? :: LastClose(d, s, at).value
  }

  /** The book after the loop and the forced close at the last seen marks (ReplayService.ts:290-297). */
  function FinalBook<M>(d: Data, mind: M, cfg: Config, p: Pipeline<M>): (b: Book)
    requires Usable(d)
    ensures b.positions == []
  {
    AllClosed(RunTo(d, StepCount(d), mind, cfg, p).book, FinalMarks(d), StepTime(d, StepCount(d) - 1), Close, cfg.costs)
  }

  /**
   * Main result: for any data, strategies and manager, the replay's final equity is the initial equity
   * plus pnl + funding - fees over the folded records it reports, to within one millionth per leg.
   */
  lemma ReplayBalances<M(!new)>(d: Data, mind: M, cfg: Config, p: Pipeline<M>)
    requires Usable(d)
    ensures Balances(FinalBook(d, mind, cfg, p), cfg.initialEquity)
  {
    var n := StepCount(d);
    ReplayIsSound(d, n, mind, cfg, p);
    AllClosedBalances(RunTo(d, n, mind, cfg, p).book, FinalMarks(d), StepTime(d, n - 1), Close, cfg.costs,
                      cfg.initialEquity);
  }

  // ----- one position per symbol -----

  lemma OneAfterReplace(ps: seq<SimPosition>, i: nat, p: SimPosition)
    requires OnePerSymbol(ps) && i < |ps| && p.symbol == ps[i].symbol
    ensures OnePerSymbol(ps[i := p])
  {}

  lemma OneAfterRemove(ps: seq<SimPosition>, i: nat)
    requires OnePerSymbol(ps) && i < |ps|
    ensures OnePerSymbol(Remove(ps, i)) && forall k :: 0 <= k < |ps| - 1 ==> Remove(ps, i)[k].symbol != ps[i].symbol
  {}

  lemma OneAfterFill(b: Book, o: PendingOrder, bar: Candle, c: Costs)
    requires OnePerSymbol(b.positions)
    ensures OnePerSymbol(Filled(b, o, bar, c).positions)
  {
    var h := HolderOf(b.positions, o.symbol);
    if h < |b.positions| {
      OneAfterRemove(b.positions, h);
    }
  }

  ghost predicate OnePosition(b: Book) {
    OnePerSymbol(b.positions)
  }

  lemma OnePositionIsKept(manager: Option<Manager>, c: Costs)
    ensures KeptByFills(OnePosition, AnyOrder(), c) && KeptOnBars(OnePosition, manager, c) && KeptByFunding(OnePosition)
  {
    forall b: Book, o: PendingOrder, bar: Candle | OnePosition(b) ensures OnePosition(Filled(b, o, bar, c)) {
      OneAfterFill(b, o, bar, c);
    }
    forall b: Book, i: nat, p: SimPosition | OnePosition(b) && i < |b.positions| && SameIdentity(p, b.positions[i])
      ensures OnePosition(Replaced(b, i, p))
    {
      OneAfterReplace(b.positions, i, p);
    }
    forall b: Book, i: nat, price: real, reason: ExitReason, at: int | OnePosition(b) && i < |b.positions|
      ensures OnePosition(ClosedAt(b, i, price, reason, at, c))
    {
      OneAfterRemove(b.positions, i);
    }
    AnyManagerKeeps(OnePosition, manager, c);
  }

  /** Main result: whatever the strategies order, the replay never holds two positions of one symbol. */
  lemma ReplayHoldsOnePerSymbol<M(!new)>(d: Data, n: nat, mind: M, cfg: Config, p: Pipeline<M>)
    requires Usable(d) && n <= StepCount(d)
    ensures OnePerSymbol(RunTo(d, n, mind, cfg, p).book.positions)
  {
    OnePositionIsKept(None, cfg.costs);
    forall mind: M ensures KeptOnBars(OnePosition, p.manager(mind), cfg.costs) {
      OnePositionIsKept(p.manager(mind), cfg.costs);
    }
    ReplayKeeps(OnePosition, AnyOrder(), d, n, mind, cfg, p);
  }
}
