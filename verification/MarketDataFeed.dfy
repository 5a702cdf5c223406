/** No-lookahead historical data: src/backtesting/MarketDataFeed.ts. */
module MarketDataFeed {
  import opened Common
  import opened ExecutionSimulator

  datatype Timeframe = M1 | M5 | M15 | H1 | H4

  function Interval(tf: Timeframe): int {
    match tf
    case M1 => 60_000
    case M5 => 300_000
    case M15 => 900_000
    case H1 => 3_600_000
    case H4 => 14_400_000
  }

  /** One symbol's series per timeframe; a missing one is empty. */
  datatype Frames = Frames(m1: seq<Candle>, m5: seq<Candle>, m15: seq<Candle>, h1: seq<Candle>, h4: seq<Candle>) {
    function Of(tf: Timeframe): seq<Candle> {
      match tf
      case M1 => m1
      case M5 => m5
      case M15 => m15
      case H1 => h1
      case H4 => h4
    }
  }

  /** The symbols in key order, the first of them the grid symbol. */
  datatype Data = Data(symbols: seq<string>, frames: map<string, Frames>)

  datatype FeedError = NoSymbols | No15mCandles(symbol: string)

  function Series(d: Data, symbol: string, tf: Timeframe): seq<Candle> {
    if symbol in d.frames then d.frames[symbol].Of(tf) else []
  }

  /** What the constructor accepts (MarketDataFeed.ts:27-33). */
  predicate Usable(d: Data) {
    d.symbols != [] && forall s :: s in d.symbols ==> Series(d, s, M15) != []
  }

  function GridBars(d: Data): seq<Candle>
    requires Usable(d)
  {
    Series(d, d.symbols[0], M15)
  }

  function StepCount(d: Data): nat
    requires Usable(d)
  {
    |GridBars(d)|
  }

  /** Close time of step `i`. */
  function StepTime(d: Data, i: nat): int
    requires Usable(d) && i < StepCount(d)
  {
    GridBars(d)[i].openTime + FIFTEEN_MINUTES_MS
  }

  /** The 15m bar of `symbol` in slot `i`, by index (MarketDataFeed.ts:54-56). */
  function BarFor(d: Data, symbol: string, i: nat): Option<Candle> {
    if i < |Series(d, symbol, M15)| then Some(Series(d, symbol, M15)[i]) else None
  }

  /** The constructor: the step grid, or the first reason there is none (MarketDataFeed.ts:27-37). */
  method BuildGrid(d: Data) returns (grid: seq<int>, error: Option<FeedError>)
    ensures error.None? <==> Usable(d)
    ensures error.None? ==> |grid| == StepCount(d) && forall i :: 0 <= i < |grid| ==> grid[i] == StepTime(d, i)
    ensures error.Some? && error.value.No15mCandles? ==>
              error.value.symbol in d.symbols && Series(d, error.value.symbol, M15) == []
  {
    grid := [];
    if d.symbols == [] {
      return grid, Some(NoSymbols);
    }
    for i := 0 to |d.symbols|
      invariant forall k :: 0 <= k < i ==> Series(d, d.symbols[k], M15) != []
    {
      if Series(d, d.symbols[i], M15) == [] {
        return grid, Some(No15mCandles(d.symbols[i]));
      }
    }
    error := None;
    for i := 0 to |GridBars(d)|
      invariant |grid| == i && forall k :: 0 <= k < i ==> grid[k] == StepTime(d, k)
    {
      grid := grid + [GridBars(d)[i].openTime + FIFTEEN_MINUTES_MS];
    }
  }

  // ----- closed candles -----

  predicate ClosedBy(bar: Candle, tf: Timeframe, t: int) {
    bar.openTime + Interval(tf) <= t
  }

  /** The candles up to the last one that has closed by `t`. */
  function Closed(bars: seq<Candle>, tf: Timeframe, t: int): (r: seq<Candle>)
    ensures r <= bars
  {
    if bars == [] || ClosedBy(bars[|bars| - 1], tf, t) then bars else Closed(bars[..|bars| - 1], tf, t)
  }

  ghost predicate InTimeOrder(bars: seq<Candle>) {
    forall i, j :: 0 <= i <= j < |bars| ==> bars[i].openTime <= bars[j].openTime
  }

  lemma {:induction false} ClosedSplit(bars: seq<Candle>, tf: Timeframe, t: int, k: nat)
    requires k <= |bars| && (k > 0 ==> ClosedBy(bars[k - 1], tf, t))
    requires forall i :: k <= i < |bars| ==> !ClosedBy(bars[i], tf, t)
    ensures Closed(bars, tf, t) == bars[..k]
  {
    if |bars| > k {
      ClosedSplit(bars[..|bars| - 1], tf, t, k);
      assert bars[..|bars| - 1][..k] == bars[..k];
    } else {
      assert bars[..k] == bars;
    }
  }

  /** `closedCandles` (MarketDataFeed.ts:65-76): the binary search returns exactly what had closed. */
  method ClosedCandles(bars: seq<Candle>, tf: Timeframe, closeTime: int) returns (closed: seq<Candle>)
    requires InTimeOrder(bars)
    ensures closed == Closed(bars, tf, closeTime)
    ensures forall i :: 0 <= i < |bars| ==> (ClosedBy(bars[i], tf, closeTime) <==> i < |closed|)
  {
    var lo, hi := 0, |bars|;
    while lo < hi
      invariant 0 <= lo <= hi <= |bars|
      invariant forall i :: 0 <= i < lo ==> ClosedBy(bars[i], tf, closeTime)
      invariant forall i :: hi <= i < |bars| ==> !ClosedBy(bars[i], tf, closeTime)
    {
      var mid := (lo + hi) / 2;
      if ClosedBy(bars[mid], tf, closeTime) {
        lo := mid + 1;
      } else {
        hi := mid;
      }
    }
    ClosedSplit(bars, tf, closeTime, lo);
    closed := bars[..lo];
  }

  /** `lastClose` (MarketDataFeed.ts:79-82). */
  function LastClose(d: Data, symbol: string, closeTime: int): Option<real> {
    var bars := Closed(Series(d, symbol, M15), M15, closeTime);
    if bars == [] then None else Some(bars[|bars| - 1].close)
  }

  /** A bar that has closed is among the closed ones, in its own slot. */
  lemma {:induction false} ClosedKeepsSlot(bars: seq<Candle>, tf: Timeframe, t: int, i: nat)
    requires i < |bars| && ClosedBy(bars[i], tf, t)
    ensures i < |Closed(bars, tf, t)| && Closed(bars, tf, t)[i] == bars[i]
  {
    if !ClosedBy(bars[|bars| - 1], tf, t) {
      ClosedKeepsSlot(bars[..|bars| - 1], tf, t, i);
    }
  }

  /** What had closed earlier can be told from what has closed by now. */
  lemma {:induction false} ClosedEarlier(bars: seq<Candle>, tf: Timeframe, earlier: int, t: int)
    requires earlier <= t
    ensures Closed(Closed(bars, tf, t), tf, earlier) == Closed(bars, tf, earlier)
  {
    if bars != [] && !ClosedBy(bars[|bars| - 1], tf, t) {
      ClosedEarlier(bars[..|bars| - 1], tf, earlier, t);
    }
  }

  // ----- two datasets -----

  /** The datasets have the same symbols and agree on every candle that had closed by `t`. */
  ghost predicate AgreeUpTo(d: Data, e: Data, t: int) {
    && d.symbols == e.symbols
    && forall s: string, tf: Timeframe :: s in d.symbols ==>
       Closed(Series(d, s, tf), tf, t) == Closed(Series(e, s, tf), tf, t)
  }

  /** On the shared grid, the bar in a slot never closes after the slot's step. */
  ghost predicate NeverAhead(d: Data)
    requires Usable(d)
  {
    forall s: string, i: nat :: s in d.symbols && i < StepCount(d) && i < |Series(d, s, M15)| ==>
      ClosedBy(Series(d, s, M15)[i], M15, StepTime(d, i))
  }

  ghost predicate GridInOrder(d: Data)
    requires Usable(d)
  {
    forall i: nat, j: nat :: i <= j < StepCount(d) ==> StepTime(d, i) <= StepTime(d, j)
  }

  /** All 15m histories share one gapless grid. */
  ghost predicate Aligned(d: Data, start: int)
    requires Usable(d)
  {
    forall s: string, i: nat :: s in d.symbols && i < |Series(d, s, M15)| ==>
      Series(d, s, M15)[i].openTime == start + i * FIFTEEN_MINUTES_MS
  }

  lemma AlignedIsNeverAhead(d: Data, start: int)
    requires Usable(d) && Aligned(d, start)
    ensures NeverAhead(d) && GridInOrder(d)
  {}

  lemma AgreeEarlier(d: Data, e: Data, earlier: int, t: int)
    requires AgreeUpTo(d, e, t) && earlier <= t
    ensures AgreeUpTo(d, e, earlier)
  {
    forall s: string, tf: Timeframe | s in d.symbols
      ensures Closed(Series(d, s, tf), tf, earlier) == Closed(Series(e, s, tf), tf, earlier)
    {
      ClosedEarlier(Series(d, s, tf), tf, earlier, t);
      ClosedEarlier(Series(e, s, tf), tf, earlier, t);
    }
  }

  /** A closed slot reads the same in both datasets. */
  lemma SlotsAgree(d: Data, e: Data, s: string, i: nat, t: int)
    requires AgreeUpTo(d, e, t) && s in d.symbols
    requires i < |Series(d, s, M15)| ==> ClosedBy(Series(d, s, M15)[i], M15, t)
    requires i < |Series(e, s, M15)| ==> ClosedBy(Series(e, s, M15)[i], M15, t)
    ensures BarFor(d, s, i) == BarFor(e, s, i)
  {
    assert Closed(Series(d, s, M15), M15, t) == Closed(Series(e, s, M15), M15, t);
    if i < |Series(d, s, M15)| {
      ClosedKeepsSlot(Series(d, s, M15), M15, t, i);
    }
    if i < |Series(e, s, M15)| {
      ClosedKeepsSlot(Series(e, s, M15), M15, t, i);
    }
  }
}
