/** What the replay's funding boundaries move: src/backtesting/ReplayService.ts:186-194. */
module ReplayFunding {
  import opened Common
  import opened ExecutionSimulator
  import opened PortfolioSimulator
  import opened PortfolioLedger
  import opened Replay
  import opened Sums

  /** The same book but for the wallet and what its positions have booked as funding. */
  ghost predicate SameInventory(b: Book, after: Book) {
    && |after.positions| == |b.positions| && after.counter == b.counter && after.trades == b.trades
    && forall k :: 0 <= k < |b.positions| ==>
         after.positions[k] == b.positions[k].(funding := after.positions[k].funding)
  }

  lemma SameValues(b: Book, after: Book)
    requires SameInventory(b, after)
    ensures forall s :: Longs(after, s) == Longs(b, s) && Shorts(after, s) == Shorts(b, s)
  {
    forall s ensures Longs(after, s) == Longs(b, s) && Shorts(after, s) == Shorts(b, s) {
      SumOfPairs(b.positions, after.positions, ValueOn(s, Long));
      SumOfPairs(b.positions, after.positions, ValueOn(s, Short));
    }
  }

  /** What a boundary costs the account in one symbol: its rate on the longs less the shorts. */
  function Owed(b: Book, f: FundingConfig, at: int): string -> real {
    (s: string) => Times(RateAt(f, s, at), Longs(b, s) - Shorts(b, s))
  }

  lemma SameOwed(b: Book, after: Book, universe: seq<string>, f: FundingConfig, at: int)
    requires SameInventory(b, after)
    ensures Sum(universe, Owed(after, f, at)) == Sum(universe, Owed(b, f, at))
  {
    SameValues(b, after);
    SumOfEqual(universe, Owed(after, f, at), Owed(b, f, at));
  }

  lemma SymbolPays(b: Book, before: Book, symbol: string, rate: real)
    requires SameInventory(b, before)
    ensures
      var after := FundedTo(before, |before.positions|, symbol, rate);
      && SameInventory(b, after)
      && after.realized == before.realized - Times(rate, Longs(b, symbol) - Shorts(b, symbol))
      && forall k :: 0 <= k < |b.positions| && b.positions[k].symbol != symbol ==>
           after.positions[k].funding == before.positions[k].funding
  {
    SettlingPays(before, symbol, rate);
    SameValues(b, before);
  }

  /** One boundary charges every symbol of the universe its rate on its signed inventory, and touches nothing else. */
  lemma BoundaryPays(b: Book, universe: seq<string>, f: FundingConfig, at: int)
    ensures
      var after := SettleBoundary(b, |universe|, universe, f, at);
      && SameInventory(b, after) && after.realized == b.realized - Sum(universe, Owed(b, f, at))
      && forall k :: 0 <= k < |b.positions| && b.positions[k].symbol !in universe ==>
           after.positions[k] == b.positions[k]
  {
    SymbolsPay(b, |universe|, universe, f, at);
    assert universe[..|universe|] == universe;
    forall k | 0 <= k < |b.positions| && b.positions[k].symbol !in universe
      ensures SettleBoundary(b, |universe|, universe, f, at).positions[k] == b.positions[k] {
      StrangerIsSpared(b, |universe|, universe, f, at, k);
    }
  }

  lemma {:induction false} SymbolsPay(b: Book, n: nat, universe: seq<string>, f: FundingConfig, at: int)
    requires n <= |universe|
    ensures SameInventory(b, SettleBoundary(b, n, universe, f, at))
    ensures SettleBoundary(b, n, universe, f, at).realized == b.realized - Sum(universe[..n], Owed(b, f, at))
  {
    if n > 0 {
      SymbolsPay(b, n - 1, universe, f, at);
      assert universe[..n] == universe[..n - 1] + [universe[n - 1]];
      SumAppend(universe[..n - 1], universe[n - 1], Owed(b, f, at));
      LastSymbolPays(b, n, universe, f, at);
    }
  }

  lemma LastSymbolPays(b: Book, n: nat, universe: seq<string>, f: FundingConfig, at: int)
    requires 0 < n <= |universe| && SameInventory(b, SettleBoundary(b, n - 1, universe, f, at))
    ensures
      var before, after := SettleBoundary(b, n - 1, universe, f, at), SettleBoundary(b, n, universe, f, at);
      SameInventory(b, after) && after.realized == before.realized - Owed(b, f, at)(universe[n - 1])
  {
    var before, s := SettleBoundary(b, n - 1, universe, f, at), universe[n - 1];
    var rate := RateAt(f, s, at);
    assert SettleBoundary(b, n, universe, f, at) == FundedTo(before, |before.positions|, s, rate);
    SymbolPays(b, before, s, rate);
    assert Owed(b, f, at)(s) == Times(rate, Longs(b, s) - Shorts(b, s));
  }

  lemma {:induction false} StrangerIsSpared(b: Book, n: nat, universe: seq<string>, f: FundingConfig, at: int, k: nat)
    requires n <= |universe| && k < |b.positions| && b.positions[k].symbol !in universe
    ensures SameInventory(b, SettleBoundary(b, n, universe, f, at))
    ensures SettleBoundary(b, n, universe, f, at).positions[k] == b.positions[k]
  {
    SymbolsPay(b, n, universe, f, at);
    if n > 0 {
      StrangerIsSpared(b, n - 1, universe, f, at, k);
      SymbolPays(b, SettleBoundary(b, n - 1, universe, f, at), universe[n - 1], RateAt(f, universe[n - 1], at));
    }
  }

  /** `at` and every interval after it, up to `close`: the loop's boundaries. */
  function Ticks(at: int, interval: int, close: int): seq<int>
    requires interval > 0
    decreases close - at
  {
    if at > close then [] else [at] + Ticks(at + interval, interval, close)
  }

  function TimeOf(k: int, interval: int): int {
    k * interval
  }

  lemma TimesAreOrdered(j: int, k: int, interval: int)
    requires interval > 0 && j <= k
    ensures TimeOf(j, interval) <= TimeOf(k, interval)
  {}

  lemma NextTime(k: int, interval: int)
    ensures TimeOf(k + 1, interval) == TimeOf(k, interval) + interval
  {}

  /** Consecutive boundaries from `k` on, none after `close`. */
  ghost predicate AreTimes(ts: seq<int>, k: int, interval: int, close: int) {
    forall i :: 0 <= i < |ts| ==> ts[i] == TimeOf(k + i, interval) && ts[i] <= close
  }

  lemma TimesPrepend(at: int, k: int, rest: seq<int>, interval: int, close: int)
    requires at == TimeOf(k, interval) && at <= close && AreTimes(rest, k + 1, interval, close)
    ensures AreTimes([at] + rest, k, interval, close)
  {
    var ts := [at] + rest;
    forall i | 0 <= i < |ts| ensures ts[i] == TimeOf(k + i, interval) && ts[i] <= close {
      if i > 0 {
        var j := i - 1;
        assert ts[i] == rest[j] == TimeOf(k + 1 + j, interval);
        assert k + 1 + j == k + i;
      }
    }
  }

  /** The ticks from boundary `k` on are the boundaries not after `close`, each once and in order. */
  lemma {:induction false} TicksAreTimes(k: int, at: int, interval: int, close: int)
    requires interval > 0 && at == TimeOf(k, interval)
    ensures AreTimes(Ticks(at, interval, close), k, interval, close)
    ensures TimeOf(k + |Ticks(at, interval, close)|, interval) > close
    decreases close - at
  {
    if at <= close {
      var rest := Ticks(at + interval, interval, close);
      NextTime(k, interval);
      TicksAreTimes(k + 1, at + interval, interval, close);
      TimesPrepend(at, k, rest, interval, close);
      assert k + 1 + |rest| == k + |[at] + rest|;
    }
  }

  /** What the boundary at `at` costs the account over the whole universe. */
  function OwedAt(b: Book, universe: seq<string>, f: FundingConfig): int -> real {
    (at: int) => Sum(universe, Owed(b, f, at))
  }

  lemma SameOwedAt(b: Book, after: Book, ts: seq<int>, universe: seq<string>, f: FundingConfig)
    requires SameInventory(b, after)
    ensures Sum(ts, OwedAt(after, universe, f)) == Sum(ts, OwedAt(b, universe, f))
  {
    forall at ensures OwedAt(after, universe, f)(at) == OwedAt(b, universe, f)(at) {
      SameOwed(b, after, universe, f, at);
    }
    SumOfEqual(ts, OwedAt(after, universe, f), OwedAt(b, universe, f));
  }

  lemma {:induction false} SettledFromPays(b: Book, at: int, interval: int, close: int, universe: seq<string>,
                                           f: FundingConfig)
    requires interval > 0
    ensures SameInventory(b, SettleFrom(b, at, interval, close, universe, f))
    ensures SettleFrom(b, at, interval, close, universe, f).realized
            == b.realized - Sum(Ticks(at, interval, close), OwedAt(b, universe, f))
    decreases close - at
  {
    if at <= close {
      var next, rest := SettleBoundary(b, |universe|, universe, f, at), Ticks(at + interval, interval, close);
      SettledFromPays(next, at + interval, interval, close, universe, f);
      BoundaryPays(b, universe, f, at);
      SameOwedAt(b, next, rest, universe, f);
      SumPrepend(at, rest, OwedAt(b, universe, f));
    }
  }

  lemma SumPrepend(at: int, rest: seq<int>, x: int -> real)
    ensures Sum([at] + rest, x) == x(at) + Sum(rest, x)
  {
    SumConcat([at], rest, x);
    SumAppend([], at, x);
    assert [] + [at] == [at];
  }

  /** The boundaries in a step: every multiple of the interval after `previous` and not after `close`, in order. */
  ghost predicate AreCrossed(ts: seq<int>, previous: int, close: int, interval: int) {
    && (forall k :: TimeOf(k, interval) in ts <==> previous < TimeOf(k, interval) <= close)
    && (forall t :: t in ts ==> exists k :: t == TimeOf(k, interval))
    && forall i, j :: 0 <= i < j < |ts| ==> ts[i] < ts[j]
  }

  function Crossed(previous: int, close: int, interval: int): seq<int>
    requires interval > 0
  {
    Ticks(TimeOf(previous / interval + 1, interval), interval, close)
  }

  lemma CrossedAreCrossed(previous: int, close: int, interval: int)
    requires interval > 0
    ensures AreCrossed(Crossed(previous, close, interval), previous, close, interval)
  {
    var q, ts := previous / interval, Crossed(previous, close, interval);
    TicksAreTimes(q + 1, TimeOf(q + 1, interval), interval, close);
    forall i, j | 0 <= i < j < |ts| ensures ts[i] < ts[j] {
      NextTime(q + 1 + i, interval);
      TimesAreOrdered(q + 1 + i + 1, q + 1 + j, interval);
    }
    forall k ensures TimeOf(k, interval) in ts <==> previous < TimeOf(k, interval) <= close {
      CrossedIff(previous, close, interval, k);
    }
    forall t | t in ts ensures exists k :: t == TimeOf(k, interval) {
      var i :| 0 <= i < |ts| && ts[i] == t;
      assert t == TimeOf(q + 1 + i, interval);
    }
  }

  lemma CrossedIff(previous: int, close: int, interval: int, k: int)
    requires interval > 0
    ensures TimeOf(k, interval) in Crossed(previous, close, interval) <==> previous < TimeOf(k, interval) <= close
  {
    var q, ts := previous / interval, Crossed(previous, close, interval);
    TicksAreTimes(q + 1, TimeOf(q + 1, interval), interval, close);
    assert TimeOf(q, interval) <= previous < TimeOf(q, interval) + interval;
    NextTime(q, interval);
    if k <= q {
      TimesAreOrdered(k, q, interval);
      forall i | 0 <= i < |ts| ensures ts[i] > previous {
        TimesAreOrdered(q + 1, q + 1 + i, interval);
      }
    } else if k <= q + |ts| {
      TimesAreOrdered(q + 1, k, interval);
      assert ts[k - q - 1] == TimeOf(k, interval);
    } else {
      TimesAreOrdered(q + 1 + |ts|, k, interval);
    }
  }

  /**
   * A step with funding on charges every boundary it crossed once: the wallet moves by minus the rates known at them
   * on the longs less the shorts of each symbol, and no position changes but in what it has booked as funding. With
   * funding off, or without an interval, nothing moves.
   */
  lemma StepPaysItsBoundaries(b: Book, v: StepView, f: FundingConfig)
    ensures SameInventory(b, FundingPhase(b, v, f))
    ensures !f.enabled || f.intervalHours == 0 ==> FundingPhase(b, v, f) == b
    ensures
      f.enabled && f.intervalHours > 0 ==>
        var ts := Crossed(v.previousClose, v.closeTime, f.intervalHours * 3_600_000);
        && AreCrossed(ts, v.previousClose, v.closeTime, f.intervalHours * 3_600_000)
        && FundingPhase(b, v, f).realized == b.realized - Sum(ts, OwedAt(b, v.universe, f))
  {
    var interval := f.intervalHours * 3_600_000;
    if f.enabled && interval > 0 {
      NextTime(v.previousClose / interval, interval);
      SettledFromPays(b, TimeOf(v.previousClose / interval + 1, interval), interval, v.closeTime, v.universe, f);
      CrossedAreCrossed(v.previousClose, v.closeTime, interval);
    }
  }
}
