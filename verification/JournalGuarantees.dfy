/** What reconstruction conserves: money, quantity, entries and orders. */
module JournalGuarantees {
  import opened Common
  import opened LiveJournal
  import opened Sums

  // ----- money -----

  /** What an execution adds to the account: its realized result less its USDT commission. */
  function Worth(f: Fill): real {
    f.realizedPnl - UsdtFee(f)
  }

  /** The money an event moves on `symbol`: nothing else is counted. */
  function FlowOf(symbol: string): Event -> real {
    (e: Event) =>
      if SymbolOf(e) != symbol then 0.0
      else if e.FillEvent? then Worth(e.fill) else e.funding.amount
  }

  function ClosedPnl(c: Closed): real {
    Sum(c.fills, PnlOf) - Sum(c.fills, UsdtFee) + c.charges
  }

  /** Journaled results of `symbol`'s trades. */
  function Journaled(closed: seq<Closed>, symbol: string): real
    requires NonEmpty(closed)
  {
    if closed == [] then 0.0
    else
      var last := closed[|closed| - 1];
      Journaled(closed[..|closed| - 1], symbol) + (if last.fills[0].symbol == symbol then ClosedPnl(last) else 0.0)
  }

  function GroupWorth(group: seq<Fill>, symbol: string): real {
    if group != [] && group[0].symbol == symbol then Sum(group, PnlOf) - Sum(group, UsdtFee) else 0.0
  }

  /** Everything the scan has accounted for on `symbol` so far. */
  function Accounted(s: Scan, symbol: string): real
    requires NonEmpty(s.closed)
  {
    Journaled(s.closed, symbol) + CarryOf(s.carry, symbol) + GroupWorth(s.group, symbol)
  }

  /** The executions of a group share one order and symbol. */
  ghost predicate OneOrder(fills: seq<Fill>) {
    forall k :: 0 <= k < |fills| ==> SameOrder(fills[0], fills[k])
  }

  lemma JournaledAppend(closed: seq<Closed>, c: Closed, symbol: string)
    requires NonEmpty(closed) && c.fills != []
    ensures NonEmpty(closed + [c])
    ensures Journaled(closed + [c], symbol)
         == Journaled(closed, symbol) + (if c.fills[0].symbol == symbol then ClosedPnl(c) else 0.0)
  {
    assert (closed + [c])[..|closed|] == closed;
  }

  lemma FinishAccounts(s: Scan, symbol: string)
    requires NonEmpty(s.closed)
    ensures NonEmpty(Finish(s).closed) && Accounted(Finish(s), symbol) == Accounted(s, symbol) && Finish(s).group == []
  {
    if s.group != [] {
      JournaledAppend(s.closed, Closed(s.group, CarryOf(s.carry, s.group[0].symbol)), symbol);
    }
  }

  lemma GroupAppend(group: seq<Fill>, f: Fill, symbol: string)
    requires group == [] || group[0].symbol == f.symbol
    ensures GroupWorth(group + [f], symbol) ==
            GroupWorth(group, symbol) + (if f.symbol == symbol then Worth(f) else 0.0)
  {
    SumAppend(group, f, PnlOf);
    SumAppend(group, f, UsdtFee);
  }

  lemma StepAccounts(s: Scan, e: Event, symbol: string)
    requires NonEmpty(s.closed)
    ensures NonEmpty(Step(s, e).closed)
    ensures Accounted(Step(s, e), symbol) == Accounted(s, symbol) + FlowOf(symbol)(e)
  {
    match e
    case FundingEvent(f) =>
    case FillEvent(f) =>
      if Closes(f) {
        FinishAccounts(s, symbol);
        var ready := if s.group != [] && !SameOrder(s.group[0], f) then Finish(s) else s;
        GroupAppend(ready.group, f, symbol);
      }
  }

  lemma {:induction false} ScanAccounts(events: seq<Event>, pending: map<string, real>, symbol: string)
    ensures NonEmpty(ScanOf(events, pending).closed)
    ensures Accounted(ScanOf(events, pending), symbol) == CarryOf(pending, symbol) + Sum(events, FlowOf(symbol))
  {
    if events != [] {
      ScanAccounts(events[..|events| - 1], pending, symbol);
      StepAccounts(ScanOf(events[..|events| - 1], pending), events[|events| - 1], symbol);
    }
  }

  /**
   * Main result: for any order of events and every symbol, the journaled results plus the charges
   * carried out are the charges carried in plus realized results, less USDT commissions, plus funding.
   */
  lemma MoneyIsConserved(events: seq<Event>, pending: map<string, real>, symbol: string)
    ensures NonEmpty(Built(events, pending).closed)
    ensures
      var built := Built(events, pending);
      Journaled(built.closed, symbol) + CarryOf(built.carry, symbol)
        == CarryOf(pending, symbol) + Sum(events, FlowOf(symbol))
  {
    ScanAccounts(events, pending, symbol);
    FinishAccounts(ScanOf(events, pending), symbol);
  }

  lemma {:induction false} InsertSum(events: seq<Event>, e: Event, f: Event -> real)
    ensures Sum(Insert(events, e), f) == Sum(events, f) + f(e)
  {
    if events == [] || TimeOf(events[|events| - 1]) <= TimeOf(e) {
      assert (events + [e])[..|events|] == events;
    } else {
      var n := |events| - 1;
      InsertSum(events[..n], e, f);
      var rest := Insert(events[..n], e);
      assert (rest + [events[n]])[..|rest|] == rest;
    }
  }

  /** Sorting by time moves no money, so the law holds for the executions and funding lines as fetched. */
  lemma {:induction false} SortSum(events: seq<Event>, f: Event -> real)
    ensures Sum(SortByTime(events), f) == Sum(events, f)
  {
    if events != [] {
      SortSum(events[..|events| - 1], f);
      InsertSum(SortByTime(events[..|events| - 1]), events[|events| - 1], f);
    }
  }

  // ----- quantity and unpriced fees -----

  function ClosingQty(symbol: string): Event -> real {
    (e: Event) => if e.FillEvent? && Closes(e.fill) && e.fill.symbol == symbol then e.fill.qty else 0.0
  }

  function UnpricedOf(e: Event): real {
    if e.FillEvent? then UnpricedFee(e.fill) else 0.0
  }

  function TradedQty(closed: seq<Closed>, symbol: string): real
    requires NonEmpty(closed)
  {
    if closed == [] then 0.0
    else
      var last := closed[|closed| - 1];
      TradedQty(closed[..|closed| - 1], symbol)
        + (if last.fills[0].symbol == symbol then Sum(last.fills, QtyOf) else 0.0)
  }

  function QtySoFar(s: Scan, symbol: string): real
    requires NonEmpty(s.closed)
  {
    TradedQty(s.closed, symbol) + (if s.group != [] && s.group[0].symbol == symbol then Sum(s.group, QtyOf) else 0.0)
  }

  lemma TradedAppend(closed: seq<Closed>, c: Closed, symbol: string)
    requires NonEmpty(closed) && c.fills != []
    ensures NonEmpty(closed + [c])
    ensures TradedQty(closed + [c], symbol)
         == TradedQty(closed, symbol) + (if c.fills[0].symbol == symbol then Sum(c.fills, QtyOf) else 0.0)
  {
    assert (closed + [c])[..|closed|] == closed;
  }

  lemma FinishKeepsQty(s: Scan, symbol: string)
    requires NonEmpty(s.closed)
    ensures NonEmpty(Finish(s).closed) && QtySoFar(Finish(s), symbol) == QtySoFar(s, symbol)
    ensures Finish(s).unpriced == s.unpriced + Sum(s.group, UnpricedFee) && Finish(s).group == []
  {
    if s.group != [] {
      TradedAppend(s.closed, Closed(s.group, CarryOf(s.carry, s.group[0].symbol)), symbol);
    }
  }

  lemma StepKeepsQty(s: Scan, e: Event, symbol: string)
    requires NonEmpty(s.closed)
    ensures NonEmpty(Step(s, e).closed)
    ensures QtySoFar(Step(s, e), symbol) == QtySoFar(s, symbol) + ClosingQty(symbol)(e)
    ensures Step(s, e).unpriced + Sum(Step(s, e).group, UnpricedFee) ==
            s.unpriced + Sum(s.group, UnpricedFee) + UnpricedOf(e)
  {
    match e
    case FundingEvent(f) =>
    case FillEvent(f) =>
      if Closes(f) {
        FinishKeepsQty(s, symbol);
        var ready := if s.group != [] && !SameOrder(s.group[0], f) then Finish(s) else s;
        SumAppend(ready.group, f, QtyOf);
        SumAppend(ready.group, f, UnpricedFee);
      }
  }

  lemma {:induction false} ScanKeepsQty(events: seq<Event>, pending: map<string, real>, symbol: string)
    ensures NonEmpty(ScanOf(events, pending).closed)
    ensures QtySoFar(ScanOf(events, pending), symbol) == Sum(events, ClosingQty(symbol))
    ensures ScanOf(events, pending).unpriced + Sum(ScanOf(events, pending).group, UnpricedFee) ==
            Sum(events, UnpricedOf)
  {
    if events != [] {
      ScanKeepsQty(events[..|events| - 1], pending, symbol);
      StepKeepsQty(ScanOf(events[..|events| - 1], pending), events[|events| - 1], symbol);
    }
  }

  /**
   * Main result: every closed quantity is in exactly one trade, and every commission not in USDT is reported unpriced.
   */
  lemma QuantityIsConserved(events: seq<Event>, pending: map<string, real>, symbol: string)
    ensures NonEmpty(Built(events, pending).closed)
    ensures TradedQty(Built(events, pending).closed, symbol) == Sum(events, ClosingQty(symbol))
    ensures Built(events, pending).unpriced == Sum(events, UnpricedOf)
  {
    ScanKeepsQty(events, pending, symbol);
    FinishKeepsQty(ScanOf(events, pending), symbol);
  }

  // ----- entries -----

  /** The venue's realized result for a fill that closes a position entered at `entry`. */
  ghost predicate ReportsEntry(f: Fill, side: OrderSide, entry: real) {
    f.side == side && f.realizedPnl == Times(if side.Sell? then f.price - entry else entry - f.price, f.qty)
  }

  lemma Distribute(d: real, e: real, x: real, y: real, q: real, r: real)
    ensures Times(d, x - Times(e, q)) + Times(d, y - Times(e, r)) == Times(d, (x + y) - Times(e, q + r))
  {}

  lemma {:induction false} RealizedIsGrossOfEntry(fills: seq<Fill>, side: OrderSide, entry: real)
    requires forall k :: 0 <= k < |fills| ==> ReportsEntry(fills[k], side, entry)
    ensures Sum(fills, PnlOf) == Times(DirectionOf(side), Sum(fills, CostOf) - Times(entry, Sum(fills, QtyOf)))
  {
    if fills == [] {
      assert Times(entry, 0.0) == 0.0 && Times(DirectionOf(side), 0.0) == 0.0;
    } else {
      var n := |fills| - 1;
      assert Times(fills[n].price - entry, fills[n].qty) == CostOf(fills[n]) - Times(entry, fills[n].qty);
      RealizedIsGrossOfEntry(fills[..n], side, entry);
      Distribute(DirectionOf(side), entry, Sum(fills[..n], CostOf), CostOf(fills[n]), Sum(fills[..n], QtyOf),
                 fills[n].qty);
    }
  }

  lemma Undo(d: real, x: real, entry: real, q: Quantity)
    requires d == 1.0 || d == -1.0
    ensures Over(x, q) - Over(Times(d, Times(d, x - Times(entry, q))), q) == entry
  {
    assert Times(d, Times(d, x - Times(entry, q))) == x - Times(entry, q);
    assert Over(x, q) - Over(x - Times(entry, q), q) == Over(Times(entry, q), q);
    assert Over(Times(entry, q), q) == entry;
  }

  /**
   * A trade closes the side its executions trade against, for all of their quantity, at their mean price, when the last
   * of them traded, and belongs to the owner at that time.
   */
  lemma TradeSumsItsFills(c: Closed, ownerOf: OwnerLookup)
    requires c.fills != []
    ensures
      var t := TradeOf(c, ownerOf);
      && t.symbol == c.fills[0].symbol && t.side == (if c.fills[0].side == Sell then Long else Short)
      && t.qty == Sum(c.fills, QtyOf) && Times(t.exit, t.qty) == Sum(c.fills, CostOf)
      && (forall k :: 0 <= k < |c.fills| ==> c.fills[k].time <= t.closedAt)
      && (exists k :: 0 <= k < |c.fills| && c.fills[k].time == t.closedAt)
      && t.strategy == ownerOf(t.symbol, t.closedAt)
  {
    LastTimeIsLatest(c.fills);
  }

  lemma {:induction false} LastTimeIsLatest(fills: seq<Fill>)
    requires fills != []
    ensures forall k :: 0 <= k < |fills| ==> fills[k].time <= LastTime(fills)
    ensures exists k :: 0 <= k < |fills| && fills[k].time == LastTime(fills)
  {
    if |fills| > 1 {
      LastTimeIsLatest(fills[..|fills| - 1]);
    }
    assert fills[|fills| - 1].time <= LastTime(fills);
  }

  /** Main result: when the venue reports (exit - entry) x qty x direction, the recovered entry is the true one. */
  lemma EntryIsRecovered(c: Closed, ownerOf: OwnerLookup, entry: real)
    requires c.fills != []
    requires forall k :: 0 <= k < |c.fills| ==> ReportsEntry(c.fills[k], c.fills[0].side, entry)
    ensures TradeOf(c, ownerOf).entry == entry
  {
    RealizedIsGrossOfEntry(c.fills, c.fills[0].side, entry);
    Undo(DirectionOf(c.fills[0].side), Sum(c.fills, CostOf), entry, TotalQty(c.fills));
  }

  // ----- orders -----

  /** The closing executions, in the order they are scanned. */
  function Closing(events: seq<Event>): seq<Fill> {
    if events == [] then []
    else
      var e := events[|events| - 1];
      Closing(events[..|events| - 1]) + (if e.FillEvent? && Closes(e.fill) then [e.fill] else [])
  }

  /** The executions of the finished trades, one after the other. */
  function Flatten(closed: seq<Closed>): seq<Fill> {
    if closed == [] then [] else Flatten(closed[..|closed| - 1]) + closed[|closed| - 1].fills
  }

  /** Trades of one order each, and neighbours of different orders. */
  ghost predicate Runs(closed: seq<Closed>) {
    && (forall k :: 0 <= k < |closed| ==> closed[k].fills != [] && OneOrder(closed[k].fills))
    && (forall k :: 0 < k < |closed| ==> !SameOrder(closed[k - 1].fills[0], closed[k].fills[0]))
  }

  ghost predicate Partitioned(s: Scan, closing: seq<Fill>) {
    && Runs(s.closed) && OneOrder(s.group)
    && (s.closed != [] && s.group != [] ==> !SameOrder(s.closed[|s.closed| - 1].fills[0], s.group[0]))
    && (s.closed != [] && closing != [] ==> s.group != [])
    && Flatten(s.closed) + s.group == closing
  }

  lemma FlattenAppend(closed: seq<Closed>, c: Closed)
    ensures Flatten(closed + [c]) == Flatten(closed) + c.fills
  {
    assert (closed + [c])[..|closed|] == closed;
  }

  lemma ExtendGroup(s: Scan, closing: seq<Fill>, f: Fill)
    requires Partitioned(s, closing) && s.group != [] && SameOrder(s.group[0], f)
    ensures Partitioned(s.(group := s.group + [f]), closing + [f])
  {
    assert Flatten(s.closed) + (s.group + [f]) == (Flatten(s.closed) + s.group) + [f];
  }

  lemma StartGroup(s: Scan, closing: seq<Fill>, f: Fill)
    requires Partitioned(s, closing) && s.group != [] && !SameOrder(s.group[0], f)
    ensures var ready := Finish(s); Partitioned(ready.(group := ready.group + [f]), closing + [f])
  {
    FlattenAppend(s.closed, Closed(s.group, CarryOf(s.carry, s.group[0].symbol)));
  }

  lemma StepPartitions(s: Scan, e: Event, closing: seq<Fill>)
    requires Partitioned(s, closing)
    requires s.group == [] ==> s.closed == []
    ensures Partitioned(Step(s, e), closing + (if e.FillEvent? && Closes(e.fill) then [e.fill] else []))
    ensures Step(s, e).group == [] ==> Step(s, e).closed == []
  {
    if e.FillEvent? && Closes(e.fill) {
      if s.group == [] {
        assert Flatten([]) + [e.fill] == [e.fill];
      } else if SameOrder(s.group[0], e.fill) {
        ExtendGroup(s, closing, e.fill);
      } else {
        StartGroup(s, closing, e.fill);
      }
    } else {
      assert closing + [] == closing;
    }
  }

  lemma {:induction false} ScanPartitions(events: seq<Event>, pending: map<string, real>)
    ensures Partitioned(ScanOf(events, pending), Closing(events))
    ensures ScanOf(events, pending).group == [] ==> ScanOf(events, pending).closed == []
  {
    if events != [] {
      ScanPartitions(events[..|events| - 1], pending);
      StepPartitions(ScanOf(events[..|events| - 1], pending), events[|events| - 1], Closing(events[..|events| - 1]));
    }
  }

  /** Main result: the trades cut the closing executions, in order and without loss, into runs of one order. */
  lemma TradesPartitionCloses(events: seq<Event>, pending: map<string, real>)
    ensures Runs(Built(events, pending).closed)
    ensures Flatten(Built(events, pending).closed) == Closing(events)
  {
    ScanPartitions(events, pending);
    var s := ScanOf(events, pending);
    if s.group != [] {
      FlattenAppend(s.closed, Closed(s.group, CarryOf(s.carry, s.group[0].symbol)));
    } else {
      assert Flatten(s.closed) + s.group == Flatten(s.closed);
    }
  }

  /** No other order closes in between two executions of one order. */
  ghost predicate Contiguous(fills: seq<Fill>) {
    forall i, j, k :: 0 <= i < j < k < |fills| && SameOrder(fills[i], fills[k]) ==> SameOrder(fills[i], fills[j])
  }

  ghost predicate OneTradePerOrder(closed: seq<Closed>)
    requires Runs(closed)
  {
    forall a, b :: 0 <= a < b < |closed| ==> !SameOrder(closed[a].fills[0], closed[b].fills[0])
  }

  function Offset(closed: seq<Closed>, k: nat): nat
    requires k <= |closed|
  {
    |Flatten(closed[..k])|
  }

  lemma {:induction false} FlattenConcat(a: seq<Closed>, b: seq<Closed>)
    ensures Flatten(a + b) == Flatten(a) + Flatten(b)
    decreases |b|
  {
    if b == [] {
      assert a + b == a;
    } else {
      assert (a + b)[..|a + b| - 1] == a + b[..|b| - 1];
      FlattenConcat(a, b[..|b| - 1]);
    }
  }

  /** Where trade `k` starts among all closing executions. */
  lemma OffsetIsStart(closed: seq<Closed>, k: nat)
    requires Runs(closed) && k < |closed|
    ensures Offset(closed, k) < Offset(closed, k + 1) <= |Flatten(closed)|
    ensures Flatten(closed)[Offset(closed, k)..Offset(closed, k + 1)] == closed[k].fills
  {
    assert closed == closed[..k + 1] + closed[k + 1..];
    FlattenConcat(closed[..k + 1], closed[k + 1..]);
    assert closed[..k + 1] == closed[..k] + [closed[k]];
    FlattenAppend(closed[..k], closed[k]);
  }

  lemma {:induction false} OffsetsGrow(closed: seq<Closed>, a: nat, b: nat)
    requires Runs(closed) && a < b < |closed|
    ensures Offset(closed, a) < Offset(closed, b)
    decreases b
  {
    OffsetIsStart(closed, b - 1);
    if a < b - 1 {
      OffsetsGrow(closed, a, b - 1);
    }
  }

  lemma FirstOf(closed: seq<Closed>, k: nat)
    requires Runs(closed) && k < |closed|
    ensures Offset(closed, k) < |Flatten(closed)| && Flatten(closed)[Offset(closed, k)] == closed[k].fills[0]
  {
    OffsetIsStart(closed, k);
    var fills := Flatten(closed)[Offset(closed, k)..Offset(closed, k + 1)];
    assert fills[0] == Flatten(closed)[Offset(closed, k)];
  }

  /** The trade an execution went into. */
  lemma {:induction false} TradeFor(closed: seq<Closed>, i: nat, n: nat) returns (k: nat)
    requires Runs(closed) && n <= |closed| && i < Offset(closed, n)
    ensures k < n && Offset(closed, k) <= i < Offset(closed, k + 1)
    ensures Offset(closed, n) <= |Flatten(closed)| && SameOrder(Flatten(closed)[i], closed[k].fills[0])
    decreases n
  {
    assert Flatten(closed[..0]) == [];
    OffsetIsStart(closed, n - 1);
    if i < Offset(closed, n - 1) {
      k := TradeFor(closed, i, n - 1);
    } else {
      k := n - 1;
      var at := Offset(closed, k);
      assert Flatten(closed)[at..Offset(closed, n)][i - at] == closed[k].fills[i - at];
    }
  }

  /** Main result: one order becomes one trade exactly when its closing executions are contiguous. */
  lemma OneTradePerOrderIffContiguous(closed: seq<Closed>)
    requires Runs(closed)
    ensures OneTradePerOrder(closed) <==> Contiguous(Flatten(closed))
  {
    var fills := Flatten(closed);
    assert closed[..|closed|] == closed;
    if OneTradePerOrder(closed) {
      forall i, j, k | 0 <= i < j < k < |fills| && SameOrder(fills[i], fills[k]) ensures SameOrder(fills[i], fills[j]) {
        SplitOrderIsTwoTrades(closed, i, j, k);
      }
    }
    if Contiguous(fills) {
      forall a, b | 0 <= a < b < |closed| ensures !SameOrder(closed[a].fills[0], closed[b].fills[0]) {
        RepeatedOrderIsSplit(closed, a, b);
      }
    }
  }

  lemma SplitOrderIsTwoTrades(closed: seq<Closed>, i: nat, j: nat, k: nat)
    requires Runs(closed) && OneTradePerOrder(closed) && i < j < k < |Flatten(closed)|
    requires SameOrder(Flatten(closed)[i], Flatten(closed)[k])
    ensures SameOrder(Flatten(closed)[i], Flatten(closed)[j])
  {
    assert closed[..|closed|] == closed;
    var a := TradeFor(closed, i, |closed|);
    var b := TradeFor(closed, j, |closed|);
    var c := TradeFor(closed, k, |closed|);
    assert a == c;
    if b < a {
      OffsetsMonotone(closed, b + 1, a);
    } else if b > a {
      OffsetsMonotone(closed, a + 1, b);
    }
  }

  lemma OffsetsMonotone(closed: seq<Closed>, a: nat, b: nat)
    requires Runs(closed) && a <= b < |closed|
    ensures Offset(closed, a) <= Offset(closed, b)
  {
    if a < b {
      OffsetsGrow(closed, a, b);
    }
  }

  lemma RepeatedOrderIsSplit(closed: seq<Closed>, a: nat, b: nat)
    requires Runs(closed) && Contiguous(Flatten(closed)) && a < b < |closed|
    ensures !SameOrder(closed[a].fills[0], closed[b].fills[0])
  {
    if a + 1 < b {
      DistantTradesDiffer(closed, a, b);
    }
  }

  lemma {:induction false} DistantTradesDiffer(closed: seq<Closed>, a: nat, b: nat)
    requires Runs(closed) && Contiguous(Flatten(closed)) && a + 1 < b < |closed|
    ensures !SameOrder(closed[a].fills[0], closed[b].fills[0])
  {
    var fills, i, j, k := Flatten(closed), Offset(closed, a), Offset(closed, a + 1), Offset(closed, b);
    FirstOf(closed, a);
    FirstOf(closed, a + 1);
    FirstOf(closed, b);
    OffsetsGrow(closed, a, a + 1);
    OffsetsGrow(closed, a + 1, b);
    MiddleDecides(fills, i, j, k);
  }

  lemma MiddleDecides(fills: seq<Fill>, i: nat, j: nat, k: nat)
    requires Contiguous(fills) && i < j < k < |fills|
    ensures SameOrder(fills[i], fills[j]) || !SameOrder(fills[i], fills[k])
  {}
}
