/** The replay portfolio's average-cost book, read as a plain ledger of cash and signed inventory. */
module PortfolioLedger {
  import opened Common
  import opened ExecutionSimulator
  import opened PortfolioSimulator
  import opened Sums

  /** Bought quantity counts for a long and against a short. */
  function Signed(side: Side, qty: real): real {
    if side.Long? then qty else -qty
  }

  function QtyIn(symbol: string): SimPosition -> real {
    (p: SimPosition) => if p.symbol == symbol then Signed(p.side, p.qty) else 0.0
  }

  function CostOf(p: SimPosition): real {
    Times(p.entry, Signed(p.side, p.qty))
  }

  function ValueOf(p: SimPosition): real {
    Times(p.mark, Signed(p.side, p.qty))
  }

  /** The marked value of the positions of one symbol on one side. */
  function ValueOn(symbol: string, side: Side): SimPosition -> real {
    (p: SimPosition) => if p.symbol == symbol && p.side == side then Times(p.mark, p.qty) else 0.0
  }

  /** The wallet with what the open inventory cost taken out: the cash the trades left. */
  function Cash(b: Book): real {
    b.realized - Sum(b.positions, CostOf)
  }

  function Held(b: Book, symbol: string): real {
    Sum(b.positions, QtyIn(symbol))
  }

  function Longs(b: Book, symbol: string): real {
    Sum(b.positions, ValueOn(symbol, Long))
  }

  function Shorts(b: Book, symbol: string): real {
    Sum(b.positions, ValueOn(symbol, Short))
  }

  /** Equity is the starting equity, the cash the trades left and the inventory at its marks. */
  lemma EquityIsCashPlusInventory(b: Book, initialEquity: real)
    ensures Equity(b, initialEquity) == initialEquity + Cash(b) + Sum(b.positions, ValueOf)
  {
    UnrealizedIsValueLessCost(b.positions);
  }

  lemma {:induction false} UnrealizedIsValueLessCost(ps: seq<SimPosition>)
    ensures Sum(ps, UnrealizedOf) == Sum(ps, ValueOf) - Sum(ps, CostOf)
  {
    if ps != [] {
      UnrealizedIsValueLessCost(ps[..|ps| - 1]);
    }
  }

  // ----- trades -----

  /** The trade of a signed quantity at a price with a fee, on the book's cash and inventory. */
  ghost predicate Trades(b: Book, after: Book, symbol: string, bought: real, price: real, fee: real) {
    && Cash(after) == Cash(b) - Times(price, bought) - fee
    && forall s :: Held(after, s) == Held(b, s) + if s == symbol then bought else 0.0
  }

  lemma OpeningTrades(b: Book, r: OpenRequest)
    ensures Trades(b, Opened(b, r), r.symbol, Signed(r.side, r.qty), r.fillPrice, r.fee)
  {
    var p := NewPosition(r, b.counter);
    AppendedHolds(b.positions, p);
    assert CostOf(p) == Times(r.fillPrice, Signed(r.side, r.qty));
    forall s ensures Held(Opened(b, r), s) == Held(b, s) + QtyIn(s)(p) {
      assert Opened(b, r).positions == b.positions + [p];
    }
  }

  lemma AppendedHolds(ps: seq<SimPosition>, p: SimPosition)
    ensures Sum(ps + [p], CostOf) == Sum(ps, CostOf) + CostOf(p)
    ensures forall s :: Sum(ps + [p], QtyIn(s)) == Sum(ps, QtyIn(s)) + QtyIn(s)(p)
  {
    SumAppend(ps, p, CostOf);
    forall s ensures Sum(ps + [p], QtyIn(s)) == Sum(ps, QtyIn(s)) + QtyIn(s)(p) {
      SumAppend(ps, p, QtyIn(s));
    }
  }

  lemma ReplacedHolds(ps: seq<SimPosition>, i: nat, p: SimPosition)
    requires i < |ps|
    ensures Sum(ps[i := p], CostOf) == Sum(ps, CostOf) - CostOf(ps[i]) + CostOf(p)
    ensures forall s :: Sum(ps[i := p], QtyIn(s)) == Sum(ps, QtyIn(s)) - QtyIn(s)(ps[i]) + QtyIn(s)(p)
  {
    SumReplace(ps, i, p, CostOf);
    forall s ensures Sum(ps[i := p], QtyIn(s)) == Sum(ps, QtyIn(s)) - QtyIn(s)(ps[i]) + QtyIn(s)(p) {
      SumReplace(ps, i, p, QtyIn(s));
    }
  }

  lemma RemovedHolds(ps: seq<SimPosition>, i: nat)
    requires i < |ps|
    ensures Sum(Remove(ps, i), CostOf) == Sum(ps, CostOf) - CostOf(ps[i])
    ensures forall s :: Sum(Remove(ps, i), QtyIn(s)) == Sum(ps, QtyIn(s)) - QtyIn(s)(ps[i])
  {
    SumRemove(ps, i, CostOf);
    forall s ensures Sum(Remove(ps, i), QtyIn(s)) == Sum(ps, QtyIn(s)) - QtyIn(s)(ps[i]) {
      SumRemove(ps, i, QtyIn(s));
    }
  }

  /** What a price move earns on a quantity is what it sells for less what it cost. */
  lemma GrossIsSaleLessCost(side: Side, entry: real, exit: real, qty: real)
    ensures Gross(side, entry, exit, qty) == Times(exit, Signed(side, qty)) - Times(entry, Signed(side, qty))
  {}

  lemma CostSplits(price: real, side: Side, a: real, b: real)
    ensures Times(price, Signed(side, a - b)) == Times(price, Signed(side, a)) - Times(price, Signed(side, b))
    ensures Times(price, -Signed(side, b)) == -Times(price, Signed(side, b))
  {}

  /** Adding to a position of the order's side and symbol. */
  lemma ScalingTrades(b: Book, i: nat, r: OpenRequest)
    requires i < |b.positions| && b.positions[i].symbol == r.symbol && b.positions[i].side == r.side
    requires b.positions[i].qty + r.qty != 0.0
    ensures Trades(b, ScaledAt(b, i, r), r.symbol, Signed(r.side, r.qty), r.fillPrice, r.fee)
  {
    var pos := b.positions[i];
    var scaled := ScaledIn(pos, r);
    ReplacedHolds(b.positions, i, scaled);
    WeightedKeepsCost(pos.entry, pos.qty, r.fillPrice, r.qty);
  }

  lemma WeightedKeepsCost(a: real, qa: real, b: real, qb: real)
    requires qa + qb != 0.0
    ensures Times(Weighted(a, qa, b, qb), qa + qb) == Times(a, qa) + Times(b, qb)
  {}

  /** A partial exit sells part of a long, or buys back part of a short, at the quoted price. */
  lemma ReducingTrades(b: Book, i: nat, qty: real, price: real, closedAt: int, c: Costs)
    requires i < |b.positions|
    ensures
      var pos, quote := b.positions[i], ExitQuote(b.positions[i].side, price, qty, c);
      Trades(b, ReducedAt(b, i, qty, price, closedAt, c), pos.symbol, -Signed(pos.side, qty), quote.price, quote.fee)
  {
    var pos, quote := b.positions[i], ExitQuote(b.positions[i].side, price, qty, c);
    ReplacedHolds(b.positions, i, pos.(qty := pos.qty - qty));
    CostSplits(pos.entry, pos.side, pos.qty, qty);
    CostSplits(quote.price, pos.side, pos.qty, qty);
    GrossIsSaleLessCost(pos.side, pos.entry, quote.price, qty);
  }

  /** The final exit trades the whole quantity away. */
  lemma ClosingTrades(b: Book, i: nat, price: real, reason: ExitReason, closedAt: int, c: Costs)
    requires i < |b.positions|
    ensures
      var pos, quote := b.positions[i], ExitQuote(b.positions[i].side, price, b.positions[i].qty, c);
      Trades(b, ClosedAt(b, i, price, reason, closedAt, c), pos.symbol, -Signed(pos.side, pos.qty), quote.price,
             quote.fee)
  {
    var pos, quote := b.positions[i], ExitQuote(b.positions[i].side, price, b.positions[i].qty, c);
    RemovedHolds(b.positions, i);
    CostSplits(quote.price, pos.side, pos.qty, pos.qty);
    GrossIsSaleLessCost(pos.side, pos.entry, quote.price, pos.qty);
  }

  // ----- funding -----

  /**
   * Settling a boundary of one symbol moves the wallet by minus the rate times the symbol's signed inventory at its
   * marks, books the same amount on the symbol's positions, and leaves every other position alone.
   */
  lemma SettlingPays(b: Book, symbol: string, rate: real)
    ensures
      var after := FundedTo(b, |b.positions|, symbol, rate);
      && after.realized == b.realized - Times(rate, Longs(b, symbol) - Shorts(b, symbol))
      && after.counter == b.counter && after.trades == b.trades
      && forall k :: 0 <= k < |b.positions| ==>
           var p, q := b.positions[k], after.positions[k];
           && q == p.(funding := q.funding)
           && q.funding - p.funding == if p.symbol == symbol then -Times(rate, ValueOf(p)) else 0.0
  {
    SettlingBooks(b, |b.positions|, symbol, rate);
    SettlingMoves(b, |b.positions|, symbol, rate);
    assert b.positions[..|b.positions|] == b.positions;
  }

  lemma {:induction false} SettlingBooks(b: Book, n: nat, symbol: string, rate: real)
    requires n <= |b.positions|
    ensures FundedTo(b, n, symbol, rate).counter == b.counter && FundedTo(b, n, symbol, rate).trades == b.trades
    ensures
      forall k :: 0 <= k < |b.positions| ==>
        var p, q := b.positions[k], FundedTo(b, n, symbol, rate).positions[k];
        && q == p.(funding := q.funding)
        && q.funding - p.funding == if p.symbol == symbol && k < n then -Times(rate, ValueOf(p)) else 0.0
  {
    if n > 0 {
      SettlingBooks(b, n - 1, symbol, rate);
      PaymentIsOnValue(FundedTo(b, n - 1, symbol, rate).positions[n - 1], rate);
    }
  }

  lemma {:induction false} SettlingMoves(b: Book, n: nat, symbol: string, rate: real)
    requires n <= |b.positions|
    ensures
      var ps := b.positions[..n];
      FundedTo(b, n, symbol, rate).realized ==
      b.realized - Times(rate, Sum(ps, ValueOn(symbol, Long)) - Sum(ps, ValueOn(symbol, Short)))
  {
    if n > 0 {
      SettlingMoves(b, n - 1, symbol, rate);
      SettlingOneMoves(b, n, symbol, rate);
      var p, ps := b.positions[n - 1], b.positions[..n - 1];
      assert b.positions[..n] == ps + [p];
      SumAppend(ps, p, ValueOn(symbol, Long));
      SumAppend(ps, p, ValueOn(symbol, Short));
      PaymentsAdd(rate, Sum(ps, ValueOn(symbol, Long)), Sum(ps, ValueOn(symbol, Short)), ValueOn(symbol, Long)(p),
                  ValueOn(symbol, Short)(p));
    }
  }

  lemma SettlingOneMoves(b: Book, n: nat, symbol: string, rate: real)
    requires 0 < n <= |b.positions|
    ensures
      var p := b.positions[n - 1];
      FundedTo(b, n, symbol, rate).realized ==
      FundedTo(b, n - 1, symbol, rate).realized - Times(rate, ValueOn(symbol, Long)(p) - ValueOn(symbol, Short)(p))
  {
    SettlingBooks(b, n - 1, symbol, rate);
    var p, q := b.positions[n - 1], FundedTo(b, n - 1, symbol, rate).positions[n - 1];
    assert q == p.(funding := q.funding);
    PaymentIsOnValue(q, rate);
    if p.symbol != symbol {
      assert ValueOn(symbol, Long)(p) == ValueOn(symbol, Short)(p) == 0.0;
      assert Times(rate, 0.0) == 0.0;
    }
  }

  lemma PaymentIsOnValue(p: SimPosition, rate: real)
    ensures Payment(p, rate) == -Times(rate, ValueOf(p))
    ensures ValueOf(p) == ValueOn(p.symbol, Long)(p) - ValueOn(p.symbol, Short)(p)
  {}

  lemma PaymentsAdd(rate: real, longs: real, shorts: real, long: real, short: real)
    ensures Times(rate, (longs + long) - (shorts + short)) == Times(rate, longs - shorts) + Times(rate, long - short)
  {}

  /**
   * At a positive rate the wallet loses exactly when the symbol's longs outweigh its shorts, and a matched long and
   * short net to nothing; a negative rate turns the payment round.
   */
  lemma LongsPayShorts(b: Book, symbol: string, rate: real)
    ensures
      var after, longs, shorts := FundedTo(b, |b.positions|, symbol, rate), Longs(b, symbol), Shorts(b, symbol);
      && (rate > 0.0 ==> (after.realized < b.realized <==> longs > shorts))
      && (rate < 0.0 ==> (after.realized < b.realized <==> longs < shorts))
      && (rate == 0.0 || longs == shorts ==> after.realized == b.realized)
  {
    SettlingPays(b, symbol, rate);
    SignOfTimes(rate, Longs(b, symbol) - Shorts(b, symbol));
  }

  lemma SignOfTimes(rate: real, value: real)
    ensures rate > 0.0 ==> (Times(rate, value) > 0.0 <==> value > 0.0)
    ensures rate < 0.0 ==> (Times(rate, value) > 0.0 <==> value < 0.0)
    ensures rate == 0.0 || value == 0.0 ==> Times(rate, value) == 0.0
  {}
}
