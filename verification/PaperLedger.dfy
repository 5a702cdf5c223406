/** The paper account's average-cost books refine a plain cash ledger. */
module PaperLedger {
  import opened Common
  import opened PaperEngine
  import opened Sums

  // ----- runs -----

  datatype Event =
    | FillEvent(params: FillParams, now: real)
    | MarkEvent(prices: map<string, real>)
    | FundingEvent(rates: map<string, real>, now: real)
    | StopsEvent(symbol: string, strategy: string, stopLoss: real, takeProfit: Option<real>)

  datatype Account = Account(book: Book, lastPrices: map<string, real>)

  /** Orders ask for a positive quantity. */
  predicate Sensible(e: Event) {
    e.FillEvent? ==> e.params.qty > 0.0
  }

  function Step(a: Account, e: Event, costs: PaperCosts): (Account, Effect)
    requires Quantities(a.book.positions) && Sensible(e)
  {
    match e
    case FillEvent(params, now) =>
      var (_, book, effect) := Open(a.book, params, a.lastPrices, now, costs);
      (a.(book := book), effect)
    case MarkEvent(prices) =>
      var (book, effect) := MarkFrom(a.book, 0, prices, costs);
      (Account(book, a.lastPrices + prices), effect)
    case FundingEvent(rates, now) =>
      var (book, effect) := Accrue(a.book, rates, now);
      (a.(book := book), effect)
    case StopsEvent(symbol, strategy, stopLoss, takeProfit) =>
      (a.(book := WithStops(a.book, symbol, strategy, stopLoss, takeProfit)), NOTHING)
  }

  // ----- the plain ledger -----

  function CostOf(f: Fill): real {
    Notional(f.price, f.signedQty)
  }

  function FeeOf(f: Fill): real {
    f.fee
  }

  function QtyIn(symbol: string): Fill -> real {
    (f: Fill) => if f.symbol == symbol then f.signedQty else 0.0
  }

  function PnlOf(t: Trade): real {
    t.pnl
  }

  /** Cash paid for the fills: bought quantity costs, sold quantity pays. */
  function Spent(fills: seq<Fill>): real {
    Sum(fills, CostOf)
  }

  function FeesPaid(fills: seq<Fill>): real {
    Sum(fills, FeeOf)
  }

  /** The signed quantity of `symbol` the fills leave on the account. */
  function Held(fills: seq<Fill>, symbol: string): real {
    Sum(fills, QtyIn(symbol))
  }

  function TotalPnl(trades: seq<Trade>): real {
    Sum(trades, PnlOf)
  }

  /** The cash a set of operations moved, with no notion of entry, share or average. */
  function CashFlow(e: Effect): real {
    e.funding - Spent(e.fills) - FeesPaid(e.fills)
  }

  lemma BothAdds(e: Effect, f: Effect, symbol: string)
    ensures CashFlow(Both(e, f)) == CashFlow(e) + CashFlow(f)
    ensures Held(Both(e, f).fills, symbol) == Held(e.fills, symbol) + Held(f.fills, symbol)
    ensures TotalPnl(Both(e, f).booked) == TotalPnl(e.booked) + TotalPnl(f.booked)
  {
    SumConcat(e.fills, f.fills, CostOf);
    SumConcat(e.fills, f.fills, FeeOf);
    SumConcat(e.fills, f.fills, QtyIn(symbol));
    SumConcat(e.booked, f.booked, PnlOf);
  }

  // ----- what a position is worth without its mark -----

  /** The cash already sunk into a position: its cost, its open fee and its accrued funding. */
  function BookValue(p: Position): real {
    p.funding - p.openFee - Signed(p.side, Notional(p.entry, p.qty))
  }

  function SignedQty(p: Position): real {
    Signed(p.side, p.qty)
  }

  function Inventory(p: Position): real {
    Signed(p.side, Notional(p.mark, p.qty))
  }

  function HeldIn(symbol: string): Position -> real {
    (p: Position) => if p.symbol == symbol then SignedQty(p) else 0.0
  }

  function BookTotal(b: Book): real {
    b.wallet + Sum(b.positions, BookValue)
  }

  // ----- one position -----

  lemma NotionalMinus(a: real, b: real, q: real)
    ensures Notional(a - b, q) == Notional(a, q) - Notional(b, q)
  {}

  lemma NotionalSplit(a: real, p: real, q: real)
    ensures Notional(a, p - q) == Notional(a, p) - Notional(a, q)
    ensures Notional(a, p + q) == Notional(a, p) + Notional(a, q)
  {}

  lemma NotionalSigned(side: Side, a: real, q: real)
    ensures Notional(a, Signed(side, q)) == Signed(side, Notional(a, q))
    ensures Notional(a, -Signed(side, q)) == -Signed(side, Notional(a, q))
    ensures Notional(a, 0.0) == 0.0
  {}

  /** Closing a share moves exactly the fill's cash; the share's fee and funding only change hands. */
  lemma ReduceMovesCash(pos: Position, qty: real, rawPrice: real, reason: ExitReason, costs: PaperCosts)
    requires pos.qty > 0.0
    ensures
      var r := Reduce(pos, qty, rawPrice, reason, costs);
      BookValue(r.left) + r.trade.pnl == BookValue(pos) - Notional(r.fill.price, r.fill.signedQty) - r.fill.fee
  {
    var r := Reduce(pos, qty, rawPrice, reason, costs);
    var closed := Min(pos.qty, qty);
    NotionalMinus(r.fill.price, pos.entry, closed);
    NotionalSplit(pos.entry, pos.qty, closed);
    NotionalSigned(pos.side, r.fill.price, closed);
  }

  lemma WholeShare(q: real, x: real)
    requires q > 0.0
    ensures Part(x, q / q) == x
  {}

  /** A position closed out leaves nothing behind. */
  lemma ClosedOutIsEmpty(pos: Position, qty: real, rawPrice: real, reason: ExitReason, costs: PaperCosts)
    requires pos.qty > 0.0
    ensures
      var left := Reduce(pos, qty, rawPrice, reason, costs).left;
      left.qty <= 0.0 ==> left.qty == 0.0 && BookValue(left) == 0.0 && SignedQty(left) == 0.0
  {
    var left := Reduce(pos, qty, rawPrice, reason, costs).left;
    if left.qty <= 0.0 {
      assert Min(pos.qty, qty) == pos.qty;
      WholeShare(pos.qty, pos.openFee);
      WholeShare(pos.qty, pos.funding);
      NotionalSigned(pos.side, pos.entry, 0.0);
    }
  }

  lemma WeightedCost(a: real, qa: real, b: real, qb: real)
    requires qa > 0.0 && qb > 0.0
    ensures Notional(Weighted(a, qa, b, qb), qa + qb) == Notional(a, qa) + Notional(b, qb)
  {}

  /** Averaging in adds exactly the new fill's cost. */
  lemma ScaleInMovesCash(pos: Position, params: FillParams, price: real, now: real, costs: PaperCosts)
    requires pos.qty > 0.0 && params.qty > 0.0 && params.side == pos.side
    ensures
      var fill := EntryFill(params, price, costs);
      BookValue(ScaledIn(pos, params, price, now, costs)) == BookValue(pos) - Notional(price, fill.signedQty) - fill.fee
  {
    WeightedCost(pos.entry, pos.qty, price, params.qty);
    NotionalSigned(pos.side, price, params.qty);
  }

  lemma CreateMovesCash(params: FillParams, price: real, now: real, costs: PaperCosts)
    ensures
      var fill := EntryFill(params, price, costs);
      BookValue(Create(params, price, now, costs)) == -Notional(price, fill.signedQty) - fill.fee
  {
    NotionalSigned(params.side, price, params.qty);
  }

  // ----- one operation on the book -----

  /** The operation moved the books by exactly the ledger's cash flow, and journaled what it added to the wallet. */
  ghost predicate MovesCash(before: Book, after: Book, e: Effect) {
    && BookTotal(after) == BookTotal(before) + CashFlow(e)
    && after.wallet == before.wallet + TotalPnl(e.booked)
  }

  ghost predicate MovesQty(before: Book, after: Book, e: Effect, symbol: string) {
    Sum(after.positions, HeldIn(symbol)) == Sum(before.positions, HeldIn(symbol)) + Held(e.fills, symbol)
  }

  lemma OneFill(f: Fill, symbol: string)
    ensures Spent([f]) == Notional(f.price, f.signedQty) && FeesPaid([f]) == f.fee
    ensures Held([f], symbol) == if f.symbol == symbol then f.signedQty else 0.0
  {
    assert [] + [f] == [f];
    SumAppend([], f, CostOf);
    SumAppend([], f, FeeOf);
    SumAppend([], f, QtyIn(symbol));
  }

  lemma OneTrade(t: Trade)
    ensures TotalPnl([t]) == t.pnl
  {
    assert [] + [t] == [t];
    SumAppend([], t, PnlOf);
  }

  lemma ReduceAtMoves(b: Book, i: nat, qty: real, raw: real, reason: ExitReason, costs: PaperCosts, symbol: string)
    requires i < |b.positions| && b.positions[i].qty > 0.0
    ensures var (after, e) := ReduceAt(b, i, qty, raw, reason, costs);
            MovesCash(b, after, e) && MovesQty(b, after, e, symbol)
  {
    var pos := b.positions[i];
    var r := Reduce(pos, qty, raw, reason, costs);
    ReduceMovesCash(pos, qty, raw, reason, costs);
    ClosedOutIsEmpty(pos, qty, raw, reason, costs);
    OneFill(r.fill, symbol);
    OneTrade(r.trade);
    if r.left.qty <= 0.0 {
      SumRemove(b.positions, i, BookValue);
      SumRemove(b.positions, i, HeldIn(symbol));
    } else {
      SumReplace(b.positions, i, r.left, BookValue);
      SumReplace(b.positions, i, r.left, HeldIn(symbol));
    }
  }

  lemma PushNewMoves(b: Book, params: FillParams, raw: real, now: real, costs: PaperCosts, symbol: string)
    ensures var (after, e) := PushNew(b, params, raw, now, costs);
            MovesCash(b, after, e) && MovesQty(b, after, e, symbol)
  {
    var price := FillPrice(params.side, raw, true, costs);
    var pos := Create(params, price, now, costs);
    CreateMovesCash(params, price, now, costs);
    OneFill(EntryFill(params, price, costs), symbol);
    SumAppend(b.positions, pos, BookValue);
    SumAppend(b.positions, pos, HeldIn(symbol));
  }

  lemma ScaleAtMoves(b: Book, i: nat, params: FillParams, raw: real, now: real, costs: PaperCosts, symbol: string)
    requires i < |b.positions| && b.positions[i].qty > 0.0 && params.qty > 0.0
    requires b.positions[i].symbol == params.symbol && b.positions[i].side == params.side
    ensures var (after, e) := ScaleAt(b, i, params, raw, now, costs);
            MovesCash(b, after, e) && MovesQty(b, after, e, symbol)
  {
    var price := FillPrice(params.side, raw, true, costs);
    var pos := ScaledIn(b.positions[i], params, price, now, costs);
    ScaleInMovesCash(b.positions[i], params, price, now, costs);
    OneFill(EntryFill(params, price, costs), symbol);
    SumReplace(b.positions, i, pos, BookValue);
    SumReplace(b.positions, i, pos, HeldIn(symbol));
  }

  /** Two operations in a row move what each of them moves. */
  lemma Sequenced(a: Book, b: Book, c: Book, e: Effect, f: Effect, symbol: string)
    requires MovesCash(a, b, e) && MovesQty(a, b, e, symbol) && MovesCash(b, c, f) && MovesQty(b, c, f, symbol)
    ensures MovesCash(a, c, Both(e, f)) && MovesQty(a, c, Both(e, f), symbol)
  {
    BothAdds(e, f, symbol);
  }

  lemma FlipAtMoves(b: Book, i: nat, params: FillParams, raw: real, now: real, costs: PaperCosts, symbol: string)
    requires i < |b.positions| && b.positions[i].qty > 0.0
    ensures var (after, e) := FlipAt(b, i, params, raw, now, costs);
            MovesCash(b, after, e) && MovesQty(b, after, e, symbol)
  {
    var (closed, exit) := ReduceAt(b, i, b.positions[i].qty, raw, Flip, costs);
    var (flipped, entry) := PushNew(closed, params, raw, now, costs);
    ReduceAtMoves(b, i, b.positions[i].qty, raw, Flip, costs, symbol);
    PushNewMoves(closed, params, raw, now, costs, symbol);
    Sequenced(b, closed, flipped, exit, entry, symbol);
    assert FlipAt(b, i, params, raw, now, costs).1 == Both(exit, entry);
  }

  lemma NothingMoves(b: Book, symbol: string)
    ensures MovesCash(b, b, NOTHING) && MovesQty(b, b, NOTHING, symbol)
  {}

  lemma OpenMoves(b: Book, params: FillParams, lastPrices: map<string, real>, now: real, costs: PaperCosts,
                  symbol: string)
    requires Quantities(b.positions) && params.qty > 0.0
    ensures var (_, after, e) := Open(b, params, lastPrices, now, costs);
            MovesCash(b, after, e) && MovesQty(b, after, e, symbol)
  {
    NothingMoves(b, symbol);
    var found := Find(b.positions, params.symbol, params.strategy);
    var price := PriceFor(b, params, lastPrices);
    if price.Some? {
      if params.reduceOnly {
        if found.Some? {
          var reason := if params.exitReason.Some? then params.exitReason.value else Close;
          ReduceAtMoves(b, found.value, params.qty, price.value, reason, costs, symbol);
        }
      } else if found.None? {
        PushNewMoves(b, params, price.value, now, costs, symbol);
      } else if b.positions[found.value].side == params.side {
        ScaleAtMoves(b, found.value, params, price.value, now, costs, symbol);
      } else {
        FlipAtMoves(b, found.value, params, price.value, now, costs, symbol);
      }
    }
  }

  lemma ReplaceMovesNothing(b: Book, i: nat, pos: Position, symbol: string)
    requires i < |b.positions| && BookValue(pos) == BookValue(b.positions[i])
    requires SignedQty(pos) == SignedQty(b.positions[i]) && pos.symbol == b.positions[i].symbol
    ensures MovesCash(b, b.(positions := b.positions[i := pos]), NOTHING)
    ensures MovesQty(b, b.(positions := b.positions[i := pos]), NOTHING, symbol)
  {
    SumReplace(b.positions, i, pos, BookValue);
    SumReplace(b.positions, i, pos, HeldIn(symbol));
  }

  lemma MarkAtMoves(b: Book, i: nat, prices: map<string, real>, costs: PaperCosts, symbol: string)
    requires i < |b.positions| && b.positions[i].qty > 0.0
    ensures var (after, e) := MarkAt(b, i, prices, costs); MovesCash(b, after, e) && MovesQty(b, after, e, symbol)
  {
    NothingMoves(b, symbol);
    var pos := b.positions[i];
    if pos.symbol in prices && prices[pos.symbol] != 0.0 {
      var marked := pos.(mark := prices[pos.symbol]);
      var exit := FindExit(marked);
      if exit.None? {
        ReplaceMovesNothing(b, i, Refreshed(marked), symbol);
      } else {
        var touched := b.(positions := b.positions[i := marked]);
        ReplaceMovesNothing(b, i, marked, symbol);
        var (after, e) := ReduceAt(touched, i, marked.qty, exit.value.0, exit.value.1, costs);
        ReduceAtMoves(touched, i, marked.qty, exit.value.0, exit.value.1, costs, symbol);
        NothingThen(b, touched, after, e, symbol);
      }
    }
  }

  lemma NothingThen(a: Book, b: Book, c: Book, e: Effect, symbol: string)
    requires MovesCash(a, b, NOTHING) && MovesQty(a, b, NOTHING, symbol) && MovesCash(b, c, e)
             && MovesQty(b, c, e, symbol)
    ensures MovesCash(a, c, e) && MovesQty(a, c, e, symbol)
  {}

  lemma {:induction false} MarkFromMoves(b: Book, i: nat, prices: map<string, real>, costs: PaperCosts, symbol: string)
    requires Quantities(b.positions) && i <= |b.positions|
    ensures var (after, e) := MarkFrom(b, i, prices, costs); MovesCash(b, after, e) && MovesQty(b, after, e, symbol)
    decreases |b.positions| - i
  {
    NothingMoves(b, symbol);
    if i < |b.positions| {
      MarkAtKeepsQuantities(b, i, prices, costs);
      MarkAtMoves(b, i, prices, costs, symbol);
      var (marked, e) := MarkAt(b, i, prices, costs);
      var next := if |marked.positions| < |b.positions| then i else i + 1;
      MarkFromMoves(marked, next, prices, costs, symbol);
      var (rest, f) := MarkFrom(marked, next, prices, costs);
      Sequenced(b, marked, rest, e, f, symbol);
    }
  }

  lemma {:induction false} ChargedSums(ps: seq<Position>, rates: map<string, real>, clock: int, slot: int,
                                       symbol: string)
    ensures Sum(ChargedAll(ps, rates, clock, slot), BookValue) ==
            Sum(ps, BookValue) + TotalCharge(ps, rates, clock, slot)
    ensures Sum(ChargedAll(ps, rates, clock, slot), HeldIn(symbol)) == Sum(ps, HeldIn(symbol))
  {
    if ps != [] {
      var n := |ps| - 1;
      assert ChargedAll(ps, rates, clock, slot)[..n] == ChargedAll(ps[..n], rates, clock, slot);
      ChargedSums(ps[..n], rates, clock, slot, symbol);
    }
  }

  lemma AccrueMoves(b: Book, rates: map<string, real>, now: real, symbol: string)
    ensures var (after, e) := Accrue(b, rates, now); MovesCash(b, after, e) && MovesQty(b, after, e, symbol)
  {
    NothingMoves(b, symbol);
    ChargedSums(b.positions, rates, b.clock, SlotOf(now), symbol);
  }

  lemma StopsMove(b: Book, id: string, strategy: string, stopLoss: real, takeProfit: Option<real>, symbol: string)
    ensures MovesCash(b, WithStops(b, id, strategy, stopLoss, takeProfit), NOTHING)
    ensures MovesQty(b, WithStops(b, id, strategy, stopLoss, takeProfit), NOTHING, symbol)
  {
    NothingMoves(b, symbol);
    var found := Find(b.positions, id, strategy);
    if found.Some? {
      ReplaceMovesNothing(b, found.value,
                          b.positions[found.value].(stopLoss := Some(stopLoss), takeProfit := takeProfit), symbol);
    }
  }

  /** Every operation, whatever it is, moves the books by the plain ledger's cash and quantity. */
  lemma StepMoves(a: Account, e: Event, costs: PaperCosts, symbol: string)
    requires Quantities(a.book.positions) && Sensible(e)
    ensures var (after, f) := Step(a, e, costs);
            MovesCash(a.book, after.book, f) && MovesQty(a.book, after.book, f, symbol)
  {
    match e
    case FillEvent(params, now) => OpenMoves(a.book, params, a.lastPrices, now, costs, symbol);
    case MarkEvent(prices) => MarkFromMoves(a.book, 0, prices, costs, symbol);
    case FundingEvent(rates, now) => AccrueMoves(a.book, rates, now, symbol);
    case StopsEvent(id, strategy, stopLoss, takeProfit) => StopsMove(a.book, id, strategy, stopLoss, takeProfit,
                                                                     symbol);
  }

  // ----- what every operation keeps -----

  /** Something left to close, and an unrealized result in step with the mark. */
  ghost predicate Kept(p: Position) {
    p.qty > 0.0 && p.upnl == Upnl(p)
  }

  ghost predicate OnePerSymbol(ps: seq<Position>) {
    forall i, j :: 0 <= i < j < |ps| ==> ps[i].symbol != ps[j].symbol
  }

  ghost predicate InOrder(ps: seq<Position>) {
    (forall k :: 0 <= k < |ps| ==> Kept(ps[k])) && OnePerSymbol(ps)
  }

  lemma ReduceAtKeeps(b: Book, i: nat, qty: real, raw: real, reason: ExitReason, costs: PaperCosts)
    requires InOrder(b.positions) && i < |b.positions|
    ensures InOrder(ReduceAt(b, i, qty, raw, reason, costs).0.positions)
  {
    var left := Reduce(b.positions[i], qty, raw, reason, costs).left;
    assert left.symbol == b.positions[i].symbol && left.upnl == Upnl(left);
  }

  /** Reducing a position by all it has removes it. */
  lemma FullReduceRemoves(b: Book, i: nat, raw: real, reason: ExitReason, costs: PaperCosts)
    requires i < |b.positions| && b.positions[i].qty > 0.0
    ensures ReduceAt(b, i, b.positions[i].qty, raw, reason, costs).0.positions == Remove(b.positions, i)
  {}

  lemma PushNewKeeps(b: Book, params: FillParams, raw: real, now: real, costs: PaperCosts)
    requires InOrder(b.positions) && params.qty > 0.0
    requires forall k :: 0 <= k < |b.positions| ==> b.positions[k].symbol != params.symbol
    ensures InOrder(PushNew(b, params, raw, now, costs).0.positions)
  {
    var pos := Create(params, FillPrice(params.side, raw, true, costs), now, costs);
    assert pos.symbol == params.symbol && Kept(pos);
  }

  lemma ReplaceKeeps(ps: seq<Position>, i: nat, pos: Position)
    requires InOrder(ps) && i < |ps| && Kept(pos) && pos.symbol == ps[i].symbol
    ensures InOrder(ps[i := pos])
  {}

  lemma RemoveKeeps(ps: seq<Position>, i: nat)
    requires InOrder(ps) && i < |ps|
    ensures InOrder(Remove(ps, i))
    ensures forall k :: 0 <= k < |ps| - 1 ==> Remove(ps, i)[k].symbol != ps[i].symbol
  {}

  lemma FlipAtKeeps(b: Book, i: nat, params: FillParams, raw: real, now: real, costs: PaperCosts)
    requires InOrder(b.positions) && i < |b.positions| && b.positions[i].symbol == params.symbol && params.qty > 0.0
    ensures InOrder(FlipAt(b, i, params, raw, now, costs).0.positions)
  {
    FullReduceRemoves(b, i, raw, Flip, costs);
    RemoveKeeps(b.positions, i);
    PushNewKeeps(ReduceAt(b, i, b.positions[i].qty, raw, Flip, costs).0, params, raw, now, costs);
  }

  lemma OpenKeeps(b: Book, params: FillParams, lastPrices: map<string, real>, now: real, costs: PaperCosts)
    requires InOrder(b.positions) && params.qty > 0.0
    ensures InOrder(Open(b, params, lastPrices, now, costs).1.positions)
  {
    var found := Find(b.positions, params.symbol, params.strategy);
    var price := PriceFor(b, params, lastPrices);
    if price.Some? {
      if params.reduceOnly {
        if found.Some? {
          ReduceAtKeeps(b, found.value, params.qty, price.value,
                        if params.exitReason.Some? then params.exitReason.value else Close, costs);
        }
      } else if HeldByOther(b.positions, params.symbol, params.strategy) {
      } else if found.None? {
        PushNewKeeps(b, params, price.value, now, costs);
      } else if b.positions[found.value].side == params.side {
        var entry := FillPrice(params.side, price.value, true, costs);
        ReplaceKeeps(b.positions, found.value, ScaledIn(b.positions[found.value], params, entry, now, costs));
      } else {
        FlipAtKeeps(b, found.value, params, price.value, now, costs);
      }
    }
  }

  lemma MarkAtKeeps(b: Book, i: nat, prices: map<string, real>, costs: PaperCosts)
    requires InOrder(b.positions) && i < |b.positions|
    ensures InOrder(MarkAt(b, i, prices, costs).0.positions)
  {
    var pos := b.positions[i];
    if pos.symbol in prices && prices[pos.symbol] != 0.0 {
      var marked := pos.(mark := prices[pos.symbol]);
      var exit := FindExit(marked);
      if exit.None? {
        ReplaceKeeps(b.positions, i, Refreshed(marked));
      } else {
        FullReduceRemoves(b.(positions := b.positions[i := marked]), i, exit.value.0, exit.value.1, costs);
        assert Remove(b.positions[i := marked], i) == Remove(b.positions, i);
        RemoveKeeps(b.positions, i);
      }
    }
  }

  lemma {:induction false} MarkFromKeeps(b: Book, i: nat, prices: map<string, real>, costs: PaperCosts)
    requires InOrder(b.positions) && i <= |b.positions|
    ensures InOrder(MarkFrom(b, i, prices, costs).0.positions)
    decreases |b.positions| - i
  {
    if i < |b.positions| {
      MarkAtKeepsQuantities(b, i, prices, costs);
      MarkAtKeeps(b, i, prices, costs);
      var marked := MarkAt(b, i, prices, costs).0;
      MarkFromKeeps(marked, if |marked.positions| < |b.positions| then i else i + 1, prices, costs);
    }
  }

  lemma ChargedKeeps(ps: seq<Position>, rates: map<string, real>, clock: int, slot: int)
    requires InOrder(ps)
    ensures InOrder(ChargedAll(ps, rates, clock, slot))
  {
    forall k | 0 <= k < |ps|
      ensures Kept(Charged(ps[k], rates, clock, slot)) && Charged(ps[k], rates, clock, slot).symbol == ps[k].symbol
    {
      assert Kept(ps[k]);
    }
  }

  lemma StepKeepsOrder(a: Account, e: Event, costs: PaperCosts)
    requires InOrder(a.book.positions) && Sensible(e)
    ensures InOrder(Step(a, e, costs).0.book.positions)
  {
    match e
    case FillEvent(params, now) => OpenKeeps(a.book, params, a.lastPrices, now, costs);
    case MarkEvent(prices) => MarkFromKeeps(a.book, 0, prices, costs);
    case FundingEvent(rates, now) => ChargedKeeps(a.book.positions, rates, a.book.clock, SlotOf(now));
    case StopsEvent(symbol, strategy, stopLoss, takeProfit) =>
      var found := Find(a.book.positions, symbol, strategy);
      if found.Some? {
        var pos := a.book.positions[found.value].(stopLoss := Some(stopLoss), takeProfit := takeProfit);
        assert Kept(a.book.positions[found.value]) && Kept(pos);
        ReplaceKeeps(a.book.positions, found.value, pos);
      }
  }

  // ----- whole runs -----

  ghost predicate AllSensible(events: seq<Event>) {
    forall k :: 0 <= k < |events| ==> Sensible(events[k])
  }

  function Opening(initial: real): Account {
    Account(Book([], initial, [], UNSET), map[])
  }

  /** The account after a run from `start`, with everything the run did. */
  ghost function Run(start: Account, events: seq<Event>, costs: PaperCosts): (r: (Account, Effect))
    requires InOrder(start.book.positions) && AllSensible(events)
    ensures InOrder(r.0.book.positions)
    decreases |events|
  {
    if events == [] then (start, NOTHING)
    else
      var n := |events| - 1;
      var (a, done) := Run(start, events[..n], costs);
      assert Sensible(events[n]);
      StepKeepsOrder(a, events[n], costs);
      var (next, e) := Step(a, events[n], costs);
      (next, Both(done, e))
  }

  lemma {:induction false} RunMoves(start: Account, events: seq<Event>, costs: PaperCosts, symbol: string)
    requires InOrder(start.book.positions) && AllSensible(events)
    ensures
      var (a, done) := Run(start, events, costs);
      MovesCash(start.book, a.book, done) && MovesQty(start.book, a.book, done, symbol)
    decreases |events|
  {
    if events == [] {
      NothingMoves(start.book, symbol);
    } else {
      var n := |events| - 1;
      RunMoves(start, events[..n], costs, symbol);
      var (a, done) := Run(start, events[..n], costs);
      assert Sensible(events[n]);
      var (next, e) := Step(a, events[n], costs);
      StepMoves(a, events[n], costs, symbol);
      Sequenced(start.book, a.book, next.book, done, e, symbol);
    }
  }

  lemma UpnlSplits(p: Position)
    requires Kept(p)
    ensures p.upnl == BookValue(p) + Inventory(p)
  {
    NotionalMinus(p.mark, p.entry, p.qty);
  }

  lemma {:induction false} UpnlSumSplits(ps: seq<Position>)
    requires forall k :: 0 <= k < |ps| ==> Kept(ps[k])
    ensures TotalUpnl(ps) == Sum(ps, BookValue) + Sum(ps, Inventory)
  {
    if ps != [] {
      UpnlSumSplits(ps[..|ps| - 1]);
      UpnlSplits(ps[|ps| - 1]);
    }
  }

  /**
   * Main result: over any run of opens, scale-ins, flips, partial and full reduces, marks and
   * funding, the average-cost equity is the plain ledger's cash (initial, less what the fills cost
   * and their fees, plus funding) plus the inventory at its marks.
   */
  lemma EquityIsCashPlusInventory(initial: real, events: seq<Event>, costs: PaperCosts)
    requires AllSensible(events)
    ensures
      var (a, done) := Run(Opening(initial), events, costs);
      EquityOf(a.book) == initial - Spent(done.fills) - FeesPaid(done.fills) + done.funding
        + Sum(a.book.positions, Inventory)
  {
    RunMoves(Opening(initial), events, costs, "");
    UpnlSumSplits(Run(Opening(initial), events, costs).0.book.positions);
  }

  lemma {:induction false} HeldElsewhere(ps: seq<Position>, symbol: string)
    requires forall k :: 0 <= k < |ps| ==> ps[k].symbol != symbol
    ensures Sum(ps, HeldIn(symbol)) == 0.0
  {
    if ps != [] {
      HeldElsewhere(ps[..|ps| - 1], symbol);
    }
  }

  lemma HeldAt(ps: seq<Position>, i: nat)
    requires OnePerSymbol(ps) && i < |ps|
    ensures Sum(ps, HeldIn(ps[i].symbol)) == SignedQty(ps[i])
  {
    var symbol := ps[i].symbol;
    SumRemove(ps, i, HeldIn(symbol));
    HeldElsewhere(Remove(ps, i), symbol);
  }

  /**
   * Main result: the book holds at most one position per symbol, and it is exactly the net of the
   * symbol's fills: a symbol without a position nets to nothing.
   */
  lemma PositionsAreNetFills(initial: real, events: seq<Event>, costs: PaperCosts, symbol: string)
    requires AllSensible(events)
    ensures
      var (a, done) := Run(Opening(initial), events, costs);
      var ps := a.book.positions;
      && OnePerSymbol(ps)
      && (forall i :: 0 <= i < |ps| && ps[i].symbol == symbol ==>
          SignedQty(ps[i]) == Held(done.fills, symbol) && ps[i].qty > 0.0)
      && ((forall i :: 0 <= i < |ps| ==> ps[i].symbol != symbol) ==> Held(done.fills, symbol) == 0.0)
  {
    RunMoves(Opening(initial), events, costs, symbol);
    var (a, done) := Run(Opening(initial), events, costs);
    var ps := a.book.positions;
    assert Sum([], HeldIn(symbol)) == 0.0;
    assert Held(done.fills, symbol) == Sum(ps, HeldIn(symbol));
    forall i | 0 <= i < |ps| && ps[i].symbol == symbol
      ensures SignedQty(ps[i]) == Held(done.fills, symbol) && ps[i].qty > 0.0
    {
      HeldAt(ps, i);
      assert Kept(ps[i]);
    }
    if forall i :: 0 <= i < |ps| ==> ps[i].symbol != symbol {
      HeldElsewhere(ps, symbol);
    }
  }

  /** Main result: the wallet is the starting cash plus every journaled trade's PnL. */
  lemma WalletIsJournal(initial: real, events: seq<Event>, costs: PaperCosts)
    requires AllSensible(events)
    ensures var (a, done) := Run(Opening(initial), events, costs); a.book.wallet == initial + TotalPnl(done.booked)
  {
    RunMoves(Opening(initial), events, costs, "");
  }
}
