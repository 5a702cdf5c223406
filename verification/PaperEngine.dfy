/** The paper account: src/binance/paperEngine.ts with the stop rules of src/binance/stopRules.ts. */
module PaperEngine {
  import opened Common
  import opened Sums

  const MAX_TRADES: nat := 1000
  const MAINTENANCE_MARGIN_RATE: real := 0.005
  const FUNDING_INTERVAL_MS: int := 28_800_000
  /** The funding clock before the first call sets it. */
  const UNSET: int := -1

  type Leverage = x: real | x > 0.0 witness 1.0

  datatype PaperCosts = PaperCosts(takerFeeRate: real, slippageRate: real)

  datatype ExitReason = Close | Flip | PartialTp | StopLoss | TakeProfit | Liquidation

  /** `openedAt` is epoch milliseconds, quantity-weighted across scale-ins; positions of an old save may lack it. */
  datatype Position = Position(
    symbol: string, strategy: string, side: Side, entry: real, qty: real, mark: real, openFee: real, funding: real,
    openedAt: Option<real>, upnl: real, leverage: Leverage, stopLoss: Option<real>, takeProfit: Option<real>,
    initialRisk: Option<real>)

  datatype Trade = Trade(symbol: string, strategy: string, side: Side, entry: real, exit: real, qty: real, pnl: real,
                         reason: ExitReason)

  datatype FillParams = FillParams(
    symbol: string, side: Side, qty: real, leverage: Leverage, strategy: string, stopLoss: Option<real>,
    takeProfit: Option<real>, reduceOnly: bool, exitReason: Option<ExitReason>, entryPrice: Option<real>)

  /** What the account actually did at a price: a signed quantity, positive when bought. */
  datatype Fill = Fill(symbol: string, signedQty: real, price: real, fee: real)

  datatype Outcome = Filled | NoPrice | OwnedByOther

  // ----- arithmetic of a position -----

  function Notional(price: real, qty: real): real {
    price * qty
  }

  function Fee(notional: real, costs: PaperCosts): real {
    notional * costs.takerFeeRate
  }

  /** The part of `amount` that goes with a share of the position. */
  function Part(amount: real, share: real): real {
    amount * share
  }

  function Signed(side: Side, x: real): real {
    if side.Long? then x else -x
  }

  /** Buying pays more and selling gets less, whichever end of the trade it is (paperEngine.ts:102-105). */
  function FillPrice(side: Side, price: real, opening: bool, costs: PaperCosts): real {
    var against := if opening then Direction(side) else -Direction(side);
    Notional(price, 1.0 + Part(costs.slippageRate, against))
  }

  /** Unrealized result net of the open fee and with accrued funding (paperEngine.ts:61). */
  function Upnl(pos: Position): real {
    Signed(pos.side, Notional(pos.mark - pos.entry, pos.qty)) - pos.openFee + pos.funding
  }

  function Refreshed(pos: Position): Position {
    pos.(upnl := Upnl(pos))
  }

  function LiquidationPrice(pos: Position): Option<real> {
    if pos.side.Long? && pos.leverage <= 1.0 then None
    else
      var buffer := 1.0 / pos.leverage - MAINTENANCE_MARGIN_RATE;
      Some(Notional(pos.entry, if pos.side.Long? then 1.0 - buffer else 1.0 + buffer))
  }

  /** A breached stop fills at the mark, a target at its own level (stopRules.ts:19-32). */
  function FindStopExit(pos: Position): Option<(real, ExitReason)> {
    if pos.stopLoss.Some? && pos.stopLoss.value > 0.0 && Signed(pos.side, pos.mark - pos.stopLoss.value) <= 0.0 then
      Some((pos.mark, StopLoss))
    else if pos.takeProfit.Some? && pos.takeProfit.value > 0.0
      && Signed(pos.side, pos.mark - pos.takeProfit.value) >= 0.0 then
      Some((pos.takeProfit.value, TakeProfit))
    else None
  }

  /** Liquidation first, then stop, then target (paperEngine.ts:67-79). */
  function FindExit(pos: Position): Option<(real, ExitReason)> {
    var liq := LiquidationPrice(pos);
    if liq.Some? && Signed(pos.side, pos.mark - liq.value) <= 0.0 then Some((liq.value, Liquidation))
    else FindStopExit(pos)
  }

  // ----- reducing one position -----

  datatype Reduction = Reduction(left: Position, trade: Trade, fill: Fill)

  /** Splits the position at `qty`: fee and funding are divided in proportion (paperEngine.ts:229-253). */
  function Reduce(pos: Position, qty: real, rawPrice: real, reason: ExitReason, costs: PaperCosts): Reduction
    requires pos.qty > 0.0
  {
    var closeQty := Min(pos.qty, qty);
    var share := closeQty / pos.qty;
    var price := FillPrice(pos.side, rawPrice, false, costs);
    var openFee, funding := Part(pos.openFee, share), Part(pos.funding, share);
    var exitFee := Fee(Notional(price, closeQty), costs);
    var gross := Signed(pos.side, Notional(price - pos.entry, closeQty));
    var pnl := gross - openFee - exitFee + funding;
    Reduction(
      Refreshed(pos.(openFee := pos.openFee - openFee, funding := pos.funding - funding, qty := pos.qty - closeQty)),
      Trade(pos.symbol, pos.strategy, pos.side, pos.entry, price, closeQty, pnl, reason),
      Fill(pos.symbol, -Signed(pos.side, closeQty), price, exitFee))
  }

  /** A level of zero counts as none. */
  function Level(level: Option<real>): Option<real> {
    if level == Some(0.0) then None else level
  }

  function Create(params: FillParams, price: real, now: real, costs: PaperCosts): Position {
    Refreshed(Position(params.symbol, params.strategy, params.side, price, params.qty, price,
                       Fee(Notional(price, params.qty), costs), 0.0, Some(now), 0.0, params.leverage,
                       Level(params.stopLoss), Level(params.takeProfit),
                       if Level(params.stopLoss).Some? then Some(Abs(price - params.stopLoss.value)) else None))
  }

  /** Quantity-weighted mean of two values. */
  function Weighted(a: real, qa: real, b: real, qb: real): real
    requires qa + qb != 0.0
  {
    (Notional(a, qa) + Notional(b, qb)) / (qa + qb)
  }

  /** paperEngine.ts:255-267. */
  function ScaledIn(pos: Position, params: FillParams, price: real, now: real, costs: PaperCosts): Position
    requires pos.qty > 0.0 && params.qty > 0.0
  {
    var since := if pos.openedAt.Some? then pos.openedAt.value else now;
    Refreshed(pos.(entry := Weighted(pos.entry, pos.qty, price, params.qty),
                   openFee := pos.openFee + Fee(Notional(price, params.qty), costs),
                   openedAt := Some(Weighted(since, pos.qty, now, params.qty)),
                   qty := pos.qty + params.qty, mark := price, leverage := params.leverage,
                   stopLoss := if Level(params.stopLoss).Some? then params.stopLoss else pos.stopLoss,
                   takeProfit := if Level(params.takeProfit).Some? then params.takeProfit else pos.takeProfit))
  }

  /** The fill of an entry or a scale-in. */
  function EntryFill(params: FillParams, price: real, costs: PaperCosts): Fill {
    Fill(params.symbol, Signed(params.side, params.qty), price, Fee(Notional(price, params.qty), costs))
  }

  // ----- the book -----

  /** The account as a value; `wallet` is starting cash plus realized results, `clock` the funding slot. */
  datatype Book = Book(positions: seq<Position>, wallet: real, trades: seq<Trade>, clock: int)

  /** What one operation did. */
  datatype Effect = Effect(fills: seq<Fill>, funding: real, booked: seq<Trade>)

  const NOTHING := Effect([], 0.0, [])

  /** Appends a trade, dropping the oldest past the cap. */
  function Journal(trades: seq<Trade>, t: Trade): seq<Trade> {
    var longer := trades + [t];
    if |longer| > MAX_TRADES then longer[1..] else longer
  }

  function ReduceAt(book: Book, i: nat, qty: real, rawPrice: real, reason: ExitReason,
                    costs: PaperCosts): (Book, Effect)
    requires i < |book.positions| && book.positions[i].qty > 0.0
  {
    var r := Reduce(book.positions[i], qty, rawPrice, reason, costs);
    (book.(positions := if r.left.qty <= 0.0 then Remove(book.positions, i) else book.positions[i := r.left],
           wallet := book.wallet + r.trade.pnl,
           trades := Journal(book.trades, r.trade)),
     Effect([r.fill], 0.0, [r.trade]))
  }

  /** The position of a symbol and strategy, by index. */
  function Find(positions: seq<Position>, symbol: string, strategy: string): (i: Option<nat>)
    ensures i.Some? ==>
              i.value < |positions| && positions[i.value].symbol == symbol && positions[i.value].strategy == strategy
    ensures i.None? ==> forall k :: 0 <= k < |positions| ==>
              !(positions[k].symbol == symbol && positions[k].strategy == strategy)
  {
    if positions == [] then None
    else
      var n := |positions| - 1;
      var earlier := Find(positions[..n], symbol, strategy);
      if earlier.Some? then earlier
      else if positions[n].symbol == symbol && positions[n].strategy == strategy then Some(n) else None
  }

  predicate HeldByOther(positions: seq<Position>, symbol: string, strategy: string) {
    exists k :: 0 <= k < |positions| && positions[k].symbol == symbol && positions[k].strategy != strategy
  }

  /** `a || b || c` over prices: the first one that is set and not zero. */
  function FirstPrice(a: Option<real>, b: Option<real>, c: Option<real>): Option<real> {
    if a.Some? && a.value != 0.0 then a
    else if b.Some? && b.value != 0.0 then b
    else if c.Some? && c.value != 0.0 then c
    else None
  }

  function PriceFor(book: Book, params: FillParams, lastPrices: map<string, real>): Option<real> {
    var existing := Find(book.positions, params.symbol, params.strategy);
    FirstPrice(params.entryPrice, Get(lastPrices, params.symbol),
               if existing.Some? then Some(book.positions[existing.value].mark) else None)
  }

  ghost predicate Quantities(positions: seq<Position>) {
    forall k :: 0 <= k < |positions| ==> positions[k].qty > 0.0
  }

  function PushNew(book: Book, params: FillParams, raw: real, now: real, costs: PaperCosts): (Book, Effect) {
    var price := FillPrice(params.side, raw, true, costs);
    (book.(positions := book.positions + [Create(params, price, now, costs)]),
     Effect([EntryFill(params, price, costs)], 0.0, []))
  }

  function ScaleAt(book: Book, i: nat, params: FillParams, raw: real, now: real, costs: PaperCosts): (Book, Effect)
    requires i < |book.positions| && book.positions[i].qty > 0.0 && params.qty > 0.0
  {
    var price := FillPrice(params.side, raw, true, costs);
    (book.(positions := book.positions[i := ScaledIn(book.positions[i], params, price, now, costs)]),
     Effect([EntryFill(params, price, costs)], 0.0, []))
  }

  /** Closes the whole position and opens the other side with the same order (paperEngine.ts:209-213). */
  function FlipAt(book: Book, i: nat, params: FillParams, raw: real, now: real, costs: PaperCosts): (Book, Effect)
    requires i < |book.positions| && book.positions[i].qty > 0.0
  {
    var (closed, exit) := ReduceAt(book, i, book.positions[i].qty, raw, Flip, costs);
    var (flipped, entry) := PushNew(closed, params, raw, now, costs);
    (flipped, Effect(exit.fills + entry.fills, 0.0, exit.booked))
  }

  /** `openPosition` (paperEngine.ts:194-217). */
  function Open(book: Book, params: FillParams, lastPrices: map<string, real>, now: real,
                costs: PaperCosts): (Outcome, Book, Effect)
    requires Quantities(book.positions) && params.qty > 0.0
  {
    var found := Find(book.positions, params.symbol, params.strategy);
    var price := PriceFor(book, params, lastPrices);
    if price.None? then (NoPrice, book, NOTHING)
    else if params.reduceOnly then
      if found.None? then (Filled, book, NOTHING)
      else
        var reason := if params.exitReason.Some? then params.exitReason.value else Close;
        var (b, e) := ReduceAt(book, found.value, params.qty, price.value, reason, costs);
        (Filled, b, e)
    else if HeldByOther(book.positions, params.symbol, params.strategy) then (OwnedByOther, book, NOTHING)
    else
      var (b, e) :=
        if found.None? then PushNew(book, params, price.value, now, costs)
        else if book.positions[found.value].side == params.side
          then ScaleAt(book, found.value, params, price.value, now, costs)
        else FlipAt(book, found.value, params, price.value, now, costs);
      (Filled, b, e)
  }

  /** A position after a mark: kept and refreshed, or the trade that closes it (paperEngine.ts:323-336). */
  function MarkAt(book: Book, i: nat, prices: map<string, real>, costs: PaperCosts): (Book, Effect)
    requires i < |book.positions| && book.positions[i].qty > 0.0
  {
    var pos := book.positions[i];
    if pos.symbol !in prices || prices[pos.symbol] == 0.0 then (book, NOTHING)
    else
      var marked := pos.(mark := prices[pos.symbol]);
      var exit := FindExit(marked);
      if exit.None? then (book.(positions := book.positions[i := Refreshed(marked)]), NOTHING)
      else ReduceAt(book.(positions := book.positions[i := marked]), i, marked.qty, exit.value.0, exit.value.1, costs)
  }

  function Both(a: Effect, b: Effect): Effect {
    Effect(a.fills + b.fills, a.funding + b.funding, a.booked + b.booked)
  }

  lemma MarkAtKeepsQuantities(book: Book, i: nat, prices: map<string, real>, costs: PaperCosts)
    requires i < |book.positions| && Quantities(book.positions)
    ensures Quantities(MarkAt(book, i, prices, costs).0.positions)
    ensures |MarkAt(book, i, prices, costs).0.positions| <= |book.positions|
  {}

  /** `markAll` from position `i` on; a position that exits leaves its place to the next one. */
  function MarkFrom(book: Book, i: nat, prices: map<string, real>, costs: PaperCosts): (Book, Effect)
    requires Quantities(book.positions) && i <= |book.positions|
    decreases |book.positions| - i
  {
    if i == |book.positions| then (book, NOTHING)
    else
      MarkAtKeepsQuantities(book, i, prices, costs);
      var (marked, e) := MarkAt(book, i, prices, costs);
      var (rest, f) := MarkFrom(marked, if |marked.positions| < |book.positions| then i else i + 1, prices, costs);
      (rest, Both(e, f))
  }

  /** The 8-hour boundary index at or before a time (paperEngine.ts:114, 123). */
  function SlotOf(t: real): int {
    (t / FUNDING_INTERVAL_MS as real).Floor
  }

  function OpenedSlot(pos: Position): int {
    if pos.openedAt.Some? then SlotOf(pos.openedAt.value) else -1
  }

  /** How many boundaries after `clock` and after the open the position was open through by `slot`. */
  function Crossed(pos: Position, clock: int, slot: int): int {
    slot - (if clock < OpenedSlot(pos) then OpenedSlot(pos) else clock)
  }

  /** Signed for the holder: the rate on the marked value, times the boundaries crossed. */
  function FundingOf(pos: Position, rate: real, crossed: int): real {
    -Signed(pos.side, Part(Notional(Notional(rate, pos.qty), pos.mark), crossed as real))
  }

  /** The amount one accrual charges the position (negative when paid). */
  function Charge(pos: Position, rates: map<string, real>, clock: int, slot: int): real {
    if pos.symbol !in rates || Crossed(pos, clock, slot) <= 0 then 0.0
    else FundingOf(pos, rates[pos.symbol], Crossed(pos, clock, slot))
  }

  function Charged(pos: Position, rates: map<string, real>, clock: int, slot: int): Position {
    if pos.symbol !in rates || Crossed(pos, clock, slot) <= 0 then pos
    else Refreshed(pos.(funding := pos.funding + Charge(pos, rates, clock, slot)))
  }

  function ChargedAll(positions: seq<Position>, rates: map<string, real>, clock: int, slot: int): (r: seq<Position>)
    ensures |r| == |positions|
    ensures forall k :: 0 <= k < |r| ==> r[k] == Charged(positions[k], rates, clock, slot)
  {
    seq(|positions|, k requires 0 <= k < |positions| => Charged(positions[k], rates, clock, slot))
  }

  function TotalCharge(positions: seq<Position>, rates: map<string, real>, clock: int, slot: int): real {
    if positions == [] then 0.0
    else TotalCharge(positions[..|positions| - 1], rates, clock, slot)
           + Charge(positions[|positions| - 1], rates, clock, slot)
  }

  /** `accrueFunding` (paperEngine.ts:113-133): an unset clock charges nothing. */
  function Accrue(book: Book, rates: map<string, real>, now: real): (Book, Effect) {
    var slot := SlotOf(now);
    if book.clock < 0 then (book.(clock := slot), NOTHING)
    else if slot <= book.clock then (book, NOTHING)
    else (book.(positions := ChargedAll(book.positions, rates, book.clock, slot), clock := slot),
          Effect([], TotalCharge(book.positions, rates, book.clock, slot), []))
  }

  function WithStops(book: Book, symbol: string, strategy: string, stopLoss: real, takeProfit: Option<real>): Book {
    var found := Find(book.positions, symbol, strategy);
    if found.None? then book
    else
      var pos := book.positions[found.value];
      book.(positions := book.positions[found.value := pos.(stopLoss := Some(stopLoss), takeProfit := takeProfit)])
  }

  function UpnlOf(p: Position): real {
    p.upnl
  }

  function TotalUpnl(positions: seq<Position>): real {
    Sum(positions, UpnlOf)
  }

  /** `syncEquity` (paperEngine.ts:314-316). */
  function EquityOf(book: Book): real {
    book.wallet + TotalUpnl(book.positions)
  }

  // ----- the engine -----

  class Engine {
    const costs: PaperCosts
    var positions: seq<Position>
    var equity: real
    var wallet: real
    var trades: seq<Trade>
    var lastPrices: map<string, real>
    var fundingSlot: int

    function AsBook(): Book
      reads this
    {
      Book(positions, wallet, trades, fundingSlot)
    }

    /** Equity is in step with the book and every position has something left to close. */
    ghost predicate Valid()
      reads this
    {
      Quantities(positions) && equity == EquityOf(AsBook())
    }

    constructor (costs: PaperCosts, initialEquity: real)
      ensures Valid() && this.costs == costs
      ensures AsBook() == Book([], initialEquity, [], UNSET) && lastPrices == map[]
    {
      this.costs := costs;
      positions, equity, wallet, trades, lastPrices, fundingSlot := [], initialEquity, initialEquity, [], map[], UNSET;
    }

    method SyncEquity()
      modifies this`equity
      ensures equity == EquityOf(AsBook())
    {
      var sum := 0.0;
      for i := 0 to |positions|
        invariant sum == TotalUpnl(positions[..i])
      {
        assert positions[..i + 1][..i] == positions[..i];
        sum := sum + positions[i].upnl;
      }
      assert positions[..|positions|] == positions;
      equity := wallet + sum;
    }

    /** `reduce` (paperEngine.ts:229-253). */
    method ReducePosition(i: nat, qty: real, rawPrice: real, reason: ExitReason, ghost before: Book)
      requires i < |positions| && positions[i].qty > 0.0 && before == AsBook()
      modifies this`positions, this`wallet, this`trades
      ensures AsBook() == ReduceAt(before, i, qty, rawPrice, reason, costs).0
    {
      var r := Reduce(positions[i], qty, rawPrice, reason, costs);
      wallet := wallet + r.trade.pnl;
      trades := trades + [r.trade];
      if |trades| > MAX_TRADES {
        trades := trades[1..];
      }
      positions := if r.left.qty <= 0.0 then positions[..i] + positions[i + 1..] else positions[i := r.left];
    }

    /** `createPosition` (paperEngine.ts:269-294). */
    method CreatePosition(params: FillParams, raw: real, now: real)
      modifies this`positions
      ensures AsBook() == PushNew(old(AsBook()), params, raw, now, costs).0
    {
      positions := positions + [Create(params, FillPrice(params.side, raw, true, costs), now, costs)];
    }

    /** `scaleIn` (paperEngine.ts:255-267). */
    method ScaleIn(i: nat, params: FillParams, raw: real, now: real)
      requires i < |positions| && positions[i].qty > 0.0 && params.qty > 0.0
      modifies this`positions
      ensures AsBook() == ScaleAt(old(AsBook()), i, params, raw, now, costs).0
    {
      var price := FillPrice(params.side, raw, true, costs);
      positions := positions[i := ScaledIn(positions[i], params, price, now, costs)];
    }

    /** `openPosition` (paperEngine.ts:194-217): a rejected fill changes nothing. */
    method OpenPosition(params: FillParams, now: real) returns (outcome: Outcome)
      requires Valid() && params.qty > 0.0
      modifies this`positions, this`wallet, this`trades, this`equity
      ensures Valid()
      ensures (outcome, AsBook()) ==
              (Open(old(AsBook()), params, lastPrices, now, costs).0,
               Open(old(AsBook()), params, lastPrices, now, costs).1)
    {
      ghost var before := AsBook();
      var found := Find(positions, params.symbol, params.strategy);
      var price := FirstPrice(params.entryPrice, Get(lastPrices, params.symbol),
                              if found.Some? then Some(positions[found.value].mark) else None);
      if price.None? {
        return NoPrice;
      }
      if params.reduceOnly {
        if found.Some? {
          ReducePosition(found.value, params.qty, price.value,
                         if params.exitReason.Some? then params.exitReason.value else Close, before);
        }
      } else if HeldByOther(positions, params.symbol, params.strategy) {
        return OwnedByOther;
      } else if found.None? {
        CreatePosition(params, price.value, now);
      } else if positions[found.value].side == params.side {
        ScaleIn(found.value, params, price.value, now);
      } else {
        ReducePosition(found.value, positions[found.value].qty, price.value, Flip, before);
        CreatePosition(params, price.value, now);
      }
      SyncEquity();
      outcome := Filled;
    }

    /** `updateStops` (paperEngine.ts:296-302). */
    method UpdateStops(symbol: string, strategy: string, stopLoss: real, takeProfit: Option<real>)
      requires Valid()
      modifies this`positions
      ensures Valid() && AsBook() == WithStops(old(AsBook()), symbol, strategy, stopLoss, takeProfit)
    {
      var found := Find(positions, symbol, strategy);
      if found.Some? {
        var pos := positions[found.value];
        SumReplace(positions, found.value, pos.(stopLoss := Some(stopLoss), takeProfit := takeProfit), UpnlOf);
        positions := positions[found.value := pos.(stopLoss := Some(stopLoss), takeProfit := takeProfit)];
      }
    }

    /** `markAll` (paperEngine.ts:319-340). */
    method MarkAll(prices: map<string, real>)
      requires Valid()
      modifies this`positions, this`wallet, this`trades, this`equity, this`lastPrices
      ensures Valid()
      ensures AsBook() == MarkFrom(old(AsBook()), 0, prices, costs).0
      ensures lastPrices == old(lastPrices) + prices
    {
      lastPrices := lastPrices + prices;
      var i := 0;
      ghost var before := AsBook();
      while i < |positions|
        invariant i <= |positions| && Quantities(positions)
        invariant MarkFrom(AsBook(), i, prices, costs).0 == MarkFrom(before, 0, prices, costs).0
        invariant lastPrices == old(lastPrices) + prices
        decreases |positions| - i
      {
        MarkAtKeepsQuantities(AsBook(), i, prices, costs);
        i := MarkPosition(i, prices, AsBook());
      }
      SyncEquity();
    }

    /** One position of the loop: marks it, or closes it and leaves its index to the next. */
    method MarkPosition(i: nat, prices: map<string, real>, ghost before: Book) returns (next: nat)
      requires i < |positions| && positions[i].qty > 0.0 && before == AsBook()
      modifies this`positions, this`wallet, this`trades
      ensures AsBook() == MarkAt(before, i, prices, costs).0
      ensures next == if |positions| < |before.positions| then i else i + 1
    {
      next := i + 1;
      var pos := positions[i];
      if pos.symbol in prices && prices[pos.symbol] != 0.0 {
        var marked := pos.(mark := prices[pos.symbol]);
        var exit := FindExit(marked);
        if exit.None? {
          positions := positions[i := Refreshed(marked)];
        } else {
          positions := positions[i := marked];
          ReducePosition(i, marked.qty, exit.value.0, exit.value.1, AsBook());
          next := i;
        }
      }
    }

    /** The loop over positions (paperEngine.ts:120-129). */
    method ChargePositions(rates: map<string, real>, slot: int)
      requires Quantities(positions)
      modifies this`positions
      ensures positions == ChargedAll(old(positions), rates, fundingSlot, slot) && Quantities(positions)
    {
      ghost var before := positions;
      for i := 0 to |positions|
        invariant |positions| == |before| && Quantities(positions)
        invariant forall k :: 0 <= k < i ==> positions[k] == Charged(before[k], rates, fundingSlot, slot)
        invariant forall k :: i <= k < |positions| ==> positions[k] == before[k]
      {
        positions := positions[i := Charged(positions[i], rates, fundingSlot, slot)];
      }
      assert positions == ChargedAll(before, rates, fundingSlot, slot);
    }

    /** `accrueFunding` (paperEngine.ts:113-133). */
    method AccrueFunding(rates: map<string, real>, now: real)
      requires Valid()
      modifies this`positions, this`equity, this`fundingSlot
      ensures Valid()
      ensures AsBook() == Accrue(old(AsBook()), rates, now).0
    {
      var slot := SlotOf(now);
      if fundingSlot < 0 {
        fundingSlot := slot;
        return;
      }
      if slot <= fundingSlot {
        return;
      }
      ChargePositions(rates, slot);
      fundingSlot := slot;
      SyncEquity();
    }
  }
}
