/** The replay portfolio: src/backtesting/PortfolioSimulator.ts. */
module PortfolioSimulator {
  import opened Common
  import opened ExecutionSimulator
  import opened Sums
  import SymbolRules

  /** `symbol:strategy:openedAt:counter`; the counter is never reused. */
  datatype PositionId = PositionId(symbol: string, strategy: string, openedAt: int, counter: nat)

  /** `pm` stands for the position manager's own state, which this model does not look into. */
  datatype SimPosition = SimPosition(
    symbol: string, side: Side, strategy: string, entry: real, qty: real, leverage: Leverage, stopLoss: Option<real>,
    takeProfit: Option<real>, openedAt: int, initialRisk: Option<real>, mark: real, fees: real, funding: real,
    id: PositionId, pm: Option<int>)

  datatype SimTrade = SimTrade(
    symbol: string, strategy: string, side: Side, entry: real, exit: real, qty: real, pnl: real, reason: ExitReason,
    partial: bool, closedAt: int, id: Option<PositionId>, openedAt: int, fees: real, funding: real)

  datatype OpenRequest = OpenRequest(
    symbol: string, side: Side, qty: real, leverage: Leverage, strategy: string, stopLoss: Option<real>,
    takeProfit: Option<real>, fillPrice: real, fee: real, openedAt: int)

  /** What the position manager asks for at the bar's favourable extreme. */
  datatype Action = PartialExit(qty: real, level: real) | NewLevels(stop: Option<real>, target: Option<real>)

  type Manager = (SimPosition, Candle) -> (Option<int>, seq<Action>)

  /** `Number(x.toFixed(6))`. */
  function Round6(x: real): real {
    SymbolRules.ToFixed(x, 1000000.0)
  }

  function Gross(side: Side, entry: real, exit: real, qty: real): real {
    Times(Direction(side), Times(exit - entry, qty))
  }

  // ----- the portfolio as a value -----

  datatype Book = Book(positions: seq<SimPosition>, realized: real, counter: nat, trades: seq<SimTrade>)

  /** The book with one position changed and nothing else. */
  function Replaced(b: Book, i: nat, p: SimPosition): Book
    requires i < |b.positions|
  {
    b.(positions := b.positions[i := p])
  }

  function NewPosition(r: OpenRequest, counter: nat): SimPosition {
    SimPosition(r.symbol, r.side, r.strategy, r.fillPrice, r.qty, r.leverage, r.stopLoss, r.takeProfit, r.openedAt,
                if r.stopLoss.Some? then Some(Abs(r.fillPrice - r.stopLoss.value)) else None,
                r.fillPrice, r.fee, 0.0, PositionId(r.symbol, r.strategy, r.openedAt, counter), None)
  }

  /** The entry fee is realised at once, before any trade is booked (PortfolioSimulator.ts:87-113). */
  function Opened(b: Book, r: OpenRequest): Book {
    Book(b.positions + [NewPosition(r, b.counter)], b.realized - r.fee, b.counter + 1, b.trades)
  }

  /**
   * Quantity-weighted mean. A zero total takes a negative position quantity, which partials smaller than the position
   * rule out.
   */
  function Weighted(a: real, qa: real, b: real, qb: real): real {
    if qa + qb == 0.0 then a else (Times(a, qa) + Times(b, qb)) / (qa + qb)
  }

  /** PortfolioSimulator.ts:248-262. */
  function ScaledIn(pos: SimPosition, r: OpenRequest): SimPosition {
    pos.(entry := Weighted(pos.entry, pos.qty, r.fillPrice, r.qty), qty := pos.qty + r.qty, leverage := r.leverage,
         stopLoss := if r.stopLoss.Some? then r.stopLoss else pos.stopLoss,
         takeProfit := if r.takeProfit.Some? then r.takeProfit else pos.takeProfit,
         fees := pos.fees + r.fee, mark := r.fillPrice, pm := None)
  }

  function ScaledAt(b: Book, i: nat, r: OpenRequest): Book
    requires i < |b.positions|
  {
    b.(positions := b.positions[i := ScaledIn(b.positions[i], r)], realized := b.realized - r.fee)
  }

  /** One partial leg (PortfolioSimulator.ts:194-211). */
  function PartialTrade(pos: SimPosition, qty: real, price: real, closedAt: int, c: Costs): SimTrade {
    var quote := ExitQuote(pos.side, price, qty, c);
    SimTrade(pos.symbol, pos.strategy, pos.side, pos.entry, quote.price, qty,
             Gross(pos.side, pos.entry, quote.price, qty),
             PartialTp, true, closedAt, Some(pos.id), pos.openedAt, Round6(quote.fee), 0.0)
  }

  function ReducedAt(b: Book, i: nat, qty: real, price: real, closedAt: int, c: Costs): Book
    requires i < |b.positions|
  {
    var pos := b.positions[i];
    var quote := ExitQuote(pos.side, price, qty, c);
    b.(positions := b.positions[i := pos.(qty := pos.qty - qty)],
       realized := b.realized + (Gross(pos.side, pos.entry, quote.price, qty) - quote.fee),
       trades := b.trades + [PartialTrade(pos, qty, price, closedAt, c)])
  }

  /** The final close (PortfolioSimulator.ts:214-245). */
  function FinalTrade(pos: SimPosition, price: real, reason: ExitReason, closedAt: int, c: Costs): SimTrade {
    var quote := ExitQuote(pos.side, price, pos.qty, c);
    SimTrade(pos.symbol, pos.strategy, pos.side, pos.entry, quote.price, pos.qty,
             Gross(pos.side, pos.entry, quote.price, pos.qty), reason, false, closedAt, Some(pos.id), pos.openedAt,
             Round6(pos.fees + quote.fee), Round6(pos.funding))
  }

  function ClosedAt(b: Book, i: nat, price: real, reason: ExitReason, closedAt: int, c: Costs): Book
    requires i < |b.positions|
  {
    var pos := b.positions[i];
    var quote := ExitQuote(pos.side, price, pos.qty, c);
    b.(positions := Remove(b.positions, i),
       realized := b.realized + (Gross(pos.side, pos.entry, quote.price, pos.qty) - quote.fee),
       trades := b.trades + [FinalTrade(pos, price, reason, closedAt, c)])
  }

  /** Longs pay a positive rate (PortfolioSimulator.ts:265-273). */
  function Payment(pos: SimPosition, rate: real): real {
    Times(-Direction(pos.side), Times(Times(rate, pos.mark), pos.qty))
  }

  function FundedAt(b: Book, i: nat, symbol: string, rate: real): Book
    requires i < |b.positions|
  {
    var pos := b.positions[i];
    if pos.symbol != symbol then b
    else
      b.(positions := b.positions[i := pos.(funding := pos.funding + Payment(pos, rate))],
         realized := b.realized + Payment(pos, rate))
  }

  function FundedTo(b: Book, n: nat, symbol: string, rate: real): (r: Book)
    requires n <= |b.positions|
    ensures |r.positions| == |b.positions|
  {
    if n == 0 then b else FundedAt(FundedTo(b, n - 1, symbol, rate), n - 1, symbol, rate)
  }

  // ----- bars -----

  /** The level, or the bar's open where the bar began past it (PortfolioSimulator.ts:179-183). */
  function PartialPrice(side: Side, level: real, bar: Candle): real {
    if side.Long? then Max(level, bar.open) else Min(level, bar.open)
  }

  /** The manager's actions in order; the flag says a stop moved (PortfolioSimulator.ts:177-190). */
  function ActedOn(b: Book, i: nat, actions: seq<Action>, bar: Candle, closedAt: int, c: Costs): (r: (Book, bool))
    requires i < |b.positions|
    ensures |r.0.positions| == |b.positions|
    decreases |actions|
  {
    if actions == [] then (b, false)
    else
      var n := |actions| - 1;
      var (before, moved) := ActedOn(b, i, actions[..n], bar, closedAt, c);
      match actions[n]
      case PartialExit(qty, level) =>
        (ReducedAt(before, i, qty, PartialPrice(before.positions[i].side, level, bar), closedAt, c), moved)
      case NewLevels(stop, target) =>
        (Replaced(before, i, before.positions[i].(stopLoss := stop, takeProfit := target)), true)
  }

  function ManagedAt(b: Book, i: nat, bar: Candle, manager: Manager, closedAt: int, c: Costs): (r: (Book, bool))
    requires i < |b.positions|
    ensures |r.0.positions| == |b.positions|
  {
    var (pm, actions) := manager(b.positions[i], bar);
    if pm.None? then (b, false)
    else ActedOn(Replaced(b, i, b.positions[i].(pm := pm)), i, actions, bar, closedAt, c)
  }

  function ExitOf(pos: SimPosition, stopLoss: Option<real>, takeProfit: Option<real>, bar: Candle): Option<Exit> {
    EvaluateExit(pos.side, pos.entry, stopLoss, takeProfit, pos.leverage, bar)
  }

  /** Whether the close has already crossed the stop the manager just set. */
  function MovedStopHit(pos: SimPosition, bar: Candle): bool {
    pos.stopLoss.Some? && Times(Direction(pos.side), bar.close - pos.stopLoss.value) <= 0.0
  }

  /** A managed position whose stop held: the manager acts, then its target and a stop it just moved are tested. */
  function ManagedBar(b: Book, i: nat, bar: Candle, manager: Manager, closedAt: int, c: Costs): (r: Book)
    requires i < |b.positions|
    ensures |b.positions| - 1 <= |r.positions| <= |b.positions|
  {
    var (managed, moved) := ManagedAt(b, i, bar, manager, closedAt, c);
    var now := managed.positions[i];
    var target := ExitOf(now, None, now.takeProfit, bar);
    if target.Some? then ClosedAt(managed, i, target.value.price, target.value.reason, closedAt, c)
    else if moved && MovedStopHit(now, bar) then ClosedAt(managed, i, now.stopLoss.value, StopLoss, closedAt, c)
    else managed
  }

  /** A marked position on the rest of its bar: the exit its levels give, or the manager's turn. */
  function Resolved(b: Book, i: nat, pos: SimPosition, bar: Candle, manager: Option<Manager>, c: Costs): (r: Book)
    requires i < |b.positions|
    ensures |b.positions| - 1 <= |r.positions| <= |b.positions|
  {
    var closedAt := bar.openTime + FIFTEEN_MINUTES_MS;
    var exit := ExitOf(pos, pos.stopLoss, if manager.Some? then None else pos.takeProfit, bar);
    if exit.Some? then ClosedAt(b, i, exit.value.price, exit.value.reason, closedAt, c)
    else if manager.None? then b
    else ManagedBar(b, i, bar, manager.value, closedAt, c)
  }

  /** One position on one bar (PortfolioSimulator.ts:124-154). */
  function BarAt(b: Book, i: nat, symbol: string, bar: Candle, manager: Option<Manager>, c: Costs): Book
    requires i < |b.positions|
  {
    var pos := b.positions[i];
    if pos.symbol != symbol then b
    else Resolved(Replaced(b, i, pos.(mark := bar.close)), i, pos, bar, manager, c)
  }

  lemma BarAtSize(b: Book, i: nat, symbol: string, bar: Candle, manager: Option<Manager>, c: Costs)
    requires i < |b.positions|
    ensures |b.positions| - 1 <= |BarAt(b, i, symbol, bar, manager, c).positions| <= |b.positions|
  {}

  /** `onBar` from position `i` on; a position that exits leaves its place to the next. */
  function OnBarFrom(b: Book, i: nat, symbol: string, bar: Candle, manager: Option<Manager>, c: Costs): Book
    requires i <= |b.positions|
    decreases |b.positions| - i
  {
    if i == |b.positions| then b
    else
      BarAtSize(b, i, symbol, bar, manager, c);
      var next := BarAt(b, i, symbol, bar, manager, c);
      OnBarFrom(next, if |next.positions| < |b.positions| then i else i + 1, symbol, bar, manager, c)
  }

  /** `forceCloseAll` (PortfolioSimulator.ts:276-281). */
  function AllClosed(b: Book, marks: map<string, real>, at: int, reason: ExitReason, c: Costs): (r: Book)
    ensures r.positions == []
    decreases |b.positions|
  {
    if b.positions == [] then b
    else
      var pos := b.positions[0];
      AllClosed(ClosedAt(b, 0, if pos.symbol in marks then marks[pos.symbol] else pos.mark, reason, at, c), marks, at,
                reason, c)
  }

  function UnrealizedOf(pos: SimPosition): real {
    Gross(pos.side, pos.entry, pos.mark, pos.qty)
  }

  function Equity(b: Book, initialEquity: real): real {
    initialEquity + b.realized + Sum(b.positions, UnrealizedOf)
  }

  // ----- the class -----

  class Portfolio {
    const costs: Costs
    const initialEquity: real
    var positions: seq<SimPosition>
    var realized: real
    var positionCounter: nat
    var trades: seq<SimTrade>

    function AsBook(): Book
      reads this
    {
      Book(positions, realized, positionCounter, trades)
    }

    constructor (costs: Costs, initialEquity: real)
      ensures AsBook() == Book([], 0.0, 0, []) && this.costs == costs && this.initialEquity == initialEquity
    {
      this.costs, this.initialEquity := costs, initialEquity;
      positions, realized, positionCounter, trades := [], 0.0, 0, [];
    }

    method Open(r: OpenRequest)
      modifies this
      ensures AsBook() == Opened(old(AsBook()), r)
    {
      realized := realized - r.fee;
      positions := positions + [NewPosition(r, positionCounter)];
      positionCounter := positionCounter + 1;
    }

    method ScaleIn(i: nat, r: OpenRequest)
      requires i < |positions|
      modifies this`positions, this`realized
      ensures AsBook() == ScaledAt(old(AsBook()), i, r)
    {
      realized := realized - r.fee;
      positions := positions[i := ScaledIn(positions[i], r)];
    }

    method Reduce(i: nat, qty: real, price: real, closedAt: int)
      requires i < |positions|
      modifies this`positions, this`realized, this`trades
      ensures AsBook() == ReducedAt(old(AsBook()), i, qty, price, closedAt, costs)
    {
      var pos := positions[i];
      var quote := ExitQuote(pos.side, price, qty, costs);
      realized := realized + (Gross(pos.side, pos.entry, quote.price, qty) - quote.fee);
      trades := trades + [PartialTrade(pos, qty, price, closedAt, costs)];
      positions := positions[i := pos.(qty := pos.qty - qty)];
    }

    method CloseAt(i: nat, price: real, reason: ExitReason, closedAt: int)
      requires i < |positions|
      modifies this`positions, this`realized, this`trades
      ensures AsBook() == ClosedAt(old(AsBook()), i, price, reason, closedAt, costs)
    {
      var pos := positions[i];
      var quote := ExitQuote(pos.side, price, pos.qty, costs);
      realized := realized + (Gross(pos.side, pos.entry, quote.price, pos.qty) - quote.fee);
      trades := trades + [FinalTrade(pos, price, reason, closedAt, costs)];
      positions := positions[..i] + positions[i + 1..];
    }

    method ApplyFunding(symbol: string, rate: real)
      modifies this`positions, this`realized
      ensures AsBook() == FundedTo(old(AsBook()), |old(positions)|, symbol, rate)
    {
      for i := 0 to |positions|
        invariant |positions| == |old(positions)|
        invariant AsBook() == FundedTo(old(AsBook()), i, symbol, rate)
      {
        var pos := positions[i];
        if pos.symbol == symbol {
          var payment := Payment(pos, rate);
          realized := realized + payment;
          positions := positions[i := pos.(funding := pos.funding + payment)];
        }
      }
    }

    /** `manage` (PortfolioSimulator.ts:159-191). */
    method Manage(i: nat, bar: Candle, manager: Manager, closedAt: int) returns (moved: bool)
      requires i < |positions|
      modifies this`positions, this`realized, this`trades
      ensures (AsBook(), moved) == ManagedAt(old(AsBook()), i, bar, manager, closedAt, costs)
    {
      moved := false;
      var (pm, actions) := manager(positions[i], bar);
      if pm.None? {
        return;
      }
      positions := positions[i := positions[i].(pm := pm)];
      moved := Act(i, actions, bar, closedAt);
    }

    method Act(i: nat, actions: seq<Action>, bar: Candle, closedAt: int) returns (moved: bool)
      requires i < |positions|
      modifies this`positions, this`realized, this`trades
      ensures (AsBook(), moved) == ActedOn(old(AsBook()), i, actions, bar, closedAt, costs)
    {
      moved := false;
      for k := 0 to |actions|
        invariant i < |positions|
        invariant (AsBook(), moved) == ActedOn(old(AsBook()), i, actions[..k], bar, closedAt, costs)
      {
        assert actions[..k + 1][..k] == actions[..k];
        match actions[k] {
          case PartialExit(qty, level) =>
            Reduce(i, qty, PartialPrice(positions[i].side, level, bar), closedAt);
          case NewLevels(stop, target) =>
            positions := positions[i := positions[i].(stopLoss := stop, takeProfit := target)];
            moved := true;
        }
      }
      assert actions[..|actions|] == actions;
    }

    /** `onBar` (PortfolioSimulator.ts:122-156). */
    method OnBar(symbol: string, bar: Candle, manager: Option<Manager>)
      modifies this`positions, this`realized, this`trades
      ensures AsBook() == OnBarFrom(old(AsBook()), 0, symbol, bar, manager, costs)
    {
      var i := 0;
      while i < |positions|
        invariant i <= |positions|
        invariant OnBarFrom(AsBook(), i, symbol, bar, manager, costs) ==
                  OnBarFrom(old(AsBook()), 0, symbol, bar, manager, costs)
        decreases |positions| - i
      {
        BarAtSize(AsBook(), i, symbol, bar, manager, costs);
        i := OnBarPosition(i, symbol, bar, manager);
      }
    }

    method OnBarPosition(i: nat, symbol: string, bar: Candle, manager: Option<Manager>) returns (next: nat)
      requires i < |positions|
      modifies this`positions, this`realized, this`trades
      ensures AsBook() == BarAt(old(AsBook()), i, symbol, bar, manager, costs)
      ensures next == if |positions| < |old(positions)| then i else i + 1
    {
      next := i + 1;
      var pos := positions[i];
      if pos.symbol != symbol {
        return;
      }
      positions := positions[i := pos.(mark := bar.close)];
      var closedAt := bar.openTime + FIFTEEN_MINUTES_MS;
      var exit := ExitOf(pos, pos.stopLoss, if manager.Some? then None else pos.takeProfit, bar);
      if exit.Some? {
        CloseAt(i, exit.value.price, exit.value.reason, closedAt);
        return i;
      }
      if manager.None? {
        return;
      }
      var moved := Manage(i, bar, manager.value, closedAt);
      var now := positions[i];
      var target := ExitOf(now, None, now.takeProfit, bar);
      if target.Some? {
        CloseAt(i, target.value.price, target.value.reason, closedAt);
        return i;
      }
      if moved && MovedStopHit(now, bar) {
        CloseAt(i, now.stopLoss.value, StopLoss, closedAt);
        next := i;
      }
    }

    method ForceCloseAll(marks: map<string, real>, at: int, reason: ExitReason)
      modifies this`positions, this`realized, this`trades
      ensures AsBook() == AllClosed(old(AsBook()), marks, at, reason, costs)
    {
      while positions != []
        invariant AllClosed(AsBook(), marks, at, reason, costs) == AllClosed(old(AsBook()), marks, at, reason, costs)
        decreases |positions|
      {
        var pos := positions[0];
        CloseAt(0, if pos.symbol in marks then marks[pos.symbol] else pos.mark, reason, at);
      }
    }
  }
}
