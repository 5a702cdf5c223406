/**
 * The sidecar of the remote broker (src/binance/remoteState.ts): per-symbol strategy facts the exchange does not know,
 * and the journal of closed trades.
 *
 * Rows, remembered views and journal records carry the id the exchange gave to the position row. No branch of the
 * source or of this model reads it; it only lets the properties say *which* position a journal record is about.
 */
module RemoteState {
  import opened Common

  type OwnerId = string
  type OrderId = nat

  /** The owner recorded for an adopted position. */
  const EXTERNAL_OWNER: OwnerId := "EXECUTOR-\U{03B5}"
  const MAX_TRADES: nat := 1000
  const CLOCK_SKEW_MS: int := 5_000
  /** Mark drift below this fraction is not worth a write of the remembered view. */
  const LAST_SEEN_MARK_DRIFT: real := 0.005

  datatype Reason = Close | Flip | StopLoss | TakeProfit | Liquidated | PartialTp

  /** One open position as the exchange reports it. */
  datatype Row = Row(id: nat, side: Side, entry: real, qty: real, price: real)

  /** The row as it was last seen. */
  datatype Seen = Seen(rowId: nat, side: Side, entry: real, qty: real, mark: real)

  /** Strategy-side facts about a position. */
  datatype Meta = Meta(
    owner: OwnerId,
    stopLoss: Option<real>,
    takeProfit: Option<real>,
    initialRisk: Option<real>,
    openedAt: int,
    external: bool,
    lastSeen: Option<Seen>,
    decisionId: Option<string>)

  /** What an exit is sized from, and what a journal record is built from. */
  datatype Closed = Closed(
    rowId: nat,
    owner: OwnerId,
    side: Side,
    entry: real,
    qty: real,
    initialRisk: Option<real>,
    decisionId: Option<string>)

  /** `order` names the exit order a record was booked for; None marks a close the reconcile found. */
  datatype Trade = Trade(
    symbol: string,
    closed: Closed,
    exit: real,
    pnl: real,
    reason: Reason,
    closedAt: int,
    partial: bool,
    order: Option<OrderId>)

  /** Journal record with gross pnl (src/binance/remoteState.ts:42-47). */
  function ClosedTrade(symbol: string, closed: Closed, exit: real, reason: Reason, at: int,
                       order: Option<OrderId>): Trade {
    Trade(symbol, closed, exit, (exit - closed.entry) * closed.qty * Direction(closed.side), reason, at, false, order)
  }

  /** What a quantity is worth at a price. */
  function Worth(price: real, qty: real): real {
    price * qty
  }

  /**
   * The record's pnl is its own price move: what the quantity was worth at the entry, plus the pnl for a long or less
   * it for a short, is what it was worth at the exit. On a positive quantity it is a gain exactly when the exit is on
   * the winning side of the entry, and a loss exactly when it is on the other.
   */
  predicate IsGross(t: Trade) {
    var c := t.closed;
    && Worth(t.exit, c.qty) == (if c.side.Long? then Worth(c.entry, c.qty) + t.pnl else Worth(c.entry, c.qty) - t.pnl)
    && (c.qty > 0.0 ==>
          && (t.pnl > 0.0 <==> if c.side.Long? then t.exit > c.entry else t.exit < c.entry)
          && (t.pnl < 0.0 <==> if c.side.Long? then t.exit < c.entry else t.exit > c.entry))
  }

  lemma ClosedTradeIsGross(symbol: string, closed: Closed, exit: real, reason: Reason, at: int, order: Option<OrderId>)
    ensures IsGross(ClosedTrade(symbol, closed, exit, reason, at, order))
  {
    var move := Worth(exit - closed.entry, closed.qty);
    assert move == Worth(exit, closed.qty) - Worth(closed.entry, closed.qty);
    SignOfWorth(exit - closed.entry, closed.qty);
  }

  lemma SignOfWorth(move: real, qty: real)
    ensures qty > 0.0 ==> (Worth(move, qty) > 0.0 <==> move > 0.0) && (Worth(move, qty) < 0.0 <==> move < 0.0)
  {}

  function SeenFrom(row: Row, localMark: Option<real>): Seen {
    Seen(row.id, row.side, row.entry, row.qty, if localMark.Some? then localMark.value else row.price)
  }

  /** True when the view is worth rewriting in the sidecar (src/binance/remoteState.ts:209-210). */
  predicate HasMoved(before: Seen, seen: Seen) {
    || before.side != seen.side
    || before.entry != seen.entry
    || before.qty != seen.qty
    || Abs(seen.mark - before.mark) >= before.mark * LAST_SEEN_MARK_DRIFT
  }

  /** The meta after the exchange showed `seen` (src/binance/remoteState.ts:126-130). */
  function WithLastSeen(meta: Meta, seen: Seen): (m: Meta)
    ensures m.(lastSeen := None) == meta.(lastSeen := None)
    ensures m.lastSeen.Some? && m.lastSeen.value.side == seen.side && m.lastSeen.value.qty == seen.qty
  {
    if meta.lastSeen.Some? && !HasMoved(meta.lastSeen.value, seen) then meta else meta.(lastSeen := Some(seen))
  }

  /** The records of one symbol, oldest first. */
  function JournalOf(trades: seq<Trade>, symbol: string): (r: seq<Trade>)
    ensures forall t :: t in r ==> t in trades && t.symbol == symbol
  {
    if trades == [] then []
    else
      var rest := JournalOf(trades[..|trades| - 1], symbol);
      var last := trades[|trades| - 1];
      if last.symbol == symbol then rest + [last] else rest
  }

  lemma JournalOfAppend(trades: seq<Trade>, trade: Trade, symbol: string)
    ensures JournalOf(trades + [trade], symbol)
         == if trade.symbol == symbol then JournalOf(trades, symbol) + [trade] else JournalOf(trades, symbol)
  {
    assert (trades + [trade])[..|trades|] == trades;
  }

  /** The sidecar file held in memory. `recorded` keeps every record ever booked; the file keeps the newest thousand. */
  class RemoteStore {
    var positions: map<string, Meta>
    var closedTrades: seq<Trade>
    ghost var recorded: seq<Trade>

    ghost predicate Valid()
      reads this
    {
      closedTrades == Newest(recorded, MAX_TRADES)
    }

    constructor ()
      ensures Valid() && positions == map[] && recorded == []
    {
      positions := map[];
      closedTrades := [];
      recorded := [];
    }

    function GetMeta(symbol: string): Option<Meta>
      reads this
    {
      Get(positions, symbol)
    }

    method SetMeta(symbol: string, meta: Meta)
      modifies this`positions
      ensures positions == old(positions)[symbol := meta]
    {
      positions := positions[symbol := meta];
    }

    method DeleteMeta(symbol: string)
      modifies this`positions
      ensures positions == old(positions) - {symbol}
    {
      positions := positions - {symbol};
    }

    method UpdateLastSeen(symbol: string, seen: Seen)
      modifies this`positions
      ensures positions == if symbol in old(positions)
                           then old(positions)[symbol := WithLastSeen(old(positions)[symbol], seen)]
                           else old(positions)
    {
      if symbol !in positions { return; }
      var meta := positions[symbol];
      if meta.lastSeen.Some? && !HasMoved(meta.lastSeen.value, seen) {
        assert positions == positions[symbol := meta];
        return;
      }
      SetMeta(symbol, meta.(lastSeen := Some(seen)));
    }

    /** A final record: no state exists with the record written and the entry still there, or the reverse. */
    method RecordClose(trade: Trade)
      requires Valid()
      modifies this
      ensures Valid()
      ensures recorded == old(recorded) + [trade]
      ensures positions == old(positions) - {trade.symbol}
    {
      closedTrades := closedTrades + [trade];
      if |closedTrades| > MAX_TRADES { closedTrades := closedTrades[|closedTrades| - MAX_TRADES..]; }
      recorded := recorded + [trade];
      positions := positions - {trade.symbol};
    }

    /** A partial record never touches an entry. */
    method RecordPartial(trade: Trade)
      requires Valid()
      modifies this`closedTrades, this`recorded
      ensures Valid()
      ensures recorded == old(recorded) + [trade.(partial := true)]
    {
      closedTrades := closedTrades + [trade.(partial := true)];
      if |closedTrades| > MAX_TRADES { closedTrades := closedTrades[|closedTrades| - MAX_TRADES..]; }
      recorded := recorded + [trade.(partial := true)];
    }
  }
}
