/**
 * What a snapshot of the exchange does to the sidecar (src/binance/remoteReconcile.ts).
 *
 * `Reconcile` says what one snapshot does to one symbol; `RemoteReconciler.Apply` is the source's pair of loops,
 * proved to do exactly that to every symbol. The protocol of RemoteProtocol.dfy runs on `Reconcile`.
 */
module RemoteReconcile {
  import opened Common
  import opened RemoteState

  const EXPECTED_OPEN_TTL_MS: int := 600_000

  datatype OpenParams = OpenParams(
    side: Side,
    qty: real,
    strategy: OwnerId,
    stopLoss: Option<real>,
    takeProfit: Option<real>,
    entryPrice: real,
    decisionId: Option<string>)

  /** What is remembered of an entry whose reply was lost. */
  datatype Expected = Expected(params: OpenParams, sentAt: int)

  datatype RiskEvent = RiskEvent(isLiquidation: bool, symbol: string, markPrice: real, at: int)

  /** What one reconcile run reads besides the snapshot: the clock, the local marks and the exchange's risk events. */
  datatype Env = Env(now: int, marks: map<string, real>, events: seq<RiskEvent>)

  /** Everything the agent remembers about one symbol. */
  datatype Sidecar = Sidecar(meta: Option<Meta>, expected: Option<Expected>, journal: seq<Trade>)

  /** The entry written when an open is confirmed on an empty symbol (src/binance/remoteOrders.ts:97-109). */
  function EntryMeta(params: OpenParams, rowId: nat, at: int): Meta {
    Meta(
      params.strategy, params.stopLoss, params.takeProfit,
      if params.stopLoss.Some? then Some(Abs(params.entryPrice - params.stopLoss.value)) else None,
      at, false,
      Some(Seen(rowId, params.side, params.entryPrice, params.qty, params.entryPrice)),
      params.decisionId)
  }

  /** After a scale-in, a level the new order leaves out is kept (src/binance/remoteOrders.ts:112-114). */
  function ScaledMeta(meta: Meta, params: OpenParams): Meta {
    meta.(stopLoss := if params.stopLoss.Some? then params.stopLoss else meta.stopLoss,
          takeProfit := if params.takeProfit.Some? then params.takeProfit else meta.takeProfit)
  }

  function ExternalMeta(at: int): Meta {
    Meta(EXTERNAL_OWNER, None, None, None, at, true, None, None)
  }

  predicate Explains(event: RiskEvent, symbol: string, openedAt: int) {
    event.isLiquidation && event.symbol == symbol && event.at > openedAt - CLOCK_SKEW_MS
  }

  /** The newest liquidation that can explain the position's end (src/binance/remoteState.ts:269-274). */
  function LiquidationSince(events: seq<RiskEvent>, symbol: string, openedAt: int): (r: Option<RiskEvent>)
    ensures r.None? <==> forall e :: e in events ==> !Explains(e, symbol, openedAt)
    ensures r.Some? ==> r.value in events && Explains(r.value, symbol, openedAt)
    ensures r.Some? ==> forall e :: e in events && Explains(e, symbol, openedAt) ==> e.at <= r.value.at
  {
    if events == [] then None
    else
      var rest := LiquidationSince(events[1..], symbol, openedAt);
      assert events == [events[0]] + events[1..];
      if !Explains(events[0], symbol, openedAt) then rest
      else if rest.Some? && rest.value.at > events[0].at then rest
      else Some(events[0])
  }

  /**
   * The view a vanished or flipped position is journaled from: the previous snapshot, or the persisted view after a
   * restart.
   */
  function LastView(meta: Meta, before: Option<Row>, mark: Option<real>): Option<Seen> {
    if before.Some? then Some(SeenFrom(before.value, mark)) else meta.lastSeen
  }

  function ReconciledTrade(symbol: string, meta: Meta, seen: Seen, exit: real, reason: Reason, now: int): Trade {
    ClosedTrade(symbol, Closed(seen.rowId, meta.owner, seen.side, seen.entry, seen.qty, meta.initialRisk,
                               meta.decisionId), exit, reason, now, None)
  }

  /**
   * A sidecar position the snapshot does not show any more: journal it, or drop it when nothing is known to price it
   * with.
   */
  function SettleVanished(symbol: string, c: Sidecar, meta: Meta, before: Option<Row>, env: Env): Sidecar {
    var seen := LastView(meta, before, Get(env.marks, symbol));
    if seen.None? then c.(meta := None)
    else
      var liquidation := LiquidationSince(env.events, symbol, meta.openedAt);
      var exit := if liquidation.Some? && liquidation.value.markPrice > 0.0 then liquidation.value.markPrice
        else seen.value.mark;
      c.(meta := None,
         journal := c.journal + [ReconciledTrade(symbol, meta, seen.value, exit, if liquidation.Some? then Liquidated
                                                 else Close, env.now)])
  }

  /** The journal only grows, by records that tell their own price move. */
  ghost predicate AddsGross(before: seq<Trade>, after: seq<Trade>) {
    before <= after && forall k :: |before| <= k < |after| ==> IsGross(after[k])
  }

  lemma ReconciledIsGross(symbol: string, meta: Meta, seen: Seen, exit: real, reason: Reason, now: int)
    ensures IsGross(ReconciledTrade(symbol, meta, seen, exit, reason, now))
  {
    ClosedTradeIsGross(symbol, Closed(seen.rowId, meta.owner, seen.side, seen.entry, seen.qty, meta.initialRisk,
                                      meta.decisionId), exit, reason, now, None);
  }

  lemma SettledIsGross(symbol: string, c: Sidecar, meta: Meta, before: Option<Row>, env: Env)
    ensures AddsGross(c.journal, SettleVanished(symbol, c, meta, before, env).journal)
  {
    forall seen: Seen, exit: real, reason: Reason
      ensures IsGross(ReconciledTrade(symbol, meta, seen, exit, reason, env.now)) {
      ReconciledIsGross(symbol, meta, seen, exit, reason, env.now);
    }
  }

  /** A position nobody owns: an unconfirmed open on its side explains it, otherwise it is external. */
  function AdoptUnowned(c: Sidecar, current: Row, now: int): Sidecar {
    if c.expected.Some? && c.expected.value.params.side == current.side then
      c.(meta := Some(EntryMeta(c.expected.value.params, current.id, c.expected.value.sentAt)), expected := None)
    else
      c.(meta := Some(ExternalMeta(now)))
  }

  function ReconcileOpen(symbol: string, c: Sidecar, current: Row, before: Option<Row>, env: Env): Sidecar {
    if c.meta.None? then AdoptUnowned(c, current, env.now)
    else
      var seen := LastView(c.meta.value, before, Get(env.marks, symbol));
      if seen.Some? && seen.value.side != current.side then
        var trade := ReconciledTrade(symbol, c.meta.value, seen.value, seen.value.mark, Close, env.now);
        AdoptUnowned(c.(meta := None, journal := c.journal + [trade]), current, env.now)
      else c
  }

  lemma ReopenedIsGross(symbol: string, c: Sidecar, current: Row, before: Option<Row>, env: Env)
    ensures AddsGross(c.journal, ReconcileOpen(symbol, c, current, before, env).journal)
  {
    forall meta: Meta, seen: Seen, exit: real, reason: Reason
      ensures IsGross(ReconciledTrade(symbol, meta, seen, exit, reason, env.now)) {
      ReconciledIsGross(symbol, meta, seen, exit, reason, env.now);
    }
  }

  function Touch(c: Sidecar, current: Row, mark: Option<real>): Sidecar {
    if c.meta.None? then c else c.(meta := Some(WithLastSeen(c.meta.value, SeenFrom(current, mark))))
  }

  function PruneExpired(expected: Option<Expected>, now: int): Option<Expected> {
    if expected.Some? && now - expected.value.sentAt >= EXPECTED_OPEN_TTL_MS then None else expected
  }

  /** The source's first loop: sidecar positions the snapshot does not list. */
  function AfterVanished(symbol: string, c: Sidecar, before: Option<Row>, current: Option<Row>, busy: bool,
                         env: Env): Sidecar {
    if c.meta.Some? && current.None? && !busy then SettleVanished(symbol, c, c.meta.value, before, env) else c
  }

  /** The source's second loop: positions the snapshot lists. */
  function AfterListed(symbol: string, c: Sidecar, before: Option<Row>, current: Option<Row>, busy: bool,
                       env: Env): Sidecar {
    if current.None? then c
    else Touch(if busy then c else ReconcileOpen(symbol, c, current.value, before, env), current.value,
               Get(env.marks, symbol))
  }

  /**
   * What one snapshot does to one symbol. A busy symbol's bookkeeping belongs to its order; only its last view is
   * refreshed.
   */
  function Reconcile(symbol: string, known: Sidecar, before: Option<Row>, current: Option<Row>, busy: bool,
                     env: Env): Sidecar {
    var c := known.(expected := PruneExpired(known.expected, env.now));
    AfterListed(symbol, AfterVanished(symbol, c, before, current, busy, env), before, current, busy, env)
  }

  lemma ReconcileAddsGross(symbol: string, known: Sidecar, before: Option<Row>, current: Option<Row>, busy: bool,
                           env: Env)
    ensures AddsGross(known.journal, Reconcile(symbol, known, before, current, busy, env).journal)
  {
    var c := known.(expected := PruneExpired(known.expected, env.now));
    if c.meta.Some? {
      SettledIsGross(symbol, c, c.meta.value, before, env);
    }
    if current.Some? {
      ReopenedIsGross(symbol, AfterVanished(symbol, c, before, current, busy, env), current.value, before, env);
    }
  }

  /** A snapshot: at most one row per symbol, as the exchange nets a symbol into one position. */
  datatype VenueRow = VenueRow(symbol: string, row: Row)

  ghost predicate OneRowPerSymbol(rows: seq<VenueRow>) {
    forall i, j :: 0 <= i < j < |rows| ==> rows[i].symbol != rows[j].symbol
  }

  function RowOf(rows: seq<VenueRow>, symbol: string): (r: Option<Row>)
    ensures r.Some? ==> VenueRow(symbol, r.value) in rows
    ensures r.None? <==> forall v :: v in rows ==> v.symbol != symbol
  {
    if rows == [] then None
    else
      assert rows == [rows[0]] + rows[1..];
      if rows[0].symbol == symbol then Some(rows[0].row) else RowOf(rows[1..], symbol)
  }

  lemma RowOfAppend(rows: seq<VenueRow>, last: VenueRow, symbol: string)
    ensures RowOf(rows + [last], symbol)
         == if RowOf(rows, symbol).Some? then RowOf(rows, symbol) else if last.symbol == symbol then Some(last.row)
           else None
  {
    if rows != [] {
      assert (rows + [last])[1..] == rows[1..] + [last];
      RowOfAppend(rows[1..], last, symbol);
    }
  }

  /** One more row of a snapshot is the row of its own symbol, which had none before. */
  lemma RowsSoFar(positions: seq<VenueRow>, i: nat)
    requires i < |positions| && OneRowPerSymbol(positions)
    ensures RowOf(positions[..i], positions[i].symbol).None?
    ensures forall s :: RowOf(positions[..i + 1], s) == if s == positions[i].symbol then Some(positions[i].row)
            else RowOf(positions[..i], s)
  {
    assert positions[..i + 1] == positions[..i] + [positions[i]];
    forall s ensures RowOf(positions[..i + 1], s) == if s == positions[i].symbol then Some(positions[i].row)
      else RowOf(positions[..i], s) {
      RowOfAppend(positions[..i], positions[i], s);
    }
  }

  ghost function SidecarOf(positions: map<string, Meta>, expected: map<string, Expected>, recorded: seq<Trade>,
                           symbol: string): Sidecar {
    Sidecar(Get(positions, symbol), Get(expected, symbol), JournalOf(recorded, symbol))
  }

  /** Booking a record and dropping the meta shows up in its own symbol's view only. */
  lemma RecordedView(positions: map<string, Meta>, expected: map<string, Expected>, recorded: seq<Trade>, trade: Trade,
                     symbol: string)
    ensures SidecarOf(positions - {trade.symbol}, expected, recorded + [trade], symbol)
         == var c := SidecarOf(positions, expected, recorded, symbol);
            if symbol == trade.symbol then c.(meta := None, journal := c.journal + [trade]) else c
  {
    JournalOfAppend(recorded, trade, symbol);
  }

  class RemoteReconciler {
    var expectedOpens: map<string, Expected>
    const store: RemoteStore

    constructor (store: RemoteStore)
      ensures this.store == store && expectedOpens == map[]
    {
      this.store := store;
      expectedOpens := map[];
    }

    /** What the agent remembers about one symbol right now. */
    ghost function View(symbol: string): Sidecar
      reads this, store
    {
      SidecarOf(store.positions, expectedOpens, store.recorded, symbol)
    }

    method ExpectOpen(symbol: string, params: OpenParams, now: int)
      modifies this
      ensures expectedOpens == old(expectedOpens)[symbol := Expected(params, now)]
    {
      expectedOpens := expectedOpens[symbol := Expected(params, now)];
    }

    method ForgetOpen(symbol: string)
      modifies this
      ensures expectedOpens == old(expectedOpens) - {symbol}
    {
      expectedOpens := expectedOpens - {symbol};
    }

    method PruneExpiredOpens(now: int)
      modifies this`expectedOpens
      ensures forall symbol :: Get(expectedOpens, symbol) == PruneExpired(Get(old(expectedOpens), symbol), now)
      ensures forall symbol :: symbol in expectedOpens <==>
                symbol in old(expectedOpens) && now < old(expectedOpens)[symbol].sentAt + 10 * 60 * 1000
    {
      var left := expectedOpens.Keys;
      while left != {}
        invariant left <= old(expectedOpens).Keys && left <= expectedOpens.Keys <= old(expectedOpens).Keys
        invariant forall symbol :: symbol in left ==> expectedOpens[symbol] == old(expectedOpens)[symbol]
        invariant forall symbol :: symbol !in left ==>
                    Get(expectedOpens, symbol) == PruneExpired(Get(old(expectedOpens), symbol), now)
        decreases left
      {
        var symbol :| symbol in left;
        if now - expectedOpens[symbol].sentAt >= EXPECTED_OPEN_TTL_MS { expectedOpens := expectedOpens - {symbol}; }
        left := left - {symbol};
      }
    }

    method Journal(symbol: string, meta: Meta, seen: Seen, exit: real, reason: Reason, now: int)
      requires store.Valid()
      modifies store
      ensures store.Valid()
      ensures store.positions == old(store.positions) - {symbol}
      ensures store.recorded == old(store.recorded) + [ReconciledTrade(symbol, meta, seen, exit, reason, now)]
      ensures AddsGross(old(store.recorded), store.recorded)
    {
      ReconciledIsGross(symbol, meta, seen, exit, reason, now);
      store.RecordClose(ReconciledTrade(symbol, meta, seen, exit, reason, now));
    }

    method SettleVanishedPosition(symbol: string, before: Option<Row>, env: Env)
      requires store.Valid() && symbol in store.positions
      modifies store
      ensures store.Valid() && expectedOpens == old(expectedOpens)
      ensures View(symbol) == SettleVanished(symbol, old(View(symbol)), old(store.positions)[symbol], before, env)
      ensures forall other :: other != symbol ==> View(other) == old(View(other))
      ensures store.positions == old(store.positions) - {symbol}
      ensures AddsGross(old(store.recorded), store.recorded)
    {
      var meta := store.positions[symbol];
      var seen := LastView(meta, before, Get(env.marks, symbol));
      if seen.None? {
        store.DeleteMeta(symbol);
        return;
      }
      var liquidation := LiquidationSince(env.events, symbol, meta.openedAt);
      var exit := if liquidation.Some? && liquidation.value.markPrice > 0.0 then liquidation.value.markPrice
        else seen.value.mark;
      var reason := if liquidation.Some? then Liquidated else Close;
      ghost var positions, recorded := store.positions, store.recorded;
      Journal(symbol, meta, seen.value, exit, reason, env.now);
      forall s ensures s == symbol || View(s) == old(View(s)) {
        RecordedView(positions, expectedOpens, recorded,
                     ReconciledTrade(symbol, meta, seen.value, exit, reason, env.now), s);
      }
      RecordedView(positions, expectedOpens, recorded,
                   ReconciledTrade(symbol, meta, seen.value, exit, reason, env.now), symbol);
    }

    method AdoptUnownedPosition(symbol: string, current: Row, now: int)
      modifies this`expectedOpens, store`positions
      ensures View(symbol) == AdoptUnowned(old(View(symbol)), current, now)
      ensures forall other :: other != symbol ==> View(other) == old(View(other))
    {
      if symbol in expectedOpens && expectedOpens[symbol].params.side == current.side {
        var expected := expectedOpens[symbol];
        expectedOpens := expectedOpens - {symbol};
        store.SetMeta(symbol, EntryMeta(expected.params, current.id, expected.sentAt));
      } else {
        store.SetMeta(symbol, ExternalMeta(now));
      }
    }

    method ReconcileOpenPosition(symbol: string, current: Row, before: Option<Row>, env: Env)
      requires store.Valid()
      modifies this`expectedOpens, store
      ensures store.Valid()
      ensures View(symbol) == ReconcileOpen(symbol, old(View(symbol)), current, before, env)
      ensures forall other :: other != symbol ==> View(other) == old(View(other))
      ensures AddsGross(old(store.recorded), store.recorded)
    {
      if symbol !in store.positions {
        AdoptUnownedPosition(symbol, current, env.now);
        return;
      }
      var meta := store.positions[symbol];
      var seen := LastView(meta, before, Get(env.marks, symbol));
      if seen.Some? && seen.value.side != current.side {
        ghost var positions, recorded := store.positions, store.recorded;
        ghost var trade := ReconciledTrade(symbol, meta, seen.value, seen.value.mark, Close, env.now);
        Journal(symbol, meta, seen.value, seen.value.mark, Close, env.now);
        forall s ensures s == symbol || View(s) ==
          old(View(s)) { RecordedView(positions, expectedOpens, recorded, trade, s); }
        RecordedView(positions, expectedOpens, recorded, trade, symbol);
        AdoptUnownedPosition(symbol, current, env.now);
      }
    }

    method SettleAllVanished(previous: seq<VenueRow>, positions: seq<VenueRow>, busy: set<string>, env: Env)
      requires store.Valid()
      modifies store
      ensures store.Valid()
      ensures forall symbol :: View(symbol)
                == AfterVanished(symbol, old(View(symbol)), RowOf(previous, symbol), RowOf(positions, symbol),
                                 symbol in busy, env)
      ensures AddsGross(old(store.recorded), store.recorded)
    {
      var left := store.positions.Keys;
      while left != {}
        invariant store.Valid() && left <= store.positions.Keys && AddsGross(old(store.recorded), store.recorded)
        invariant forall symbol :: symbol in left || symbol !in old(store.positions) ==>
                    View(symbol) == old(View(symbol))
        invariant forall symbol :: symbol !in left ==>
                    View(symbol) == AfterVanished(symbol, old(View(symbol)), RowOf(previous, symbol),
                                                  RowOf(positions, symbol), symbol in busy, env)
        decreases left
      {
        var symbol :| symbol in left;
        if RowOf(positions, symbol).None? && symbol !in busy {
          SettleVanishedPosition(symbol, RowOf(previous, symbol), env);
        }
        left := left - {symbol};
      }
    }

    method ReconcileOne(symbol: string, row: Row, before: Option<Row>, busy: bool, env: Env)
      requires store.Valid()
      modifies this`expectedOpens, store
      ensures store.Valid()
      ensures View(symbol) == AfterListed(symbol, old(View(symbol)), before, Some(row), busy, env)
      ensures forall other :: other != symbol ==> View(other) == old(View(other))
      ensures AddsGross(old(store.recorded), store.recorded)
    {
      if !busy { ReconcileOpenPosition(symbol, row, before, env); }
      store.UpdateLastSeen(symbol, SeenFrom(row, Get(env.marks, symbol)));
    }

    method ReconcileListed(previous: seq<VenueRow>, positions: seq<VenueRow>, busy: set<string>, env: Env)
      requires store.Valid()
      requires OneRowPerSymbol(positions)
      modifies this`expectedOpens, store
      ensures store.Valid()
      ensures forall symbol :: View(symbol)
                == AfterListed(symbol, old(View(symbol)), RowOf(previous, symbol), RowOf(positions, symbol),
                               symbol in busy, env)
      ensures AddsGross(old(store.recorded), store.recorded)
    {
      var i := 0;
      while i < |positions|
        invariant 0 <= i <= |positions|
        invariant store.Valid() && AddsGross(old(store.recorded), store.recorded)
        invariant forall symbol :: View(symbol)
                    == AfterListed(symbol, old(View(symbol)), RowOf(previous, symbol), RowOf(positions[..i], symbol),
                                   symbol in busy, env)
      {
        var symbol := positions[i].symbol;
        RowsSoFar(positions, i);
        ReconcileOne(symbol, positions[i].row, RowOf(previous, symbol), symbol in busy, env);
        i := i + 1;
      }
      assert positions[..i] == positions;
    }

    /** Aligns every symbol with the fresh snapshot, whatever order the sidecar lists its entries in. */
    method Apply(previous: seq<VenueRow>, positions: seq<VenueRow>, busy: set<string>, env: Env)
      requires store.Valid()
      requires OneRowPerSymbol(positions)
      modifies this`expectedOpens, store
      ensures store.Valid()
      ensures forall symbol :: View(symbol)
                == Reconcile(symbol, old(View(symbol)), RowOf(previous, symbol), RowOf(positions, symbol),
                             symbol in busy, env)
      ensures AddsGross(old(store.recorded), store.recorded)
    {
      PruneExpiredOpens(env.now);
      SettleAllVanished(previous, positions, busy, env);
      ReconcileListed(previous, positions, busy, env);
    }
  }
}
