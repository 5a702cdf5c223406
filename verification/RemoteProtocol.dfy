/**
 * The remote broker's order protocol for one symbol (src/binance/remoteBroker.ts, src/binance/remoteOrders.ts), as a
 * state machine with one step per await-free section of the source, interleaved with the exchange.
 *
 * The exchange dedupes on the client order id, may apply an order and lose the reply, may apply it late (until the
 * call that sent it gives the symbol up), may refuse it, and may be unreachable. Symbols share nothing but the order
 * epoch, so every other symbol appears here as the step that bumps it.
 */
module RemoteProtocol {
  import opened Common
  import opened RemoteState
  import opened RemoteReconcile

  // ---------------------------------------------------------------- state

  datatype Fill = Fill(rowId: nat, qty: real, price: real)

  /**
   * `sides[k]` is the side row k was opened on and `openers[k]` the strategy whose entry opened it, as its client
   * order id says; `ended` and `fills` are the exchange's own history.
   */
  datatype Venue = Venue(row: Option<Row>, sides: seq<Side>, openers: seq<OwnerId>, ended: set<nat>,
                         fills: map<OrderId, Fill>)

  /** An order on its way to the exchange. `side` is the position side it adds to, or, reduce-only, takes from. */
  datatype Request = Request(id: OrderId, owner: OwnerId, reduceOnly: bool, side: Side, qty: real, price: real)

  /** An entry still on its way when its open gave the symbol up. */
  datatype Late = Late(request: Request, isScaleIn: bool)

  datatype ExitAt = Queued | LookingUp | Reading | Submitted | Residual | ExitSettled

  datatype Job = Job(
    id: OrderId,
    reason: Reason,
    trigger: real,
    price: real,
    cap: Option<real>,
    sent: Option<Closed>,
    kept: Option<Meta>,
    at: ExitAt)

  datatype OpenAt = Flipping | FlipFailed | EntrySent | EntrySettled

  datatype OpenTask = OpenTask(params: OpenParams, isScaleIn: bool, isFlip: bool, id: OrderId, at: OpenAt)

  /**
   * The running refresh: the epoch it started in, the open waiting for it, and what the exchange answered so far. It
   * is disturbed when, after that answer, a close was given up, a liquidation struck, or an entry landed late or was
   * taken for rejected: the moves no epoch bump announces.
   */
  datatype Sync = Sync(epoch: nat, preOpen: Option<OpenParams>, snapshot: Option<Option<Row>>, disturbed: bool)

  datatype State = State(
    symbol: string,
    reports: bool,            // whether the exchange reports filled quantities
    venue: Venue,
    wire: Option<Request>,
    meta: Option<Meta>,       // persisted
    journal: seq<Trade>,      // persisted
    cache: Option<Row>,
    expected: Option<Expected>,
    epoch: nat,
    sync: Option<Sync>,
    job: Option<Job>,
    open: Option<OpenTask>,
    nextOrder: OrderId,
    late: Option<Late>,
    // history no branch reads
    orphans: set<nat>,        // rows whose opening order the agent stopped waiting for
    adopted: set<nat>,        // rows the sidecar took for external
    oversized: set<OrderId>)  // unreported partial exits of more than half their position

  function Init(symbol: string, reports: bool): State {
    State(symbol, reports, Venue(None, [], [], {}, map[]), None, None, [], None, None, 0, None, None, None, 0, None,
          {}, {}, {})
  }

  predicate Busy(s: State) {
    s.open.Some? || s.job.Some?
  }

  // ---------------------------------------------------------------- the exchange

  function Shrunk(v: Venue, qty: real): Venue
    requires v.row.Some?
  {
    var row := v.row.value;
    if qty < row.qty then v.(row := Some(row.(qty := row.qty - qty)))
    else v.(row := None, ended := v.ended + {row.id})
  }

  function Opened(v: Venue, q: Request, qty: real): Venue {
    v.(row := Some(Row(|v.sides|, q.side, q.price, qty, q.price)), sides := v.sides + [q.side],
       openers := v.openers + [q.owner])
  }

  function Added(row: Row, qty: real, price: real): Row {
    if row.qty + qty == 0.0 then row
    else row.(entry := (row.entry * row.qty + price * qty) / (row.qty + qty), qty := row.qty + qty)
  }

  /** The exchange handles one request; an id it has already filled changes nothing. */
  function Deliver(v: Venue, q: Request): Venue {
    if q.id in v.fills then v
    else if q.reduceOnly then
      if v.row.None? || v.row.value.side != q.side || v.row.value.qty < q.qty then v
      else Shrunk(v, q.qty).(fills := v.fills[q.id := Fill(v.row.value.id, q.qty, q.price)])
    else if v.row.None? then
      Opened(v, q, q.qty).(fills := v.fills[q.id := Fill(|v.sides|, q.qty, q.price)])
    else if v.row.value.side == q.side then
      v.(row := Some(Added(v.row.value, q.qty, q.price)),
         fills := v.fills[q.id := Fill(v.row.value.id, q.qty, q.price)])
    else
      var rest := q.qty - v.row.value.qty;
      var netted := Shrunk(v, q.qty);
      var left := if rest > 0.0 then Opened(netted, q, rest) else netted;
      left.(fills := v.fills[q.id := Fill(v.row.value.id, q.qty, q.price)])
  }

  // ---------------------------------------------------------------- steps

  datatype Answer = Hit | Miss | LookupDown(isDropped: bool)
  datatype Reply = Confirmed(now: int) | Refused | Lost(now: int, isDropped: bool)

  datatype Step =
    | DeliverWire
    | LandLate
    | Liquidate
    | OtherOrderSettles
    | SyncStart(preOpen: Option<OpenParams>)
    | SyncRead
    | SyncFail
    | SyncFinish(env: Env)
    | UpdateStops(strategy: OwnerId, stopLoss: real, takeProfit: Option<real>)
    | StartExit(reason: Reason, price: real, cap: Option<real>)
    | ExitRetry
    | ExitLookup(answer: Answer, now: int)
    | ExitRead(mark: Option<real>)
    | ExitReadDown(isDropped: bool)
    | ExitBreak
    | ExitReply(reply: Reply)
    | ExitResidual(isDown: bool, now: int)
    | ExitRelease
    | FlipEnter
    | FlipGiveUp
    | EntryReply(entry: Reply)
    | EntryBreak
    | OpenRelease
    | Restart

  /** A plain manual close is dropped on an outage when its caller waits for it; any other job stays queued. */
  predicate MayDrop(s: State, isDropped: bool) {
    isDropped ==> s.job.Some? && s.job.value.reason == Close && s.open.None?
  }

  predicate Can(s: State, step: Step) {
    match step
    case DeliverWire => s.wire.Some?
    case LandLate => s.late.Some?
    case Liquidate => s.venue.row.Some?
    case OtherOrderSettles => true
    case SyncStart(preOpen) => s.sync.None? && (preOpen.Some? ==> preOpen.value.qty > 0.0)
    case SyncRead => s.sync.Some? && s.sync.value.snapshot.None?
    case SyncFail => s.sync.Some?
    case SyncFinish(env) => s.sync.Some? && s.sync.value.snapshot.Some?
    case UpdateStops(strategy, stopLoss, takeProfit) => true
    case StartExit(reason, price, cap) =>
      && !Busy(s) && s.cache.Some?
      && !reason.Flip? && !reason.Liquidated?
      && (reason.StopLoss? || reason.TakeProfit? ==> s.meta.Some? && !s.meta.value.external)
      && (cap.Some? <==> reason == PartialTp)
      && (cap.Some? ==> 0.0 < cap.value < s.cache.value.qty)
    case ExitRetry => s.job.Some? && s.job.value.at.Queued?
    case ExitLookup(answer, now) =>
      && s.job.Some? && s.job.value.at.LookingUp? && s.job.value.sent.Some?
      && (answer.Hit? <==> s.job.value.id in s.venue.fills && !answer.LookupDown?)
      && (answer.LookupDown? ==> MayDrop(s, answer.isDropped))
    case ExitRead(mark) => s.job.Some? && s.job.value.at.Reading?
    case ExitReadDown(isDropped) => s.job.Some? && s.job.value.at.Reading? && MayDrop(s, isDropped)
    case ExitBreak =>
      s.job.Some? && (s.job.value.at.LookingUp? || s.job.value.at.Reading? || s.job.value.at.Submitted?)
    case ExitReply(reply) =>
      && s.job.Some? && s.job.value.at.Submitted? && s.job.value.sent.Some?
      && (reply.Confirmed? ==> s.job.value.id in s.venue.fills)
      && (reply.Refused? ==> s.job.value.id !in s.venue.fills)
      && (reply.Lost? ==> MayDrop(s, reply.isDropped))
    case ExitResidual(isDown, now) => s.job.Some? && s.job.value.at.Residual? && s.job.value.sent.Some?
      && s.job.value.kept.Some?
    case ExitRelease => s.job.Some? && s.job.value.at.ExitSettled?
    case FlipEnter => s.open.Some? && s.open.value.at.Flipping? && s.job.None?
    case FlipGiveUp => s.open.Some? && s.open.value.at.FlipFailed?
    case EntryReply(entry) =>
      && s.open.Some? && s.open.value.at.EntrySent?
      && (entry.Confirmed? ==> s.open.value.id in s.venue.fills)
      && (entry.Refused? ==> s.open.value.id !in s.venue.fills)
    case EntryBreak => s.open.Some? && s.open.value.at.EntrySent?
    case OpenRelease => s.open.Some? && s.open.value.at.EntrySettled?
    case Restart => true
  }

  function EnterWith(s: State, p: OpenParams, isScaleIn: bool, isFlip: bool): State {
    s.(open := Some(OpenTask(p, isScaleIn, isFlip, s.nextOrder, EntrySent)),
       wire := Some(Request(s.nextOrder, p.strategy, false, p.side, p.qty, p.entryPrice)),
       late := None,
       nextOrder := s.nextOrder + 1)
  }

  function WithJob(s: State, reason: Reason, price: real, cap: Option<real>): State {
    s.(job := Some(Job(s.nextOrder, reason, price, price, cap, None, None, Reading)), nextOrder := s.nextOrder + 1)
  }

  /** The tail of `open` after its refresh (src/binance/remoteBroker.ts:133-136 and 217-228). */
  function Decide(s: State, p: OpenParams): State {
    if Busy(s) then s
    else if s.cache.None? then EnterWith(s, p, false, false)
    else if s.meta.None? || s.meta.value.external || s.meta.value.owner != p.strategy then s
    else if s.cache.value.side == p.side then EnterWith(s, p, true, false)
    else WithJob(s, Flip, p.entryPrice, None).(open := Some(OpenTask(p, false, true, 0, Flipping)))
  }

  /**
   * Applies the running refresh, or discards it when an order settled since it started
   * (src/binance/remoteBroker.ts:289-302).
   */
  function Refreshed(s: State, env: Env): State
    requires s.sync.Some? && s.sync.value.snapshot.Some?
  {
    var done := s.(sync := None);
    if s.sync.value.epoch != s.epoch then done
    else
      var snapshot := s.sync.value.snapshot.value;
      var c := Reconcile(s.symbol, Sidecar(s.meta, s.expected, s.journal), s.cache, snapshot, Busy(s), env);
      var forgotten := s.expected.Some? && PruneExpired(s.expected, env.now).None? && s.meta.None? && s.venue.row.Some?
        && !(s.open.Some? && s.open.value.at.EntrySent? && s.open.value.id in s.venue.fills);
      done.(meta := c.meta, expected := c.expected, journal := c.journal, cache := snapshot,
            adopted := if c.meta.Some? && c.meta.value.external then s.adopted + {Subject(c.meta.value)} else s.adopted,
            orphans := if forgotten then s.orphans + {s.venue.row.value.id} else s.orphans)
  }

  /** The position an exit closes, sized from a fresh read (src/binance/remoteOrders.ts:262-270). */
  function ClosedFrom(row: Row, meta: Option<Meta>, cap: Option<real>): Closed {
    Closed(row.id,
           if meta.Some? then meta.value.owner else EXTERNAL_OWNER,
           row.side, row.entry,
           if cap.Some? then Min(cap.value, row.qty) else row.qty,
           if meta.Some? then meta.value.initialRisk else None,
           if meta.Some? then meta.value.decisionId else None)
  }

  /**
   * The trigger of a first attempt, worsened to the current mark where the market is past it
   * (src/binance/remoteOrders.ts:315-318).
   */
  function RepricedStop(job: Job, side: Side, mark: Option<real>): real {
    if job.reason != StopLoss || mark.None? || mark.value <= 0.0 then job.trigger
    else if side.Long? then Min(job.trigger, mark.value)
    else Max(job.trigger, mark.value)
  }

  function Disturbed(sync: Option<Sync>): Option<Sync> {
    if sync.Some? then Some(sync.value.(disturbed := true)) else None
  }

  /**
   * An outage: the job waits for a retry, or is dropped; a flip that lost its close gives up and leaves a plain close
   * behind.
   */
  function OutageAt(s: State, isDropped: bool): State
    requires s.job.Some?
  {
    if s.open.Some? then s.(job := Some(s.job.value.(reason := Close, at := Queued)), open := None)
    else if isDropped then s.(job := None, wire := None, sync := Disturbed(s.sync))
    else s.(job := Some(s.job.value.(at := Queued)))
  }

  /**
   * A job that failed for good: its order was refused, or a lookup or read failed without an outage, whatever the
   * exchange made of an order whose reply was lost
   * (src/binance/remoteOrders.ts:237-243).
   */
  function Abandoned(s: State): State {
    s.(job := None, wire := None, epoch := s.epoch + 1,
       open := if s.open.Some? then Some(s.open.value.(at := FlipFailed)) else None)
  }

  /** Books a confirmed exit (src/binance/remoteOrders.ts:277-292). */
  function Completed(s: State, now: int): State
    requires s.job.Some? && s.job.value.sent.Some? && s.job.value.id in s.venue.fills
  {
    var job := s.job.value;
    var qty := if s.reports then s.venue.fills[job.id].qty else job.sent.value.qty;
    var trade := ClosedTrade(s.symbol, job.sent.value.(qty := qty), job.price, job.reason, now, Some(job.id));
    if job.reason == PartialTp then
      s.(journal := s.journal + [trade.(partial := true)], job := Some(job.(at := ExitSettled)), epoch := s.epoch + 1)
    else if s.meta.None? || s.meta.value.external then
      s.(journal := s.journal + [trade], meta := None, job := Some(job.(at := ExitSettled)), epoch := s.epoch + 1)
    else
      s.(journal := s.journal + [trade], meta := None, job := Some(job.(kept := s.meta, at := Residual)))
  }

  function ReadForExit(s: State, mark: Option<real>): State
    requires s.job.Some?
  {
    var job := s.job.value;
    if s.venue.row.None? then s.(job := None, wire := None, epoch := s.epoch + 1)
    else
      var row := s.venue.row.value;
      var sized := ClosedFrom(row, s.meta, job.cap);
      var price := if job.sent.None? then RepricedStop(job, row.side, mark) else job.price;
      s.(job := Some(job.(price := price, sent := Some(sized), at := Submitted)),
         wire := Some(Request(job.id, sized.owner, true, row.side, sized.qty, price)))
  }

  /**
   * When the row is still there after a full exit, its sidecar entry comes back (src/binance/remoteOrders.ts:295-312).
   */
  function ResidualChecked(s: State, isDown: bool, now: int): State
    requires s.job.Some? && s.job.value.sent.Some? && s.job.value.kept.Some?
  {
    var job := s.job.value;
    var isHeld := !isDown && s.venue.row.Some? && s.venue.row.value.side == job.sent.value.side;
    s.(meta := if isHeld then Some(job.kept.value.(openedAt := now, lastSeen := None)) else s.meta,
       job := Some(job.(at := ExitSettled)),
       epoch := s.epoch + 1)
  }

  function EntryDone(s: State, reply: Reply): State
    requires s.open.Some?
    requires reply.Confirmed? ==> s.open.value.id in s.venue.fills
  {
    var o := s.open.value;
    match reply
    case Refused => s.(open := None, wire := None)
    case Confirmed(now) =>
      var meta := if o.isScaleIn && s.meta.Some? then ScaledMeta(s.meta.value, o.params)
                  else EntryMeta(o.params, s.venue.fills[o.id].rowId, now);
      s.(meta := Some(meta), expected := None, epoch := s.epoch + 1, open := Some(o.(at := EntrySettled)))
    case Lost(now, isDropped) =>
      s.(expected := if o.isScaleIn then s.expected else Some(Expected(o.params, now)), epoch := s.epoch + 1,
         open := Some(o.(at := EntrySettled)))
  }

  /** The open gives the symbol up; an entry that has not landed by then may still land. */
  function Given(s: State): State
    requires s.open.Some?
  {
    var isLate := s.wire.Some? && s.wire.value.id !in s.venue.fills;
    s.(open := None, wire := None, late := if isLate then Some(Late(s.wire.value, s.open.value.isScaleIn)) else s.late)
  }

  /**
   * The entry's reply was lost and its lookup failed without an outage: the open takes that for a rejection and gives
   * the symbol up at once, with no expectation and no new epoch (src/binance/remoteBroker.ts:244-250).
   */
  function EntryBroken(s: State): State
    requires s.open.Some?
  {
    var isOrphan := s.venue.row.Some? && s.meta.None? && !IsAwaited(s.expected, s.venue.row.value.side);
    Given(s).(orphans := if isOrphan then s.orphans + {s.venue.row.value.id} else s.orphans,
              sync := if s.open.value.id in s.venue.fills then Disturbed(s.sync) else s.sync)
  }

  /** A remembered open of this side explains a position nobody owns. */
  predicate IsAwaited(expected: Option<Expected>, side: Side) {
    expected.Some? && expected.value.params.side == side
  }

  /**
   * An entry lands after its open gave it up: unless a position absorbs it or the expectation still stands, nobody
   * knows it.
   */
  function Landed(s: State): State
    requires s.late.Some?
  {
    var q := s.late.value.request;
    var v := Deliver(s.venue, q);
    var isOrphan := v.row.Some? && s.venue.row.None? && !IsAwaited(s.expected, q.side);
    s.(venue := v, late := None, sync := Disturbed(s.sync),
       orphans := if isOrphan then s.orphans + {v.row.value.id} else s.orphans)
  }

  /** Unreported, and neither at most half of the position nor all of it. */
  predicate IsOversized(s: State, cap: Option<real>) {
    !s.reports && cap.Some? && s.venue.row.Some? && s.venue.row.value.qty < 2.0 * cap.value
      && cap.value < s.venue.row.value.qty
  }

  /** A crash: what lived in memory is gone, requests on the wire are lost, the sidecar file stays. */
  function Restarted(s: State): State {
    s.(wire := None, cache := None, expected := None, epoch := 0, sync := None, job := None, open := None,
       orphans := if s.venue.row.Some? && s.meta.None? then s.orphans + {s.venue.row.value.id} else s.orphans)
  }

  /** A late entry that lands when nothing waits for it any more is an orphan. */
  function Delivered(s: State): State
    requires s.wire.Some?
  {
    var v := Deliver(s.venue, s.wire.value);
    var isLate := v != s.venue && s.open.Some? && s.open.value.at.EntrySettled?;
    var isOrphan := isLate && s.meta.None? && v.row.Some? && s.expected.None?;
    s.(venue := v,
       orphans := if isOrphan then s.orphans + {v.row.value.id} else s.orphans,
       sync := if isLate then Disturbed(s.sync) else s.sync)
  }

  function Do(s: State, step: Step): State
    requires Can(s, step)
  {
    match step
    case DeliverWire => Delivered(s)
    case LandLate => Landed(s)
    case Liquidate => s.(venue := s.venue.(row := None, ended := s.venue.ended + {s.venue.row.value.id}),
                         sync := Disturbed(s.sync))
    case OtherOrderSettles => s.(epoch := s.epoch + 1)
    case SyncStart(preOpen) => s.(sync := Some(Sync(s.epoch, preOpen, None, false)))
    case SyncRead => s.(sync := Some(s.sync.value.(snapshot := Some(s.venue.row), disturbed := false)))
    case SyncFail => s.(sync := None)
    case SyncFinish(env) =>
      var r := Refreshed(s, env);
      if s.sync.value.preOpen.Some? then Decide(r, s.sync.value.preOpen.value) else r
    case UpdateStops(strategy, stopLoss, takeProfit) =>
      if s.meta.None? || s.meta.value.external || s.meta.value.owner != strategy then s
      else s.(meta := Some(s.meta.value.(stopLoss := Some(stopLoss), takeProfit := takeProfit)))
    case StartExit(reason, price, cap) =>
      WithJob(s, reason, price, cap).(oversized := if IsOversized(s, cap) then s.oversized + {s.nextOrder}
                                      else s.oversized)
    case ExitRetry => s.(job := Some(s.job.value.(at := if s.job.value.sent.Some? then LookingUp else Reading)))
    case ExitLookup(answer, now) =>
      (match answer
       case Hit => Completed(s, now)
       case Miss => s.(job := Some(s.job.value.(at := Reading)))
       case LookupDown(isDropped) => OutageAt(s, isDropped))
    case ExitRead(mark) => ReadForExit(s, mark)
    case ExitReadDown(isDropped) => OutageAt(s, isDropped)
    case ExitBreak => Abandoned(s)
    case ExitReply(reply) =>
      (match reply
       case Confirmed(now) => Completed(s, now)
       case Refused => Abandoned(s)
       case Lost(now, isDropped) => OutageAt(s, isDropped))
    case ExitResidual(isDown, now) => ResidualChecked(s, isDown, now)
    case ExitRelease => s.(job := None, wire := None)
    case FlipEnter => EnterWith(s, s.open.value.params, false, true)
    case FlipGiveUp => s.(open := None)
    case EntryReply(entry) => EntryDone(s, entry)
    case EntryBreak => EntryBroken(s)
    case OpenRelease => Given(s)
    case Restart => Restarted(s)
  }

  // ---------------------------------------------------------------- the conditions the guarantee needs

  function RowId(row: Option<Row>): Option<nat> {
    if row.Some? then Some(row.value.id) else None
  }

  /** The broker's view is the exchange's, and a flat symbol has no sidecar entry left to settle. */
  predicate ViewIsCurrent(s: State) {
    RowId(s.cache) == RowId(s.venue.row) && (s.cache.None? ==> s.meta.None?)
  }

  /** The open goes ahead: the symbol looks free, or its strategy's own. */
  predicate Acts(s: State, p: OpenParams) {
    !Busy(s) && (s.cache.None? || (s.meta.Some? && !s.meta.value.external && s.meta.value.owner == p.strategy))
  }

  /** An empty cache hides a position that the same strategy opened, on the side it wants to add to. */
  predicate AddsToOwn(s: State, p: OpenParams) {
    && s.cache.None? && (s.meta.Some? ==> !s.meta.value.external)
    && s.venue.row.Some? && s.venue.row.value.side == p.side
    && s.venue.row.value.id < |s.venue.openers| && s.venue.openers[s.venue.row.value.id] == p.strategy
  }

  /**
   * No entry of a running open can still land where the position was: there is none yet, or it has filled; and a flip's
   * close has been sized, so that it cannot pass for done.
   */
  predicate StrikesSafely(s: State) {
    s.open.Some? ==>
      match s.open.value.at
      case Flipping => s.job.Some? && s.job.value.at.Submitted?
      case FlipFailed => true
      case _ => s.open.value.id in s.venue.fills
  }

  /** The open decides on what the exchange holds, or adds to a position of its own. */
  predicate DecidesRightly(s: State, p: OpenParams) {
    Acts(s, p) ==> ViewIsCurrent(s) || AddsToOwn(s, p)
  }

  /** An order of this size leaves nothing behind, or as much as is asked for again at this cap. */
  predicate IsStable(cap: real, qty: real, held: real) {
    held == qty || Min(cap, held - qty) == qty
  }

  /** A partial exit of a position of this size asks for the same before and after its own fill. */
  predicate KeepsSize(fills: map<OrderId, Fill>, job: Job, held: real)
    requires job.cap.Some?
  {
    if job.id in fills then job.at.Reading? ==> Min(job.cap.value, held) == fills[job.id].qty
    else
      && IsStable(job.cap.value, Min(job.cap.value, held), held)
      && (job.sent.Some? ==> IsStable(job.cap.value, job.sent.value.qty, held))
  }

  /**
   * A late entry finds the symbol flat with nothing owed, no flip waiting to enter and no exit that would take it for
   * its own position; or it adds to a position no exit of which is sized and unfinished, unless that is a partial one
   * which the addition leaves at its size.
   */
  predicate LandsSafely(s: State)
    requires s.late.Some?
  {
    var held := s.late.value.request.qty + (if s.venue.row.Some? then s.venue.row.value.qty else 0.0);
    && (s.venue.row.None? ==> s.meta.None? && (s.open.Some? ==> s.open.value.at.FlipFailed?))
    && (s.job.Some? && !s.job.value.at.ExitSettled? ==>
          match s.job.value.cap
          case None => s.venue.row.Some? && s.job.value.sent.None?
          case Some(cap) =>
            && (s.venue.row.None? ==> cap < held)
            && (s.reports || s.job.value.id in s.oversized || KeepsSize(s.venue.fills, s.job.value, held)))
  }

  /**
   * What must be seen to. An open that goes ahead does so on a current view, or adds to a position of its own; a full
   * exit starts only when the sidecar knows the position it is to close; a liquidation strikes only a position the
   * sidecar knows, with no entry of a running open still to land in its place; a flip gives the symbol up only once a
   * refresh has shown it the new position; an entry is taken for rejected only while no other strategy awaits one on
   * its side; an entry its open gave up lands where it is harmless.
   */
  predicate Careful(s: State, step: Step)
    requires Can(s, step)
  {
    match step
    case SyncFinish(env) =>
      s.sync.value.preOpen.Some? ==> DecidesRightly(Refreshed(s, env), s.sync.value.preOpen.value)
    case StartExit(reason, price, cap) =>
      s.meta.Some? || s.venue.row.None? || (cap.Some? && cap.value < s.venue.row.value.qty)
    case Liquidate => s.meta.Some? && StrikesSafely(s)
    case LandLate => LandsSafely(s)
    case EntryBreak => IsAwaited(s.expected, s.open.value.params.side) ==>
      s.expected.value.params.strategy == s.open.value.params.strategy
    case OpenRelease => s.open.value.isFlip && s.meta.Some? && s.cache.Some? ==>
      s.cache.value.side == s.open.value.params.side
    case _ => true
  }

  // ---------------------------------------------------------------- the invariant

  /** Rows with a final journal record. */
  function Finals(journal: seq<Trade>): set<nat> {
    set t | t in journal && !t.partial :: t.closed.rowId
  }

  ghost predicate VenueOk(v: Venue, nextOrder: OrderId) {
    && |v.openers| == |v.sides|
    && (v.row.Some? ==>
          var row := v.row.value;
          row.id + 1 == |v.sides| && v.sides[row.id] == row.side && row.id !in v.ended && row.qty > 0.0)
    && (forall k :: k in v.ended ==> k < |v.sides|)
    && (forall k | 0 <= k < |v.sides| :: k in v.ended || RowId(v.row) == Some(k))
    && (forall id :: id in v.fills ==> id < nextOrder && v.fills[id].rowId < |v.sides|)
  }

  predicate IsRowView(v: Venue, row: Row) {
    row.id < |v.sides| && row.side == v.sides[row.id]
  }

  /** The row a meta is about. */
  function Subject(meta: Meta): nat {
    if meta.lastSeen.Some? then meta.lastSeen.value.rowId else 0
  }

  ghost predicate MetaOk(v: Venue, meta: Option<Meta>, orphans: set<nat>) {
    meta.Some? ==>
      && meta.value.lastSeen.Some?
      && var seen := meta.value.lastSeen.value;
      && seen.rowId < |v.sides| && seen.side == v.sides[seen.rowId]
      && (v.row.Some? ==> v.row.value.id == seen.rowId)
      && (meta.value.external ==> seen.rowId in orphans)
  }

  /** Rows that ended and are not journaled yet: at most the one the sidecar still has an entry for. */
  function Owed(s: State): set<nat> {
    if s.meta.Some? && s.venue.row.None? then {Subject(s.meta.value)} else {}
  }

  ghost predicate JournalOk(s: State) {
    && (forall i, j | 0 <= i < j < |s.journal| && !s.journal[i].partial && !s.journal[j].partial ::
          s.journal[i].closed.rowId != s.journal[j].closed.rowId)
    && Finals(s.journal) !! Owed(s)
    && s.venue.ended == Finals(s.journal) + Owed(s)
  }

  ghost predicate CacheOk(v: Venue, cache: Option<Row>, meta: Option<Meta>, open: Option<OpenTask>) {
    cache.Some? ==>
      && IsRowView(v, cache.value)
      && (meta.Some? && cache.value.id != Subject(meta.value) ==>
            open.Some? && open.value.isFlip && open.value.at.EntrySettled?
              && cache.value.side != open.value.params.side)
  }

  /** A live row without a sidecar entry is being opened, is expected, or lost its opener. */
  ghost predicate UnmanagedOk(v: Venue, meta: Option<Meta>, orphans: set<nat>, expected: Option<Expected>,
                              open: Option<OpenTask>) {
    v.row.Some? && meta.None? ==>
      || v.row.value.id in orphans
      || IsAwaited(expected, v.row.value.side)
      || (open.Some? && open.value.at.EntrySent? && open.value.id in v.fills)
  }

  /** An exit of a position the sidecar does not know: there is none, or the exit leaves part of it. */
  predicate IsStray(v: Venue, job: Job) {
    if v.row.None? then job.sent.None?
    else job.cap.Some? && (job.id in v.fills || job.cap.value < v.row.value.qty)
  }

  /** The job's full exit was booked. */
  predicate IsBooked(job: Job) {
    (job.at.Residual? || job.at.ExitSettled?) && !job.reason.PartialTp?
  }

  ghost predicate JobOk(v: Venue, meta: Option<Meta>, job_: Option<Job>, open: Option<OpenTask>, nextOrder: OrderId) {
    job_.Some? ==>
      var job := job_.value;
      && job.id < nextOrder
      && (job.cap.Some? <==> job.reason == PartialTp)
      && (job.cap.Some? ==> job.cap.value > 0.0)
      && (open.Some? ==> open.value.at.Flipping?)
      && (job.at.LookingUp? || job.at.Submitted? || job.at.Residual? || job.at.ExitSettled? ==> job.sent.Some?)
      && (job.id in v.fills ==> job.sent.Some?)
      && (job.at.Residual? ==> job.kept.Some? && job.reason != PartialTp)
      && (if IsBooked(job) then meta.None? && (job.at.Residual? || open.Some? ==> v.row.None?)
          else meta.Some? || IsStray(v, job))
      && (job.at.Residual? || job.at.ExitSettled? ==> job.id in v.fills)
      && (job.sent.Some? && meta.Some? ==> job.sent.value.rowId == Subject(meta.value))
      && (job.sent.Some? && meta.None? && !IsBooked(job) ==> RowId(v.row) == Some(job.sent.value.rowId))
      && (job.sent.Some? ==> job.sent.value.rowId < |v.sides| && job.sent.value.side == v.sides[job.sent.value.rowId])
      && (job.sent.Some? && job.cap.Some? ==> job.sent.value.qty <= job.cap.value)
      && (job.sent.Some? && job.id !in v.fills && v.row.Some? ==> job.sent.value.qty <= v.row.value.qty)
      && (job.sent.Some? && job.cap.None? && job.id !in v.fills && v.row.Some? ==>
          job.sent.value.qty == v.row.value.qty)
      && (job.cap.None? && job.id in v.fills && !job.at.ExitSettled? ==> v.row.None?)
  }

  ghost predicate OpenOk(v: Venue, meta: Option<Meta>, cache: Option<Row>, expected: Option<Expected>,
                         job_: Option<Job>,
                         open: Option<OpenTask>, nextOrder: OrderId)
  {
    open.Some? ==>
      var o := open.value;
      && o.params.qty > 0.0
      && (o.isFlip ==> !o.isScaleIn)
      && (match o.at
          case Flipping =>
            o.isFlip &&
            (cache.Some? ==> cache.value.side != o.params.side) &&
            (meta.Some? ==> meta.value.lastSeen.Some? && meta.value.lastSeen.value.side != o.params.side) &&
            (job_.Some? && job_.value.sent.Some? ==> job_.value.sent.value.side != o.params.side) &&
            (if job_.None? then v.row.None? && meta.None?
             else
               && job_.value.reason == Flip
               && !job_.value.at.Queued? && !job_.value.at.LookingUp?
               && (job_.value.at.Reading? ==> job_.value.sent.None? && v.row.Some?))
          case FlipFailed => job_.None?
          case EntrySent =>
            && job_.None? && o.id < nextOrder
            && (v.row.Some? ==> v.row.value.side == o.params.side)
            && (o.isScaleIn ==> meta.Some? && meta.value.owner == o.params.strategy && !meta.value.external)
            && (v.row.None? && o.id !in v.fills ==> meta.None?)
            && (o.id in v.fills ==>
                  && (v.row.None? ==> meta.Some?) && (v.row.Some? ==> v.fills[o.id].rowId == v.row.value.id)
                  && (meta.Some? ==> v.fills[o.id].rowId == Subject(meta.value))
                  && v.fills[o.id].rowId < |v.sides| && v.sides[v.fills[o.id].rowId] == o.params.side)
            && (cache.Some? && meta.None? ==>
                  RowId(cache) == RowId(v.row) || (o.isFlip && cache.value.side != o.params.side))
          case EntrySettled =>
            && job_.None? && o.id < nextOrder
            && (v.row.Some? ==> v.row.value.side == o.params.side)
            && (if meta.Some? then
                  && (v.row.None? ==> o.id in v.fills)
                  && Subject(meta.value) < |v.sides| && v.sides[Subject(meta.value)] == o.params.side
                else !o.isScaleIn && (expected.Some? ==> expected.value.params == o.params)))
  }

  ghost predicate WireOk(wire: Option<Request>, job_: Option<Job>, open: Option<OpenTask>) {
    && (job_.Some? && job_.value.sent.Some? ==> wire.Some? && wire.value.reduceOnly)
    && (open.Some? && (open.value.at.EntrySent? || open.value.at.EntrySettled?) ==>
          wire.Some? && !wire.value.reduceOnly)
    && (wire.Some? ==>
          var q := wire.value;
          && q.qty > 0.0
          && (if q.reduceOnly
              then job_.Some? && job_.value.id == q.id && job_.value.sent.Some?
                   && q.side == job_.value.sent.value.side && q.qty == job_.value.sent.value.qty
                   && q.price == job_.value.price
              else open.Some? && open.value.id == q.id && (open.value.at.EntrySent? || open.value.at.EntrySettled?)
                   && q.side == open.value.params.side))
  }

  ghost predicate LateOk(v: Venue, late: Option<Late>, job_: Option<Job>, open: Option<OpenTask>, nextOrder: OrderId) {
    late.Some? ==>
      var q := late.value.request;
      && !q.reduceOnly && q.qty > 0.0 && q.id < nextOrder && q.id !in v.fills
      && (v.row.Some? ==> v.row.value.side == q.side)
      && (job_.Some? ==> q.id != job_.value.id
                         && (job_.value.sent.Some? ==> q.side == job_.value.sent.value.side))
      && (open.Some? && open.value.at.Flipping? ==> q.side != open.value.params.side)
      && (open.Some? ==> !open.value.at.EntrySent? && !open.value.at.EntrySettled?)
  }

  /** A snapshot that will be applied shows the live row, or the one the sidecar still has to settle. */
  ghost predicate SyncOk(v: Venue, meta: Option<Meta>, sync: Option<Sync>, epoch: nat, job_: Option<Job>) {
    sync.Some? ==>
      var y := sync.value;
      && y.epoch <= epoch
      && (y.preOpen.Some? ==> y.preOpen.value.qty > 0.0)
      && (y.snapshot.Some? && y.epoch == epoch ==>
            match y.snapshot.value
            case None => meta.None? || v.row.None?
            case Some(row) =>
              && IsRowView(v, row)
              && (if meta.Some? then row.id == Subject(meta.value)
                  else RowId(v.row) == Some(row.id)
                       || (job_.Some? && job_.value.at.Residual? && job_.value.sent.Some?
                           && job_.value.sent.value.rowId == row.id)))
  }

  ghost predicate ViewsOk(s: State) {
    && VenueOk(s.venue, s.nextOrder)
    && MetaOk(s.venue, s.meta, s.orphans)
    && CacheOk(s.venue, s.cache, s.meta, s.open)
    && UnmanagedOk(s.venue, s.meta, s.orphans, s.expected, s.open)
    && SyncOk(s.venue, s.meta, s.sync, s.epoch, s.job)
  }

  ghost predicate TasksOk(s: State) {
    && JobOk(s.venue, s.meta, s.job, s.open, s.nextOrder)
    && OpenOk(s.venue, s.meta, s.cache, s.expected, s.job, s.open, s.nextOrder)
    && WireOk(s.wire, s.job, s.open)
    && LateOk(s.venue, s.late, s.job, s.open, s.nextOrder)
  }

  ghost predicate Sound(s: State) {
    ViewsOk(s) && TasksOk(s)
  }

  ghost predicate Inv(s: State) {
    Sound(s) && JournalOk(s)
  }

  // ---------------------------------------------------------------- every step keeps it: the journal

  lemma FinalsAppend(journal: seq<Trade>, trade: Trade)
    ensures Finals(journal + [trade]) == Finals(journal) + (if trade.partial then {} else {trade.closed.rowId})
  {
    assert forall t :: t in journal + [trade] <==> t in journal || t == trade;
  }

  /** Settling the one row still owed keeps the journal exact. */
  lemma SettledJournal(s: State, t: State, trade: Trade)
    requires JournalOk(s) && s.meta.Some? && s.venue.row.None?
    requires t.journal == s.journal + [trade] && Owed(t) == {} && t.venue == s.venue
    requires !trade.partial && trade.closed.rowId == Subject(s.meta.value)
    ensures JournalOk(t)
  {
    FinalsAppend(s.journal, trade);
    forall i, j | 0 <= i < j < |t.journal| && !t.journal[i].partial && !t.journal[j].partial
      ensures t.journal[i].closed.rowId != t.journal[j].closed.rowId
    {
      if j == |s.journal| { assert t.journal[i] in s.journal; assert t.journal[i].closed.rowId in Finals(s.journal); }
    }
  }

  lemma PartialJournal(s: State, t: State, trade: Trade)
    requires JournalOk(s)
    requires t.journal == s.journal + [trade] && t.meta == s.meta && t.venue == s.venue && trade.partial
    ensures JournalOk(t)
  {
    FinalsAppend(s.journal, trade);
  }

  /** Steps that book nothing: what ended and what is owed move together. */
  lemma UnbookedJournal(s: State, t: State)
    requires JournalOk(s)
    requires BooksNothing(s, t)
    ensures JournalOk(t)
  {
  }

  // ---------------------------------------------------------------- every step keeps it: the exchange

  lemma ExitLandsViews(s: State)
    requires Sound(s) && s.wire.Some? && s.wire.value.reduceOnly
    ensures ViewsOk(Delivered(s))
  {
  }

  lemma ExitLands(s: State)
    requires Sound(s) && s.wire.Some? && s.wire.value.reduceOnly
    ensures Sound(Delivered(s))
  {
    ExitLandsViews(s);
  }

  lemma EntryLandsViews(s: State)
    requires Sound(s) && s.wire.Some? && !s.wire.value.reduceOnly
    ensures ViewsOk(Delivered(s))
  {
  }

  lemma EntryLands(s: State)
    requires Sound(s) && s.wire.Some? && !s.wire.value.reduceOnly
    ensures Sound(Delivered(s))
  {
    EntryLandsViews(s);
  }

  lemma LateLands(s: State)
    requires Sound(s) && Can(s, LandLate) && Careful(s, LandLate)
    ensures Sound(Landed(s))
  {
  }

  lemma VenueStep(s: State, step: Step)
    requires Sound(s) && Can(s, step) && Careful(s, step) && (step.Liquidate? || step.SyncRead?)
    ensures Sound(Do(s, step))
  {
  }

  lemma EpochStep(s: State, step: Step)
    requires Sound(s) && Can(s, step) && (step.OtherOrderSettles? || step.SyncFail?)
    ensures Sound(Do(s, step))
  {
  }

  lemma StartStep(s: State, preOpen: Option<OpenParams>)
    requires Sound(s) && Can(s, SyncStart(preOpen))
    ensures Sound(Do(s, SyncStart(preOpen)))
  {
  }

  /** New levels change nothing else of the sidecar entry. */
  lemma LevelsChange(s: State, stopLoss: real, takeProfit: Option<real>)
    requires Sound(s) && s.meta.Some?
    ensures Sound(s.(meta := Some(s.meta.value.(stopLoss := Some(stopLoss), takeProfit := takeProfit))))
  {
    var t := s.(meta := Some(s.meta.value.(stopLoss := Some(stopLoss), takeProfit := takeProfit)));
    assert Subject(t.meta.value) == Subject(s.meta.value);
  }

  lemma LevelsStep(s: State, strategy: OwnerId, stopLoss: real, takeProfit: Option<real>)
    requires Sound(s)
    ensures Sound(Do(s, UpdateStops(strategy, stopLoss, takeProfit)))
  {
    if s.meta.Some? && !s.meta.value.external && s.meta.value.owner == strategy {
      LevelsChange(s, stopLoss, takeProfit);
    }
  }

  lemma RestartStep(s: State)
    requires Sound(s)
    ensures Sound(Restarted(s))
  {
  }

  // ---------------------------------------------------------------- every step keeps it: exits

  lemma ExitStarts(s: State, reason: Reason, price: real, cap: Option<real>)
    requires Sound(s) && Can(s, StartExit(reason, price, cap)) && Careful(s, StartExit(reason, price, cap))
    ensures Sound(WithJob(s, reason, price, cap))
  {
  }

  lemma ExitMoves(s: State, step: Step)
    requires Sound(s) && Can(s, step) && (step.ExitRetry? || (step.ExitLookup? && step.answer.Miss?))
    ensures Sound(Do(s, step))
  {
  }

  lemma ExitFindsFlat(s: State, mark: Option<real>)
    requires Sound(s) && Can(s, ExitRead(mark)) && s.venue.row.None?
    ensures Sound(ReadForExit(s, mark))
  {
  }

  lemma ExitSizes(s: State, mark: Option<real>)
    requires Sound(s) && Can(s, ExitRead(mark)) && s.venue.row.Some?
    ensures Sound(ReadForExit(s, mark))
  {
  }

  lemma OutageStep(s: State, isDropped: bool)
    requires Sound(s) && s.job.Some? && MayDrop(s, isDropped)
    requires s.job.value.at.LookingUp? || s.job.value.at.Reading? || s.job.value.at.Submitted?
    ensures Sound(OutageAt(s, isDropped))
  {
    OutageViews(s, isDropped);
    OutageTasks(s, isDropped);
  }

  lemma OutageViews(s: State, isDropped: bool)
    requires Sound(s) && s.job.Some? && MayDrop(s, isDropped)
    requires s.job.value.at.LookingUp? || s.job.value.at.Reading? || s.job.value.at.Submitted?
    ensures ViewsOk(OutageAt(s, isDropped))
  {
  }

  lemma OutageTasks(s: State, isDropped: bool)
    requires Sound(s) && s.job.Some? && MayDrop(s, isDropped)
    requires s.job.value.at.LookingUp? || s.job.value.at.Reading? || s.job.value.at.Submitted?
    ensures TasksOk(OutageAt(s, isDropped))
  {
    OutageJob(s, isDropped);
  }

  lemma OutageJob(s: State, isDropped: bool)
    requires Sound(s) && s.job.Some? && MayDrop(s, isDropped)
    requires s.job.value.at.LookingUp? || s.job.value.at.Reading? || s.job.value.at.Submitted?
    ensures var t := OutageAt(s, isDropped); JobOk(t.venue, t.meta, t.job, t.open, t.nextOrder)
  {
  }

  lemma ExitFails(s: State, step: Step)
    requires Sound(s) && (step == ExitReply(Refused) || step == ExitBreak) && Can(s, step)
    ensures Sound(Abandoned(s))
  {
  }

  /** The exchange filled the job's order, and an attempt is about to learn so. */
  predicate Confirming(s: State) {
    && s.job.Some? && s.job.value.sent.Some? && s.job.value.id in s.venue.fills
    && (s.job.value.at.LookingUp? || s.job.value.at.Submitted?)
  }

  /** What booking an exit leaves alone, and where it leaves the job. */
  predicate IsBookingOf(s: State, t: State)
    requires s.job.Some? && t.job.Some?
  {
    && t.venue == s.venue && t.cache == s.cache && t.sync == s.sync && t.open == s.open && t.wire == s.wire
    && t.nextOrder == s.nextOrder && t.late == s.late && t.expected == s.expected
    && t.meta == (if s.job.value.reason.PartialTp? then s.meta else None)
    && t.job.value.id == s.job.value.id && t.job.value.sent == s.job.value.sent
    && t.job.value.reason == s.job.value.reason && t.job.value.cap == s.job.value.cap
    && t.job.value.price == s.job.value.price
    && (t.job.value.kept == s.job.value.kept || t.job.value.kept == s.meta)
    && (if t.job.value.at.Residual? then s.meta.Some? && !s.job.value.reason.PartialTp? && t.epoch == s.epoch
        else t.job.value.at.ExitSettled? && t.epoch == s.epoch + 1)
    && (t.job.value.at.Residual? ==> t.job.value.kept == s.meta)
  }

  lemma BookingFrame(s: State, now: int)
    requires s.job.Some? && s.job.value.sent.Some? && s.job.value.id in s.venue.fills
    ensures Completed(s, now).job.Some? && IsBookingOf(s, Completed(s, now))
  {
  }

  lemma CompletedJob(s: State, t: State)
    requires Sound(s) && Confirming(s) && t.job.Some? && IsBookingOf(s, t)
    ensures JobOk(t.venue, t.meta, t.job, t.open, t.nextOrder)
  {
  }

  /** An open that waits for the exit goes on waiting, or may enter. */
  lemma CompletedOpen(s: State, t: State)
    requires Sound(s) && Confirming(s) && t.job.Some? && IsBookingOf(s, t)
    ensures OpenOk(t.venue, t.meta, t.cache, t.expected, t.job, t.open, t.nextOrder)
  {
  }

  lemma CompletedWire(s: State, t: State)
    requires TasksOk(s) && Confirming(s) && t.job.Some? && IsBookingOf(s, t)
    ensures WireOk(t.wire, t.job, t.open)
  {
  }

  lemma CompletedLate(s: State, t: State)
    requires TasksOk(s) && Confirming(s) && t.job.Some? && IsBookingOf(s, t)
    ensures LateOk(t.venue, t.late, t.job, t.open, t.nextOrder)
  {
  }

  lemma ExitCompletes(s: State, now: int)
    requires Sound(s) && Confirming(s)
    ensures TasksOk(Completed(s, now))
  {
    BookingFrame(s, now);
    CompletedJob(s, Completed(s, now));
    CompletedOpen(s, Completed(s, now));
    CompletedWire(s, Completed(s, now));
    CompletedLate(s, Completed(s, now));
  }

  lemma CompletedSync(s: State, t: State)
    requires Sound(s) && Confirming(s) && t.job.Some? && IsBookingOf(s, t)
    ensures SyncOk(t.venue, t.meta, t.sync, t.epoch, t.job)
  {
  }

  lemma CompletedUnmanaged(s: State, now: int)
    requires Sound(s) && Confirming(s)
    ensures var t := Completed(s, now); UnmanagedOk(t.venue, t.meta, t.orphans, t.expected, t.open)
  {
  }

  lemma ExitCompletesViews(s: State, now: int)
    requires Sound(s) && Confirming(s)
    ensures ViewsOk(Completed(s, now))
  {
    BookingFrame(s, now);
    CompletedSync(s, Completed(s, now));
    CompletedUnmanaged(s, now);
    assert Completed(s, now).orphans == s.orphans;
  }

  lemma CompletedInv(s: State, now: int)
    requires Inv(s) && Confirming(s)
    ensures Inv(Completed(s, now))
    ensures |Completed(s, now).journal| == |s.journal| + 1 && AddsGross(s.journal, Completed(s, now).journal)
  {
    CompletedAddsGross(s, now);
    ExitCompletes(s, now);
    ExitCompletesViews(s, now);
    BookingFrame(s, now);
    CompletedJournal(s, now);
  }

  /** What it books. */
  lemma CompletedAddsGross(s: State, now: int)
    requires s.job.Some? && s.job.value.sent.Some? && s.job.value.id in s.venue.fills
    ensures |Completed(s, now).journal| == |s.journal| + 1 && AddsGross(s.journal, Completed(s, now).journal)
  {
    var job := s.job.value;
    var qty := if s.reports then s.venue.fills[job.id].qty else job.sent.value.qty;
    ClosedTradeIsGross(s.symbol, job.sent.value.(qty := qty), job.price, job.reason, now, Some(job.id));
  }

  lemma BookingRecord(s: State, now: int)
    requires s.job.Some? && s.job.value.sent.Some? && s.job.value.id in s.venue.fills
    ensures var t := Completed(s, now);
      && |t.journal| == |s.journal| + 1 && t.journal == s.journal + [t.journal[|s.journal|]]
      && t.journal[|s.journal|].order == Some(s.job.value.id)
      && t.journal[|s.journal|].partial == s.job.value.reason.PartialTp?
      && t.journal[|s.journal|].closed.rowId == s.job.value.sent.value.rowId
      && t.journal[|s.journal|].exit == s.job.value.price
      && t.journal[|s.journal|].closed.qty == (if s.reports then s.venue.fills[s.job.value.id].qty
                                               else s.job.value.sent.value.qty)
      && t.meta == if s.job.value.reason.PartialTp? then s.meta else None
  {
  }

  lemma CompletedJournal(s: State, now: int)
    requires Inv(s) && Confirming(s)
    ensures JournalOk(Completed(s, now))
  {
    var t := Completed(s, now);
    BookingFrame(s, now);
    BookingRecord(s, now);
    var trade := t.journal[|s.journal|];
    if s.job.value.reason.PartialTp? { PartialJournal(s, t, trade); } else { SettledJournal(s, t, trade); }
  }

  lemma ExitEnds(s: State, step: Step)
    requires Sound(s) && Can(s, step) && (step.ExitResidual? || step.ExitRelease?)
    ensures Sound(Do(s, step))
  {
  }

  // ---------------------------------------------------------------- every step keeps it: opens

  lemma FlipStep(s: State, step: Step)
    requires Sound(s) && Can(s, step) && (step.FlipEnter? || step.FlipGiveUp?)
    ensures Sound(Do(s, step))
  {
  }

  lemma EntryAnswered(s: State, reply: Reply)
    requires Sound(s) && Can(s, EntryReply(reply))
    ensures Sound(EntryDone(s, reply))
  {
  }

  lemma EntryBreaks(s: State)
    requires Sound(s) && Can(s, EntryBreak)
    ensures Sound(EntryBroken(s))
  {
  }

  lemma OpenEnds(s: State)
    requires Sound(s) && Can(s, OpenRelease) && Careful(s, OpenRelease)
    ensures Sound(Do(s, OpenRelease))
  {
  }

  lemma DecideStep(s: State, p: OpenParams)
    requires Sound(s) && s.sync.None? && p.qty > 0.0
    requires DecidesRightly(s, p)
    ensures Sound(Decide(s, p))
  {
    DecideViews(s, p);
    DecideTasks(s, p);
  }

  lemma EnterViews(s: State, p: OpenParams, isScaleIn: bool)
    requires Sound(s) && s.sync.None? && !Busy(s)
    ensures ViewsOk(EnterWith(s, p, isScaleIn, false))
  {
  }

  lemma DecideViews(s: State, p: OpenParams)
    requires Sound(s) && s.sync.None? && p.qty > 0.0
    requires DecidesRightly(s, p)
    ensures ViewsOk(Decide(s, p))
  {
    if Acts(s, p) { EnterViews(s, p, s.cache.Some?); }
  }

  lemma EnterTasks(s: State, p: OpenParams, isScaleIn: bool)
    requires Sound(s) && s.sync.None? && p.qty > 0.0 && DecidesRightly(s, p) && Acts(s, p)
    requires isScaleIn <==> s.cache.Some?
    requires s.cache.Some? ==> s.cache.value.side == p.side
    ensures TasksOk(EnterWith(s, p, isScaleIn, false))
  {
  }

  lemma DecideTasks(s: State, p: OpenParams)
    requires Sound(s) && s.sync.None? && p.qty > 0.0
    requires DecidesRightly(s, p)
    ensures TasksOk(Decide(s, p))
  {
    if Acts(s, p) && (s.cache.Some? ==> s.cache.value.side == p.side) { EnterTasks(s, p, s.cache.Some?); }
  }

  // ---------------------------------------------------------------- every step keeps it: refreshes

  lemma RefreshDiscarded(s: State, env: Env)
    requires Sound(s) && Can(s, SyncFinish(env)) && s.sync.value.epoch != s.epoch
    ensures Sound(Refreshed(s, env))
  {
  }

  lemma RefreshBusyTasks(s: State, env: Env)
    requires Sound(s) && Can(s, SyncFinish(env)) && s.sync.value.epoch == s.epoch && Busy(s)
    ensures TasksOk(Refreshed(s, env))
  {
  }

  lemma RefreshBusyViews(s: State, env: Env)
    requires Sound(s) && Can(s, SyncFinish(env)) && s.sync.value.epoch == s.epoch && Busy(s)
    ensures ViewsOk(Refreshed(s, env))
  {
  }

  lemma RefreshFlat(s: State, env: Env)
    requires Sound(s) && Can(s, SyncFinish(env)) && s.sync.value.epoch == s.epoch && !Busy(s)
             && s.sync.value.snapshot.value.None?
    ensures Sound(Refreshed(s, env))
  {
  }

  lemma RefreshHeld(s: State, env: Env)
    requires Sound(s) && Can(s, SyncFinish(env)) && s.sync.value.epoch == s.epoch && !Busy(s)
             && s.sync.value.snapshot.value.Some?
    ensures Sound(Refreshed(s, env))
  {
  }

  lemma RefreshSound(s: State, env: Env)
    requires Sound(s) && Can(s, SyncFinish(env))
    ensures Sound(Refreshed(s, env))
  {
    if s.sync.value.epoch != s.epoch { RefreshDiscarded(s, env); }
    else if Busy(s) { RefreshBusyTasks(s, env); RefreshBusyViews(s, env); }
    else if s.sync.value.snapshot.value.None? { RefreshFlat(s, env); }
    else { RefreshHeld(s, env); }
  }

  /** Books exactly the row that was owed. */
  predicate BooksOwed(s: State, t: State) {
    && s.meta.Some? && s.venue.row.None? && t.venue == s.venue && Owed(t) == {} && |t.journal| == |s.journal| + 1
    && t.journal == s.journal + [t.journal[|s.journal|]]
    && !t.journal[|s.journal|].partial && t.journal[|s.journal|].closed.rowId == Subject(s.meta.value)
    && IsGross(t.journal[|s.journal|])
  }

  /** A refresh books nothing, or the one row that is owed. */
  lemma RefreshBooks(s: State, env: Env)
    requires Sound(s) && Can(s, SyncFinish(env))
    ensures BooksNothing(s, Refreshed(s, env)) || BooksOwed(s, Refreshed(s, env))
  {
    if s.sync.value.epoch == s.epoch && !Busy(s) {
      if s.sync.value.snapshot.value.None? { RefreshFlatBooks(s, env); } else { RefreshHeldBooks(s, env); }
    }
  }

  lemma RefreshFlatBooks(s: State, env: Env)
    requires Sound(s) && Can(s, SyncFinish(env)) && s.sync.value.epoch == s.epoch && !Busy(s)
             && s.sync.value.snapshot.value.None?
    ensures if s.meta.Some? then BooksOwed(s, Refreshed(s, env)) else BooksNothing(s, Refreshed(s, env))
  {
    RefreshAddsGross(s, env);
  }

  lemma RefreshAddsGross(s: State, env: Env)
    requires Can(s, SyncFinish(env))
    ensures AddsGross(s.journal, Refreshed(s, env).journal)
  {
    ReconcileAddsGross(s.symbol, Sidecar(s.meta, s.expected, s.journal), s.cache, s.sync.value.snapshot.value, Busy(s),
                       env);
  }

  lemma RefreshHeldBooks(s: State, env: Env)
    requires Sound(s) && Can(s, SyncFinish(env)) && s.sync.value.epoch == s.epoch && !Busy(s)
             && s.sync.value.snapshot.value.Some?
    ensures BooksNothing(s, Refreshed(s, env))
  {
  }

  lemma RefreshJournal(s: State, env: Env)
    requires Inv(s) && Can(s, SyncFinish(env))
    ensures JournalOk(Refreshed(s, env))
  {
    RefreshBooks(s, env);
    var t := Refreshed(s, env);
    if BooksNothing(s, t) { UnbookedJournal(s, t); } else { SettledJournal(s, t, t.journal[|s.journal|]); }
  }

  // ---------------------------------------------------------------- every step keeps it

  predicate IsConfirmation(step: Step) {
    (step.ExitLookup? && step.answer.Hit?) || (step.ExitReply? && step.reply.Confirmed?)
  }

  predicate IsExitStep(step: Step) {
    || step.StartExit? || step.ExitRetry? || step.ExitLookup? || step.ExitRead? || step.ExitReadDown?
    || step.ExitBreak? || step.ExitReply? || step.ExitResidual? || step.ExitRelease?
  }

  /** An exchange call of an attempt came back, or failed. */
  predicate IsExitCall(step: Step) {
    step.ExitLookup? || step.ExitReadDown? || step.ExitBreak? || step.ExitReply?
  }

  lemma ExitStepSound(s: State, step: Step)
    requires Sound(s) && Can(s, step) && Careful(s, step) && IsExitStep(step) && !IsConfirmation(step)
    ensures Sound(Do(s, step))
  {
    if step.StartExit? { ExitStarts(s, step.reason, step.price, step.cap); }
    else if step.ExitRetry? { ExitMoves(s, step); }
    else if step.ExitRead? { ExitReads(s, step.mark); }
    else if step.ExitResidual? || step.ExitRelease? { ExitEnds(s, step); }
    else { ExitCallFails(s, step); }
  }

  lemma ExitReads(s: State, mark: Option<real>)
    requires Sound(s) && Can(s, ExitRead(mark))
    ensures Sound(ReadForExit(s, mark))
  {
    if s.venue.row.None? { ExitFindsFlat(s, mark); } else { ExitSizes(s, mark); }
  }

  /** An exchange call of an attempt that finds nothing, is refused or fails. */
  lemma ExitCallFails(s: State, step: Step)
    requires Sound(s) && Can(s, step) && IsExitCall(step) && !IsConfirmation(step)
    ensures Sound(Do(s, step))
  {
    match step
    case ExitLookup(answer, now) => if answer.Miss? { ExitMoves(s, step); } else { OutageStep(s, answer.isDropped); }
    case ExitReadDown(isDropped) => OutageStep(s, isDropped);
    case ExitBreak => ExitFails(s, step);
    case ExitReply(reply) => if reply.Refused? { ExitFails(s, step); } else { OutageStep(s, reply.isDropped); }
  }

  lemma SoundStep(s: State, step: Step)
    requires Sound(s) && Can(s, step) && Careful(s, step) && !IsConfirmation(step)
    ensures Sound(Do(s, step))
  {
    if IsExitStep(step) { ExitStepSound(s, step); }
    else if IsOpenStep(step) { OpenStepSound(s, step); }
    else if step.DeliverWire? { if s.wire.value.reduceOnly { ExitLands(s); } else { EntryLands(s); } }
    else if step.LandLate? { LateLands(s); }
    else if step.SyncFinish? { FinishSound(s, step.env); }
    else if step.Liquidate? || step.SyncRead? { VenueStep(s, step); }
    else if step.OtherOrderSettles? || step.SyncFail? { EpochStep(s, step); }
    else if step.Restart? { RestartStep(s); }
    else if step.SyncStart? { StartStep(s, step.preOpen); }
    else { LevelsStep(s, step.strategy, step.stopLoss, step.takeProfit); }
  }

  predicate IsOpenStep(step: Step) {
    step.FlipEnter? || step.FlipGiveUp? || step.EntryReply? || step.EntryBreak? || step.OpenRelease?
  }

  lemma OpenStepSound(s: State, step: Step)
    requires Sound(s) && Can(s, step) && Careful(s, step) && IsOpenStep(step)
    ensures Sound(Do(s, step))
  {
    if step.EntryReply? { EntryAnswered(s, step.entry); }
    else if step.EntryBreak? { EntryBreaks(s); }
    else if step.OpenRelease? { OpenEnds(s); }
    else { FlipStep(s, step); }
  }

  lemma FinishSound(s: State, env: Env)
    requires Sound(s) && Can(s, SyncFinish(env)) && Careful(s, SyncFinish(env))
    ensures Sound(Do(s, SyncFinish(env)))
  {
    RefreshSound(s, env);
    if s.sync.value.preOpen.Some? { DecideStep(Refreshed(s, env), s.sync.value.preOpen.value); }
  }

  /** What every step that books nothing keeps: a row that ends is owed from then on. */
  predicate BooksNothing(s: State, t: State) {
    && t.journal == s.journal && s.venue.ended <= t.venue.ended && Owed(s) <= Owed(t)
    && t.venue.ended == s.venue.ended + (Owed(t) - Owed(s)) && s.venue.ended !! Owed(t) - Owed(s)
  }

  lemma QuietExitStep(s: State, step: Step)
    requires Sound(s) && Can(s, step) && IsExitStep(step) && !IsConfirmation(step)
    ensures BooksNothing(s, Do(s, step))
  {
    if IsExitCall(step) { QuietCall(s, step); }
  }

  lemma QuietCall(s: State, step: Step)
    requires Can(s, step) && IsExitCall(step) && !IsConfirmation(step)
    ensures BooksNothing(s, Do(s, step))
  {
    match step
    case ExitLookup(answer, now) => if answer.LookupDown? { QuietOutage(s, answer.isDropped); }
    case ExitReadDown(isDropped) => QuietOutage(s, isDropped);
    case ExitBreak =>
    case ExitReply(reply) => if reply.Lost? { QuietOutage(s, reply.isDropped); }
  }

  lemma QuietOutage(s: State, isDropped: bool)
    requires s.job.Some?
    ensures BooksNothing(s, OutageAt(s, isDropped))
  {
  }

  lemma QuietOpenStep(s: State, step: Step)
    requires Sound(s) && Can(s, step) && IsOpenStep(step)
    ensures BooksNothing(s, Do(s, step))
  {
  }

  lemma QuietDelivery(s: State)
    requires Sound(s) && Can(s, DeliverWire)
    ensures BooksNothing(s, Delivered(s))
  {
  }

  lemma QuietLanding(s: State)
    requires Sound(s) && Can(s, LandLate) && Careful(s, LandLate)
    ensures BooksNothing(s, Landed(s))
  {
  }

  lemma QuietStep(s: State, step: Step)
    requires Sound(s) && Can(s, step) && Careful(s, step) && !step.SyncFinish? && !IsConfirmation(step)
    ensures BooksNothing(s, Do(s, step))
  {
    if IsExitStep(step) { QuietExitStep(s, step); }
    else if step.LandLate? { QuietLanding(s); }
    else if step.DeliverWire? { QuietDelivery(s); }
    else if IsOpenStep(step) { QuietOpenStep(s, step); }
    else if step.Liquidate? { QuietStrike(s); }
    else { QuietOther(s, step); }
  }

  lemma QuietStrike(s: State)
    requires Sound(s) && Can(s, Liquidate) && Careful(s, Liquidate)
    ensures BooksNothing(s, Do(s, Liquidate))
  {
  }

  lemma QuietOther(s: State, step: Step)
    requires Can(s, step)
    requires step.OtherOrderSettles? || step.SyncStart? || step.SyncRead? || step.SyncFail? || step.UpdateStops?
          || step.Restart?
    ensures BooksNothing(s, Do(s, step))
  {
  }

  lemma DecideBooksNothing(s: State, p: OpenParams)
    ensures Decide(s, p).journal == s.journal && Decide(s, p).venue == s.venue && Owed(Decide(s, p)) == Owed(s)
  {
  }

  lemma FinishJournal(s: State, env: Env)
    requires Inv(s) && Can(s, SyncFinish(env))
    ensures JournalOk(Do(s, SyncFinish(env)))
  {
    RefreshJournal(s, env);
    if s.sync.value.preOpen.Some? {
      DecideBooksNothing(Refreshed(s, env), s.sync.value.preOpen.value);
      UnbookedJournal(Refreshed(s, env), Do(s, SyncFinish(env)));
    }
  }

  lemma StepInv(s: State, step: Step)
    requires Inv(s) && Can(s, step) && Careful(s, step)
    ensures Inv(Do(s, step))
  {
    if IsConfirmation(step) {
      CompletedInv(s, if step.ExitLookup? then step.now else step.reply.now);
    } else {
      SoundStep(s, step);
      if step.SyncFinish? {
        FinishJournal(s, step.env);
      } else {
        QuietStep(s, step);
        UnbookedJournal(s, Do(s, step));
      }
    }
  }
}
