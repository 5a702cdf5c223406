/** What single moves of the remote protocol mean, in terms of signed quantities, prices and times. */
module RemoteMeaning {
  import opened Common
  import opened RemoteState
  import opened RemoteReconcile
  import opened RemoteProtocol

  function Signed(side: Side, qty: real): real {
    if side.Long? then qty else -qty
  }

  /** The exchange's position in the symbol: bought less sold. */
  function Held(v: Venue): real {
    if v.row.None? then 0.0 else Signed(v.row.value.side, v.row.value.qty)
  }

  // ----- the exchange nets -----

  /**
   * What an order trades when the exchange takes it: reduce-only orders trade against their side, and only if they fit.
   */
  function Traded(v: Venue, q: Request): real {
    if q.id in v.fills then 0.0
    else if !q.reduceOnly then Signed(q.side, q.qty)
    else if v.row.Some? && v.row.value.side == q.side && q.qty <= v.row.value.qty then -Signed(q.side, q.qty)
    else 0.0
  }

  /** The exchange keeps one net position: delivering an order moves it by what the order trades, and fills it once. */
  lemma DeliveryNets(v: Venue, q: Request)
    requires q.qty > 0.0 && (v.row.Some? ==> v.row.value.qty > 0.0)
    ensures
      var after := Deliver(v, q);
      && Held(after) == Held(v) + Traded(v, q)
      && (Traded(v, q) != 0.0 <==> q.id !in v.fills && q.id in after.fills)
      && (Traded(v, q) != 0.0 ==> after.fills[q.id].qty == q.qty && after.fills[q.id].price == q.price)
      && (Traded(v, q) == 0.0 ==> after == v)
  {}

  /** A position that is only added to costs what it cost and what was added; a new or turned one costs its fill. */
  lemma DeliveryKeepsCost(v: Venue, q: Request)
    requires q.qty > 0.0 && q.id !in v.fills && !q.reduceOnly && (v.row.Some? ==> v.row.value.qty > 0.0)
    ensures
      var after := Deliver(v, q).row;
      if v.row.Some? && v.row.value.side == q.side then
        after.Some? && Worth(after.value.entry, after.value.qty) ==
                       Worth(v.row.value.entry, v.row.value.qty) + Worth(q.price, q.qty)
      else after.Some? && after.value.side == q.side ==> after.value.entry == q.price
  {
    if v.row.Some? && v.row.value.side == q.side {
      AddedKeepsCost(v.row.value, q.qty, q.price);
    }
  }

  lemma AddedKeepsCost(row: Row, qty: real, price: real)
    requires row.qty + qty != 0.0
    ensures Worth(Added(row, qty, price).entry, row.qty + qty) == Worth(row.entry, row.qty) + Worth(price, qty)
  {
    var total := Worth(row.entry, row.qty) + Worth(price, qty);
    assert Worth(total / (row.qty + qty), row.qty + qty) == total;
  }

  // ----- what an exit asks for -----

  predicate NoBetter(side: Side, price: real, other: real) {
    if side.Long? then price <= other else price >= other
  }

  /**
   * An exit that reads the position asks for all of it, or for a partial's cap when there is more, of the side it
   * found; its record will carry the position's entry and, when the sidecar knows it, its owner, risk and decision.
   */
  lemma ExitAsksForThePosition(s: State, mark: Option<real>)
    requires s.job.Some? && s.venue.row.Some?
    ensures
      var t, row, cap := ReadForExit(s, mark), s.venue.row.value, s.job.value.cap;
      && t.wire.Some? && t.job.Some? && t.job.value.sent.Some?
      && var q, sent := t.wire.value, t.job.value.sent.value;
      && q.reduceOnly && q.id == s.job.value.id && q.side == row.side == sent.side
      && q.qty == sent.qty <= row.qty && (q.qty == row.qty || cap == Some(q.qty))
      && (cap.Some? ==> q.qty <= cap.value) && (cap.None? ==> q.qty == row.qty)
      && sent.rowId == row.id && sent.entry == row.entry
      && (s.meta.Some? ==> sent.owner == s.meta.value.owner && sent.initialRisk == s.meta.value.initialRisk
                           && sent.decisionId == s.meta.value.decisionId)
      && (s.meta.None? ==> sent.owner == EXTERNAL_OWNER && sent.initialRisk.None? && sent.decisionId.None?)
  {}

  /**
   * The first attempt of a stop asks for the worse of its trigger and the market, where the market is known; every
   * other first attempt asks for its trigger, and a later attempt for what was asked before.
   */
  lemma StopsAskForTheWorse(s: State, mark: Option<real>)
    requires s.job.Some? && s.venue.row.Some?
    ensures
      var job, side, asked := s.job.value, s.venue.row.value.side, ReadForExit(s, mark).wire;
      && asked.Some? && ReadForExit(s, mark).job.Some? && ReadForExit(s, mark).job.value.price == asked.value.price
      && var price := asked.value.price;
      && (job.sent.Some? ==> price == job.price)
      && (job.sent.None? && job.reason == StopLoss && mark.Some? && mark.value > 0.0 ==>
            && NoBetter(side, price, job.trigger) && NoBetter(side, price, mark.value)
            && (price == job.trigger || price == mark.value))
      && (job.sent.None? && !(job.reason == StopLoss && mark.Some? && mark.value > 0.0) ==> price == job.trigger)
  {}

  // ----- what is remembered -----

  /**
   * The entry of a new position: under its strategy, with its levels and, where it has a stop on the losing side, with
   * the distance to it as its risk.
   */
  predicate IsRemembered(m: Meta, p: OpenParams, rowId: nat, at: int) {
    && m.owner == p.strategy && !m.external && m.openedAt == at && m.decisionId == p.decisionId
    && m.stopLoss == p.stopLoss && m.takeProfit == p.takeProfit
    && (m.initialRisk.Some? <==> p.stopLoss.Some?)
    && (p.stopLoss.Some? && NoBetter(p.side, p.stopLoss.value, p.entryPrice) ==>
          m.initialRisk.value == Signed(p.side, p.entryPrice - p.stopLoss.value))
    && m.lastSeen == Some(Seen(rowId, p.side, p.entryPrice, p.qty, p.entryPrice))
  }

  lemma EntryIsRemembered(p: OpenParams, rowId: nat, at: int)
    ensures IsRemembered(EntryMeta(p, rowId, at), p, rowId, at)
  {}

  /** The entry after a scale-in: its own levels, those it leaves out kept, and nothing else changed. */
  predicate IsScaled(after: Meta, m: Meta, p: OpenParams) {
    && (p.stopLoss.Some? ==> after.stopLoss == p.stopLoss) && (p.stopLoss.None? ==> after.stopLoss == m.stopLoss)
    && (p.takeProfit.Some? ==> after.takeProfit == p.takeProfit)
    && (p.takeProfit.None? ==> after.takeProfit == m.takeProfit)
    && after.(stopLoss := None, takeProfit := None) == m.(stopLoss := None, takeProfit := None)
  }

  lemma ScaleInKeepsLevels(m: Meta, p: OpenParams)
    ensures IsScaled(ScaledMeta(m, p), m, p)
  {}

  /** The same side, entry and quantity, and a mark less than half a percent away. */
  predicate IsClose(before: Seen, seen: Seen) {
    && before.side == seen.side && before.entry == seen.entry && before.qty == seen.qty
    && Abs(seen.mark - before.mark) < before.mark / 200.0
  }

  /**
   * The remembered view follows the exchange in side, entry and quantity, and its mark is the fresh one or within half
   * a percent of it.
   */
  lemma ViewStaysClose(m: Meta, seen: Seen)
    ensures
      var kept := WithLastSeen(m, seen).lastSeen;
      && (kept == Some(seen) || (kept.Some? && kept == m.lastSeen && IsClose(kept.value, seen)))
      && (m.lastSeen.Some? && IsClose(m.lastSeen.value, seen) ==> WithLastSeen(m, seen) == m)
  {}

  /** A risk event that can have ended a position: its liquidation, from five seconds before the opening on. */
  predicate Ends(event: RiskEvent, symbol: string, openedAt: int) {
    event.isLiquidation && event.symbol == symbol && openedAt < event.at + 5 * 1000
  }

  /**
   * A position that vanished is journaled once, from the last view of it, as the position's own: at the newest
   * liquidation that can have ended it when that carries a price, else at the last mark; without any view it is
   * dropped.
   */
  lemma VanishedIsPriced(symbol: string, c: Sidecar, meta: Meta, before: Option<Row>, env: Env)
    ensures
      var after, seen := SettleVanished(symbol, c, meta, before, env), LastView(meta, before, Get(env.marks, symbol));
      && after.meta.None? && after.expected == c.expected
      && (seen.None? ==> after.journal == c.journal)
      && (seen.Some? ==>
            && |after.journal| == |c.journal| + 1 && c.journal <= after.journal
            && IsPriced(after.journal[|c.journal|], symbol, meta, seen.value, env))
  {
    var event := LiquidationSince(env.events, symbol, meta.openedAt);
    assert forall e :: Explains(e, symbol, meta.openedAt) <==> Ends(e, symbol, meta.openedAt);
  }

  ghost predicate IsPriced(t: Trade, symbol: string, meta: Meta, seen: Seen, env: Env) {
    && t.symbol == symbol && t.closedAt == env.now && !t.partial && t.order.None?
    && t.closed == Closed(seen.rowId, meta.owner, seen.side, seen.entry, seen.qty, meta.initialRisk, meta.decisionId)
    && (if exists e :: e in env.events && Ends(e, symbol, meta.openedAt)
        then
          && t.reason == Liquidated
          && exists e :: e in env.events && Ends(e, symbol, meta.openedAt)
               && (forall f :: f in env.events && Ends(f, symbol, meta.openedAt) ==> f.at <= e.at)
               && t.exit == if e.markPrice > 0.0 then e.markPrice else seen.mark
        else t.reason == Close && t.exit == seen.mark)
  }

  /**
   * The last view is the previous snapshot at the local mark, or without one at the snapshot's own; else the persisted.
   */
  lemma LastViewIsTheNewest(meta: Meta, before: Option<Row>, mark: Option<real>)
    ensures
      var seen := LastView(meta, before, mark);
      if before.None? then seen == meta.lastSeen
      else
        && seen.Some? && seen.value.rowId == before.value.id && seen.value.side == before.value.side
        && seen.value.entry == before.value.entry && seen.value.qty == before.value.qty
        && seen.value.mark == if mark.Some? then mark.value else before.value.price
  {}

  // ----- an order from the decision to the exchange -----

  /** The entry of an open that went ahead, delivered before anything else happens. */
  function Entered(s: State): Venue
    requires s.wire.Some?
  {
    Do(s, DeliverWire).venue
  }

  /**
   * What a strategy decided is what the exchange gets: an open that sends its entry at once opens, on a flat symbol, a
   * position of the order's side, size and price in the strategy's name, and on a position of its side adds its size.
   */
  lemma EntryOpensWhatWasDecided(s: State, p: OpenParams)
    requires !Busy(s) && p.qty > 0.0 && s.nextOrder !in s.venue.fills && |s.venue.openers| == |s.venue.sides|
    requires Decide(s, p).open.Some? && Decide(s, p).open.value.at.EntrySent?
    ensures Decide(s, p).wire.Some?
    ensures
      var v := Entered(Decide(s, p));
      && (s.venue.row.None? ==>
            && v.row.Some? && v.row.value.side == p.side && v.row.value.qty == p.qty
            && v.row.value.entry == p.entryPrice && v.openers[v.row.value.id] == p.strategy)
      && (s.venue.row.Some? && s.venue.row.value.qty > 0.0 ==>
            && Held(v) == Held(s.venue) + Signed(p.side, p.qty)
            && (s.venue.row.value.side == p.side ==>
                  v.row.Some? && Worth(v.row.value.entry, v.row.value.qty) ==
                                 Worth(s.venue.row.value.entry, s.venue.row.value.qty) + Worth(p.entryPrice, p.qty)))
      && v.fills[s.nextOrder].qty == p.qty && v.fills[s.nextOrder].price == p.entryPrice
  {
    var q := Decide(s, p).wire.value;
    if s.venue.row.Some? && s.venue.row.value.qty > 0.0 {
      DeliveryNets(s.venue, q);
      DeliveryKeepsCost(s.venue, q);
    }
  }

  /** So does the entry of a flip, after its close. */
  lemma FlipEntersWhatWasDecided(s: State)
    requires Can(s, FlipEnter) && s.open.value.params.qty > 0.0
    requires s.nextOrder !in s.venue.fills && |s.venue.openers| == |s.venue.sides| && s.venue.row.None?
    ensures Do(s, FlipEnter).wire.Some?
    ensures
      var p, v := s.open.value.params, Entered(Do(s, FlipEnter));
      && v.row.Some? && v.row.value.side == p.side && v.row.value.qty == p.qty && v.row.value.entry == p.entryPrice
      && v.openers[v.row.value.id] == p.strategy
  {}

  /**
   * An exit asked for at a price asks the exchange for that price, or for the market when it is a stop and the market
   * is worse; the close of a flip asks for the price of the entry it makes room for.
   */
  lemma ExitAsksForItsPrice(s: State, reason: Reason, price: real, cap: Option<real>, mark: Option<real>)
    requires Can(s, StartExit(reason, price, cap)) && s.venue.row.Some?
    ensures
      var t := Do(Do(s, StartExit(reason, price, cap)), ExitRead(mark));
      && t.wire.Some? && NoBetter(s.venue.row.value.side, t.wire.value.price, price)
      && (reason != StopLoss ==> t.wire.value.price == price)
      && t.wire.value.id == s.nextOrder && t.job.Some? && t.job.value.reason == reason
      && t.wire.value.qty == if cap.Some? then Min(cap.value, s.venue.row.value.qty) else s.venue.row.value.qty
  {}

  lemma FlipClosesAtItsPrice(s: State, p: OpenParams, mark: Option<real>)
    requires !Busy(s) && Decide(s, p).open.Some? && Decide(s, p).open.value.at.Flipping? && s.venue.row.Some?
    ensures
      var t := Do(Decide(s, p), ExitRead(mark));
      && t.wire.Some? && t.wire.value.reduceOnly && t.wire.value.price == p.entryPrice
      && t.wire.value.qty == s.venue.row.value.qty && t.job.Some? && t.job.value.reason == Flip
      && t.open.Some? && t.open.value.params == p
  {}

  /**
   * A confirmed exit is booked once, now, for the reason it was asked for, as the position it read and at its price.
   */
  lemma ExitIsBookedAsAsked(s: State, now: int)
    requires s.job.Some? && s.job.value.sent.Some? && s.job.value.id in s.venue.fills
    ensures
      var t, job := Completed(s, now), s.job.value;
      && |t.journal| == |s.journal| + 1 && s.journal <= t.journal
      && var record := t.journal[|s.journal|];
      && record.symbol == s.symbol && record.closedAt == now && record.reason == job.reason && record.exit == job.price
      && record.closed.(qty := job.sent.value.qty) == job.sent.value && record.order == Some(job.id)
  {}

  /** New levels reach exactly the sidecar entry of the strategy that owns the position, and replace both. */
  lemma LevelsReachTheirOwner(s: State, strategy: OwnerId, stopLoss: real, takeProfit: Option<real>)
    ensures
      var t := Do(s, UpdateStops(strategy, stopLoss, takeProfit));
      && t.(meta := s.meta) == s && (t.meta.Some? <==> s.meta.Some?)
      && (s.meta.Some? ==>
            if s.meta.value.owner == strategy && !s.meta.value.external
            then t.meta.value == s.meta.value.(stopLoss := Some(stopLoss), takeProfit := takeProfit)
            else t.meta == s.meta)
  {}

  /**
   * A confirmed entry is remembered: a first one as the position it filled, opened now under its strategy; a scale-in
   * in the entry it adds to. An entry without an answer is expected instead, unless it is a scale-in.
   */
  lemma EntryIsAccountedFor(s: State, now: int)
    requires s.open.Some? && s.open.value.id in s.venue.fills
    ensures
      var o, t := s.open.value, EntryDone(s, Confirmed(now));
      && t.meta.Some? && t.expected.None?
      && if o.isScaleIn && s.meta.Some? then IsScaled(t.meta.value, s.meta.value, o.params)
         else IsRemembered(t.meta.value, o.params, s.venue.fills[o.id].rowId, now)
    ensures
      forall isDropped ::
        var o, t := s.open.value, EntryDone(s, Lost(now, isDropped));
        t.meta == s.meta && t.expected == if o.isScaleIn then s.expected else Some(Expected(o.params, now))
  {
    var p := s.open.value.params;
    EntryIsRemembered(p, s.venue.fills[s.open.value.id].rowId, now);
    if s.meta.Some? {
      ScaleInKeepsLevels(s.meta.value, p);
    }
  }
}
