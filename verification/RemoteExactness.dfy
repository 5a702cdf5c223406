/**
 * The conditions on the remote protocol are exact: every step outside them can leave an end unbooked or booked twice, a
 * record that does not match its fill, or a sidecar entry that is wrong about its position.
 */
module RemoteExactness {
  import opened Common
  import opened RemoteState
  import opened RemoteReconcile
  import opened RemoteProtocol
  import opened RemoteGuarantees
  import opened RemoteOwners
  import opened RemoteCounterexamples

  // ----- what is promised

  /** A managed position is on the side its sidecar entry says, and its strategy's own order opened it. */
  predicate SidecarIsTrue(s: State) {
    s.meta.Some? && !s.meta.value.external && s.meta.value.lastSeen.Some? ==>
      var seen := s.meta.value.lastSeen.value;
      && seen.rowId < |s.venue.sides| && seen.side == s.venue.sides[seen.rowId]
      && seen.rowId < |s.venue.openers| && s.meta.value.owner == s.venue.openers[seen.rowId]
      && seen.rowId !in s.adopted
  }

  /** How many final records row k should have by now. */
  function Due(s: State, k: nat): nat {
    if k in s.venue.ended && k !in Owed(s) then 1 else 0
  }

  /** Ends are journaled exactly once, records match their fills, and the sidecar is right. */
  ghost predicate Truthful(s: State) {
    && (forall k: nat :: FinalRecords(s.journal, k) == Due(s, k))
    && (forall t :: t in s.journal ==> MatchesFill(t, s.venue.fills, s.oversized))
    && SidecarIsTrue(s)
  }

  /** Whatever careful run follows. */
  ghost predicate StaysTrue(s: State) {
    forall more :: IsCarefulRun(s, more) && IsRun(s, more) ==> Truthful(After(s, more))
  }

  ghost predicate AllOk(s: State) {
    Inv(s) && ExitsOk(s) && OwnersOk(s)
  }

  lemma OkIsTrue(s: State)
    requires AllOk(s)
    ensures Truthful(s)
  {
    forall k: nat ensures FinalRecords(s.journal, k) == Due(s, k) { CountFinals(s.journal, k); }
  }

  lemma OkStaysTrue(s: State)
    requires AllOk(s)
    ensures StaysTrue(s)
  {
    forall more | IsCarefulRun(s, more) && IsRun(s, more) ensures Truthful(After(s, more)) {
      RunInv(s, more);
      OwnersAlways(s, more);
      OkIsTrue(After(s, more));
    }
  }

  lemma CarefulStaysTrue(s: State, step: Step)
    requires AllOk(s) && Can(s, step) && Careful(s, step)
    ensures StaysTrue(Do(s, step))
  {
    StepInv(s, step);
    ExitsStep(s, step);
    OwnersStep(s, step);
    OkStaysTrue(Do(s, step));
  }

  // ----- how it breaks

  lemma BrokenNow(s: State)
    requires !Truthful(s)
    ensures !StaysTrue(s)
  {
    assert IsCarefulRun(s, []) && IsRun(s, []) && After(s, []) == s;
  }

  /** One careful step further. */
  lemma BrokenNext(s: State, step: Step)
    requires Can(s, step) && Careful(s, step) && !StaysTrue(Do(s, step))
    ensures !StaysTrue(s)
  {
    var more :| IsCarefulRun(Do(s, step), more) && IsRun(Do(s, step), more) && !Truthful(After(Do(s, step), more));
    assert ([step] + more)[1..] == more;
    assert IsCarefulRun(s, [step] + more) && IsRun(s, [step] + more);
    assert After(s, [step] + more) == After(Do(s, step), more);
  }

  /** A row that ended has no record and is owed none. */
  lemma EndIsLost(s: State, k: nat)
    requires k in s.venue.ended && k !in Owed(s) && Unbooked(s.journal, k)
    ensures !StaysTrue(s)
  {
    NoRecords(s.journal, k);
    assert FinalRecords(s.journal, k) != Due(s, k);
    BrokenNow(s);
  }

  /** A row that still lives has just been booked as ended. */
  lemma LiveIsBooked(s: State, journal: seq<Trade>, booked: Trade)
    requires s.journal == journal + [booked] && !booked.partial && booked.closed.rowId !in s.venue.ended
    ensures !StaysTrue(s)
  {
    FinalRecordsAppend(journal, booked, booked.closed.rowId);
    assert FinalRecords(s.journal, booked.closed.rowId) != Due(s, booked.closed.rowId);
    BrokenNow(s);
  }

  lemma LiveIsUnbooked(s: State)
    requires Inv(s) && s.venue.row.Some?
    ensures Unbooked(s.journal, s.venue.row.value.id)
  {
    forall t | t in s.journal && !t.partial ensures t.closed.rowId != s.venue.row.value.id {
      assert t.closed.rowId in Finals(s.journal);
    }
  }

  lemma NextIsUnbooked(s: State)
    requires Inv(s)
    ensures Unbooked(s.journal, |s.venue.sides|)
  {
    forall t | t in s.journal && !t.partial ensures t.closed.rowId != |s.venue.sides| {
      assert t.closed.rowId in Finals(s.journal);
    }
  }

  lemma OwedIsEnded(s: State)
    requires VenueOk(s.venue, s.nextOrder) && MetaOk(s.venue, s.meta, s.orphans) && JournalOk(s)
    requires s.meta.Some? && s.venue.row.None?
    ensures var k := Subject(s.meta.value); k in s.venue.ended && k < |s.venue.sides| && Unbooked(s.journal, k)
  {
    forall t | t in s.journal && !t.partial ensures t.closed.rowId != Subject(s.meta.value) {
      assert t.closed.rowId in Finals(s.journal);
    }
  }

  // ----- exits

  /** A whole position nothing remembers is about to be exited. */
  predicate TakesUnknown(s: State) {
    && s.job.Some? && s.job.value.at.Reading? && s.job.value.id !in s.venue.fills
    && s.venue.row.Some? && s.meta.None?
    && (s.job.value.cap.Some? ==> s.venue.row.value.qty <= s.job.value.cap.value)
  }

  lemma TakingUnknownBreaks(s: State)
    requires TakesUnknown(s) && Unbooked(s.journal, s.venue.row.value.id)
    ensures !StaysTrue(s)
  {
    var read := Do(s, ExitRead(None));
    EndIsLost(Do(read, DeliverWire), s.venue.row.value.id);
    BrokenNext(read, DeliverWire);
    BrokenNext(s, ExitRead(None));
  }

  lemma StartBreaks(s: State, reason: Reason, price: real, cap: Option<real>)
    requires AllOk(s) && Can(s, StartExit(reason, price, cap)) && !Careful(s, StartExit(reason, price, cap))
    ensures !StaysTrue(Do(s, StartExit(reason, price, cap)))
  {
    LiveIsUnbooked(s);
    TakingUnknownBreaks(Do(s, StartExit(reason, price, cap)));
  }

  // ----- opens

  /** An entry is on its way while the sidecar still owes a record of the position before. */
  predicate EntersOwing(s: State) {
    && s.wire.Some? && !s.wire.value.reduceOnly && s.wire.value.id !in s.venue.fills
    && s.venue.row.None? && s.meta.Some?
  }

  lemma EnteringOwingBreaks(s: State)
    requires EntersOwing(s) && Subject(s.meta.value) in s.venue.ended && Unbooked(s.journal, Subject(s.meta.value))
    ensures !StaysTrue(s)
  {
    EndIsLost(Do(s, DeliverWire), Subject(s.meta.value));
    BrokenNext(s, DeliverWire);
  }

  /** A first entry, or a flip's, is on its way to a position of another side, another strategy's or an external one. */
  predicate EntersForeign(s: State) {
    && s.open.Some? && s.open.value.at.EntrySent? && !s.open.value.isScaleIn
    && s.open.value.id !in s.venue.fills && s.open.value.params.qty > 0.0
    && s.wire == Some(Request(s.open.value.id, s.open.value.params.strategy, false, s.open.value.params.side,
                              s.open.value.params.qty, s.open.value.params.entryPrice))
    && s.venue.row.Some?
    && var row := s.venue.row.value;
    && row.id < |s.venue.sides| == |s.venue.openers| && s.venue.sides[row.id] == row.side
    && (row.side != s.open.value.params.side || s.venue.openers[row.id] != s.open.value.params.strategy
        || row.id in s.adopted)
  }

  lemma EnteringForeignBreaks(s: State)
    requires EntersForeign(s)
    ensures !StaysTrue(s)
  {
    var landed := Do(s, DeliverWire);
    BrokenNow(Do(landed, EntryReply(Confirmed(0))));
    BrokenNext(landed, EntryReply(Confirmed(0)));
    BrokenNext(s, DeliverWire);
  }

  lemma DecisionBreaks(r: State, p: OpenParams)
    requires Sound(r) && JournalOk(r) && OwnersOk(r) && p.qty > 0.0 && !DecidesRightly(r, p)
    ensures !StaysTrue(Decide(r, p))
  {
    var d := Decide(r, p);
    if r.venue.row.Some? {
      EnteringForeignBreaks(d);
    } else {
      OwedIsEnded(r);
      if r.cache.None? || r.cache.value.side == p.side { EnteringOwingBreaks(d); } else { FlatFlipBreaks(d); }
    }
  }

  /** A flip whose close finds the position gone takes it for done, and enters while its record is owed. */
  lemma FlatFlipBreaks(d: State)
    requires d.open.Some? && d.open.value.at.Flipping? && d.job.Some? && d.job.value.at.Reading?
    requires d.nextOrder !in d.venue.fills && d.venue.row.None? && d.meta.Some?
    requires Subject(d.meta.value) in d.venue.ended && Unbooked(d.journal, Subject(d.meta.value))
    ensures !StaysTrue(d)
  {
    var flat := Do(d, ExitRead(None));
    EnteringOwingBreaks(Do(flat, FlipEnter));
    BrokenNext(flat, FlipEnter);
    BrokenNext(d, ExitRead(None));
  }

  lemma FinishBreaks(s: State, env: Env)
    requires AllOk(s) && Can(s, SyncFinish(env)) && !Careful(s, SyncFinish(env))
    ensures !StaysTrue(Do(s, SyncFinish(env)))
  {
    RefreshSound(s, env);
    RefreshJournal(s, env);
    OwnersRefresh(s, env);
    DecisionBreaks(Refreshed(s, env), s.sync.value.preOpen.value);
  }

  // ----- liquidations

  lemma LiquidationBreaks(s: State)
    requires AllOk(s) && Can(s, Liquidate) && !Careful(s, Liquidate)
    ensures !StaysTrue(Do(s, Liquidate))
  {
    LiveIsUnbooked(s);
    var t := Do(s, Liquidate);
    if s.meta.None? { EndIsLost(t, s.venue.row.value.id); }
    else if s.open.value.at.Flipping? { FlatFlipBreaks(t); }
    else { EnteringOwingBreaks(t); }
  }

  // ----- a flip given up too early

  lemma ReleaseBreaks(s: State)
    requires AllOk(s) && Can(s, OpenRelease) && !Careful(s, OpenRelease)
    ensures !StaysTrue(Do(s, OpenRelease))
  {
    if s.sync.Some? {
      FailedRefreshBreaks(s, s.(sync := None));
    } else {
      SettledFlipBreaks(s);
    }
  }

  /** The refresh that is still running may fail. */
  lemma FailedRefreshBreaks(s: State, idle: State)
    requires Inv(s) && s.sync.Some? && idle == s.(sync := None)
    requires Can(s, OpenRelease) && !Careful(s, OpenRelease)
    ensures !StaysTrue(Do(s, OpenRelease))
  {
    SettledFlipBreaks(idle);
    assert Do(Do(s, OpenRelease), SyncFail) == Do(idle, OpenRelease);
    BrokenNext(Do(s, OpenRelease), SyncFail);
  }

  lemma SettledFlipBreaks(s: State)
    requires Inv(s) && s.sync.None? && Can(s, OpenRelease) && !Careful(s, OpenRelease)
    ensures !StaysTrue(Do(s, OpenRelease))
  {
    var released := Do(s, OpenRelease);
    var read := Do(Do(released, SyncStart(None)), SyncRead);
    DoubledByRefresh(s, read);
    BrokenNext(read, SyncFinish(QUIET));
    BrokenNext(Do(released, SyncStart(None)), SyncRead);
    BrokenNext(released, SyncStart(None));
  }

  /** The refresh takes the stale row for the position that ended. */
  lemma StaleFlipBooks(s: State, read: State)
    requires s.sync.None? && Can(s, OpenRelease) && s.meta.Some? && s.cache.Some? && s.job.None?
    requires s.venue.row.Some? ==> s.cache.value.side != s.venue.row.value.side
    requires read == Do(Do(Do(s, OpenRelease), SyncStart(None)), SyncRead)
    ensures Can(read, SyncFinish(QUIET))
    ensures var t := Do(read, SyncFinish(QUIET));
      && t.venue == s.venue && |t.journal| == |s.journal| + 1 && t.journal == s.journal + [t.journal[|s.journal|]]
      && !t.journal[|s.journal|].partial && t.journal[|s.journal|].closed.rowId == s.cache.value.id
  {
  }

  lemma DoubledByRefresh(s: State, read: State)
    requires Inv(s) && s.sync.None? && Can(s, OpenRelease) && !Careful(s, OpenRelease)
    requires read == Do(Do(Do(s, OpenRelease), SyncStart(None)), SyncRead)
    ensures Can(read, SyncFinish(QUIET)) && !StaysTrue(Do(read, SyncFinish(QUIET)))
  {
    StaleFlipCache(s);
    StaleFlipBooks(s, read);
    var t, k := Do(read, SyncFinish(QUIET)), s.cache.value.id;
    CountFinals(s.journal, k);
    FinalRecordsAppend(s.journal, t.journal[|s.journal|], k);
    assert FinalRecords(t.journal, k) != Due(t, k);
    BrokenNow(t);
  }

  // ----- a late entry on a flat symbol

  /** A flip waits to enter, or for its close to be over, over a position it did not open. */
  predicate FlipsOver(t: State) {
    && t.open.Some? && t.open.value.at.Flipping? && t.open.value.isFlip && t.open.value.params.qty > 0.0
    && t.meta.None? && VenueIsCounted(t)
    && t.venue.row.Some? && t.venue.row.value.id < |t.venue.sides| == |t.venue.openers|
    && t.venue.sides[t.venue.row.value.id] == t.venue.row.value.side != t.open.value.params.side
  }

  /** No fill carries an id still to be given out. */
  predicate VenueIsCounted(t: State) {
    t.nextOrder !in t.venue.fills
  }

  lemma FlippingBreaks(t: State)
    requires FlipsOver(t) && t.job.None?
    ensures !StaysTrue(t)
  {
    EnteringForeignBreaks(Do(t, FlipEnter));
    BrokenNext(t, FlipEnter);
  }

  lemma FlipClosingBreaks(t: State)
    requires FlipsOver(t)
    requires t.job.Some? ==>
               && t.job.value.sent.Some? && (t.job.value.at.Residual? || t.job.value.at.ExitSettled?)
               && (t.job.value.at.Residual? ==> t.job.value.kept.Some?)
    ensures !StaysTrue(t)
  {
    if t.job.None? {
      FlippingBreaks(t);
    } else if t.job.value.at.ExitSettled? {
      FlippingBreaks(Do(t, ExitRelease));
      BrokenNext(t, ExitRelease);
    } else {
      var checked := Do(t, ExitResidual(true, 0));
      FlippingBreaks(Do(checked, ExitRelease));
      BrokenNext(checked, ExitRelease);
      BrokenNext(t, ExitResidual(true, 0));
    }
  }

  /** A booked exit is about to look at a position that is not the one it closed, and to take it for its residual. */
  predicate MistakesResidual(t: State) {
    && t.open.None? && t.job.Some? && t.job.value.at.Residual? && t.job.value.sent.Some? && t.job.value.kept.Some?
    && t.venue.row.Some? && t.venue.row.value.side == t.job.value.sent.value.side && t.venue.row.value.id > 0
  }

  lemma MistakenResidualBreaks(t: State)
    requires MistakesResidual(t) && Unbooked(t.journal, t.venue.row.value.id)
    ensures !StaysTrue(t)
  {
    var kept := Do(t, ExitResidual(false, 0));
    var idle := Do(kept, ExitRelease);
    EndIsLost(Do(idle, Liquidate), t.venue.row.value.id);
    BrokenNext(idle, Liquidate);
    BrokenNext(kept, ExitRelease);
    BrokenNext(t, ExitResidual(false, 0));
  }

  /** An exit that was started on a flat symbol takes the landed position for its own. */
  lemma StrayTakingBreaks(t: State)
    requires t.job.Some? && t.job.value.sent.None? && t.job.value.id !in t.venue.fills
    requires t.job.value.at.Reading? || t.job.value.at.Queued?
    requires t.venue.row.Some? && t.meta.None? && Unbooked(t.journal, t.venue.row.value.id)
    requires t.job.value.cap.Some? ==> t.venue.row.value.qty <= t.job.value.cap.value
    ensures !StaysTrue(t)
  {
    if t.job.value.at.Reading? {
      TakingUnknownBreaks(t);
    } else {
      TakingUnknownBreaks(Do(t, ExitRetry));
      BrokenNext(t, ExitRetry);
    }
  }

  // ----- a late entry under a full exit

  /** A sized full exit's order is filled, and part of the position is left. */
  predicate LeavesPart(u: State) {
    && u.job.Some? && u.job.value.sent.Some? && !u.job.value.reason.PartialTp? && u.job.value.id in u.venue.fills
    && u.venue.row.Some? && u.venue.row.value.id == u.job.value.sent.value.rowId
    && u.venue.row.value.id !in u.venue.ended
  }

  lemma BookingPartBreaks(u: State, step: Step)
    requires LeavesPart(u) && Can(u, step)
    requires step == ExitReply(Confirmed(0)) || step == ExitLookup(Hit, 0)
    ensures !StaysTrue(u)
  {
    BookingRecord(u, 0);
    var t := Do(u, step);
    LiveIsBooked(t, u.journal, t.journal[|u.journal|]);
    BrokenNext(u, step);
  }

  lemma LeavingPartBreaks(u: State)
    requires LeavesPart(u) && !u.job.value.at.Residual? && !u.job.value.at.ExitSettled?
    ensures !StaysTrue(u)
  {
    match u.job.value.at
    case Queued =>
      BookingPartBreaks(Do(u, ExitRetry), ExitLookup(Hit, 0));
      BrokenNext(u, ExitRetry);
    case LookingUp => BookingPartBreaks(u, ExitLookup(Hit, 0));
    case Reading =>
      BookingPartBreaks(Do(u, ExitRead(None)), ExitReply(Confirmed(0)));
      BrokenNext(u, ExitRead(None));
    case Submitted => BookingPartBreaks(u, ExitReply(Confirmed(0)));
  }

  // ----- a late entry under a partial exit

  /** An unreported exit's order is filled, and the next read asks for another size. */
  predicate AsksOtherwise(u: State) {
    && !u.reports && u.job.Some? && u.job.value.cap.Some? && u.job.value.at.Reading?
    && u.job.value.id in u.venue.fills && u.job.value.id !in u.oversized && u.venue.row.Some?
    && Min(u.job.value.cap.value, u.venue.row.value.qty) != u.venue.fills[u.job.value.id].qty
  }

  lemma AskingOtherwiseBreaks(u: State)
    requires AsksOtherwise(u)
    ensures !StaysTrue(u)
  {
    var read := Do(u, ExitRead(None));
    BookingRecord(read, 0);
    var t := Do(read, ExitReply(Confirmed(0)));
    assert t.journal[|read.journal|] in t.journal;
    BrokenNow(t);
    BrokenNext(read, ExitReply(Confirmed(0)));
    BrokenNext(u, ExitRead(None));
  }

  /** An unreported exit has an order on the way after which it would ask for another size. */
  predicate Unstable(u: State) {
    && !u.reports && u.job.Some? && u.job.value.cap.Some? && u.job.value.sent.Some?
    && u.job.value.id !in u.venue.fills && u.job.value.id !in u.oversized && u.venue.row.Some?
    && u.wire.Some? && u.wire.value.reduceOnly && u.wire.value.id == u.job.value.id
    && u.wire.value.side == u.venue.row.value.side && u.wire.value.qty == u.job.value.sent.value.qty
    && u.wire.value.qty <= u.venue.row.value.qty
    && !IsStable(u.job.value.cap.value, u.wire.value.qty, u.venue.row.value.qty)
  }

  lemma ReadingUnstableBreaks(u: State)
    requires Unstable(u) && u.job.value.at.Reading?
    ensures !StaysTrue(u)
  {
    AskingOtherwiseBreaks(Do(u, DeliverWire));
    BrokenNext(u, DeliverWire);
  }

  lemma UnstableBreaks(u: State)
    requires Unstable(u) && !u.job.value.at.Residual? && !u.job.value.at.ExitSettled?
    ensures !StaysTrue(u)
    decreases match u.job.value.at { case Reading => 0 case LookingUp => 1 case Queued => 2 case _ => 3 }
  {
    match u.job.value.at
    case Reading => ReadingUnstableBreaks(u);
    case LookingUp =>
      UnstableBreaks(Do(u, ExitLookup(Miss, 0)));
      BrokenNext(u, ExitLookup(Miss, 0));
    case Queued =>
      UnstableBreaks(Do(u, ExitRetry));
      BrokenNext(u, ExitRetry);
    case Submitted =>
      UnstableBreaks(Do(u, ExitReply(Lost(0, false))));
      BrokenNext(u, ExitReply(Lost(0, false)));
  }

  /** An unreported exit has filled nothing, and what it would ask for now is not what it would ask for afterwards. */
  predicate IsResizable(u: State) {
    && !u.reports && u.job.Some? && u.job.value.cap.Some? && u.venue.row.Some?
    && u.job.value.id !in u.venue.fills && u.job.value.id !in u.oversized
    && (u.job.value.at.LookingUp? || u.job.value.at.Submitted? ==> u.job.value.sent.Some?)
    && var qty := Min(u.job.value.cap.value, u.venue.row.value.qty);
    !IsStable(u.job.value.cap.value, qty, u.venue.row.value.qty)
  }

  lemma ResizingBreaks(u: State)
    requires IsResizable(u) && !u.job.value.at.Residual? && !u.job.value.at.ExitSettled?
    ensures !StaysTrue(u)
    decreases match u.job.value.at { case Reading => 0 case LookingUp => 1 case Queued => 2 case _ => 3 }
  {
    match u.job.value.at
    case Reading =>
      UnstableBreaks(Do(u, ExitRead(None)));
      BrokenNext(u, ExitRead(None));
    case LookingUp =>
      ResizingBreaks(Do(u, ExitLookup(Miss, 0)));
      BrokenNext(u, ExitLookup(Miss, 0));
    case Queued =>
      ResizingBreaks(Do(u, ExitRetry));
      BrokenNext(u, ExitRetry);
    case Submitted =>
      ResizingBreaks(Do(u, ExitReply(Lost(0, false))));
      BrokenNext(u, ExitReply(Lost(0, false)));
  }

  // ----- a late entry

  lemma OwedLandingBreaks(s: State)
    requires AllOk(s) && Can(s, LandLate) && s.venue.row.None? && s.meta.Some?
    ensures !StaysTrue(Do(s, LandLate))
  {
    OwedIsEnded(s);
    EndIsLost(Do(s, LandLate), Subject(s.meta.value));
  }

  lemma FlipLandingBreaks(s: State)
    requires AllOk(s) && Can(s, LandLate) && s.venue.row.None? && s.meta.None?
    requires s.open.Some? && !s.open.value.at.FlipFailed?
    ensures !StaysTrue(Do(s, LandLate))
  {
    FlipClosingBreaks(Do(s, LandLate));
  }

  lemma FlatLandingBreaks(s: State)
    requires AllOk(s) && Can(s, LandLate) && s.venue.row.None? && s.meta.None? && s.open.None?
    requires s.job.Some? && !s.job.value.at.ExitSettled?
    requires s.job.value.cap.Some? ==> s.late.value.request.qty <= s.job.value.cap.value
    ensures !StaysTrue(Do(s, LandLate))
  {
    NextIsUnbooked(s);
    var t := Do(s, LandLate);
    if s.job.value.at.Residual? { MistakenResidualBreaks(t); } else { StrayTakingBreaks(t); }
  }

  /** The order takes what it was sized to, and leaves what has landed. */
  lemma LandedIsPartlyTaken(s: State)
    requires Inv(s) && Can(s, LandLate) && s.venue.row.Some?
    requires s.job.Some? && s.job.value.cap.None? && s.job.value.sent.Some? && !s.job.value.at.ExitSettled?
    ensures Can(Do(s, LandLate), DeliverWire)
    ensures var u := Do(Do(s, LandLate), DeliverWire);
      LeavesPart(u) && !u.job.value.at.Residual? && !u.job.value.at.ExitSettled?
  {
  }

  lemma FullLandingBreaks(s: State)
    requires AllOk(s) && Can(s, LandLate) && s.venue.row.Some?
    requires s.job.Some? && s.job.value.cap.None? && s.job.value.sent.Some? && !s.job.value.at.ExitSettled?
    ensures !StaysTrue(Do(s, LandLate))
  {
    var t := Do(s, LandLate);
    LandedIsPartlyTaken(s);
    LeavingPartBreaks(Do(t, DeliverWire));
    BrokenNext(t, DeliverWire);
  }

  lemma PartialLandingBreaks(s: State)
    requires AllOk(s) && Can(s, LandLate) && s.job.Some? && s.job.value.cap.Some? && !s.job.value.at.ExitSettled?
    requires var held := s.late.value.request.qty + (if s.venue.row.Some? then s.venue.row.value.qty else 0.0);
      !s.reports && s.job.value.id !in s.oversized && !KeepsSize(s.venue.fills, s.job.value, held)
    requires s.venue.row.None? ==> s.meta.None?
    ensures !StaysTrue(Do(s, LandLate))
  {
    var t := Do(s, LandLate);
    if s.job.value.id in s.venue.fills { AskingOtherwiseBreaks(t); }
    else if IsResizable(t) { ResizingBreaks(t); }
    else { UnstableBreaks(t); }
  }

  lemma LandingBreaks(s: State)
    requires AllOk(s) && Can(s, LandLate) && !Careful(s, LandLate)
    ensures !StaysTrue(Do(s, LandLate))
  {
    if s.venue.row.None? && s.meta.Some? { OwedLandingBreaks(s); }
    else if s.venue.row.None? && s.open.Some? && !s.open.value.at.FlipFailed? { FlipLandingBreaks(s); }
    else if s.job.value.cap.None? {
      if s.venue.row.None? { FlatLandingBreaks(s); } else { FullLandingBreaks(s); }
    }
    else if s.venue.row.None? && s.late.value.request.qty <= s.job.value.cap.value { FlatLandingBreaks(s); }
    else { PartialLandingBreaks(s); }
  }

  // ----- an entry taken for rejected while another strategy awaits one on its side

  /** A position on an idle symbol that an expectation of its side would hand to a strategy that did not open it. */
  predicate IsMisawaited(s: State) {
    && !Busy(s) && s.venue.row.Some? && s.meta.None? && IsAwaited(s.expected, s.venue.row.value.side)
    && s.venue.row.value.id < |s.venue.openers|
    && s.venue.openers[s.venue.row.value.id] != s.expected.value.params.strategy
  }

  /** The next refresh hands it over. */
  lemma MisawaitedBreaks(s: State)
    requires IsMisawaited(s)
    ensures !StaysTrue(s)
  {
    if s.sync.Some? {
      IdleMisawaitedBreaks(Do(s, SyncFail));
      BrokenNext(s, SyncFail);
    } else {
      IdleMisawaitedBreaks(s);
    }
  }

  lemma IdleMisawaitedBreaks(s: State)
    requires IsMisawaited(s) && s.sync.None?
    ensures !StaysTrue(s)
  {
    var read := Do(Do(s, SyncStart(None)), SyncRead);
    var now := SyncFinish(Env(s.expected.value.sentAt, map[], []));
    BrokenNow(Do(read, now));
    BrokenNext(read, now);
    BrokenNext(Do(s, SyncStart(None)), SyncRead);
    BrokenNext(s, SyncStart(None));
  }

  /** Whether the entry has filled or is still to land, the position goes to the strategy that awaited another. */
  lemma EntryBreakBreaks(s: State)
    requires AllOk(s) && Can(s, EntryBreak) && !Careful(s, EntryBreak)
    ensures !StaysTrue(Do(s, EntryBreak))
  {
    var t := Do(s, EntryBreak);
    if s.venue.row.Some? {
      MisawaitedBreaks(t);
    } else {
      MisawaitedBreaks(Do(t, LandLate));
      BrokenNext(t, LandLate);
    }
  }

  // ----- every step

  lemma CarelessBreaks(s: State, step: Step)
    requires AllOk(s) && Can(s, step) && !Careful(s, step)
    ensures !StaysTrue(Do(s, step))
  {
    match step
    case SyncFinish(env) => FinishBreaks(s, env);
    case StartExit(reason, price, cap) => StartBreaks(s, reason, price, cap);
    case Liquidate => LiquidationBreaks(s);
    case EntryBreak => EntryBreakBreaks(s);
    case LandLate => LandingBreaks(s);
    case OpenRelease => ReleaseBreaks(s);
  }

  /**
   * Main result: the conditions are exact. After any careful run from an empty account, a further step leaves every
   * careful continuation with each end journaled once, each record like its fill and a sidecar that is right about its
   * position if and only if it is careful too.
   */
  lemma CarefulIff(symbol: string, reports: bool, before: seq<Step>, step: Step)
    requires IsCarefulRun(Init(symbol, reports), before) && IsRun(Init(symbol, reports), before)
    requires Can(After(Init(symbol, reports), before), step)
    ensures var s := After(Init(symbol, reports), before); Careful(s, step) <==> StaysTrue(Do(s, step))
  {
    var s := After(Init(symbol, reports), before);
    RunInv(Init(symbol, reports), before);
    OwnersAlways(Init(symbol, reports), before);
    if Careful(s, step) { CarefulStaysTrue(s, step); } else { CarelessBreaks(s, step); }
  }
}
