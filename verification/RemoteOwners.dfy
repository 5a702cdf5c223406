/**
 * Whose position an order touches: what holds of every run whose refreshes were applied, and what stops and targets
 * close over careful runs.
 */
module RemoteOwners {
  import opened Common
  import opened RemoteState
  import opened RemoteReconcile
  import opened RemoteProtocol
  import opened RemoteGuarantees

  // ---------------------------------------------------------------- entries after an applied refresh

  predicate IsOwn(meta: Option<Meta>, strategy: OwnerId) {
    meta.Some? ==> !meta.value.external && meta.value.owner == strategy
  }

  /** A flip's symbol is its own strategy's, as far as the sidecar says, until its close is over. */
  predicate FlipIsOwn(s: State) {
    s.open.Some? && s.open.value.at.Flipping? ==>
      && IsOwn(s.meta, s.open.value.params.strategy)
      && (s.job.Some? ==> IsOwn(s.job.value.kept, s.open.value.params.strategy))
  }

  lemma FlipIsOwnExitCall(s: State, step: Step)
    requires FlipIsOwn(s) && Can(s, step) && IsExitCall(step)
    ensures FlipIsOwn(Do(s, step))
  {
  }

  lemma FlipIsOwnExit(s: State, step: Step)
    requires FlipIsOwn(s) && Can(s, step) && IsExitStep(step)
    ensures FlipIsOwn(Do(s, step))
  {
    if IsExitCall(step) { FlipIsOwnExitCall(s, step); }
  }

  lemma FlipIsOwnRefresh(s: State, env: Env)
    requires FlipIsOwn(s) && Can(s, SyncFinish(env))
    ensures FlipIsOwn(Refreshed(s, env))
  {
  }

  lemma FlipIsOwnDecision(s: State, p: OpenParams)
    requires FlipIsOwn(s)
    ensures FlipIsOwn(Decide(s, p))
  {
  }

  lemma FlipIsOwnStep(s: State, step: Step)
    requires FlipIsOwn(s) && Can(s, step)
    ensures FlipIsOwn(Do(s, step))
  {
    if IsExitStep(step) { FlipIsOwnExit(s, step); }
    else if step.SyncFinish? {
      FlipIsOwnRefresh(s, step.env);
      if s.sync.value.preOpen.Some? { FlipIsOwnDecision(Refreshed(s, step.env), s.sync.value.preOpen.value); }
    }
  }

  lemma {:induction false} FlipIsOwnAlways(s: State, steps: seq<Step>)
    requires FlipIsOwn(s) && IsRun(s, steps)
    ensures FlipIsOwn(After(s, steps))
    decreases |steps|
  {
    if steps != [] {
      FlipIsOwnStep(s, steps[0]);
      FlipIsOwnAlways(Do(s, steps[0]), steps[1..]);
    }
  }

  /** An applied refresh of an idle symbol that shows it flat leaves no sidecar entry. */
  lemma FlatRefreshForgetsMeta(s: State, env: Env)
    requires Can(s, SyncFinish(env)) && s.sync.value.epoch == s.epoch && !Busy(s)
    ensures var r := Refreshed(s, env); !Busy(r) && (r.cache.None? ==> r.meta.None?)
  {
  }

  /** The entry just sent is the only order on the symbol, which the sidecar gives to nobody else. */
  predicate IsSoleAndOwn(s: State, t: State) {
    && s.job.None? && t.open.Some?
    && (s.open.None? || (s.open.value.at.Flipping? && s.open.value.params == t.open.value.params))
    && IsOwn(t.meta, t.open.value.params.strategy)
  }

  /**
   * In every run whatever, an entry whose refresh was applied is sent only on a symbol with no exit and no other open,
   * that the sidecar does not give to another strategy or to nobody: two concurrent opens of one symbol never both
   * send.
   */
  lemma AppliedEntriesAreSoleAndOwn(symbol: string, reports: bool, steps: seq<Step>, step: Step)
    requires IsRun(Init(symbol, reports), steps)
    requires var s := After(Init(symbol, reports), steps);
      Can(s, step) && (step.SyncFinish? ==> s.sync.value.epoch == s.epoch)
    ensures var s := After(Init(symbol, reports), steps);
      SendsEntry(s, Do(s, step)) ==> IsSoleAndOwn(s, Do(s, step))
  {
    var s := After(Init(symbol, reports), steps);
    FlipIsOwnAlways(Init(symbol, reports), steps);
    AppliedEntry(s, step);
  }

  lemma AppliedEntry(s: State, step: Step)
    requires FlipIsOwn(s) && Can(s, step) && (step.SyncFinish? ==> s.sync.value.epoch == s.epoch)
    ensures SendsEntry(s, Do(s, step)) ==> IsSoleAndOwn(s, Do(s, step))
  {
    if step.SyncFinish? {
      var r := Refreshed(s, step.env);
      if !Busy(s) { FlatRefreshForgetsMeta(s, step.env); }
      if s.sync.value.preOpen.Some? { AppliedDecision(r, s.sync.value.preOpen.value); }
    } else if IsExitStep(step) {
      ExitFrame(s, step);
    } else if !step.FlipEnter? {
      OthersSendNoEntry(s, step);
    }
  }

  lemma AppliedDecision(r: State, p: OpenParams)
    requires !Busy(r) ==> (r.cache.None? ==> r.meta.None?)
    ensures SendsEntry(r, Decide(r, p)) ==> IsSoleAndOwn(r, Decide(r, p))
  {
  }

  // ---------------------------------------------------------------- whose position a stop closes

  predicate IsStop(reason: Reason) {
    reason.StopLoss? || reason.TakeProfit?
  }

  /** A strategy's entry in the sidecar is about the row its own order opened, never one taken for external. */
  predicate MetaIsRight(v: Venue, meta: Option<Meta>, adopted: set<nat>) {
    && (forall k :: k in adopted ==> k < |v.sides|)
    && (v.row.Some? && v.row.value.id in adopted ==> meta.Some?)
    && (meta.Some? ==>
          var k := Subject(meta.value);
          && k < |v.openers|
          && (if meta.value.external then k in adopted else k !in adopted && v.openers[k] == meta.value.owner))
  }

  predicate IsEntrySent(open: Option<OpenTask>) {
    open.Some? && open.value.at.EntrySent?
  }

  /** An expectation is about the row that waits for an owner, or the entry that has yet to land. */
  predicate ExpectedIsRight(v: Venue, meta: Option<Meta>, expected: Option<Expected>, open: Option<OpenTask>,
                            late: Option<Late>) {
    && (meta.Some? && !meta.value.external && expected.Some? ==>
          && expected.value.params.strategy == meta.value.owner
          && Subject(meta.value) < |v.sides| && expected.value.params.side == v.sides[Subject(meta.value)])
    && (expected.Some? && meta.None? && v.row.Some? && !(IsEntrySent(open) && open.value.id in v.fills) ==>
          var p := expected.value.params;
          && v.row.value.id < |v.openers|
          && (p.side == v.row.value.side ==> p.strategy == v.openers[v.row.value.id]))
    && (expected.Some? && late.Some? && expected.value.params.side == late.value.request.side ==>
          expected.value.params.strategy == late.value.request.owner)
  }

  predicate EntryIsRight(v: Venue, meta: Option<Meta>, wire: Option<Request>, open: Option<OpenTask>,
                         adopted: set<nat>) {
    && (wire.Some? && !wire.value.reduceOnly && open.Some? ==> wire.value.owner == open.value.params.strategy)
    && (IsEntrySent(open) && !open.value.isScaleIn && v.row.Some? ==>
          && v.row.value.id < |v.openers| && v.openers[v.row.value.id] == open.value.params.strategy
          && v.row.value.id !in adopted)
    && (IsEntrySent(open) && !open.value.isScaleIn && open.value.id in v.fills ==>
          var k := v.fills[open.value.id].rowId;
          k < |v.openers| && v.openers[k] == open.value.params.strategy && k !in adopted)
    && (open.Some? && open.value.at.EntrySettled? && open.value.id !in v.fills && meta.Some? ==>
          !meta.value.external && meta.value.owner == open.value.params.strategy)
  }

  /** A job is sized for the owner of the position, which for a stop is a strategy that manages it. */
  predicate JobIsRight(meta: Option<Meta>, job_: Option<Job>) {
    job_.Some? && !job_.value.at.Residual? && !job_.value.at.ExitSettled? ==>
      && (IsStop(job_.value.reason) ==> meta.Some? && !meta.value.external)
      && (meta.Some? && job_.value.sent.Some? ==> job_.value.sent.value.owner == meta.value.owner)
  }

  predicate RecordIsRight(t: Trade, v: Venue, adopted: set<nat>) {
    IsStop(t.reason) ==>
      && t.order.Some? && !t.partial
      && t.closed.rowId !in adopted && t.closed.rowId < |v.openers| && v.openers[t.closed.rowId] == t.closed.owner
  }

  ghost predicate JournalIsRight(journal: seq<Trade>, v: Venue, adopted: set<nat>) {
    forall t :: t in journal ==> RecordIsRight(t, v, adopted)
  }

  ghost predicate OwnersOk(s: State) {
    && MetaIsRight(s.venue, s.meta, s.adopted)
    && ExpectedIsRight(s.venue, s.meta, s.expected, s.open, s.late)
    && EntryIsRight(s.venue, s.meta, s.wire, s.open, s.adopted)
    && JobIsRight(s.meta, s.job)
    && JournalIsRight(s.journal, s.venue, s.adopted)
  }

  lemma OwnersDelivery(s: State)
    requires Inv(s) && OwnersOk(s) && s.wire.Some?
    ensures OwnersOk(Delivered(s))
  {
    JournalGrows(s, Delivered(s));
  }

  lemma OwnersLanding(s: State)
    requires Inv(s) && OwnersOk(s) && Can(s, LandLate) && Careful(s, LandLate)
    ensures OwnersOk(Landed(s))
  {
    JournalGrows(s, Landed(s));
  }

  /** New rows change no record. */
  lemma JournalGrows(s: State, t: State)
    requires JournalIsRight(s.journal, s.venue, s.adopted) && t.journal == s.journal && t.adopted == s.adopted
    requires |s.venue.openers| <= |t.venue.openers| && s.venue.openers == t.venue.openers[..|s.venue.openers|]
    ensures JournalIsRight(t.journal, t.venue, t.adopted)
  {
  }

  lemma OwnersOther(s: State, step: Step)
    requires Inv(s) && OwnersOk(s) && Can(s, step) && Careful(s, step)
    requires step.Liquidate? || step.OtherOrderSettles? || step.SyncStart? || step.SyncRead? || step.SyncFail?
          || step.UpdateStops? || step.Restart?
    ensures OwnersOk(Do(s, step))
  {
  }

  lemma OwnersReply(s: State, reply: Reply)
    requires Inv(s) && OwnersOk(s) && Can(s, EntryReply(reply))
    ensures OwnersOk(EntryDone(s, reply))
  {
  }

  lemma OwnersBreak(s: State)
    requires Inv(s) && OwnersOk(s) && Can(s, EntryBreak) && Careful(s, EntryBreak)
    ensures OwnersOk(EntryBroken(s))
  {
  }

  lemma OwnersRelease(s: State)
    requires Inv(s) && OwnersOk(s) && Can(s, OpenRelease)
    ensures OwnersOk(Given(s))
  {
  }

  lemma OwnersOpen(s: State, step: Step)
    requires Inv(s) && OwnersOk(s) && Can(s, step) && Careful(s, step)
    requires IsOpenStep(step)
    ensures OwnersOk(Do(s, step))
  {
    if step.EntryReply? { OwnersReply(s, step.entry); }
    else if step.EntryBreak? { OwnersBreak(s); }
    else if step.OpenRelease? { OwnersRelease(s); }
    else { OwnersFlip(s, step); }
  }

  lemma OwnersFlip(s: State, step: Step)
    requires Inv(s) && OwnersOk(s) && Can(s, step) && (step.FlipEnter? || step.FlipGiveUp?)
    ensures OwnersOk(Do(s, step))
  {
  }

  lemma OwnersExit(s: State, step: Step)
    requires Inv(s) && OwnersOk(s) && Can(s, step) && Careful(s, step) && IsExitStep(step) && !IsConfirmation(step)
    ensures OwnersOk(Do(s, step))
  {
    if IsExitCall(step) { OwnersExitCall(s, step); }
  }

  lemma OwnersOutage(s: State, isDropped: bool)
    requires Inv(s) && OwnersOk(s) && s.job.Some? && MayDrop(s, isDropped)
    requires !s.job.value.at.Residual? && !s.job.value.at.ExitSettled?
    ensures OwnersOk(OutageAt(s, isDropped))
  {
  }

  lemma OwnersExitCall(s: State, step: Step)
    requires Inv(s) && OwnersOk(s) && Can(s, step) && !IsConfirmation(step)
    requires IsExitCall(step)
    ensures OwnersOk(Do(s, step))
  {
    match step
    case ExitLookup(answer, now) => if answer.LookupDown? { OwnersOutage(s, answer.isDropped); }
    case ExitReadDown(isDropped) => OwnersOutage(s, isDropped);
    case ExitBreak =>
    case ExitReply(reply) => if reply.Lost? { OwnersOutage(s, reply.isDropped); }
  }

  lemma OwnersConfirmed(s: State, now: int)
    requires Inv(s) && OwnersOk(s) && Confirming(s)
    ensures OwnersOk(Completed(s, now))
  {
    BookingFrame(s, now);
    BookingRecord(s, now);
  }

  lemma OwnersRefresh(s: State, env: Env)
    requires Inv(s) && OwnersOk(s) && Can(s, SyncFinish(env))
    ensures OwnersOk(Refreshed(s, env))
  {
    if s.sync.value.epoch == s.epoch {
      if Busy(s) { OwnersBusyRefresh(s, env); }
      else if s.sync.value.snapshot.value.None? { OwnersFlatRefresh(s, env); }
      else { OwnersHeldRefresh(s, env); }
    }
    OwnersRefreshJournal(s, env);
  }

  lemma OwnersBusyRefresh(s: State, env: Env)
    requires Inv(s) && OwnersOk(s) && Can(s, SyncFinish(env)) && s.sync.value.epoch == s.epoch && Busy(s)
    ensures var t := Refreshed(s, env);
      && MetaIsRight(t.venue, t.meta, t.adopted) && ExpectedIsRight(t.venue, t.meta, t.expected, t.open, t.late)
      && EntryIsRight(t.venue, t.meta, t.wire, t.open, t.adopted) && JobIsRight(t.meta, t.job)
  {
  }

  lemma OwnersFlatRefresh(s: State, env: Env)
    requires Inv(s) && OwnersOk(s) && Can(s, SyncFinish(env)) && s.sync.value.epoch == s.epoch && !Busy(s)
    requires s.sync.value.snapshot.value.None?
    ensures var t := Refreshed(s, env);
      && MetaIsRight(t.venue, t.meta, t.adopted) && ExpectedIsRight(t.venue, t.meta, t.expected, t.open, t.late)
      && EntryIsRight(t.venue, t.meta, t.wire, t.open, t.adopted) && JobIsRight(t.meta, t.job)
  {
  }

  lemma OwnersHeldRefresh(s: State, env: Env)
    requires Inv(s) && OwnersOk(s) && Can(s, SyncFinish(env)) && s.sync.value.epoch == s.epoch && !Busy(s)
    requires s.sync.value.snapshot.value.Some?
    ensures var t := Refreshed(s, env);
      && MetaIsRight(t.venue, t.meta, t.adopted) && ExpectedIsRight(t.venue, t.meta, t.expected, t.open, t.late)
      && EntryIsRight(t.venue, t.meta, t.wire, t.open, t.adopted) && JobIsRight(t.meta, t.job)
  {
  }

  /** A refresh books no stop, and takes only a live row for external. */
  lemma RefreshAdopts(s: State, env: Env)
    requires Sound(s) && Can(s, SyncFinish(env))
    ensures var t := Refreshed(s, env);
      && t.venue == s.venue
      && (forall k :: k in t.adopted ==> k in s.adopted || (s.venue.row.Some? && k == s.venue.row.value.id)
                                         || (s.meta.Some? && s.meta.value.external && k == Subject(s.meta.value)))
  {
    if s.sync.value.epoch == s.epoch && !Busy(s) { IdleRefreshAdopts(s, env); }
  }

  lemma IdleRefreshAdopts(s: State, env: Env)
    requires Sound(s) && Can(s, SyncFinish(env)) && s.sync.value.epoch == s.epoch && !Busy(s)
    ensures var t := Refreshed(s, env);
      forall k :: k in t.adopted ==> k in s.adopted || (s.venue.row.Some? && k == s.venue.row.value.id)
                                     || (s.meta.Some? && s.meta.value.external && k == Subject(s.meta.value))
  {
  }

  lemma RefreshRecords(s: State, env: Env)
    requires Sound(s) && Can(s, SyncFinish(env))
    ensures var t := Refreshed(s, env);
      t.journal == s.journal
      || (|t.journal| == |s.journal| + 1 && t.journal == s.journal + [t.journal[|s.journal|]]
          && !IsStop(t.journal[|s.journal|].reason))
  {
  }

  lemma OwnersRefreshJournal(s: State, env: Env)
    requires Inv(s) && OwnersOk(s) && Can(s, SyncFinish(env))
    ensures var t := Refreshed(s, env); JournalIsRight(t.journal, t.venue, t.adopted)
  {
    var t := Refreshed(s, env);
    RefreshAdopts(s, env);
    RefreshRecords(s, env);
    forall r | r in t.journal ensures RecordIsRight(r, t.venue, t.adopted) {
      if IsStop(r.reason) {
        assert r in s.journal && RecordIsRight(r, s.venue, s.adopted);
        assert r.closed.rowId in Finals(s.journal) && r.closed.rowId in s.venue.ended;
      }
    }
  }

  lemma OwnersEnter(s: State, p: OpenParams, isScaleIn: bool)
    requires Sound(s) && OwnersOk(s) && s.sync.None? && DecidesRightly(s, p) && Acts(s, p)
    requires isScaleIn <==> s.cache.Some?
    ensures OwnersOk(EnterWith(s, p, isScaleIn, false))
  {
  }

  lemma OwnersDecision(s: State, p: OpenParams)
    requires Sound(s) && OwnersOk(s) && s.sync.None? && DecidesRightly(s, p)
    ensures OwnersOk(Decide(s, p))
  {
    if Acts(s, p) { OwnersEnter(s, p, s.cache.Some?); }
  }

  lemma OwnersStep(s: State, step: Step)
    requires Inv(s) && OwnersOk(s) && Can(s, step) && Careful(s, step)
    ensures OwnersOk(Do(s, step))
  {
    if step.DeliverWire? { OwnersDelivery(s); }
    else if step.LandLate? { OwnersLanding(s); }
    else if step.SyncFinish? {
      OwnersRefresh(s, step.env);
      RefreshSound(s, step.env);
      if s.sync.value.preOpen.Some? { OwnersDecision(Refreshed(s, step.env), s.sync.value.preOpen.value); }
    }
    else if IsConfirmation(step) { OwnersConfirmed(s, if step.ExitLookup? then step.now else step.reply.now); }
    else if IsExitStep(step) { OwnersExit(s, step); }
    else if IsOpenStep(step) { OwnersOpen(s, step); }
    else { OwnersOther(s, step); }
  }

  lemma {:induction false} OwnersAlways(s: State, steps: seq<Step>)
    requires Inv(s) && OwnersOk(s) && IsCarefulRun(s, steps) && IsRun(s, steps)
    ensures OwnersOk(After(s, steps)) && Inv(After(s, steps))
    decreases |steps|
  {
    if steps != [] {
      StepInv(s, steps[0]);
      OwnersStep(s, steps[0]);
      OwnersAlways(Do(s, steps[0]), steps[1..]);
    }
  }

  /**
   * Over every careful run, through retries, stop updates and restarts, what a stop or a target closed was the
   * position of the strategy its record names, opened by that strategy's own order, and was never taken for external.
   */
  lemma StopsCloseTheirOwn(symbol: string, reports: bool, steps: seq<Step>, i: nat)
    requires IsCarefulRun(Init(symbol, reports), steps)
    ensures IsRun(Init(symbol, reports), steps)
    ensures var s := After(Init(symbol, reports), steps);
      i < |s.journal| && IsStop(s.journal[i].reason) ==>
        var t := s.journal[i];
        && t.order.Some? && t.order.value in s.venue.fills && s.venue.fills[t.order.value].rowId == t.closed.rowId
        && t.closed.rowId < |s.venue.openers| && s.venue.openers[t.closed.rowId] == t.closed.owner
        && t.closed.rowId !in s.adopted
  {
    RunInv(Init(symbol, reports), steps);
    OwnersAlways(Init(symbol, reports), steps);
    var s := After(Init(symbol, reports), steps);
    if i < |s.journal| { assert s.journal[i] in s.journal; }
  }

  /** Nor does such an order ever reduce a position that is external when it fills, booked or not. */
  lemma StopFillsSpareStrangers(symbol: string, reports: bool, steps: seq<Step>)
    requires IsCarefulRun(Init(symbol, reports), steps) && IsRun(Init(symbol, reports), steps)
    requires var s := After(Init(symbol, reports), steps);
      s.wire.Some? && s.job.Some? && IsStop(s.job.value.reason) && Deliver(s.venue, s.wire.value) != s.venue
    ensures var s := After(Init(symbol, reports), steps);
      && s.venue.row.Some? && s.venue.row.value.id !in s.adopted && s.job.value.sent.Some?
      && s.meta.Some? && !s.meta.value.external && s.venue.row.value.id < |s.venue.openers|
      && s.venue.openers[s.venue.row.value.id] == s.meta.value.owner == s.job.value.sent.value.owner
  {
    RunInv(Init(symbol, reports), steps);
    OwnersAlways(Init(symbol, reports), steps);
    StopFill(After(Init(symbol, reports), steps));
  }

  lemma StopFill(s: State)
    requires Inv(s) && OwnersOk(s) && s.wire.Some? && s.job.Some? && IsStop(s.job.value.reason)
             && Deliver(s.venue, s.wire.value) != s.venue
    ensures s.job.value.sent.Some?
    ensures s.venue.row.Some? && s.venue.row.value.id !in s.adopted && s.meta.Some? && !s.meta.value.external
    ensures s.venue.row.value.id < |s.venue.openers|
    ensures s.venue.openers[s.venue.row.value.id] == s.meta.value.owner == s.job.value.sent.value.owner
  {
  }
}
