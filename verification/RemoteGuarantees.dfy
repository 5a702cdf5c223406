/**
 * What the protocol of RemoteProtocol.dfy guarantees over whole runs, and the runs that show its conditions are
 * needed.
 */
module RemoteGuarantees {
  import opened Common
  import opened RemoteState
  import opened RemoteReconcile
  import opened RemoteProtocol

  // ---------------------------------------------------------------- runs

  predicate IsRun(s: State, steps: seq<Step>)
    decreases |steps|
  {
    steps == [] || (Can(s, steps[0]) && IsRun(Do(s, steps[0]), steps[1..]))
  }

  function After(s: State, steps: seq<Step>): State
    requires IsRun(s, steps)
    decreases |steps|
  {
    if steps == [] then s else After(Do(s, steps[0]), steps[1..])
  }

  predicate IsCarefulRun(s: State, steps: seq<Step>)
    decreases |steps|
  {
    steps == [] || (Can(s, steps[0]) && Careful(s, steps[0]) && IsCarefulRun(Do(s, steps[0]), steps[1..]))
  }

  lemma {:induction false} CarefulRunIsRun(s: State, steps: seq<Step>)
    requires IsCarefulRun(s, steps)
    ensures IsRun(s, steps)
    decreases |steps|
  {
    if steps != [] { CarefulRunIsRun(Do(s, steps[0]), steps[1..]); }
  }

  lemma {:induction false} Extend(s: State, steps: seq<Step>, step: Step)
    requires IsRun(s, steps) && Can(After(s, steps), step)
    ensures IsRun(s, steps + [step]) && After(s, steps + [step]) == Do(After(s, steps), step)
    decreases |steps|
  {
    if steps == [] {
      assert [step][1..] == [];
    } else {
      Extend(Do(s, steps[0]), steps[1..], step);
      assert (steps + [step])[1..] == steps[1..] + [step];
    }
  }

  // ---------------------------------------------------------------- exits book what they filled

  /** An order's record carries the row, the price and, unless the order was oversized, the quantity of its one fill. */
  predicate MatchesFill(t: Trade, fills: map<OrderId, Fill>, oversized: set<OrderId>) {
    t.order.Some? ==>
      && t.order.value in fills
      && fills[t.order.value].rowId == t.closed.rowId
      && fills[t.order.value].price == t.exit
      && (t.order.value !in oversized ==> fills[t.order.value].qty == t.closed.qty)
  }

  /**
   * What an exit was last sized to is what its fill took. A partial exit of at most half the position asks for the same
   * before and after its own fill; one of the whole position leaves nothing to ask for again.
   */
  ghost predicate SizeOk(v: Venue, job: Job, reports: bool, oversized: set<OrderId>) {
    var id := job.id;
    && (id in v.fills && job.sent.Some? ==> v.fills[id].rowId == job.sent.value.rowId && v.fills[id].price == job.price)
    && (id in v.fills && job.sent.Some? && (job.cap.None? || (!reports && id !in oversized)) ==>
          v.fills[id].qty == job.sent.value.qty)
    && (job.cap.Some? && !reports && id !in oversized && v.row.Some? ==>
          KeepsSize(v.fills, job, v.row.value.qty))
  }

  ghost predicate ExitsOk(s: State) {
    && (forall t :: t in s.journal ==> MatchesFill(t, s.venue.fills, s.oversized))
    && (forall id :: id in s.oversized ==> id < s.nextOrder)
    && (forall t :: t in s.journal && t.order.Some? ==> t.order.value < s.nextOrder)
    && (forall i, j | 0 <= i < j < |s.journal| && s.journal[i].order.Some? && s.journal[j].order.Some? ::
          s.journal[i].order != s.journal[j].order)
    && (s.job.Some? ==>
          var job := s.job.value;
          && (forall t :: t in s.journal && t.order == Some(job.id) ==> job.at.Residual? || job.at.ExitSettled?)
          && SizeOk(s.venue, job, s.reports, s.oversized))
  }

  lemma ConfirmedMatches(s: State, now: int)
    requires TasksOk(s) && ExitsOk(s)
    requires s.job.Some? && s.job.value.sent.Some? && s.job.value.id in s.venue.fills
    ensures var t := Completed(s, now);
      && t.journal == s.journal + [t.journal[|s.journal|]] && t.venue == s.venue && t.reports == s.reports
      && t.oversized == s.oversized && t.nextOrder == s.nextOrder
      && t.journal[|s.journal|].order == Some(s.job.value.id)
      && MatchesFill(t.journal[|s.journal|], s.venue.fills, s.oversized)
      && t.job.Some? && t.job.value.id == s.job.value.id && t.job.value.sent == s.job.value.sent
      && t.job.value.price == s.job.value.price
      && t.job.value.cap == s.job.value.cap && (t.job.value.at.Residual? || t.job.value.at.ExitSettled?)
  {
    BookingFrame(s, now);
    BookingRecord(s, now);
  }

  lemma ConfirmedExit(s: State, now: int)
    requires TasksOk(s) && ExitsOk(s)
    requires s.job.Some? && s.job.value.sent.Some? && s.job.value.id in s.venue.fills
    requires s.job.value.at.LookingUp? || s.job.value.at.Submitted?
    ensures ExitsOk(Completed(s, now))
  {
    ConfirmedMatches(s, now);
    BookedOnce(s, Completed(s, now));
  }

  lemma BookedOnce(s: State, t: State)
    requires ExitsOk(s) && s.job.Some? && s.job.value.id < s.nextOrder
    requires s.job.value.at.LookingUp? || s.job.value.at.Submitted?
    requires |t.journal| == |s.journal| + 1 && t.journal == s.journal + [t.journal[|s.journal|]]
    requires t.venue == s.venue && t.reports == s.reports && t.oversized == s.oversized && t.nextOrder == s.nextOrder
    requires t.journal[|s.journal|].order == Some(s.job.value.id)
             && MatchesFill(t.journal[|s.journal|], s.venue.fills, s.oversized)
    requires t.job.Some? && t.job.value.id == s.job.value.id && t.job.value.sent == s.job.value.sent
             && t.job.value.price == s.job.value.price
    requires t.job.value.cap == s.job.value.cap && (t.job.value.at.Residual? || t.job.value.at.ExitSettled?)
    ensures ExitsOk(t)
  {
    forall i, j | 0 <= i < j < |t.journal| && t.journal[i].order.Some? && t.journal[j].order.Some?
      ensures t.journal[i].order != t.journal[j].order
    {
      if j == |s.journal| { assert t.journal[i] in s.journal; }
    }
  }

  lemma RefreshedExits(s: State, env: Env)
    requires Inv(s) && ExitsOk(s) && Can(s, SyncFinish(env))
    ensures ExitsOk(Refreshed(s, env))
  {
    RefreshBooks(s, env);
    var t := Refreshed(s, env);
    if BooksOwed(s, t) {
      assert t.journal[|s.journal|].order.None?;
    }
  }

  lemma DeliveredExits(s: State)
    requires Inv(s) && ExitsOk(s) && s.wire.Some?
    ensures ExitsOk(Delivered(s))
  {
    var t := Delivered(s);
    forall id | id in s.venue.fills ensures id in t.venue.fills && t.venue.fills[id] == s.venue.fills[id] {}
    forall x | x in t.journal ensures MatchesFill(x, t.venue.fills, t.oversized) {
      assert MatchesFill(x, s.venue.fills, s.oversized);
    }
  }

  lemma LandedExits(s: State)
    requires Inv(s) && ExitsOk(s) && Can(s, LandLate) && Careful(s, LandLate)
    ensures ExitsOk(Landed(s))
  {
    var t := Landed(s);
    forall id | id in s.venue.fills ensures id in t.venue.fills && t.venue.fills[id] == s.venue.fills[id] {}
    forall x | x in t.journal ensures MatchesFill(x, t.venue.fills, t.oversized) {
      assert MatchesFill(x, s.venue.fills, s.oversized);
    }
  }

  lemma OtherExits(s: State, step: Step)
    requires Inv(s) && ExitsOk(s) && Can(s, step) && Careful(s, step)
    requires !IsConfirmation(step) && !step.SyncFinish? && !step.DeliverWire?
    ensures ExitsOk(Do(s, step))
  {
    if step.LandLate? { LandedExits(s); }
    else if step.ExitRead? { ReadExits(s, step.mark); }
    else if IsExitStep(step) { QuietExits(s, step); }
    else if IsOpenStep(step) { OpenExits(s, step); }
    else { IdleExits(s, step); }
  }

  lemma OpenExits(s: State, step: Step)
    requires Inv(s) && ExitsOk(s) && Can(s, step) && IsOpenStep(step)
    ensures ExitsOk(Do(s, step))
  {
    SameExits(s, Do(s, step));
  }

  lemma IdleExits(s: State, step: Step)
    requires Inv(s) && ExitsOk(s) && Can(s, step) && !IsExitStep(step) && !IsOpenStep(step)
    requires !step.LandLate? && !step.SyncFinish? && !step.DeliverWire?
    ensures ExitsOk(Do(s, step))
  {
  }

  lemma ReadExits(s: State, mark: Option<real>)
    requires Inv(s) && ExitsOk(s) && Can(s, ExitRead(mark))
    ensures ExitsOk(ReadForExit(s, mark))
  {
  }

  lemma QuietExits(s: State, step: Step)
    requires Inv(s) && ExitsOk(s) && Can(s, step) && IsExitStep(step) && !IsConfirmation(step) && !step.ExitRead?
    ensures ExitsOk(Do(s, step))
  {
    if IsExitCall(step) { QuietCallExits(s, step); }
  }

  lemma QuietCallExits(s: State, step: Step)
    requires Inv(s) && ExitsOk(s) && Can(s, step) && IsExitCall(step)
             && !IsConfirmation(step)
    ensures ExitsOk(Do(s, step))
  {
    match step
    case ExitLookup(answer, now) => if answer.LookupDown? { OutageExits(s, answer.isDropped); }
    case ExitReadDown(isDropped) => OutageExits(s, isDropped);
    case ExitBreak =>
    case ExitReply(reply) => if reply.Lost? { OutageExits(s, reply.isDropped); }
  }

  lemma OutageExits(s: State, isDropped: bool)
    requires ExitsOk(s) && s.job.Some? && !s.job.value.at.Residual? && !s.job.value.at.ExitSettled?
    ensures ExitsOk(OutageAt(s, isDropped))
  {
  }

  /** Nothing was booked, filled or sized. */
  lemma SameExits(s: State, t: State)
    requires ExitsOk(s) && t.journal == s.journal && t.venue == s.venue && t.oversized == s.oversized
    requires s.nextOrder <= t.nextOrder && t.reports == s.reports
    requires t.job == s.job || (t.job.Some? && t.job.value.id == s.nextOrder && t.job.value.sent.None?
                                && t.job.value.cap.None?)
    requires VenueOk(s.venue, s.nextOrder)
    ensures ExitsOk(t)
  {
  }

  lemma DecidedExits(s: State, p: OpenParams)
    requires Inv(s) && ExitsOk(s)
    ensures ExitsOk(Decide(s, p))
  {
    SameExits(s, Decide(s, p));
  }

  lemma ExitsStep(s: State, step: Step)
    requires Inv(s) && ExitsOk(s) && Can(s, step) && Careful(s, step)
    ensures ExitsOk(Do(s, step))
  {
    if IsConfirmation(step) { ConfirmedExit(s, if step.ExitLookup? then step.now else step.reply.now); }
    else if step.DeliverWire? { DeliveredExits(s); }
    else if step.SyncFinish? {
      RefreshedExits(s, step.env);
      RefreshSound(s, step.env);
      RefreshJournal(s, step.env);
      if s.sync.value.preOpen.Some? { DecidedExits(Refreshed(s, step.env), s.sync.value.preOpen.value); }
    }
    else { OtherExits(s, step); }
  }

  lemma {:induction false} RunInv(s: State, steps: seq<Step>)
    requires Inv(s) && ExitsOk(s) && IsCarefulRun(s, steps)
    ensures IsRun(s, steps) && Inv(After(s, steps)) && ExitsOk(After(s, steps))
    decreases |steps|
  {
    if steps != [] {
      StepInv(s, steps[0]);
      ExitsStep(s, steps[0]);
      RunInv(Do(s, steps[0]), steps[1..]);
    }
  }

  // ---------------------------------------------------------------- main results

  /** How many final records row k has. */
  function FinalRecords(journal: seq<Trade>, k: nat): nat {
    if journal == [] then 0
    else FinalRecords(journal[1..], k) + (if !journal[0].partial && journal[0].closed.rowId == k then 1 else 0)
  }

  lemma {:induction false} CountFinals(journal: seq<Trade>, k: nat)
    requires forall i, j | 0 <= i < j < |journal| && !journal[i].partial && !journal[j].partial ::
               journal[i].closed.rowId != journal[j].closed.rowId
    ensures FinalRecords(journal, k) == if k in Finals(journal) then 1 else 0
  {
    if journal != [] {
      CountFinals(journal[1..], k);
      assert journal == [journal[0]] + journal[1..];
      FinalsPrepend(journal[0], journal[1..]);
    }
  }

  lemma FinalsPrepend(trade: Trade, journal: seq<Trade>)
    ensures Finals([trade] + journal) == Finals(journal) + (if trade.partial then {} else {trade.closed.rowId})
  {
    assert forall t :: t in [trade] + journal <==> t in journal || t == trade;
  }

  /**
   * In every interleaving, each position's end is journaled exactly once, by its exit or by the reconcile, except for
   * at most one: the position the sidecar still holds an entry for while the exchange shows the symbol flat.
   */
  lemma EndsAreJournaledOnce(symbol: string, reports: bool, steps: seq<Step>, k: nat)
    requires IsCarefulRun(Init(symbol, reports), steps)
    ensures IsRun(Init(symbol, reports), steps)
    ensures var s := After(Init(symbol, reports), steps);
      FinalRecords(s.journal, k) == if k in s.venue.ended && k !in Owed(s) then 1 else 0
  {
    RunInv(Init(symbol, reports), steps);
    CountFinals(After(Init(symbol, reports), steps).journal, k);
  }

  /**
   * The next refresh that is applied while no order is in flight, on a read the exchange still agrees with, settles
   * that one too.
   */
  lemma RefreshSettlesAll(symbol: string, reports: bool, steps: seq<Step>, env: Env, k: nat)
    requires IsCarefulRun(Init(symbol, reports), steps)
    requires IsRun(Init(symbol, reports), steps)
    requires var s := After(Init(symbol, reports), steps);
      && Can(s, SyncFinish(env)) && !Busy(s) && s.sync.value.epoch == s.epoch
      && RowId(s.sync.value.snapshot.value) == RowId(s.venue.row)
    ensures var t := Do(After(Init(symbol, reports), steps), SyncFinish(env));
      FinalRecords(t.journal, k) == if k in t.venue.ended then 1 else 0
  {
    RunInv(Init(symbol, reports), steps);
    AppliedRefreshSettles(After(Init(symbol, reports), steps), env, k);
  }

  lemma AppliedRefreshSettles(s: State, env: Env, k: nat)
    requires Inv(s) && Can(s, SyncFinish(env)) && !Busy(s) && s.sync.value.epoch == s.epoch
    requires RowId(s.sync.value.snapshot.value) == RowId(s.venue.row)
    ensures var t := Do(s, SyncFinish(env)); FinalRecords(t.journal, k) == if k in t.venue.ended then 1 else 0
  {
    var r := Refreshed(s, env);
    RefreshJournal(s, env);
    CountFinals(r.journal, k);
    if s.sync.value.preOpen.Some? { DecideBooksNothing(r, s.sync.value.preOpen.value); }
    AppliedRefreshOwesNothing(s, env);
  }

  lemma AppliedRefreshOwesNothing(s: State, env: Env)
    requires Inv(s) && Can(s, SyncFinish(env)) && !Busy(s) && s.sync.value.epoch == s.epoch
    requires RowId(s.sync.value.snapshot.value) == RowId(s.venue.row)
    ensures Owed(Refreshed(s, env)) == {}
  {
  }

  /**
   * However often an exit is attempted, it is booked at most once, and the record carries the row, the price and the
   * quantity of the one fill the exchange made under its id. Only the quantity of an oversized exit is left open: a
   * partial one of more than half its position but not all of it, on an exchange that does not report filled
   * quantities.
   */
  lemma ExitsBookTheirFill(symbol: string, reports: bool, steps: seq<Step>, i: nat)
    requires IsCarefulRun(Init(symbol, reports), steps)
    ensures IsRun(Init(symbol, reports), steps)
    ensures var s := After(Init(symbol, reports), steps);
      i < |s.journal| ==>
        && MatchesFill(s.journal[i], s.venue.fills, s.oversized)
        && forall j :: 0 <= j < |s.journal| && j != i && s.journal[i].order.Some? ==>
           s.journal[j].order != s.journal[i].order
  {
    RunInv(Init(symbol, reports), steps);
  }

  /** Whether an order counts as oversized is decided when it is enqueued. */
  lemma {:induction false} OversizedIsDecided(s: State, steps: seq<Step>, id: OrderId)
    requires IsRun(s, steps) && id < s.nextOrder
    ensures id in After(s, steps).oversized <==> id in s.oversized
    decreases |steps|
  {
    if steps != [] {
      OversizedStep(s, steps[0], id);
      OversizedIsDecided(Do(s, steps[0]), steps[1..], id);
    }
  }

  lemma OversizedStep(s: State, step: Step, id: OrderId)
    requires Can(s, step) && id < s.nextOrder
    ensures id < Do(s, step).nextOrder && (id in Do(s, step).oversized <==> id in s.oversized)
  {
    if IsExitStep(step) { OversizedExitStep(s, step, id); }
  }

  lemma OversizedExitStep(s: State, step: Step, id: OrderId)
    requires Can(s, step) && id < s.nextOrder && IsExitStep(step)
    ensures id < Do(s, step).nextOrder && (id in Do(s, step).oversized <==> id in s.oversized)
  {
  }

  lemma {:induction false} ReportsIsFixed(s: State, steps: seq<Step>)
    requires IsRun(s, steps)
    ensures After(s, steps).reports == s.reports
    decreases |steps|
  {
    if steps != [] { ReportsIsFixed(Do(s, steps[0]), steps[1..]); }
  }

  /**
   * A fill is final: no later step changes it or fills its id again, so retries under one id reduce a position once.
   */
  lemma {:induction false} FillsAreFinal(s: State, steps: seq<Step>, id: OrderId)
    requires IsRun(s, steps) && id in s.venue.fills
    ensures id in After(s, steps).venue.fills && After(s, steps).venue.fills[id] == s.venue.fills[id]
    ensures s.wire.Some? && s.wire.value.id == id ==> Deliver(s.venue, s.wire.value) == s.venue
    decreases |steps|
  {
    if steps != [] { FillsAreFinal(Do(s, steps[0]), steps[1..], id); }
  }

  /** The step put an entry order on the wire. */
  predicate SendsEntry(s: State, t: State) {
    t.open.Some? && t.open.value.at.EntrySent? && !(s.open.Some? && s.open.value.at.EntrySent?)
  }

  /** The entry now on the wire is the only order on the symbol, and respects who owns it. */
  predicate EntryIsFair(s: State, t: State) {
    && s.job.None? && t.open.Some?
    && (s.open.None? || (s.open.value.at.Flipping? && s.open.value.params == t.open.value.params))
    && (if t.venue.row.None? then t.meta.None?
        else
          && t.venue.row.value.side == t.open.value.params.side && (t.meta.Some? ==> !t.meta.value.external)
          && (AddsToOwn(t, t.open.value.params)
              || (t.meta.Some? && t.meta.value.owner == t.open.value.params.strategy
                  && Subject(t.meta.value) == t.venue.row.value.id)))
  }

  /**
   * An entry is sent only on a symbol that is flat at the exchange with nothing left to settle, or that the same
   * strategy holds on the same side: by the sidecar, or by the order that opened it; and never beside another open or
   * an exit on the symbol.
   */
  lemma EntriesRespectOwners(s: State, step: Step)
    requires Inv(s) && Can(s, step) && Careful(s, step)
    ensures SendsEntry(s, Do(s, step)) ==> EntryIsFair(s, Do(s, step))
  {
    if step.SyncFinish? {
      RefreshSound(s, step.env);
      var r := Refreshed(s, step.env);
      if s.sync.value.preOpen.Some? { DecisionIsFair(r, s.sync.value.preOpen.value); }
    } else if step.FlipEnter? {
      FlipIsFair(s);
    } else {
      if IsExitStep(step) { ExitSendsNoEntry(s, step); } else { OthersSendNoEntry(s, step); }
    }
  }

  lemma DecisionIsFair(s: State, p: OpenParams)
    requires Sound(s) && DecidesRightly(s, p)
    ensures SendsEntry(s, Decide(s, p)) ==> EntryIsFair(s, Decide(s, p))
  {
  }

  lemma FlipIsFair(s: State)
    requires Sound(s) && Can(s, FlipEnter)
    ensures EntryIsFair(s, Do(s, FlipEnter))
  {
  }

  lemma ExitSendsNoEntry(s: State, step: Step)
    requires Sound(s) && Can(s, step) && IsExitStep(step)
    ensures !SendsEntry(s, Do(s, step))
  {
    if IsExitCall(step) { CallSendsNoEntry(s, step); }
  }

  lemma CallSendsNoEntry(s: State, step: Step)
    requires Can(s, step) && IsExitCall(step)
    ensures !SendsEntry(s, Do(s, step))
  {
    ExitCallFrame(s, step);
  }

  lemma OthersSendNoEntry(s: State, step: Step)
    requires Can(s, step) && !IsExitStep(step) && !step.SyncFinish? && !step.FlipEnter?
    ensures !SendsEntry(s, Do(s, step))
  {
  }

  // ---------------------------------------------------------------- what callers can check before they act

  /**
   * While nothing disturbed it, a read in the current epoch shows the row the exchange still holds, or an order in
   * flight has yet to announce what it changed.
   */
  predicate SnapshotOk(s: State) {
    s.sync.Some? && s.sync.value.snapshot.Some? && s.sync.value.epoch == s.epoch && !s.sync.value.disturbed ==>
      || RowId(s.sync.value.snapshot.value) == RowId(s.venue.row)
      || (s.job.Some? && !s.job.value.at.ExitSettled? && s.venue.row.None?)
      || (s.open.Some? && s.open.value.at.EntrySent? && s.open.value.id in s.venue.fills)
  }

  lemma SnapshotExitStep(s: State, step: Step)
    requires TasksOk(s) && SyncOk(s.venue, s.meta, s.sync, s.epoch, s.job) && SnapshotOk(s) && Can(s, step)
             && IsExitStep(step)
    ensures SnapshotOk(Do(s, step))
  {
    if IsConfirmation(step) { SnapshotConfirmed(s, if step.ExitLookup? then step.now else step.reply.now); }
    else if IsExitCall(step) { SnapshotCall(s, step); }
  }

  lemma SnapshotCall(s: State, step: Step)
    requires TasksOk(s) && SyncOk(s.venue, s.meta, s.sync, s.epoch, s.job) && SnapshotOk(s) && Can(s, step)
             && IsExitCall(step) && !IsConfirmation(step)
    ensures SnapshotOk(Do(s, step))
  {
    match step
    case ExitLookup(answer, now) => if answer.LookupDown? { SnapshotOutage(s, answer.isDropped); }
    case ExitReadDown(isDropped) => SnapshotOutage(s, isDropped);
    case ExitBreak =>
    case ExitReply(reply) => if reply.Lost? { SnapshotOutage(s, reply.isDropped); }
  }

  lemma SnapshotOutage(s: State, isDropped: bool)
    requires SnapshotOk(s) && s.job.Some? && !s.job.value.at.ExitSettled?
             && (s.open.Some? ==> s.open.value.at.Flipping?)
    ensures SnapshotOk(OutageAt(s, isDropped))
  {
  }

  lemma SnapshotConfirmed(s: State, now: int)
    requires (s.sync.Some? ==> s.sync.value.epoch <= s.epoch) && SnapshotOk(s) && Confirming(s)
    ensures SnapshotOk(Completed(s, now))
  {
  }

  lemma SnapshotStep(s: State, step: Step)
    requires TasksOk(s) && SyncOk(s.venue, s.meta, s.sync, s.epoch, s.job) && SnapshotOk(s) && Can(s, step)
    ensures SnapshotOk(Do(s, step))
  {
    if IsExitStep(step) { SnapshotExitStep(s, step); }
    else if step.DeliverWire? { SnapshotLands(s); }
    else if IsOpenStep(step) { SnapshotOpenStep(s, step); }
    else if step.SyncFinish? { SnapshotFinish(s, step.env); }
    else if step.SyncStart? || step.SyncRead? || step.SyncFail? { SnapshotRefreshes(s, step); }
    else { SnapshotIdle(s, step); }
  }

  lemma SnapshotFinish(s: State, env: Env)
    requires Can(s, SyncFinish(env))
    ensures SnapshotOk(Do(s, SyncFinish(env)))
  {
  }

  lemma SnapshotRefreshes(s: State, step: Step)
    requires Can(s, step) && (step.SyncStart? || step.SyncRead? || step.SyncFail?)
    ensures SnapshotOk(Do(s, step))
  {
  }

  lemma SnapshotIdle(s: State, step: Step)
    requires (s.sync.Some? ==> s.sync.value.epoch <= s.epoch) && SnapshotOk(s) && Can(s, step)
    requires step.LandLate? || step.Liquidate? || step.OtherOrderSettles? || step.UpdateStops? || step.Restart?
    ensures SnapshotOk(Do(s, step))
  {
  }

  lemma SnapshotLands(s: State)
    requires TasksOk(s) && SyncOk(s.venue, s.meta, s.sync, s.epoch, s.job) && SnapshotOk(s) && s.wire.Some?
    ensures SnapshotOk(Delivered(s))
  {
  }

  lemma SnapshotOpenStep(s: State, step: Step)
    requires TasksOk(s) && SyncOk(s.venue, s.meta, s.sync, s.epoch, s.job) && SnapshotOk(s) && Can(s, step)
    requires IsOpenStep(step)
    ensures SnapshotOk(Do(s, step))
  {
  }

  /**
   * The condition on opens in the caller's terms: one goes ahead only when its refresh was applied and nothing
   * disturbed it since its read.
   */
  predicate Prudent(s: State, step: Step)
    requires Can(s, step)
  {
    match step
    case SyncFinish(env) => s.sync.value.preOpen.Some? && !Busy(s) ==>
      s.sync.value.epoch == s.epoch && !s.sync.value.disturbed
    case _ => Careful(s, step)
  }

  lemma PrudentIsCareful(s: State, step: Step)
    requires Inv(s) && SnapshotOk(s) && Can(s, step) && Prudent(s, step)
    ensures Careful(s, step)
  {
  }

  predicate IsPrudentRun(s: State, steps: seq<Step>)
    decreases |steps|
  {
    steps == [] || (Can(s, steps[0]) && Prudent(s, steps[0]) && IsPrudentRun(Do(s, steps[0]), steps[1..]))
  }

  lemma {:induction false} PrudentRunIsCareful(s: State, steps: seq<Step>)
    requires Inv(s) && SnapshotOk(s) && IsPrudentRun(s, steps)
    ensures IsCarefulRun(s, steps)
    decreases |steps|
  {
    if steps != [] {
      PrudentIsCareful(s, steps[0]);
      StepInv(s, steps[0]);
      SnapshotStep(s, steps[0]);
      PrudentRunIsCareful(Do(s, steps[0]), steps[1..]);
    }
  }

  // ---------------------------------------------------------------- frames

  /** What an exit leaves alone. */
  lemma ExitFrame(s: State, step: Step)
    requires Can(s, step) && IsExitStep(step)
    ensures var t := Do(s, step);
      && t.venue == s.venue && t.expected == s.expected && t.late == s.late && t.orphans == s.orphans
      && t.adopted == s.adopted
      && (t.open == s.open || t.open.None? || t.open.value.at.FlipFailed?)
      && (if step.StartExit? then !Busy(s) && t.meta == s.meta else s.job.Some?)
  {
    if IsExitCall(step) { ExitCallFrame(s, step); }
  }

  lemma ExitCallFrame(s: State, step: Step)
    requires Can(s, step) && IsExitCall(step)
    ensures var t := Do(s, step);
      && t.venue == s.venue && t.expected == s.expected && t.late == s.late && t.orphans == s.orphans
      && t.adopted == s.adopted
      && (t.open == s.open || t.open.None? || t.open.value.at.FlipFailed?) && s.job.Some?
  {
  }
}
