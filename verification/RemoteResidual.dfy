/**
 * What a full exit leaves behind when a late scale-in reaches the position around its fill
 * (src/binance/remoteOrders.ts:277-312): what is left stays its owner's with the same levels, and no quantity is lost.
 */
module RemoteResidual {
  import opened Common
  import opened RemoteState
  import opened RemoteReconcile
  import opened RemoteProtocol
  import opened RemoteGuarantees
  import opened RemoteOwners
  import opened RemoteCounterexamples
  import opened RemoteAdoption

  // ----- one exit, from before its fill to its residual check

  function Held(v: Venue): real {
    if v.row.Some? then v.row.value.qty else 0.0
  }

  /** What a late entry may still add. */
  function Coming(late: Option<Late>): real {
    if late.Some? then late.value.request.qty else 0.0
  }

  /** What the order has taken. */
  function Taken(v: Venue, id: OrderId): real {
    if id in v.fills then v.fills[id].qty else 0.0
  }

  /** A full exit of a managed position that has not filled yet, with no open beside it. */
  predicate IsWholeExit(s: State) {
    && s.open.None? && s.venue.row.Some?
    && s.job.Some? && !s.job.value.reason.PartialTp? && s.job.value.id !in s.venue.fills
    && s.meta.Some? && !s.meta.value.external
  }

  /**
   * The job goes on: no crash, no liquidation, no failure for good, not dropped on an outage, and not found flat before
   * it is booked.
   */
  predicate GoesOn(s: State, step: Step) {
    match step
    case Restart => false
    case Liquidate => false
    case ExitRelease => false
    case ExitBreak => false
    case ExitResidual(isDown, now) => false
    case ExitRead(mark) => s.venue.row.Some?
    case ExitReadDown(isDropped) => !isDropped
    case ExitLookup(answer, now) => answer.LookupDown? ==> !answer.isDropped
    case ExitReply(reply) => !reply.Refused? && (reply.Lost? ==> !reply.isDropped)
    case _ => true
  }

  /**
   * Whatever else is interleaved: deliveries, the late entry, lost replies, retries, refreshes, stop moves, and opens
   * that find the symbol busy.
   */
  predicate IsExitRun(s: State, steps: seq<Step>)
    decreases |steps|
  {
    steps == [] || (Can(s, steps[0]) && GoesOn(s, steps[0]) && IsExitRun(Do(s, steps[0]), steps[1..]))
  }

  /** Everything but the levels, the opening time and the last view. */
  predicate SameOwner(m: Meta, was: Meta) {
    && m.owner == was.owner && m.initialRisk == was.initialRisk && m.decisionId == was.decisionId
    && m.external == was.external
  }

  predicate SameLevels(m: Meta, was: Meta) {
    m.stopLoss == was.stopLoss && m.takeProfit == was.takeProfit
  }

  /** The job is never sized again after its own fill. */
  predicate IsMeasuredOnce(s: State, steps: seq<Step>)
    requires IsRun(s, steps)
    decreases |steps|
  {
    steps == [] ||
    ((steps[0].ExitRead? && s.job.Some? ==> s.job.value.id !in s.venue.fills)
     && IsMeasuredOnce(Do(s, steps[0]), steps[1..]))
  }

  /**
   * Who the position is of, and what it must add up to; whether its levels stand, and whether the record's quantity is
   * sure to be the fill's.
   */
  datatype Account = Account(id: OrderId, side: Side, whole: real, was: Meta, levels: bool, exact: bool,
                             before: seq<Trade>)

  predicate MetaKept(m: Option<Meta>, a: Account) {
    m.Some? && SameOwner(m.value, a.was) && (a.levels ==> SameLevels(m.value, a.was))
  }

  predicate RecordOk(t: Trade, v: Venue, a: Account) {
    && t.order == Some(a.id) && !t.partial && t.closed.owner == a.was.owner && t.closed.side == a.side
    && (a.exact ==> t.closed.qty == Taken(v, a.id))
  }

  predicate OrdersOk(s: State, a: Account) {
    && (s.venue.row.Some? ==> s.venue.row.value.qty > 0.0 && s.venue.row.value.side == a.side)
    && (s.late.Some? ==>
          var q := s.late.value.request;
          !q.reduceOnly && q.qty > 0.0 && q.side == a.side && q.id != a.id && q.id !in s.venue.fills)
    && (s.wire.Some? ==> s.wire.value.reduceOnly && s.wire.value.id == a.id && s.wire.value.side == a.side
                         && s.wire.value.qty > 0.0)
  }

  predicate JobGoesOn(s: State, a: Account) {
    && s.open.None?
    && s.job.Some? && s.job.value.id == a.id && !s.job.value.reason.PartialTp? && s.job.value.cap.None?
    && (s.job.value.sent.Some? ==> s.job.value.sent.value.owner == a.was.owner && s.job.value.sent.value.side == a.side)
    && (if s.job.value.at.Residual? then
          && s.meta.None? && MetaKept(s.job.value.kept, a) && a.id in s.venue.fills
          && |s.journal| == |a.before| + 1 && s.journal == a.before + [s.journal[|a.before|]]
          && RecordOk(s.journal[|a.before|], s.venue, a)
        else !s.job.value.at.ExitSettled? && MetaKept(s.meta, a) && s.journal == a.before)
  }

  /** What the exchange holds, what the exit has taken and what may still come add up. */
  predicate AddsUp(s: State, a: Account) {
    Held(s.venue) + Taken(s.venue, a.id) + Coming(s.late) == a.whole
  }

  /** Unless quantities are reported, the job is sized to what its order asks for, and so to what it took. */
  predicate SizeStands(s: State, a: Account) {
    a.exact && !s.reports && s.job.Some? && s.job.value.sent.Some? ==>
      if a.id in s.venue.fills then s.job.value.sent.value.qty == s.venue.fills[a.id].qty
      else s.wire.Some? ==> s.wire.value.qty == s.job.value.sent.value.qty
  }

  /** No view that may still be applied is of another side, and a lost entry still awaited is the owner's. */
  predicate ViewsGoOn(s: State, a: Account) {
    && (s.expected.Some? ==> s.expected.value.params.strategy == a.was.owner && s.expected.value.params.side == a.side)
    && (s.cache.Some? ==> s.cache.value.side == a.side)
    && (s.sync.Some? ==>
          && s.sync.value.epoch <= s.epoch
          && (s.sync.value.epoch == s.epoch && s.sync.value.snapshot.Some? && s.sync.value.snapshot.value.Some? ==>
                s.sync.value.snapshot.value.value.side == a.side))
  }

  predicate Exiting(s: State, a: Account) {
    OrdersOk(s, a) && JobGoesOn(s, a) && AddsUp(s, a) && SizeStands(s, a) && ViewsGoOn(s, a) && !a.was.external
  }

  lemma ExitingDelivery(s: State, a: Account)
    requires Exiting(s, a) && s.wire.Some?
    ensures Exiting(Delivered(s), a)
  {
  }

  lemma ExitingLanding(s: State, a: Account)
    requires Exiting(s, a) && s.late.Some?
    ensures Exiting(Landed(s), a)
  {
  }

  /** A refresh leaves a busy symbol's owner, levels and records alone. */
  lemma BusyReconcile(symbol: string, c: Sidecar, before: Option<Row>, current: Option<Row>, env: Env)
    ensures var r := Reconcile(symbol, c, before, current, true, env);
      && r.journal == c.journal && (r.meta.None? <==> c.meta.None?)
      && (c.meta.Some? ==> SameOwner(r.meta.value, c.meta.value) && SameLevels(r.meta.value, c.meta.value))
  {
  }

  /** And an open that waited for it backs off. */
  lemma BusyRefresh(s: State, env: Env)
    requires s.job.Some? && Can(s, SyncFinish(env))
    ensures var t := Do(s, SyncFinish(env));
      && t.venue == s.venue && t.wire == s.wire && t.late == s.late && t.job == s.job && t.open == s.open
      && t.reports == s.reports && t.journal == s.journal && (t.meta.None? <==> s.meta.None?)
      && (t.expected == s.expected || t.expected.None?) && t.sync.None?
      && t.cache == (if s.sync.value.epoch == s.epoch then s.sync.value.snapshot.value else s.cache)
      && (s.meta.Some? ==> SameOwner(t.meta.value, s.meta.value) && SameLevels(t.meta.value, s.meta.value))
  {
    BusyReconcile(s.symbol, Sidecar(s.meta, s.expected, s.journal), s.cache, s.sync.value.snapshot.value, env);
  }

  lemma ExitingRefresh(s: State, a: Account, env: Env)
    requires Exiting(s, a) && Can(s, SyncFinish(env))
    ensures Exiting(Do(s, SyncFinish(env)), a)
  {
    BusyRefresh(s, env);
  }

  lemma ExitingConfirmed(s: State, a: Account, now: int)
    requires Exiting(s, a) && Confirming(s)
    ensures Exiting(Completed(s, now), a)
  {
    BookingFrame(s, now);
    BookedWhole(s, a, now);
  }

  lemma BookedWhole(s: State, a: Account, now: int)
    requires Exiting(s, a) && Confirming(s)
    ensures var t := Completed(s, now);
      && t.reports == s.reports && t.job.Some? && t.job.value.at.Residual? && t.job.value.kept == s.meta
      && t.meta.None? && |t.journal| == |s.journal| + 1 && t.journal == s.journal + [t.journal[|s.journal|]]
      && RecordOk(t.journal[|s.journal|], t.venue, a)
  {
  }

  lemma ExitingRead(s: State, a: Account, mark: Option<real>)
    requires Exiting(s, a) && Can(s, ExitRead(mark)) && s.venue.row.Some?
    requires a.exact && !s.reports ==> a.id !in s.venue.fills
    ensures Exiting(ReadForExit(s, mark), a)
  {
  }

  lemma ExitingOther(s: State, a: Account, step: Step)
    requires Exiting(s, a) && Can(s, step) && GoesOn(s, step) && !IsConfirmation(step)
    requires !step.DeliverWire? && !step.LandLate? && !step.SyncFinish? && !step.ExitRead? && !IsExitCall(step)
    requires step.UpdateStops? ==> !a.levels
    ensures Exiting(Do(s, step), a)
  {
  }

  lemma ExitingCall(s: State, a: Account, step: Step)
    requires Exiting(s, a) && Can(s, step) && GoesOn(s, step) && IsExitCall(step) && !IsConfirmation(step)
    ensures Exiting(Do(s, step), a)
  {
  }

  lemma ExitingStep(s: State, a: Account, step: Step)
    requires Exiting(s, a) && Can(s, step) && GoesOn(s, step)
    requires step.UpdateStops? ==> !a.levels
    requires step.ExitRead? && a.exact && !s.reports ==> a.id !in s.venue.fills
    ensures Exiting(Do(s, step), a)
  {
    if IsConfirmation(step) { ExitingConfirmed(s, a, if step.ExitLookup? then step.now else step.reply.now); }
    else if step.DeliverWire? { ExitingDelivery(s, a); }
    else if step.LandLate? { ExitingLanding(s, a); }
    else if step.SyncFinish? { ExitingRefresh(s, a, step.env); }
    else if step.ExitRead? { ExitingRead(s, a, step.mark); }
    else if IsExitCall(step) { ExitingCall(s, a, step); }
    else { ExitingOther(s, a, step); }
  }

  lemma ReportsAreFixed(s: State, step: Step)
    requires Can(s, step)
    ensures Do(s, step).reports == s.reports
  {
  }

  /** No level moves during the run. */
  predicate LevelsStand(steps: seq<Step>)
    decreases |steps|
  {
    steps == [] || (!steps[0].UpdateStops? && LevelsStand(steps[1..]))
  }

  lemma {:induction false} ExitingRun(s: State, a: Account, steps: seq<Step>)
    requires Exiting(s, a) && IsExitRun(s, steps) && IsRun(s, steps) && (a.levels ==> LevelsStand(steps))
    requires a.exact && !s.reports ==> IsMeasuredOnce(s, steps)
    ensures Exiting(After(s, steps), a) && After(s, steps).reports == s.reports
    decreases |steps|
  {
    if steps != [] {
      ExitingStep(s, a, steps[0]);
      ReportsAreFixed(s, steps[0]);
      ExitingRun(Do(s, steps[0]), a, steps[1..]);
    }
  }

  function AccountOf(s: State, levels: bool, exact: bool): Account
    requires IsWholeExit(s)
  {
    Account(s.job.value.id, s.venue.row.value.side, Held(s.venue) + Coming(s.late), s.meta.value, levels, exact,
            s.journal)
  }

  lemma WholeExitStarts(s: State, levels: bool, exact: bool)
    requires Inv(s) && OwnersOk(s) && IsWholeExit(s)
    ensures Exiting(s, AccountOf(s, levels, exact))
  {
  }

  /** The exit is booked as one final record of its owner's, and what is left keeps that owner if it was looked at. */
  predicate LeavesResidual(s: State, t: State, isDown: bool, now: int)
    requires s.job.Some? && s.meta.Some?
  {
    && |t.journal| == |s.journal| + 1 && t.journal == s.journal + [t.journal[|s.journal|]]
    && t.journal[|s.journal|].order == Some(s.job.value.id) && !t.journal[|s.journal|].partial
    && t.journal[|s.journal|].closed.owner == s.meta.value.owner
    && (t.meta.Some? <==> !isDown && t.venue.row.Some?)
    && (t.meta.Some? ==>
          SameOwner(t.meta.value, s.meta.value) && t.meta.value.openedAt == now && t.meta.value.lastSeen.None?)
  }

  lemma ResidualCheck(s: State, r: State, a: Account, isDown: bool, now: int)
    requires IsWholeExit(s) && a == AccountOf(s, a.levels, a.exact)
    requires Exiting(r, a) && Can(r, ExitResidual(isDown, now))
    ensures var t := Do(r, ExitResidual(isDown, now));
      && LeavesResidual(s, t, isDown, now)
      && (a.exact ==> t.journal[|s.journal|].closed.qty + Held(t.venue) + Coming(t.late) == a.whole)
      && (a.levels && t.meta.Some? ==> SameLevels(t.meta.value, s.meta.value))
  {
  }

  lemma ExitLeaves(s: State, steps: seq<Step>, isDown: bool, now: int)
    requires Inv(s) && OwnersOk(s) && IsWholeExit(s) && IsExitRun(s, steps) && IsRun(s, steps)
    requires Can(After(s, steps), ExitResidual(isDown, now))
    ensures var t := Do(After(s, steps), ExitResidual(isDown, now));
      && LeavesResidual(s, t, isDown, now)
      && (s.reports || IsMeasuredOnce(s, steps) ==>
            t.journal[|s.journal|].closed.qty + Held(t.venue) + Coming(t.late) == Held(s.venue) + Coming(s.late))
      && (LevelsStand(steps) && t.meta.Some? ==> SameLevels(t.meta.value, s.meta.value))
  {
    var a := AccountOf(s, LevelsStand(steps), s.reports || IsMeasuredOnce(s, steps));
    WholeExitStarts(s, a.levels, a.exact);
    ExitingRun(s, a, steps);
    ResidualCheck(s, After(s, steps), a, isDown, now);
  }

  /**
   * Main result: after any careful run, a full exit of a managed position goes through retries, lost replies, refreshes
   * and a scale-in that lands before its fill, after it or not at all. Once it is booked and the residual was looked
   * at, what is left on the exchange keeps its owner, risk and levels; and the quantity booked, what is left and what
   * may still land add up to what there was, when the exchange reports quantities or the job was not sized again after
   * its fill.
   */
  lemma ResidualKeepsItsOwner(symbol: string, reports: bool, before: seq<Step>, steps: seq<Step>, isDown: bool,
                              now: int)
    requires IsCarefulRun(Init(symbol, reports), before) && IsRun(Init(symbol, reports), before)
    requires var s := After(Init(symbol, reports), before);
      IsWholeExit(s) && IsExitRun(s, steps) && IsRun(s, steps) && Can(After(s, steps), ExitResidual(isDown, now))
    ensures var s := After(Init(symbol, reports), before);
      var t := Do(After(s, steps), ExitResidual(isDown, now));
      && LeavesResidual(s, t, isDown, now)
      && (reports || IsMeasuredOnce(s, steps) ==>
            t.journal[|s.journal|].closed.qty + Held(t.venue) + Coming(t.late) == Held(s.venue) + Coming(s.late))
      && (LevelsStand(steps) && t.meta.Some? ==> SameLevels(t.meta.value, s.meta.value))
  {
    var s := After(Init(symbol, reports), before);
    RunInv(Init(symbol, reports), before);
    OwnersAlways(Init(symbol, reports), before);
    ReportsIsFixed(Init(symbol, reports), before);
    ExitLeaves(s, steps, isDown, now);
  }

  // ----- after the exit is released

  /** The next refresh is applied to what the exchange shows then. */
  lemma RefreshingRuns(s: State)
    ensures IsRun(s, Refreshing(s))
    ensures After(s, Refreshing(s)) == Do(Do(Do(s.(sync := None), SyncStart(None)), SyncRead), SyncFinish(Soon(s)))
  {
    var idle := s.(sync := None);
    RunThree(idle, SyncStart(None), SyncRead, SyncFinish(Soon(s)));
    if s.sync.Some? {
      Cons(s, SyncFail, [SyncStart(None), SyncRead, SyncFinish(Soon(s))]);
    } else {
      assert Refreshing(s) == [SyncStart(None), SyncRead, SyncFinish(Soon(s))];
    }
  }

  lemma KnownRefreshed(s: State, env: Env)
    requires !Busy(s) && s.venue.row.Some? && s.meta.Some? && s.meta.value.lastSeen.None?
    requires s.cache.Some? ==> s.cache.value.side == s.venue.row.value.side
    requires s.sync == Some(Sync(s.epoch, None, Some(s.venue.row), false))
    ensures
      var t := Refreshed(s, env);
      && t.venue == s.venue && t.journal == s.journal && t.meta.Some?
      && SameOwner(t.meta.value, s.meta.value) && SameLevels(t.meta.value, s.meta.value)
      && t.meta.value.lastSeen.Some? && t.meta.value.lastSeen.value.rowId == s.venue.row.value.id
  {}

  /** A refresh that finds a managed position leaves it to its owner and remembers what it saw. */
  lemma KnownIsSeen(s: State)
    requires !Busy(s) && s.venue.row.Some? && s.meta.Some?
    requires s.cache.Some? ==> s.cache.value.side == s.venue.row.value.side
    requires s.meta.value.lastSeen.None?
    ensures IsRun(s, Refreshing(s))
    ensures var t := After(s, Refreshing(s));
      && t.venue == s.venue && t.journal == s.journal && t.meta.Some?
      && SameOwner(t.meta.value, s.meta.value) && SameLevels(t.meta.value, s.meta.value)
      && t.meta.value.lastSeen.Some? && t.meta.value.lastSeen.value.rowId == s.venue.row.value.id
  {
    RefreshingRuns(s);
    KnownRefreshed(s.(sync := Some(Sync(s.epoch, None, Some(s.venue.row), false))), Soon(s));
  }

  /** What the check leaves, up to the exit's release. */
  predicate IsChecked(s: State, r: State, t: State, isDown: bool)
    requires s.meta.Some?
  {
    && t == r.(meta := t.meta, job := t.job, epoch := t.epoch) && t.job.Some? && t.job.value.at.ExitSettled?
    && t.open.None? && (t.meta.None? <==> isDown)
    && (t.meta.Some? ==> SameOwner(t.meta.value, s.meta.value) && t.meta.value.lastSeen.None?)
  }

  lemma CheckedResidual(s: State, r: State, a: Account, isDown: bool, now: int)
    requires IsWholeExit(s) && a == AccountOf(s, a.levels, a.exact)
    requires Exiting(r, a) && Can(r, ExitResidual(isDown, now)) && r.venue.row.Some?
    ensures IsChecked(s, r, Do(r, ExitResidual(isDown, now)), isDown)
  {
  }

  lemma ReleasedResidual(s: State, r: State, a: Account, isDown: bool, now: int)
    requires IsWholeExit(s) && a == AccountOf(s, a.levels, a.exact)
    requires Exiting(r, a) && Can(r, ExitResidual(isDown, now)) && r.venue.row.Some?
    ensures var t := Do(r, ExitResidual(isDown, now));
      var q := Do(t, ExitRelease);
      && !Busy(q) && q.venue == r.venue && q.expected == r.expected && (q.meta.None? <==> isDown) && q.meta == t.meta
      && (q.expected.Some? ==>
            q.expected.value.params.strategy == s.meta.value.owner
              && q.expected.value.params.side == q.venue.row.value.side)
      && (q.cache.Some? ==> q.cache.value.side == q.venue.row.value.side)
      && (q.meta.Some? ==>
            SameOwner(q.meta.value, s.meta.value) && q.meta.value.lastSeen.None? && !s.meta.value.external)
  {
    CheckedResidual(s, r, a, isDown, now);
  }

  /** After the next refresh: its owner's, with the levels it had if it was checked, or nobody's. */
  predicate ManagedIff(s: State, t: State, u: State, isDown: bool, isAwaited: bool)
    requires s.meta.Some?
  {
    && u.meta.Some? && (u.meta.value.external <==> isDown && !isAwaited)
    && (!u.meta.value.external ==> u.meta.value.owner == s.meta.value.owner)
    && (!isDown ==> t.meta.Some? && SameOwner(u.meta.value, s.meta.value) && SameLevels(u.meta.value, t.meta.value))
  }

  /**
   * Exactly when the residual stays with its owner: when the check after the fill got its answer, or an entry of the
   * owner's is still awaited. Otherwise the next refresh hands it to nobody.
   */
  lemma ResidualStaysOwnIff(symbol: string, reports: bool, before: seq<Step>, steps: seq<Step>, isDown: bool, now: int)
    requires IsCarefulRun(Init(symbol, reports), before) && IsRun(Init(symbol, reports), before)
    requires var s := After(Init(symbol, reports), before);
      && IsWholeExit(s) && IsExitRun(s, steps) && IsRun(s, steps)
      && Can(After(s, steps), ExitResidual(isDown, now)) && After(s, steps).venue.row.Some?
    ensures var s := After(Init(symbol, reports), before);
      var t := Do(After(s, steps), ExitResidual(isDown, now));
      && Can(t, ExitRelease) && IsRun(Do(t, ExitRelease), Refreshing(Do(t, ExitRelease)))
      && ManagedIff(s, t, After(Do(t, ExitRelease), Refreshing(Do(t, ExitRelease))), isDown,
                    t.expected.Some?)
  {
    var s := After(Init(symbol, reports), before);
    RunInv(Init(symbol, reports), before);
    OwnersAlways(Init(symbol, reports), before);
    ResidualRefreshed(s, steps, isDown, now);
  }

  lemma ResidualRefreshed(s: State, steps: seq<Step>, isDown: bool, now: int)
    requires Inv(s) && OwnersOk(s) && IsWholeExit(s) && IsExitRun(s, steps) && IsRun(s, steps)
    requires Can(After(s, steps), ExitResidual(isDown, now)) && After(s, steps).venue.row.Some?
    ensures var t := Do(After(s, steps), ExitResidual(isDown, now));
      && Can(t, ExitRelease) && IsRun(Do(t, ExitRelease), Refreshing(Do(t, ExitRelease)))
      && ManagedIff(s, t, After(Do(t, ExitRelease), Refreshing(Do(t, ExitRelease))), isDown,
                    t.expected.Some?)
  {
    var a := AccountOf(s, false, false);
    WholeExitStarts(s, false, false);
    ExitingRun(s, a, steps);
    ResidualManaged(s, After(s, steps), a, isDown, now);
  }

  lemma ResidualManaged(s: State, r: State, a: Account, isDown: bool, now: int)
    requires IsWholeExit(s) && a == AccountOf(s, a.levels, a.exact)
    requires Exiting(r, a) && Can(r, ExitResidual(isDown, now)) && r.venue.row.Some?
    ensures var t := Do(r, ExitResidual(isDown, now));
      && Can(t, ExitRelease) && IsRun(Do(t, ExitRelease), Refreshing(Do(t, ExitRelease)))
      && ManagedIff(s, t, After(Do(t, ExitRelease), Refreshing(Do(t, ExitRelease))), isDown,
                    t.expected.Some?)
  {
    ReleasedResidual(s, r, a, isDown, now);
    var t := Do(r, ExitResidual(isDown, now));
    ReleasedIsManagedIff(s, t, Do(t, ExitRelease), isDown);
  }

  lemma ReleasedIsManagedIff(s: State, t: State, q: State, isDown: bool)
    requires s.meta.Some? && q.meta == t.meta && (q.meta.None? <==> isDown)
    requires !Busy(q) && q.venue.row.Some?
    requires q.expected.Some? ==>
               q.expected.value.params.strategy == s.meta.value.owner
                 && q.expected.value.params.side == q.venue.row.value.side
    requires q.cache.Some? ==> q.cache.value.side == q.venue.row.value.side
    requires q.meta.Some? ==>
               SameOwner(q.meta.value, s.meta.value) && q.meta.value.lastSeen.None? && !s.meta.value.external
    ensures IsRun(q, Refreshing(q)) && ManagedIff(s, t, After(q, Refreshing(q)), isDown, q.expected.Some?)
  {
    if !isDown { KnownIsSeen(q); } else if q.expected.Some? { AwaitedIsOwned(q); } else { UnclaimedIsAdopted(q); }
  }

  /** A refresh hands an unclaimed position to the strategy whose lost entry is still awaited. */
  lemma AwaitedIsOwned(s: State)
    requires !Busy(s) && s.venue.row.Some? && s.meta.None? && IsAwaited(s.expected, s.venue.row.value.side)
    ensures IsRun(s, Refreshing(s))
    ensures var t := After(s, Refreshing(s));
      t.meta.Some? && !t.meta.value.external && t.meta.value.owner == s.expected.value.params.strategy
  {
    RefreshingRuns(s);
  }

  // ----- what the guarantee of one record per end loses to a late scale-in

  /** The exit's order is on its way, sized to the position, and a scale-in may still land before it. */
  predicate IsSized(s: State) {
    && IsWholeExit(s) && s.sync.None? && s.late.Some? && s.job.value.at.Submitted? && s.job.value.sent.Some?
    && s.wire.Some? && s.wire.value.id == s.job.value.id
  }

  function OvertakenExit(now: int): seq<Step> {
    [LandLate, DeliverWire, ExitReply(Confirmed(now)), ExitResidual(false, now), ExitRelease]
  }

  /** What the overtaken exit leaves: a final record of the position, which has not ended. */
  predicate IsOvertaken(s: State, t: State)
    requires IsWholeExit(s)
  {
    && !Busy(t) && t.sync.None? && t.venue.row.Some? && RowId(t.venue.row) == RowId(s.venue.row)
    && t.venue.row.value.qty == Coming(s.late) && t.venue.row.value.side == s.venue.row.value.side
    && t.venue.ended == s.venue.ended && t.cache == s.cache && t.symbol == s.symbol
    && t.meta.Some? && t.meta.value.lastSeen.None? && SameOwner(t.meta.value, s.meta.value)
    && |t.journal| == |s.journal| + 1 && t.journal == s.journal + [t.journal[|s.journal|]]
    && !t.journal[|s.journal|].partial && t.journal[|s.journal|].closed.rowId == s.venue.row.value.id
  }

  lemma OvertakenRun(s: State, now: int)
    requires Inv(s) && IsSized(s)
    ensures IsRun(s, OvertakenExit(now)) && IsOvertaken(s, After(s, OvertakenExit(now)))
  {
    OvertakenFill(s);
    var f := Do(Do(s, LandLate), DeliverWire);
    OvertakenBooks(s, f, now);
    OvertakenIsKept(s, f, Do(f, ExitReply(Confirmed(now))), now);
    RunFive(s, LandLate, DeliverWire, ExitReply(Confirmed(now)), ExitResidual(false, now), ExitRelease);
  }

  /** The scale-in landed, and the order took what it was sized to. */
  predicate IsFilled(s: State, f: State)
    requires IsSized(s)
  {
    && f == s.(venue := f.venue, wire := f.wire, late := None, orphans := f.orphans)
    && f.venue.ended == s.venue.ended && f.venue.row.Some? && RowId(f.venue.row) == RowId(s.venue.row)
    && f.venue.row.value.side == s.venue.row.value.side && f.venue.row.value.qty == Coming(s.late)
    && s.job.value.id in f.venue.fills
  }

  lemma OvertakenFill(s: State)
    requires Inv(s) && IsSized(s)
    ensures Can(s, LandLate) && Can(Do(s, LandLate), DeliverWire)
    ensures IsFilled(s, Do(Do(s, LandLate), DeliverWire))
  {
  }

  /** The fill was booked, and the position still had to be looked at. */
  predicate WasBooked(s: State, f: State, b: State)
    requires IsSized(s)
  {
    && f.job.Some? && f.job.value.sent.Some? && b.job.Some? && |b.journal| == |s.journal| + 1
    && b == f.(journal := b.journal, meta := None, job := Some(f.job.value.(kept := s.meta, at := Residual)))
    && b.journal == s.journal + [b.journal[|s.journal|]] && !b.journal[|s.journal|].partial
    && b.journal[|s.journal|].closed.rowId == s.venue.row.value.id
    && f.job.value.sent.value.side == s.venue.row.value.side
  }

  lemma OvertakenBooks(s: State, f: State, now: int)
    requires Inv(s) && IsSized(s) && IsFilled(s, f)
    ensures Can(f, ExitReply(Confirmed(now))) && WasBooked(s, f, Do(f, ExitReply(Confirmed(now))))
  {
  }

  lemma OvertakenIsKept(s: State, f: State, b: State, now: int)
    requires Inv(s) && IsSized(s) && IsFilled(s, f) && WasBooked(s, f, b)
    ensures Can(b, ExitResidual(false, now))
    ensures var r := Do(b, ExitResidual(false, now)); Can(r, ExitRelease) && IsOvertaken(s, Do(r, ExitRelease))
  {
  }

  /** It is refreshed, liquidated and refreshed again. */
  function StruckLater(env: Env): seq<Step> {
    [SyncStart(None), SyncRead, SyncFinish(env)] + ([Liquidate] + [SyncStart(None), SyncRead, SyncFinish(env)])
  }

  /**
   * A late scale-in that lands under a sized full exit: the position has a final record although it has not ended, and
   * the record of its residual's end is its second.
   */
  lemma LateUnderExitDoubles(s: State, now: int, env: Env)
    requires Inv(s) && IsSized(s)
    ensures IsRun(s, OvertakenExit(now)) && IsRun(After(s, OvertakenExit(now)), StruckLater(env))
    ensures var t := After(s, OvertakenExit(now)); var k := s.venue.row.value.id;
      && k !in t.venue.ended && FinalRecords(t.journal, k) == 1
      && FinalRecords(After(t, StruckLater(env)).journal, k) == 2
  {
    OvertakenRun(s, now);
    var t := After(s, OvertakenExit(now));
    ResidualStruck(s, t, env);
    SecondRecord(s, t, After(t, StruckLater(env)));
  }

  lemma SecondRecord(s: State, t: State, u: State)
    requires Inv(s) && IsWholeExit(s) && IsOvertaken(s, t)
    requires |u.journal| == |t.journal| + 1 && u.journal == t.journal + [u.journal[|t.journal|]]
    requires !u.journal[|t.journal|].partial && u.journal[|t.journal|].closed.rowId == s.venue.row.value.id
    ensures var k := s.venue.row.value.id;
      k !in t.venue.ended && FinalRecords(t.journal, k) == 1 && FinalRecords(u.journal, k) == 2
  {
    var k := s.venue.row.value.id;
    CountFinals(s.journal, k);
    FinalRecordsAppend(s.journal, t.journal[|s.journal|], k);
    FinalRecordsAppend(t.journal, u.journal[|t.journal|], k);
  }

  lemma ResidualStruck(s: State, t: State, env: Env)
    requires Inv(s) && IsWholeExit(s) && IsOvertaken(s, t)
    ensures IsRun(t, StruckLater(env))
    ensures var u := After(t, StruckLater(env));
      && |u.journal| == |t.journal| + 1 && u.journal == t.journal + [u.journal[|t.journal|]]
      && !u.journal[|t.journal|].partial && u.journal[|t.journal|].closed.rowId == s.venue.row.value.id
  {
    var refresh := [SyncStart(None), SyncRead, SyncFinish(env)];
    RunThree(t, SyncStart(None), SyncRead, SyncFinish(env));
    ResidualSeen(s, t, env);
    SeenIsStruck(s, t, After(t, refresh), env);
    Concat(t, refresh, [Liquidate] + refresh);
  }

  lemma SeenIsStruck(s: State, t: State, seen: State, env: Env)
    requires IsWholeExit(s) && IsOvertaken(s, t) && !Busy(seen) && seen.sync.None? && seen.venue == t.venue
    requires seen.journal == t.journal && seen.cache == t.venue.row && seen.meta.Some?
    ensures var steps := [Liquidate] + [SyncStart(None), SyncRead, SyncFinish(env)];
      && IsRun(seen, steps)
      && var u := After(seen, steps);
      && |u.journal| == |t.journal| + 1 && u.journal == t.journal + [u.journal[|t.journal|]]
      && !u.journal[|t.journal|].partial && u.journal[|t.journal|].closed.rowId == s.venue.row.value.id
  {
    RunThree(Do(seen, Liquidate), SyncStart(None), SyncRead, SyncFinish(env));
    Cons(seen, Liquidate, [SyncStart(None), SyncRead, SyncFinish(env)]);
  }

  lemma ResidualSeen(s: State, t: State, env: Env)
    requires Inv(s) && IsWholeExit(s) && IsOvertaken(s, t)
    requires IsRun(t, [SyncStart(None), SyncRead, SyncFinish(env)])
    requires After(t, [SyncStart(None), SyncRead, SyncFinish(env)]) ==
             Do(Do(Do(t, SyncStart(None)), SyncRead), SyncFinish(env))
    ensures var seen := After(t, [SyncStart(None), SyncRead, SyncFinish(env)]);
      && !Busy(seen) && seen.sync.None? && seen.venue == t.venue && seen.journal == t.journal
      && seen.cache == t.venue.row && seen.meta.Some?
  {
  }

  // ----- the same from an empty account

  /** The scale-in's reply is lost undelivered; then a close is sized. */
  const WAITING: seq<Step> := [EntryReply(Lost(0, false)), OpenRelease]
  const SIZING: seq<Step> := [StartExit(Close, 100.0, None), ExitRead(None)]

  function Waiting(): State {
    Idle().(epoch := 2, nextOrder := 2, late := Some(Late(Request(1, "CARRY", false, Long, 2.0, 100.0), true)))
  }

  function Sized(): State {
    var sent := Closed(0, "CARRY", Long, 100.0, 1.0, None, None);
    Waiting().(nextOrder := 3, job := Some(Job(2, Close, 100.0, 100.0, None, Some(sent), None, Submitted)),
               wire := Some(Request(2, "CARRY", true, Long, 1.0, 100.0)))
  }

  lemma RunsWaiting()
    ensures IsAttentiveRun(Growing(), WAITING) && IsRun(Growing(), WAITING) && After(Growing(), WAITING) == Waiting()
  {
    AttentiveTwo(Growing(), WAITING[0], WAITING[1]);
  }

  lemma RunsSizing()
    ensures IsAttentiveRun(Waiting(), SIZING) && IsRun(Waiting(), SIZING) && After(Waiting(), SIZING) == Sized()
  {
    AttentiveTwo(Waiting(), SIZING[0], SIZING[1]);
  }

  function SizingRun(): seq<Step> {
    OPENING + FILLING + SHOWING + [OpenRelease] + GROWING + WAITING + SIZING
  }

  lemma ReachesSized()
    ensures IsAttentiveRun(Init("BTC", true), SizingRun()) && IsRun(Init("BTC", true), SizingRun())
    ensures After(Init("BTC", true), SizingRun()) == Sized()
  {
    var start, idle := Init("BTC", true), OPENING + FILLING + SHOWING + [OpenRelease];
    ReachesIdle(); RunsGrowing(); RunsWaiting(); RunsSizing();
    Joins(start, idle, GROWING);
    Joins(start, idle + GROWING, WAITING);
    Joins(start, idle + GROWING + WAITING, SIZING);
  }

  /** A run in which row 0 gets two final records, the second of the residual its first left. */
  lemma LateScaleInDoublesARecord()
    ensures IsRun(Init("BTC", true), SizingRun() + DoublingRun())
    ensures FinalRecords(After(Init("BTC", true), SizingRun() + DoublingRun()).journal, 0) == 2
  {
    ReachesSized();
    SizedDoubles();
    Concat(Init("BTC", true), SizingRun(), DoublingRun());
  }

  lemma SizedIsSound()
    ensures Inv(Sized())
  {
    ReachesSized();
    NeverAdoptsItsOwn(Init("BTC", true), SizingRun());
  }

  function DoublingRun(): seq<Step> {
    OvertakenExit(0) + StruckLater(QUIET)
  }

  lemma SizedDoubles()
    ensures IsRun(Sized(), DoublingRun()) && FinalRecords(After(Sized(), DoublingRun()).journal, 0) == 2
  {
    SizedIsSound();
    LateUnderExitDoubles(Sized(), 0, QUIET);
    Concat(Sized(), OvertakenExit(0), StruckLater(QUIET));
  }

  // ----- a late entry under an exit that is sized again

  /** An unreported exit has asked for the whole position, looked for its order in vain and reads again. */
  predicate IsRereading(s: State) {
    && s.open.None? && !s.reports && s.late.Some? && s.venue.row.Some?
    && s.job.Some? && s.job.value.at.Reading? && s.job.value.sent.Some? && s.job.value.id !in s.venue.fills
    && s.wire.Some? && s.wire.value.reduceOnly && s.wire.value.id == s.job.value.id
    && s.wire.value.qty == s.venue.row.value.qty
  }

  /** What the exit asks for when it reads a position of this size. */
  function SizedTo(cap: Option<real>, qty: real): real {
    if cap.Some? then Min(cap.value, qty) else qty
  }

  /**
   * When the entry and the order land before that read, the exit is booked at the size of what the entry left: its
   * fill's exactly when the two happen to agree.
   */
  lemma LateUnderRereadBooksIff(s: State, now: int)
    requires Inv(s) && ExitsOk(s) && IsRereading(s)
    ensures var steps := [LandLate, DeliverWire, ExitRead(None), ExitReply(Confirmed(now))];
      && IsRun(s, steps)
      && (BookedExactly(After(s, steps), s.job.value.id) <==>
            SizedTo(s.job.value.cap, Coming(s.late)) == s.venue.row.value.qty)
  {
    RereadLands(s);
    var first, second := [LandLate, DeliverWire], [ExitRead(None), ExitReply(Confirmed(now))];
    RereadBooks(s, After(s, first), now);
    Concat(s, first, second);
    assert first + second == [LandLate, DeliverWire, ExitRead(None), ExitReply(Confirmed(now))];
  }

  predicate IsReread(s: State, f: State)
    requires IsRereading(s)
  {
    && f.job == s.job && f.open == s.open && f.journal == s.journal && f.reports == s.reports && f.meta == s.meta
    && f.venue.row.Some? && f.venue.row.value.qty == Coming(s.late)
    && s.job.value.id in f.venue.fills && f.venue.fills[s.job.value.id].qty == s.venue.row.value.qty
  }

  lemma RereadLands(s: State)
    requires Inv(s) && IsRereading(s)
    ensures IsRun(s, [LandLate, DeliverWire]) && IsReread(s, After(s, [LandLate, DeliverWire]))
  {
    RunTwo(s, LandLate, DeliverWire);
  }

  lemma RereadBooks(s: State, f: State, now: int)
    requires Inv(s) && ExitsOk(s) && IsRereading(s) && IsReread(s, f)
    ensures var steps := [ExitRead(None), ExitReply(Confirmed(now))];
      && IsRun(f, steps)
      && (BookedExactly(After(f, steps), s.job.value.id) <==>
            SizedTo(s.job.value.cap, Coming(s.late)) == s.venue.row.value.qty)
  {
    var t := Do(Do(f, ExitRead(None)), ExitReply(Confirmed(now)));
    assert t.journal == s.journal + [t.journal[|s.journal|]];
    assert t.journal[|s.journal|] in t.journal;
    RunTwo(f, ExitRead(None), ExitReply(Confirmed(now)));
  }

  // ----- a late entry under a flip

  /** A flip has closed its position and is about to enter; an entry of the old side may still land. */
  predicate IsBetween(s: State) {
    && s.open.Some? && s.open.value.at.Flipping? && s.job.None? && s.sync.None? && s.late.Some?
    && s.late.value.request.side != s.open.value.params.side
    && s.late.value.request.qty < s.open.value.params.qty
  }

  /** The flip's entry nets the landed position away, and nobody learns of its end. */
  lemma LateUnderFlipForgets(s: State, now: int, env: Env)
    requires Inv(s) && IsBetween(s)
    ensures var steps := [LandLate, FlipEnter] + FilledAndSeen(now, env);
      IsRun(s, steps) && Forgotten(After(s, steps), |s.venue.sides|)
  {
    var e := Do(Do(s, LandLate), FlipEnter);
    FlipMeets(s);
    FlipNets(s, e, now);
    var f := Do(Do(e, DeliverWire), EntryReply(Confirmed(now)));
    NettedIsForgotten(s, f, env);
    RunFive(e, DeliverWire, EntryReply(Confirmed(now)), SyncStart(None), SyncRead, SyncFinish(env));
    RunTwo(s, LandLate, FlipEnter);
    Concat(s, [LandLate, FlipEnter], FilledAndSeen(now, env));
  }

  predicate IsMet(s: State, e: State)
    requires IsBetween(s)
  {
    var p, q, k := s.open.value.params, s.late.value.request, |s.venue.sides|;
    && e.open == Some(OpenTask(p, false, true, s.nextOrder, EntrySent))
    && e.wire == Some(Request(s.nextOrder, p.strategy, false, p.side, p.qty, p.entryPrice))
    && e.venue.row == Some(Row(k, q.side, q.price, q.qty, q.price)) && e.venue.sides == s.venue.sides + [q.side]
    && e.venue.openers == s.venue.openers + [q.owner] && e.venue.ended == s.venue.ended
    && e.venue.fills == s.venue.fills[q.id := Fill(k, q.qty, q.price)]
    && e.meta.None? && e.job.None? && e.sync.None? && e.late.None? && e.journal == s.journal && e.cache == s.cache
    && e.nextOrder == s.nextOrder + 1 && e.reports == s.reports && e.symbol == s.symbol
  }

  lemma FlipMeets(s: State)
    requires Inv(s) && IsBetween(s)
    ensures Can(s, LandLate) && Can(Do(s, LandLate), FlipEnter) && IsMet(s, Do(Do(s, LandLate), FlipEnter))
  {
  }

  ghost predicate IsNetted(s: State, f: State)
    requires IsBetween(s)
  {
    var p, k := s.open.value.params, |s.venue.sides|;
    && f.open.Some? && f.open.value.at.EntrySettled? && f.job.None? && f.sync.None? && f.late.None?
    && f.venue.row.Some? && f.venue.row.value.id == k + 1 && f.venue.row.value.qty < p.qty
    && f.venue.ended == s.venue.ended + {k} && |f.venue.sides| == k + 2
    && f.meta.Some? && f.meta.value.lastSeen.Some? && f.meta.value.lastSeen.value.qty == p.qty
    && f.journal == s.journal && f.cache == s.cache && IdsUsed(f)
  }

  lemma FlipNets(s: State, e: State, now: int)
    requires Inv(s) && IsBetween(s) && IsMet(s, e)
    ensures Can(e, DeliverWire) && Can(Do(e, DeliverWire), EntryReply(Confirmed(now)))
    ensures IsNetted(s, Do(Do(e, DeliverWire), EntryReply(Confirmed(now))))
  {
  }

  lemma NettedIsForgotten(s: State, f: State, env: Env)
    requires Inv(s) && IsBetween(s) && IsNetted(s, f)
    ensures Can(f, SyncStart(None)) && Can(Do(f, SyncStart(None)), SyncRead)
    ensures Can(Do(Do(f, SyncStart(None)), SyncRead), SyncFinish(env))
    ensures Forgotten(Do(Do(Do(f, SyncStart(None)), SyncRead), SyncFinish(env)), |s.venue.sides|)
  {
    var k := |s.venue.sides|;
    BusyRefreshSees(f, env, f.venue.row.value, k);
    forall t | t in s.journal && !t.partial ensures t.closed.rowId != k { assert t.closed.rowId in Finals(s.journal); }
  }
}
