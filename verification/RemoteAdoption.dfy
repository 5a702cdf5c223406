/**
 * The agent's own positions stay its own: exactly which steps can leave one to be adopted as external
 * (src/binance/remoteReconcile.ts:102-119, src/binance/remoteBroker.ts:240-262).
 */
module RemoteAdoption {
  import opened Common
  import opened RemoteState
  import opened RemoteReconcile
  import opened RemoteProtocol
  import opened RemoteGuarantees
  import opened RemoteCounterexamples

  /**
   * Nothing needs the expectation any more: every position has its sidecar entry or its own open still waiting for the
   * answer, and an open that stopped waiting knows its fill.
   */
  predicate IsUnneeded(s: State) {
    && (s.venue.row.Some? ==> s.meta.Some? || IsFillAwaited(s))
    && (s.open.Some? && s.open.value.at.EntrySettled? ==> s.meta.Some?)
  }

  /** An open is about to learn that its entry filled. */
  predicate IsFillAwaited(s: State) {
    s.open.Some? && s.open.value.at.EntrySent? && s.open.value.id in s.venue.fills
  }

  /**
   * A crash, an expiry and a late entry that leave no position unclaimed: the process dies only while the sidecar knows
   * the position; an expectation expires only once nothing needs it; and an entry lands late on a position, or on a
   * flat symbol that still awaits it.
   */
  predicate Attentive(s: State, step: Step)
    requires Can(s, step)
  {
    match step
    case Restart => s.venue.row.Some? ==> s.meta.Some?
    case EntryBreak => s.venue.row.Some? && s.meta.None? ==> IsAwaited(s.expected, s.venue.row.value.side)
    case LandLate => s.venue.row.None? ==> IsAwaited(s.expected, s.late.value.request.side)
    case SyncFinish(env) =>
      s.sync.value.epoch == s.epoch && PruneExpired(s.expected, env.now) != s.expected ==> IsUnneeded(s)
    case _ => true
  }

  predicate IsAttentiveRun(s: State, steps: seq<Step>)
    decreases |steps|
  {
    steps == [] || (Can(s, steps[0]) && Careful(s, steps[0]) && Attentive(s, steps[0])
                    && IsAttentiveRun(Do(s, steps[0]), steps[1..]))
  }

  // ----- attentive steps keep every own position claimed

  /** An open that has its answer and no sidecar entry is expected, and its entry is on the wire while it may land. */
  predicate OpensClaimed(s: State) {
    && (s.open.Some? && s.open.value.at.EntrySettled? && s.meta.None? ==>
          && s.expected.Some?
          && (s.venue.row.None? ==> s.wire.Some? && s.wire.value.id !in s.venue.fills && !s.wire.value.reduceOnly))
    && (s.open.Some? && s.open.value.at.EntrySent? ==> s.wire.Some? && s.wire.value.id == s.open.value.id)
  }

  predicate NoOrphans(s: State) {
    s.orphans == {} && OpensClaimed(s)
  }

  lemma ClaimedRefresh(s: State, env: Env)
    requires TasksOk(s) && SyncOk(s.venue, s.meta, s.sync, s.epoch, s.job) && NoOrphans(s)
    requires Can(s, SyncFinish(env)) && Attentive(s, SyncFinish(env))
    ensures NoOrphans(Refreshed(s, env))
  {
  }

  lemma ClaimedDecision(s: State, p: OpenParams)
    requires NoOrphans(s)
    ensures NoOrphans(Decide(s, p))
  {
  }

  lemma ClaimedFinish(s: State, env: Env)
    requires TasksOk(s) && SyncOk(s.venue, s.meta, s.sync, s.epoch, s.job) && NoOrphans(s)
    requires Can(s, SyncFinish(env)) && Careful(s, SyncFinish(env)) && Attentive(s, SyncFinish(env))
    ensures NoOrphans(Do(s, SyncFinish(env)))
  {
    ClaimedRefresh(s, env);
    if s.sync.value.preOpen.Some? { ClaimedDecision(Refreshed(s, env), s.sync.value.preOpen.value); }
  }

  lemma ClaimedDelivery(s: State)
    requires TasksOk(s) && NoOrphans(s) && Can(s, DeliverWire)
    ensures NoOrphans(Delivered(s))
  {
  }

  lemma ClaimedExit(s: State, step: Step)
    requires TasksOk(s) && NoOrphans(s) && Can(s, step) && Careful(s, step) && IsExitStep(step)
    ensures NoOrphans(Do(s, step))
  {
    ExitFrame(s, step);
  }

  lemma ClaimedOpen(s: State, step: Step)
    requires TasksOk(s) && NoOrphans(s) && Can(s, step) && Careful(s, step) && Attentive(s, step)
    requires IsOpenStep(step)
    ensures NoOrphans(Do(s, step))
  {
  }

  lemma ClaimedOther(s: State, step: Step)
    requires TasksOk(s) && NoOrphans(s) && Can(s, step) && Careful(s, step) && Attentive(s, step)
    requires step.LandLate? || step.Liquidate? || step.OtherOrderSettles? || step.SyncStart? || step.SyncRead?
          || step.SyncFail? || step.UpdateStops? || step.Restart?
    ensures NoOrphans(Do(s, step))
  {
  }

  lemma ClaimedStep(s: State, step: Step)
    requires TasksOk(s) && SyncOk(s.venue, s.meta, s.sync, s.epoch, s.job) && NoOrphans(s)
    requires Can(s, step) && Careful(s, step) && Attentive(s, step)
    ensures NoOrphans(Do(s, step))
  {
    if step.SyncFinish? { ClaimedFinish(s, step.env); }
    else if step.DeliverWire? { ClaimedDelivery(s); }
    else if IsExitStep(step) { ClaimedExit(s, step); }
    else if IsOpenStep(step) { ClaimedOpen(s, step); }
    else { ClaimedOther(s, step); }
  }

  /** Only a refresh adopts, and what it adopts the sidecar then calls external. */
  lemma AdoptsOpenly(s: State, step: Step)
    requires Can(s, step)
    ensures Do(s, step).adopted == s.adopted || (Do(s, step).meta.Some? && Do(s, step).meta.value.external)
  {
    if IsExitStep(step) { ExitFrame(s, step); }
  }

  /**
   * Over runs with crashes, expiries and late entries, as long as each is attentive, no position the agent opened is
   * ever adopted as external: it keeps its owner and levels.
   */
  lemma {:induction false} NeverAdoptsItsOwn(s: State, steps: seq<Step>)
    requires Inv(s) && NoOrphans(s) && IsAttentiveRun(s, steps)
    ensures IsRun(s, steps) && Inv(After(s, steps)) && NoOrphans(After(s, steps))
    ensures After(s, steps).adopted == s.adopted
    ensures After(s, steps).meta.Some? ==> !After(s, steps).meta.value.external
    decreases |steps|
  {
    if steps != [] {
      StepInv(s, steps[0]);
      ClaimedStep(s, steps[0]);
      AdoptsOpenly(s, steps[0]);
      NeverAdoptsItsOwn(Do(s, steps[0]), steps[1..]);
    }
  }

  // ----- and every other step can leave one to be adopted

  /** Whatever attentive run follows, no position is called external. */
  ghost predicate StaysOwn(s: State) {
    forall more :: IsAttentiveRun(s, more) && IsRun(s, more) ==>
      !(After(s, more).meta.Some? && After(s, more).meta.value.external)
  }

  /** A position nothing claims, on an idle symbol. */
  predicate IsUnclaimed(s: State) {
    s.venue.row.Some? && s.meta.None? && !Busy(s) && !IsAwaited(s.expected, s.venue.row.value.side)
  }

  /** A moment at which the expectation, if there is one, has not expired. */
  function Soon(s: State): Env {
    Env(if s.expected.Some? then s.expected.value.sentAt else 0, map[], [])
  }

  /** Whatever refresh is running fails, and the next one is applied. */
  function Refreshing(s: State): seq<Step> {
    (if s.sync.Some? then [SyncFail] else []) + [SyncStart(None), SyncRead, SyncFinish(Soon(s))]
  }

  /** The position is now external: nobody's, and without a stop or target. */
  predicate Adopted(s: State, t: State) {
    && t.venue == s.venue && s.venue.row.Some? && s.venue.row.value.id in t.adopted
    && t.meta.Some? && t.meta.value.external && t.meta.value.owner == EXTERNAL_OWNER
    && t.meta.value.stopLoss.None? && t.meta.value.takeProfit.None?
  }

  lemma AttentiveCons(s: State, step: Step, rest: seq<Step>)
    requires Can(s, step) && Careful(s, step) && Attentive(s, step)
    requires IsAttentiveRun(Do(s, step), rest) && IsRun(Do(s, step), rest)
    ensures IsAttentiveRun(s, [step] + rest) && IsRun(s, [step] + rest)
    ensures After(s, [step] + rest) == After(Do(s, step), rest)
  {
    assert ([step] + rest)[1..] == rest;
  }

  /** The next refresh adopts it. */
  lemma UnclaimedIsAdopted(s: State)
    requires IsUnclaimed(s)
    ensures IsAttentiveRun(s, Refreshing(s)) && IsRun(s, Refreshing(s)) && Adopted(s, After(s, Refreshing(s)))
  {
    var idle := s.(sync := None);
    var read := Do(Do(idle, SyncStart(None)), SyncRead);
    var env := Soon(s);
    IdleAdopts(idle);
    AttentiveThree(idle, SyncStart(None), SyncRead, SyncFinish(env));
    if s.sync.Some? {
      AttentiveCons(s, SyncFail, [SyncStart(None), SyncRead, SyncFinish(env)]);
    } else {
      assert Refreshing(s) == [SyncStart(None), SyncRead, SyncFinish(env)];
    }
  }

  lemma IdleAdopts(s: State)
    requires IsUnclaimed(s) && s.sync.None?
    ensures var read := Do(Do(s, SyncStart(None)), SyncRead); var env := Soon(s);
      && Can(read, SyncFinish(env)) && Careful(read, SyncFinish(env)) && Attentive(read, SyncFinish(env))
      && Adopted(s, Do(read, SyncFinish(env)))
  {
  }

  lemma NotStaysOwn(s: State, more: seq<Step>)
    requires IsAttentiveRun(s, more) && IsRun(s, more)
    requires After(s, more).meta.Some? && After(s, more).meta.value.external
    ensures !StaysOwn(s)
  {
  }

  lemma UnclaimedIsLost(s: State)
    requires IsUnclaimed(s)
    ensures !StaysOwn(s)
  {
    UnclaimedIsAdopted(s);
    NotStaysOwn(s, Refreshing(s));
  }

  /** One attentive step further. */
  lemma LostBefore(s: State, step: Step)
    requires Can(s, step) && Careful(s, step) && Attentive(s, step) && !StaysOwn(Do(s, step))
    ensures !StaysOwn(s)
  {
    var more :| IsAttentiveRun(Do(s, step), more) && IsRun(Do(s, step), more)
                && After(Do(s, step), more).meta.Some? && After(Do(s, step), more).meta.value.external;
    AttentiveCons(s, step, more);
    NotStaysOwn(s, [step] + more);
  }

  /** An exit of a position nothing claims: however far it is, it may fail, and the position is adopted. */
  lemma StrayIsLost(s: State)
    requires s.open.None? && s.job.Some? && (s.job.value.at.LookingUp? || s.job.value.at.Reading?)
    requires s.venue.row.Some? && s.meta.None? && !IsAwaited(s.expected, s.venue.row.value.side)
    ensures !StaysOwn(s)
  {
    UnclaimedIsLost(Do(s, ExitBreak));
    LostBefore(s, ExitBreak);
  }

  lemma QueuedIsLost(s: State)
    requires s.open.None? && s.job.Some? && s.job.value.at.Queued?
    requires s.venue.row.Some? && s.meta.None? && !IsAwaited(s.expected, s.venue.row.value.side)
    ensures !StaysOwn(s)
  {
    StrayIsLost(Do(s, ExitRetry));
    LostBefore(s, ExitRetry);
  }

  lemma ExitIsLost(s: State)
    requires s.open.None? && s.job.Some? && !s.job.value.at.Residual?
    requires s.job.value.at.Submitted? ==> s.job.value.sent.Some?
    requires s.venue.row.Some? && s.meta.None? && !IsAwaited(s.expected, s.venue.row.value.side)
    ensures !StaysOwn(s)
  {
    match s.job.value.at
    case Queued => QueuedIsLost(s);
    case Submitted =>
      QueuedIsLost(Do(s, ExitReply(Lost(0, false))));
      LostBefore(s, ExitReply(Lost(0, false)));
    case ExitSettled =>
      UnclaimedIsLost(Do(s, ExitRelease));
      LostBefore(s, ExitRelease);
    case _ => StrayIsLost(s);
  }

  /** A flip given up, or an entry still without an answer, on a position nothing claims. */
  lemma OpenIsLost(s: State)
    requires s.open.Some? && s.job.None?
    requires s.open.value.at.FlipFailed? || (s.open.value.at.EntrySent? && s.open.value.id !in s.venue.fills)
    requires s.venue.row.Some? && s.meta.None? && !IsAwaited(s.expected, s.venue.row.value.side)
    ensures !StaysOwn(s)
  {
    var step := if s.open.value.at.FlipFailed? then FlipGiveUp else EntryReply(Refused);
    UnclaimedIsLost(Do(s, step));
    LostBefore(s, step);
  }

  /** An open that stopped waiting and whose expectation is gone: its fill is adopted once it gives the symbol up. */
  lemma SettledIsLost(s: State)
    requires s.open.Some? && s.open.value.at.EntrySettled? && s.job.None? && s.meta.None? && s.expected.None?
    requires s.venue.row.Some?
    ensures !StaysOwn(s)
  {
    UnclaimedIsLost(Do(s, OpenRelease));
    LostBefore(s, OpenRelease);
  }

  lemma UndeliveredIsLost(s: State)
    requires s.open.Some? && s.open.value.at.EntrySettled? && s.job.None? && s.meta.None? && s.expected.None?
    requires s.venue.row.None? && s.wire.Some? && s.wire.value.id !in s.venue.fills && !s.wire.value.reduceOnly
    ensures !StaysOwn(s)
  {
    SettledIsLost(Do(s, DeliverWire));
    LostBefore(s, DeliverWire);
  }

  lemma CrashIsLost(s: State)
    requires Inv(s) && NoOrphans(s) && !Attentive(s, Restart)
    ensures !StaysOwn(Do(s, Restart))
  {
    UnclaimedIsLost(Do(s, Restart));
  }

  /** An entry that lands on a flat symbol which awaits none of its side. */
  lemma LateEntryIsLost(s: State)
    requires Inv(s) && Can(s, LandLate) && Careful(s, LandLate) && !Attentive(s, LandLate)
    ensures !StaysOwn(Do(s, LandLate))
  {
    var t := Do(s, LandLate);
    if t.open.Some? { OpenIsLost(t); } else if t.job.Some? { ExitIsLost(t); } else { UnclaimedIsLost(t); }
  }

  /** An entry that filled and is taken for rejected, on a symbol that awaits none of its side. */
  lemma BrokenEntryIsLost(s: State)
    requires Inv(s) && Can(s, EntryBreak) && !Attentive(s, EntryBreak)
    ensures !StaysOwn(Do(s, EntryBreak))
  {
    UnclaimedIsLost(Do(s, EntryBreak));
  }

  lemma ExpiryIsLost(s: State, env: Env)
    requires Inv(s) && NoOrphans(s) && Can(s, SyncFinish(env)) && Careful(s, SyncFinish(env))
    requires !Attentive(s, SyncFinish(env))
    ensures !StaysOwn(Do(s, SyncFinish(env)))
  {
    var t := Do(s, SyncFinish(env));
    if Busy(s) { BusyExpiry(s, env); } else { IdleExpiry(s, env); }
    if t.meta.Some? { NotStaysOwn(t, []); }
    else if t.open.Some? && t.open.value.at.EntrySettled? {
      if t.venue.row.Some? { SettledIsLost(t); } else { UndeliveredIsLost(t); }
    }
    else if t.open.Some? { OpenIsLost(t); }
    else if t.job.Some? { ExitIsLost(t); }
    else { UnclaimedIsLost(t); }
  }

  /** A position, or an entry on its way to become one, that nothing will claim. */
  predicate IsForsaken(t: State) {
    && t.expected.None? && t.meta.None?
    && (t.open.Some? ==>
          && t.job.None?
          && (t.open.value.at.FlipFailed? || t.open.value.at.EntrySettled?
              || (t.open.value.at.EntrySent? && t.open.value.id !in t.venue.fills))
          && (t.open.value.at.EntrySettled? && t.venue.row.None? ==>
                t.wire.Some? && t.wire.value.id !in t.venue.fills && !t.wire.value.reduceOnly))
    && (t.venue.row.None? ==> t.open.Some? && t.open.value.at.EntrySettled?)
    && (t.job.Some? ==>
          !t.job.value.at.Residual? && (t.job.value.at.Submitted? ==> t.job.value.sent.Some?))
  }

  lemma BusyExpiry(s: State, env: Env)
    requires Inv(s) && NoOrphans(s) && Can(s, SyncFinish(env)) && Careful(s, SyncFinish(env)) && Busy(s)
    requires !Attentive(s, SyncFinish(env))
    ensures IsForsaken(Do(s, SyncFinish(env)))
  {
  }

  lemma IdleExpiry(s: State, env: Env)
    requires Inv(s) && NoOrphans(s) && Can(s, SyncFinish(env)) && Careful(s, SyncFinish(env)) && !Busy(s)
    requires !Attentive(s, SyncFinish(env))
    ensures var t := Do(s, SyncFinish(env)); IsForsaken(t) || (t.meta.Some? && t.meta.value.external)
  {
  }

  lemma AttentiveStays(s: State, step: Step)
    requires Inv(s) && NoOrphans(s) && Can(s, step) && Careful(s, step) && Attentive(s, step)
    ensures StaysOwn(Do(s, step))
  {
    StepInv(s, step);
    ClaimedStep(s, step);
    ClaimedStays(Do(s, step));
  }

  lemma ClaimedStays(s: State)
    requires Inv(s) && NoOrphans(s)
    ensures StaysOwn(s)
  {
    forall more | IsAttentiveRun(s, more) && IsRun(s, more)
      ensures !(After(s, more).meta.Some? && After(s, more).meta.value.external)
    {
      NeverAdoptsItsOwn(s, more);
    }
  }

  lemma InattentiveIsLost(s: State, step: Step)
    requires Inv(s) && NoOrphans(s) && Can(s, step) && Careful(s, step) && !Attentive(s, step)
    ensures !StaysOwn(Do(s, step))
  {
    match step
    case Restart => CrashIsLost(s);
    case EntryBreak => BrokenEntryIsLost(s);
    case LandLate => LateEntryIsLost(s);
    case SyncFinish(env) => ExpiryIsLost(s, env);
  }

  /**
   * Main result: the condition is exact. After any attentive run from an empty account, a further step leaves every
   * attentive continuation without an external position if and only if it is attentive too.
   */
  lemma AttentiveIff(symbol: string, reports: bool, before: seq<Step>, step: Step)
    requires IsAttentiveRun(Init(symbol, reports), before) && IsRun(Init(symbol, reports), before)
    requires var s := After(Init(symbol, reports), before); Can(s, step) && Careful(s, step)
    ensures var s := After(Init(symbol, reports), before); Attentive(s, step) <==> StaysOwn(Do(s, step))
  {
    var s := After(Init(symbol, reports), before);
    NeverAdoptsItsOwn(Init(symbol, reports), before);
    if Attentive(s, step) { AttentiveStays(s, step); } else { InattentiveIsLost(s, step); }
  }

  // ----- an entry taken for rejected, from an empty account

  function Broken(): State {
    Filled(true).(meta := None, open := None, wire := None, epoch := 0, orphans := {0})
  }

  lemma ReachesBroken()
    ensures IsRun(Init("BTC", true), OPENING + BREAKING)
    ensures After(Init("BTC", true), OPENING + BREAKING) == Broken()
  {
    RunOpening(true);
    RunTwo(Sent(true), BREAKING[0], BREAKING[1]);
    Concat(Init("BTC", true), OPENING, BREAKING);
  }

  /**
   * The first entry fills and loses its reply, and its lookup fails without an outage: the open takes that for a
   * rejection and remembers nothing, so the next refresh adopts the agent's own position as external, without a stop.
   */
  lemma BrokenEntryIsAdopted()
    ensures IsRun(Init("BTC", true), OPENING + BREAKING + Refreshing(Broken()))
    ensures var t := After(Init("BTC", true), OPENING + BREAKING + Refreshing(Broken()));
      Adopted(t, t) && t.venue.row.value.id == 0 && t.venue.openers == ["CARRY"]
  {
    ReachesBroken();
    UnclaimedIsAdopted(Broken());
    Concat(Init("BTC", true), OPENING + BREAKING, Refreshing(Broken()));
  }

  // ----- a late scale-in, from an empty account

  lemma {:induction false} AttentiveConcat(s: State, a: seq<Step>, b: seq<Step>)
    requires IsAttentiveRun(s, a) && IsRun(s, a) && IsAttentiveRun(After(s, a), b)
    ensures IsAttentiveRun(s, a + b)
    decreases |a|
  {
    if a == [] {
      assert a + b == b;
    } else {
      AttentiveConcat(Do(s, a[0]), a[1..], b);
      assert (a + b)[1..] == a[1..] + b;
    }
  }

  lemma AttentiveTwo(s: State, a: Step, b: Step)
    requires Can(s, a) && Careful(s, a) && Attentive(s, a)
    requires var s1 := Do(s, a); Can(s1, b) && Careful(s1, b) && Attentive(s1, b)
    ensures IsAttentiveRun(s, [a, b]) && IsRun(s, [a, b]) && After(s, [a, b]) == Do(Do(s, a), b)
  {
    AttentiveCons(Do(s, a), b, []);
    AttentiveCons(s, a, [b]);
    assert [b] + [] == [b];
    assert [a] + [b] == [a, b];
  }

  lemma AttentiveThree(s: State, a: Step, b: Step, c: Step)
    requires Can(s, a) && Careful(s, a) && Attentive(s, a)
    requires var s1 := Do(s, a); Can(s1, b) && Careful(s1, b) && Attentive(s1, b)
    requires var s2 := Do(Do(s, a), b); Can(s2, c) && Careful(s2, c) && Attentive(s2, c)
    ensures IsAttentiveRun(s, [a, b, c]) && IsRun(s, [a, b, c]) && After(s, [a, b, c]) == Do(Do(Do(s, a), b), c)
  {
    AttentiveTwo(Do(s, a), b, c);
    AttentiveCons(s, a, [b, c]);
    assert [a] + [b, c] == [a, b, c];
  }

  /** The position is open; a scale-in loses its reply undelivered, and the position is liquidated and settled. */
  const GROWING: seq<Step> := [SyncStart(Some(SECOND)), SyncRead, SyncFinish(QUIET)]
  const LETTING: seq<Step> := [EntryReply(Lost(0, false)), OpenRelease, Liquidate]

  function Idle(): State {
    Shown(true).(open := None, wire := None)
  }

  function Growing(): State {
    Idle().(open := Some(OpenTask(SECOND, true, false, 1, EntrySent)),
            wire := Some(Request(1, "CARRY", false, Long, 2.0, 100.0)), nextOrder := 2)
  }

  function Struck(): State {
    Idle().(venue := Venue(None, [Long], ["CARRY"], {0}, map[0 := Fill(0, 1.0, 100.0)]), epoch := 2, nextOrder := 2,
            late := Some(Late(Request(1, "CARRY", false, Long, 2.0, 100.0), true)))
  }

  function Settled(): State {
    Struck().(meta := None, cache := None, journal := [SettledRecord()])
  }

  function SettledRecord(): Trade {
    ClosedTrade("BTC", Closed(0, "CARRY", Long, 100.0, 1.0, None, None), 100.0, Close, 0, None)
  }

  lemma RunsOpening()
    ensures IsAttentiveRun(Init("BTC", true), OPENING) && IsRun(Init("BTC", true), OPENING)
    ensures After(Init("BTC", true), OPENING) == Sent(true)
  {
    AttentiveThree(Init("BTC", true), OPENING[0], OPENING[1], OPENING[2]);
  }

  lemma RunsFilling()
    ensures IsAttentiveRun(Sent(true), FILLING) && IsRun(Sent(true), FILLING)
    ensures After(Sent(true), FILLING) == Filled(true)
  {
    AttentiveTwo(Sent(true), FILLING[0], FILLING[1]);
  }

  lemma RunsShowing()
    ensures IsAttentiveRun(Filled(true), SHOWING) && IsRun(Filled(true), SHOWING)
    ensures After(Filled(true), SHOWING) == Shown(true)
  {
    AttentiveThree(Filled(true), SHOWING[0], SHOWING[1], SHOWING[2]);
  }

  lemma RunsGrowing()
    ensures IsAttentiveRun(Idle(), GROWING) && IsRun(Idle(), GROWING) && After(Idle(), GROWING) == Growing()
  {
    AttentiveThree(Idle(), GROWING[0], GROWING[1], GROWING[2]);
  }

  lemma RunsLetting()
    ensures IsAttentiveRun(Growing(), LETTING) && IsRun(Growing(), LETTING) && After(Growing(), LETTING) == Struck()
  {
    AttentiveThree(Growing(), LETTING[0], LETTING[1], LETTING[2]);
  }

  lemma RunsSettling()
    ensures IsAttentiveRun(Struck(), SHOWING) && IsRun(Struck(), SHOWING) && After(Struck(), SHOWING) == Settled()
  {
    AttentiveThree(Struck(), SHOWING[0], SHOWING[1], SHOWING[2]);
  }

  function LettingRun(): seq<Step> {
    OPENING + FILLING + SHOWING + [OpenRelease] + GROWING + LETTING + SHOWING
  }

  lemma Joins(s: State, a: seq<Step>, b: seq<Step>)
    requires IsAttentiveRun(s, a) && IsRun(s, a) && IsAttentiveRun(After(s, a), b) && IsRun(After(s, a), b)
    ensures IsAttentiveRun(s, a + b) && IsRun(s, a + b) && After(s, a + b) == After(After(s, a), b)
  {
    AttentiveConcat(s, a, b);
    Concat(s, a, b);
  }

  lemma ReachesIdle()
    ensures IsAttentiveRun(Init("BTC", true), OPENING + FILLING + SHOWING + [OpenRelease])
    ensures IsRun(Init("BTC", true), OPENING + FILLING + SHOWING + [OpenRelease])
    ensures After(Init("BTC", true), OPENING + FILLING + SHOWING + [OpenRelease]) == Idle()
  {
    var start := Init("BTC", true);
    RunsOpening(); RunsFilling(); RunsShowing();
    AttentiveCons(Shown(true), OpenRelease, []);
    assert [OpenRelease] + [] == [OpenRelease];
    Joins(start, OPENING, FILLING);
    Joins(start, OPENING + FILLING, SHOWING);
    Joins(start, OPENING + FILLING + SHOWING, [OpenRelease]);
  }

  lemma ReachesSettled()
    ensures IsAttentiveRun(Init("BTC", true), LettingRun()) && IsRun(Init("BTC", true), LettingRun())
    ensures After(Init("BTC", true), LettingRun()) == Settled()
  {
    var start, idle := Init("BTC", true), OPENING + FILLING + SHOWING + [OpenRelease];
    ReachesIdle(); RunsGrowing(); RunsLetting(); RunsSettling();
    Joins(start, idle, GROWING);
    Joins(start, idle + GROWING, LETTING);
    Joins(start, idle + GROWING + LETTING, SHOWING);
  }

  lemma SettledLands()
    ensures Can(Settled(), LandLate)
    ensures var landed := Do(Settled(), LandLate);
      && IsUnclaimed(landed) && landed.venue.row.value.id == 1 && landed.venue.openers == ["CARRY", "CARRY"]
      && Refreshing(landed) == SHOWING
  {
    assert [] + [SyncStart(None), SyncRead, SyncFinish(QUIET)] == SHOWING;
  }

  lemma SettledIsAdopted()
    ensures IsRun(Settled(), [LandLate] + SHOWING)
    ensures var t := After(Settled(), [LandLate] + SHOWING);
      Adopted(t, t) && t.venue.row.value.id == 1 && t.venue.openers == ["CARRY", "CARRY"]
  {
    SettledLands();
    UnclaimedIsAdopted(Do(Settled(), LandLate));
    Cons(Settled(), LandLate, SHOWING);
  }

  /**
   * From an empty account, with no crash and no expiry: a scale-in gives up undelivered, its position is liquidated and
   * settled, and the scale-in lands on the flat symbol. Only first entries leave an expectation behind
   * (src/binance/remoteBroker.ts:248), so the next refresh adopts the agent's own position as external, without a stop.
   */
  lemma LateScaleInIsAdopted()
    ensures IsAttentiveRun(Init("BTC", true), LettingRun())
    ensures IsRun(Init("BTC", true), LettingRun() + ([LandLate] + SHOWING))
    ensures var t := After(Init("BTC", true), LettingRun() + ([LandLate] + SHOWING));
      Adopted(t, t) && t.venue.row.value.id == 1 && t.venue.openers == ["CARRY", "CARRY"]
  {
    ReachesSettled();
    SettledIsAdopted();
    Concat(Init("BTC", true), LettingRun(), [LandLate] + SHOWING);
  }
}
