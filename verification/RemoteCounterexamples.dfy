/**
 * Why each condition of the remote guarantees is there: for every one, a run of the protocol that breaks it once and
 * loses or doubles a position's end. A lost end stays lost in every continuation.
 */
module RemoteCounterexamples {
  import opened Common
  import opened RemoteState
  import opened RemoteReconcile
  import opened RemoteProtocol
  import opened RemoteGuarantees

  ghost predicate Unbooked(journal: seq<Trade>, k: nat) {
    forall t :: t in journal && !t.partial ==> t.closed.rowId != k
  }

  predicate MetaForgets(meta: Option<Meta>, k: nat) {
    meta.Some? && meta.value.lastSeen.Some? ==> meta.value.lastSeen.value.rowId != k
  }

  predicate JobForgets(job: Option<Job>, k: nat) {
    job.Some? ==> (job.value.sent.Some? ==> job.value.sent.value.rowId != k) && MetaForgets(job.value.kept, k)
  }

  predicate SyncForgets(sync: Option<Sync>, k: nat) {
    sync.Some? && sync.value.snapshot.Some? ==> RowId(sync.value.snapshot.value) != Some(k)
  }

  predicate OpenForgets(open: Option<OpenTask>, fills: map<OrderId, Fill>, k: nat) {
    open.Some? && open.value.at.EntrySent? && open.value.id in fills ==> fills[open.value.id].rowId != k
  }

  ghost predicate IdsUsed(s: State) {
    && (forall id :: id in s.venue.fills ==> id < s.nextOrder)
    && (s.wire.Some? ==> s.wire.value.id < s.nextOrder)
    && (s.late.Some? ==> s.late.value.request.id < s.nextOrder)
    && (s.job.Some? ==> s.job.value.id < s.nextOrder)
  }

  /** Row k ended, was never journaled, and nothing the agent or its requests hold remembers it. */
  ghost predicate Forgotten(s: State, k: nat) {
    && k in s.venue.ended && k < |s.venue.sides|
    && RowId(s.venue.row) != Some(k) && RowId(s.cache) != Some(k)
    && Unbooked(s.journal, k)
    && MetaForgets(s.meta, k)
    && JobForgets(s.job, k)
    && SyncForgets(s.sync, k)
    && OpenForgets(s.open, s.venue.fills, k)
    && IdsUsed(s)
  }

  /** A reconcile books and remembers only rows it was shown. */
  lemma ReconcileSources(symbol: string, c: Sidecar, before: Option<Row>, current: Option<Row>, busy: bool, env: Env,
                         k: nat)
    requires RowId(before) != Some(k) && RowId(current) != Some(k)
    requires MetaForgets(c.meta, k)
    requires Unbooked(c.journal, k)
    ensures var r := Reconcile(symbol, c, before, current, busy, env);
      && MetaForgets(r.meta, k)
      && Unbooked(r.journal, k)
  {
  }

  lemma ForgottenRefresh(s: State, env: Env, k: nat)
    requires Forgotten(s, k) && Can(s, SyncFinish(env))
    ensures Forgotten(Refreshed(s, env), k)
  {
    if s.sync.value.epoch == s.epoch {
      ReconcileSources(s.symbol, Sidecar(s.meta, s.expected, s.journal), s.cache, s.sync.value.snapshot.value, Busy(s),
                       env, k);
    }
  }

  lemma ForgottenEnter(s: State, p: OpenParams, isScaleIn: bool, isFlip: bool, k: nat)
    requires Forgotten(s, k)
    ensures Forgotten(EnterWith(s, p, isScaleIn, isFlip), k)
  {
  }

  lemma ForgottenStart(s: State, reason: Reason, price: real, cap: Option<real>, k: nat)
    requires Forgotten(s, k)
    ensures Forgotten(WithJob(s, reason, price, cap), k)
  {
  }

  lemma ForgottenDecide(s: State, p: OpenParams, k: nat)
    requires Forgotten(s, k)
    ensures Forgotten(Decide(s, p), k)
  {
    var d := Decide(s, p);
    if d != s {
      if s.cache.None? { ForgottenEnter(s, p, false, false, k); }
      else if s.cache.value.side == p.side { ForgottenEnter(s, p, true, false, k); }
      else { ForgottenStart(s, Flip, p.entryPrice, None, k); }
    }
  }

  lemma ForgottenLanding(s: State, k: nat)
    requires Forgotten(s, k) && s.wire.Some?
    ensures Forgotten(Delivered(s), k)
  {
  }

  lemma ForgottenLate(s: State, k: nat)
    requires Forgotten(s, k) && s.late.Some?
    ensures Forgotten(Landed(s), k)
  {
  }

  lemma ForgottenBooking(s: State, now: int, k: nat)
    requires Forgotten(s, k) && s.job.Some? && s.job.value.sent.Some? && s.job.value.id in s.venue.fills
    ensures Forgotten(Completed(s, now), k)
  {
    BookingForgets(s, now, k);
    BookingFrame(s, now);
  }

  lemma BookingForgets(s: State, now: int, k: nat)
    requires Unbooked(s.journal, k) && JobForgets(s.job, k)
    requires s.job.Some? && s.job.value.sent.Some? && s.job.value.id in s.venue.fills
    ensures Unbooked(Completed(s, now).journal, k)
  {
    BookedElsewhere(s.journal, Completed(s, now).journal[|s.journal|], k);
  }

  lemma BookedElsewhere(journal: seq<Trade>, booked: Trade, k: nat)
    requires Unbooked(journal, k) && booked.closed.rowId != k
    ensures Unbooked(journal + [booked], k)
  {
  }

  lemma ForgottenRead(s: State, mark: Option<real>, k: nat)
    requires Forgotten(s, k) && s.job.Some?
    ensures Forgotten(ReadForExit(s, mark), k)
  {
  }

  lemma ForgottenOutage(s: State, isDropped: bool, k: nat)
    requires Forgotten(s, k) && s.job.Some?
    ensures Forgotten(OutageAt(s, isDropped), k)
  {
  }

  lemma ForgottenExit(s: State, step: Step, k: nat)
    requires Forgotten(s, k) && Can(s, step) && IsExitStep(step) && !IsConfirmation(step)
    requires !step.ExitRead? && !step.ExitReadDown? && !step.ExitLookup? && !(step.ExitReply? && step.reply.Lost?)
    ensures Forgotten(Do(s, step), k)
  {
  }

  lemma ForgottenEntry(s: State, step: Step, k: nat)
    requires Forgotten(s, k) && Can(s, step) && IsOpenStep(step) && !step.EntryReply?
    ensures Forgotten(Do(s, step), k)
  {
  }

  lemma ForgottenReply(s: State, reply: Reply, k: nat)
    requires Forgotten(s, k) && Can(s, EntryReply(reply))
    ensures Forgotten(EntryDone(s, reply), k)
  {
  }

  lemma ForgottenOther(s: State, step: Step, k: nat)
    requires Forgotten(s, k) && Can(s, step)
    requires step.Liquidate? || step.OtherOrderSettles? || step.SyncStart? || step.SyncRead? || step.SyncFail?
          || step.UpdateStops? || step.Restart?
    ensures Forgotten(Do(s, step), k)
  {
  }

  lemma ForgottenExitStep(s: State, step: Step, k: nat)
    requires Forgotten(s, k) && Can(s, step) && IsExitStep(step)
    ensures Forgotten(Do(s, step), k)
  {
    match step
    case ExitRead(mark) => ForgottenRead(s, mark, k);
    case ExitReadDown(isDropped) => ForgottenOutage(s, isDropped, k);
    case ExitLookup(answer, now) =>
      if answer.Hit? { ForgottenBooking(s, now, k); }
      else if answer.LookupDown? { ForgottenOutage(s, answer.isDropped, k); }
    case ExitReply(reply) =>
      if reply.Confirmed? { ForgottenBooking(s, reply.now, k); }
      else if reply.Refused? { ForgottenExit(s, step, k); }
      else { ForgottenOutage(s, reply.isDropped, k); }
    case _ => ForgottenExit(s, step, k);
  }

  lemma ForgottenStep(s: State, step: Step, k: nat)
    requires Forgotten(s, k) && Can(s, step)
    ensures Forgotten(Do(s, step), k)
  {
    if IsExitStep(step) { ForgottenExitStep(s, step, k); return; }
    if step.SyncFinish? { ForgottenFinish(s, step.env, k); }
    else if step.DeliverWire? { ForgottenLanding(s, k); }
    else if step.LandLate? { ForgottenLate(s, k); }
    else if step.EntryReply? { ForgottenReply(s, step.entry, k); }
    else if IsOpenStep(step) { ForgottenEntry(s, step, k); }
    else { ForgottenOther(s, step, k); }
  }

  lemma ForgottenFinish(s: State, env: Env, k: nat)
    requires Forgotten(s, k) && Can(s, SyncFinish(env))
    ensures Forgotten(Do(s, SyncFinish(env)), k)
  {
    ForgottenRefresh(s, env, k);
    if s.sync.value.preOpen.Some? { ForgottenDecide(Refreshed(s, env), s.sync.value.preOpen.value, k); }
  }

  /** An end the agent lost track of is never journaled, whatever happens afterwards. */
  lemma {:induction false} ForgottenForever(s: State, steps: seq<Step>, k: nat)
    requires Forgotten(s, k) && IsRun(s, steps)
    ensures Forgotten(After(s, steps), k)
    ensures FinalRecords(After(s, steps).journal, k) == 0
    decreases |steps|
  {
    if steps == [] {
      NoRecords(s.journal, k);
    } else {
      ForgottenStep(s, steps[0], k);
      ForgottenForever(Do(s, steps[0]), steps[1..], k);
    }
  }

  lemma {:induction false} NoRecords(journal: seq<Trade>, k: nat)
    requires Unbooked(journal, k)
    ensures FinalRecords(journal, k) == 0
  {
    if journal != [] { NoRecords(journal[1..], k); }
  }

  // ----- an open that decides on a view the exchange has left

  /** The sidecar still owes row k a record, the exchange is flat, and nothing is in flight. */
  ghost predicate OwesWhileFlat(s: State, k: nat) {
    && Inv(s) && !Busy(s) && s.sync.None? && s.wire.None?
    && s.venue.row.None? && s.meta.Some? && Subject(s.meta.value) == k
  }

  /** The entry decided there fills, is confirmed, and a refresh shows the new row. */
  function FilledAndSeen(now: int, env: Env): seq<Step> {
    [DeliverWire, EntryReply(Confirmed(now)), SyncStart(None), SyncRead, SyncFinish(env)]
  }

  lemma Cons(s: State, step: Step, rest: seq<Step>)
    requires Can(s, step) && IsRun(Do(s, step), rest)
    ensures IsRun(s, [step] + rest) && After(s, [step] + rest) == After(Do(s, step), rest)
  {
    assert ([step] + rest)[1..] == rest;
  }

  lemma {:induction false} Concat(s: State, a: seq<Step>, b: seq<Step>)
    requires IsRun(s, a) && IsRun(After(s, a), b)
    ensures IsRun(s, a + b) && After(s, a + b) == After(After(s, a), b)
    decreases |a|
  {
    if a == [] {
      assert a + b == b;
    } else {
      Concat(Do(s, a[0]), a[1..], b);
      assert (a + b)[1..] == a[1..] + b;
    }
  }

  lemma RunTwo(s: State, a: Step, b: Step)
    requires Can(s, a) && Can(Do(s, a), b)
    ensures IsRun(s, [a, b]) && After(s, [a, b]) == Do(Do(s, a), b)
  {
    Cons(Do(s, a), b, []);
    Cons(s, a, [b]);
    assert [b] + [] == [b];
    assert [a] + [b] == [a, b];
  }

  lemma RunThree(s: State, a: Step, b: Step, c: Step)
    requires Can(s, a)
    requires var s1 := Do(s, a); Can(s1, b) && Can(Do(s1, b), c)
    ensures IsRun(s, [a, b, c]) && After(s, [a, b, c]) == Do(Do(Do(s, a), b), c)
  {
    RunTwo(Do(s, a), b, c);
    Cons(s, a, [b, c]);
    assert [a] + [b, c] == [a, b, c];
  }

  lemma RunFour(s: State, a: Step, b: Step, c: Step, d: Step)
    requires Can(s, a)
    requires var s1 := Do(s, a); Can(s1, b) && Can(Do(s1, b), c) && Can(Do(Do(s1, b), c), d)
    ensures IsRun(s, [a, b, c, d]) && After(s, [a, b, c, d]) == Do(Do(Do(Do(s, a), b), c), d)
  {
    RunThree(Do(s, a), b, c, d);
    Cons(s, a, [b, c, d]);
    assert [a] + [b, c, d] == [a, b, c, d];
  }

  lemma RunFive(s: State, a: Step, b: Step, c: Step, d: Step, e: Step)
    requires Can(s, a)
    requires var s1 := Do(s, a); Can(s1, b)
    requires var s2 := Do(Do(s, a), b); Can(s2, c) && Can(Do(s2, c), d) && Can(Do(Do(s2, c), d), e)
    ensures IsRun(s, [a, b, c, d, e]) && After(s, [a, b, c, d, e]) == Do(Do(Do(Do(Do(s, a), b), c), d), e)
  {
    RunTwo(s, a, b);
    RunThree(After(s, [a, b]), c, d, e);
    Concat(s, [a, b], [c, d, e]);
    assert [a, b] + [c, d, e] == [a, b, c, d, e];
  }

  /** What an entry that landed on a flat exchange leaves behind, up to the next refresh. */
  lemma EntryFilled(s: State, o: OpenTask, now: int, k: nat)
    requires s.open == Some(o) && o.at.EntrySent? && s.job.None? && s.venue.row.None? && o.params.qty > 0.0
    requires s.wire == Some(Request(o.id, o.params.strategy, false, o.params.side, o.params.qty, o.params.entryPrice))
             && o.id !in s.venue.fills
    ensures Can(s, DeliverWire) && Can(Do(s, DeliverWire), EntryReply(Confirmed(now)))
    ensures var t := Do(Do(s, DeliverWire), EntryReply(Confirmed(now)));
      && t == s.(venue := t.venue, meta := t.meta, expected := None, epoch := s.epoch + 1,
                 open := Some(o.(at := EntrySettled)))
      && t.meta == Some(if o.isScaleIn && s.meta.Some? then ScaledMeta(s.meta.value, o.params)
                        else EntryMeta(o.params, |s.venue.sides|, now))
      && t.venue.row == Some(Row(|s.venue.sides|, o.params.side, o.params.entryPrice, o.params.qty,
                                 o.params.entryPrice))
      && t.venue.ended == s.venue.ended && t.venue.sides == s.venue.sides + [o.params.side]
      && t.venue.openers == s.venue.openers + [o.params.strategy]
      && t.venue.fills == s.venue.fills[o.id := Fill(|s.venue.sides|, o.params.qty, o.params.entryPrice)]
  {
  }

  /** A busy refresh that shows a moved row leaves the sidecar remembering that row alone. */
  lemma BusyRefreshSees(s: State, env: Env, row: Row, k: nat)
    requires s.open.Some? && s.open.value.at.EntrySettled? && s.sync.None? && s.venue.row == Some(row)
    requires s.meta.Some?
    requires s.meta.value.lastSeen.Some? ==>
               s.meta.value.lastSeen.value.rowId != k || s.meta.value.lastSeen.value.qty != row.qty
    requires row.id != k
    ensures Can(s, SyncStart(None)) && Can(Do(s, SyncStart(None)), SyncRead)
    ensures Can(Do(Do(s, SyncStart(None)), SyncRead), SyncFinish(env))
    ensures var t := Do(Do(Do(s, SyncStart(None)), SyncRead), SyncFinish(env));
      && t.cache == Some(row) && MetaForgets(t.meta, k) && t.venue == s.venue && t.journal == s.journal
      && t.job == s.job && t.open == s.open && t.wire == s.wire && t.nextOrder == s.nextOrder && t.sync.None?
  {
  }

  /** If an entry goes ahead on such a state and fills, row k's end is lost for good. */
  lemma StaleEntryForgets(s: State, p: OpenParams, now: int, env: Env, k: nat)
    requires OwesWhileFlat(s, k) && p.qty > 0.0
    requires s.cache.None? || (s.cache.value.side == p.side && s.meta.value.owner == p.strategy
                               && !s.meta.value.external
                               && s.meta.value.lastSeen.value.qty != p.qty)
    ensures IsRun(Decide(s, p), FilledAndSeen(now, env))
    ensures Forgotten(After(Decide(s, p), FilledAndSeen(now, env)), k)
  {
    var d := Decide(s, p);
    OwedIsUnbooked(s, k);
    StaleEntryFills(s, p, d, now, k);
    var filled := Do(Do(d, DeliverWire), EntryReply(Confirmed(now)));
    FilledIsForgotten(s, filled, env, k);
    RunFive(d, DeliverWire, EntryReply(Confirmed(now)), SyncStart(None), SyncRead, SyncFinish(env));
  }

  /** The entry's fill is confirmed over the record that was owed. */
  predicate IsFilledOver(s: State, t: State, k: nat)
    requires s.meta.Some?
  {
    && t.open.Some? && t.open.value.at.EntrySettled? && t.sync.None? && t.job.None? && t.late.None?
    && t.venue.row.Some? && t.venue.row.value.id == |s.venue.sides| && t.meta.Some?
    && (t.meta.value.lastSeen.Some? ==>
          t.meta.value.lastSeen.value.rowId != k || t.meta.value.lastSeen.value.qty != t.venue.row.value.qty)
    && t.venue.ended == s.venue.ended && |t.venue.sides| == |s.venue.sides| + 1 && t.journal == s.journal
    && t.wire.Some? && t.wire.value.id < t.nextOrder
    && (forall id :: id in t.venue.fills ==> id < t.nextOrder)
  }

  lemma StaleEntryFills(s: State, p: OpenParams, d: State, now: int, k: nat)
    requires OwesWhileFlat(s, k) && p.qty > 0.0 && d == Decide(s, p)
    requires s.cache.None? || (s.cache.value.side == p.side && s.meta.value.owner == p.strategy
                               && !s.meta.value.external
                               && s.meta.value.lastSeen.value.qty != p.qty)
    ensures Can(d, DeliverWire) && Can(Do(d, DeliverWire), EntryReply(Confirmed(now)))
    ensures IsFilledOver(s, Do(Do(d, DeliverWire), EntryReply(Confirmed(now))), k)
  {
    assert d.open.value.id == s.nextOrder && d.open.value.id !in s.venue.fills;
    EntryFilled(d, d.open.value, now, k);
  }

  lemma FilledIsForgotten(s: State, filled: State, env: Env, k: nat)
    requires s.meta.Some? && IsFilledOver(s, filled, k)
    requires k in s.venue.ended && k < |s.venue.sides| && Unbooked(s.journal, k)
    ensures Can(filled, SyncStart(None)) && Can(Do(filled, SyncStart(None)), SyncRead)
    ensures Can(Do(Do(filled, SyncStart(None)), SyncRead), SyncFinish(env))
    ensures Forgotten(Do(Do(Do(filled, SyncStart(None)), SyncRead), SyncFinish(env)), k)
  {
    BusyRefreshSees(filled, env, filled.venue.row.value, k);
  }

  lemma OwedIsUnbooked(s: State, k: nat)
    requires OwesWhileFlat(s, k)
    ensures k in s.venue.ended && k < |s.venue.sides| && Unbooked(s.journal, k)
  {
    forall t | t in s.journal && !t.partial ensures t.closed.rowId != k { assert t.closed.rowId in Finals(s.journal); }
  }

  // ----- a flip given up before a refresh showed the new row

  lemma {:induction false} FinalRecordsAppend(journal: seq<Trade>, trade: Trade, k: nat)
    ensures FinalRecords(journal + [trade], k) ==
            FinalRecords(journal, k) + (if !trade.partial && trade.closed.rowId == k then 1 else 0)
  {
    if journal == [] {
      assert journal + [trade] == [trade];
      assert [trade][1..] == [];
    } else {
      FinalRecordsAppend(journal[1..], trade, k);
      assert (journal + [trade])[1..] == journal[1..] + [trade];
    }
  }

  /**
   * A confirmed flip released while the cache still shows the old side: the next refresh journals the old position a
   * second time and hands the new one, if it is still there, to nobody.
   */
  lemma UnrefreshedFlipDoubles(s: State, env: Env)
    requires Inv(s) && s.open.Some? && s.open.value.at.EntrySettled? && s.open.value.isFlip
    requires s.meta.Some? && s.expected.None? && s.sync.None?
    requires !Careful(s, OpenRelease)
    ensures var steps := [OpenRelease, SyncStart(None), SyncRead, SyncFinish(env)];
      IsRun(s, steps) && FinalRecords(After(s, steps).journal, s.cache.value.id) == 2
      && (s.venue.row.Some? ==> After(s, steps).meta.Some? && After(s, steps).meta.value.external)
  {
    var t := MisjournaledFlip(s, env);
    var booked := t.journal[|s.journal|];
    CountFinals(s.journal, s.cache.value.id);
    FinalRecordsAppend(s.journal, booked, s.cache.value.id);
  }

  lemma StaleFlipCache(s: State)
    requires Inv(s) && s.open.Some? && s.open.value.at.EntrySettled? && s.open.value.isFlip && s.meta.Some?
    requires !Careful(s, OpenRelease)
    ensures s.cache.Some? && s.cache.value.id in Finals(s.journal)
            && (s.venue.row.Some? ==> s.cache.value.side != s.venue.row.value.side)
  {
    assert s.meta.value.lastSeen.Some? && s.cache.value.id != Subject(s.meta.value);
    assert s.cache.value.id in s.venue.ended;
  }

  lemma MisjournaledFlip(s: State, env: Env) returns (t: State)
    requires Inv(s) && s.open.Some? && s.open.value.at.EntrySettled? && s.open.value.isFlip
    requires s.meta.Some? && s.expected.None? && s.sync.None?
    requires !Careful(s, OpenRelease)
    ensures var steps := [OpenRelease, SyncStart(None), SyncRead, SyncFinish(env)];
            IsRun(s, steps) && t == After(s, steps)
    ensures s.cache.Some? && s.cache.value.id in Finals(s.journal)
    ensures |t.journal| == |s.journal| + 1 && t.journal == s.journal + [t.journal[|s.journal|]]
    ensures !t.journal[|s.journal|].partial && t.journal[|s.journal|].closed.rowId == s.cache.value.id
    ensures s.venue.row.Some? ==> t.meta.Some? && t.meta.value.external
  {
    StaleFlipCache(s);
    var released := Do(s, OpenRelease);
    t := Do(Do(Do(released, SyncStart(None)), SyncRead), SyncFinish(env));
    ReleasedIsMisjournaled(s, released, env);
    RunFour(s, OpenRelease, SyncStart(None), SyncRead, SyncFinish(env));
  }

  lemma ReleasedIsMisjournaled(s: State, released: State, env: Env)
    requires s.meta.Some? && s.expected.None? && s.cache.Some?
    requires s.venue.row.Some? ==> s.cache.value.side != s.venue.row.value.side
    requires released == s.(open := None, wire := None, late := released.late) && !Busy(released) && s.sync.None?
    ensures Can(released, SyncStart(None)) && Can(Do(released, SyncStart(None)), SyncRead)
    ensures Can(Do(Do(released, SyncStart(None)), SyncRead), SyncFinish(env))
    ensures var t := Do(Do(Do(released, SyncStart(None)), SyncRead), SyncFinish(env));
      && |t.journal| == |s.journal| + 1 && t.journal == s.journal + [t.journal[|s.journal|]]
      && !t.journal[|s.journal|].partial && t.journal[|s.journal|].closed.rowId == s.cache.value.id
      && (s.venue.row.Some? ==> t.meta.Some? && t.meta.value.external)
  {
  }

  // ---------------------------------------------------------------- an exit of a position the sidecar does not know

  /** If its order fills and the process dies before the reply, the end is lost for good. */
  lemma UnknownExitForgets(s: State, price: real)
    requires Inv(s) && !Busy(s) && s.meta.None? && s.venue.row.Some? && s.cache.Some?
    ensures var steps := [StartExit(Close, price, None), ExitRead(None), DeliverWire, Restart];
      IsRun(s, steps) && Forgotten(After(s, steps), s.venue.row.value.id)
  {
    var started := Do(s, StartExit(Close, price, None));
    KilledRun(started, s.venue.row.value.id);
    Cons(s, StartExit(Close, price, None), [ExitRead(None), DeliverWire, Restart]);
    assert [StartExit(Close, price, None)] + [ExitRead(None), DeliverWire, Restart]
        == [StartExit(Close, price, None), ExitRead(None), DeliverWire, Restart];
  }

  lemma KilledRun(s: State, k: nat)
    requires VenueOk(s.venue, s.nextOrder) && JournalOk(s) && RowId(s.venue.row) == Some(k) && s.meta.None?
    requires s.job.Some? && s.job.value.at.Reading? && s.job.value.cap.None?
    requires s.job.value.id < s.nextOrder && s.job.value.id !in s.venue.fills && IdsUsed(s)
    ensures var steps := [ExitRead(None), DeliverWire, Restart]; IsRun(s, steps) && Forgotten(After(s, steps), k)
  {
    KilledBeforeReply(s, k);
    RunThree(s, ExitRead(None), DeliverWire, Restart);
  }

  lemma KilledBeforeReply(s: State, k: nat)
    requires VenueOk(s.venue, s.nextOrder) && JournalOk(s) && RowId(s.venue.row) == Some(k) && s.meta.None?
    requires s.job.Some? && s.job.value.at.Reading? && s.job.value.cap.None?
    requires s.job.value.id < s.nextOrder && s.job.value.id !in s.venue.fills && IdsUsed(s)
    ensures Can(s, ExitRead(None)) && Can(Do(s, ExitRead(None)), DeliverWire)
    ensures Forgotten(Do(Do(Do(s, ExitRead(None)), DeliverWire), Restart), k)
  {
    forall t | t in s.journal && !t.partial ensures t.closed.rowId != k { assert t.closed.rowId in Finals(s.journal); }
  }

  // ---------------------------------------------------------------- one whole run

  const FIRST: OpenParams := OpenParams(Long, 1.0, "CARRY", None, None, 100.0, None)
  const SECOND: OpenParams := OpenParams(Long, 2.0, "CARRY", None, None, 100.0, None)
  const QUIET: Env := Env(0, map[], [])

  /** A first open, filled, confirmed and refreshed. */
  const OPENING: seq<Step> := [SyncStart(Some(FIRST)), SyncRead, SyncFinish(QUIET)]
  const FILLING: seq<Step> := [DeliverWire, EntryReply(Confirmed(0))]
  const SHOWING: seq<Step> := [SyncStart(None), SyncRead, SyncFinish(QUIET)]
  /**
   * A manual close, and a second open whose refresh reads before the close lands; the close loses its reply and is
   * dropped.
   */
  const CLOSING: seq<Step> := [OpenRelease, StartExit(Close, 100.0, None)]
  const READING: seq<Step> := [SyncStart(Some(SECOND)), SyncRead]
  const DROPPING: seq<Step> := [ExitRead(None), DeliverWire, ExitReply(Lost(0, true))]

  function Sent(reports: bool): State {
    Init("BTC", reports).(
      open := Some(OpenTask(FIRST, false, false, 0, EntrySent)),
      wire := Some(Request(0, "CARRY", false, Long, 1.0, 100.0)),
      nextOrder := 1)
  }

  const HELD: Row := Row(0, Long, 100.0, 1.0, 100.0)

  function Filled(reports: bool): State {
    Sent(reports).(
      venue := Venue(Some(HELD), [Long], ["CARRY"], {}, map[0 := Fill(0, 1.0, 100.0)]),
      meta := Some(EntryMeta(FIRST, 0, 0)),
      open := Some(OpenTask(FIRST, false, false, 0, EntrySettled)),
      epoch := 1)
  }

  function Shown(reports: bool): State {
    Filled(reports).(cache := Some(HELD))
  }

  function Closing(): State {
    Shown(true).(
      open := None, wire := None, nextOrder := 2,
      job := Some(Job(1, Close, 100.0, 100.0, None, None, None, Reading)))
  }

  function Read(): State {
    Closing().(sync := Some(Sync(1, Some(SECOND), Some(Some(HELD)), false)))
  }

  function Dropped(): State {
    Read().(
      venue := Venue(None, [Long], ["CARRY"], {0}, map[0 := Fill(0, 1.0, 100.0), 1 := Fill(0, 1.0, 100.0)]),
      job := None,
      sync := Some(Sync(1, Some(SECOND), Some(Some(HELD)), true)))
  }

  lemma RunOpening(reports: bool)
    ensures IsRun(Init("BTC", reports), OPENING) && After(Init("BTC", reports), OPENING) == Sent(reports)
  {
    RunThree(Init("BTC", reports), OPENING[0], OPENING[1], OPENING[2]);
  }

  lemma RunFilling(reports: bool)
    ensures IsRun(Sent(reports), FILLING) && After(Sent(reports), FILLING) == Filled(reports)
  {
    RunTwo(Sent(reports), FILLING[0], FILLING[1]);
  }

  lemma RunShowing(reports: bool)
    ensures IsRun(Filled(reports), SHOWING) && After(Filled(reports), SHOWING) == Shown(reports)
  {
    RunThree(Filled(reports), SHOWING[0], SHOWING[1], SHOWING[2]);
  }

  /** From an empty account to a position the broker shows. */
  lemma ReachesShown(reports: bool)
    ensures IsRun(Init("BTC", reports), OPENING + FILLING + SHOWING)
    ensures After(Init("BTC", reports), OPENING + FILLING + SHOWING) == Shown(reports)
  {
    RunOpening(reports); RunFilling(reports); RunShowing(reports);
    Concat(Init("BTC", reports), OPENING, FILLING);
    Concat(Init("BTC", reports), OPENING + FILLING, SHOWING);
  }

  lemma RunClosing()
    ensures IsRun(Shown(true), CLOSING) && After(Shown(true), CLOSING) == Closing()
  {
    RunTwo(Shown(true), CLOSING[0], CLOSING[1]);
  }

  lemma RunReading()
    ensures IsRun(Closing(), READING) && After(Closing(), READING) == Read()
  {
    RunTwo(Closing(), READING[0], READING[1]);
  }

  lemma RunDropping()
    ensures IsRun(Read(), DROPPING) && After(Read(), DROPPING) == Dropped()
  {
    RunThree(Read(), DROPPING[0], DROPPING[1], DROPPING[2]);
  }

  /**
   * The close landed unseen; the second open's refresh is still in the current epoch and shows the position as held.
   */
  function LosingRun(): seq<Step> {
    OPENING + FILLING + SHOWING + CLOSING + READING + DROPPING + [SyncFinish(QUIET)] + FilledAndSeen(0, QUIET)
  }

  lemma ReachesDropped()
    ensures IsRun(Init("BTC", true), OPENING + FILLING + SHOWING + CLOSING + READING + DROPPING)
    ensures After(Init("BTC", true), OPENING + FILLING + SHOWING + CLOSING + READING + DROPPING) == Dropped()
  {
    ReachesShown(true); RunClosing(); RunReading(); RunDropping();
    Concat(Init("BTC", true), OPENING + FILLING + SHOWING, CLOSING);
    Concat(Init("BTC", true), OPENING + FILLING + SHOWING + CLOSING, READING);
    Concat(Init("BTC", true), OPENING + FILLING + SHOWING + CLOSING + READING, DROPPING);
  }

  lemma DroppedStillOwes()
    ensures OwesWhileFlat(Dropped().(sync := None), 0)
  {
    assert Finals([]) == {};
  }

  lemma DroppedRefresh()
    ensures Can(Dropped(), SyncFinish(QUIET))
    ensures Refreshed(Dropped(), QUIET) == Dropped().(sync := None)
    ensures Do(Dropped(), SyncFinish(QUIET)) == Decide(Dropped().(sync := None), SECOND)
  {
  }

  lemma DroppedForgets()
    ensures IsRun(Dropped(), [SyncFinish(QUIET)] + FilledAndSeen(0, QUIET))
    ensures Forgotten(After(Dropped(), [SyncFinish(QUIET)] + FilledAndSeen(0, QUIET)), 0)
  {
    DroppedStillOwes();
    DroppedRefresh();
    StaleEntryForgets(Dropped().(sync := None), SECOND, 0, QUIET, 0);
    Cons(Dropped(), SyncFinish(QUIET), FilledAndSeen(0, QUIET));
  }

  /**
   * From an empty account: a manual close lands, loses its reply and is dropped without bumping the order epoch
   * (src/binance/remoteOrders.ts:168-173); an open whose refresh read the exchange before that scales into a position
   * that is gone. The end of row 0 is never journaled, however the run goes on.
   */
  lemma DroppedCloseLosesAnEnd(more: seq<Step>)
    ensures IsRun(Init("BTC", true), LosingRun())
    ensures var lost := After(Init("BTC", true), LosingRun());
      && 0 in lost.venue.ended
      && (IsRun(lost, more) ==> FinalRecords(After(lost, more).journal, 0) == 0)
  {
    var start, before := Init("BTC", true), OPENING + FILLING + SHOWING + CLOSING + READING + DROPPING;
    ReachesDropped();
    DroppedForgets();
    Concat(start, before, [SyncFinish(QUIET)] + FilledAndSeen(0, QUIET));
    assert before + ([SyncFinish(QUIET)] + FilledAndSeen(0, QUIET)) == LosingRun();
    var lost := After(start, LosingRun());
    if IsRun(lost, more) { ForgottenForever(lost, more, 0); }
  }

  // ---------------------------------------------------------------- a partial exit whose quantity is not reported

  /**
   * The first submission loses its reply, the lookup finds nothing, and the order lands before the position is read
   * again: the job is then sized to what its own fill left.
   */
  function ResizingRun(): seq<Step> {
    [ExitRead(None), ExitReply(Lost(0, false)), ExitRetry, ExitLookup(Miss, 0), DeliverWire, ExitRead(None),
     ExitReply(Confirmed(0))]
  }

  function PartialAt(id: OrderId, price: real, cap: real, sent: Option<Closed>, at: ExitAt): Option<Job> {
    Some(Job(id, PartialTp, price, price, Some(cap), sent, None, at))
  }

  /** The job is queued again with its order still on the way, and has just looked for it in vain. */
  lemma FirstSubmission(s: State, id: OrderId, price: real, cap: real)
    requires s.job == PartialAt(id, price, cap, None, Reading) && s.open.None? && s.venue.row.Some?
             && id !in s.venue.fills
    requires 0.0 < cap < s.venue.row.value.qty
    ensures var run := [ExitRead(None), ExitReply(Lost(0, false)), ExitRetry, ExitLookup(Miss, 0)];
      var sent := ClosedFrom(s.venue.row.value, s.meta, Some(cap));
      && IsRun(s, run)
      && After(s, run) == s.(job := PartialAt(id, price, cap, Some(sent), Reading),
                             wire := Some(Request(id, sent.owner, true, s.venue.row.value.side, cap, price)))
  {
    var sent := ClosedFrom(s.venue.row.value, s.meta, Some(cap));
    LostSubmission(s, id, price, cap);
    LookedUpInVain(After(s, [ExitRead(None), ExitReply(Lost(0, false))]),
                   PartialAt(id, price, cap, Some(sent), Queued).value);
    Concat(s, [ExitRead(None), ExitReply(Lost(0, false))], [ExitRetry, ExitLookup(Miss, 0)]);
    assert [ExitRead(None), ExitReply(Lost(0, false))] + [ExitRetry, ExitLookup(Miss, 0)]
        == [ExitRead(None), ExitReply(Lost(0, false)), ExitRetry, ExitLookup(Miss, 0)];
  }

  lemma LostSubmission(s: State, id: OrderId, price: real, cap: real)
    requires s.job == PartialAt(id, price, cap, None, Reading) && s.open.None? && s.venue.row.Some?
             && id !in s.venue.fills
    requires 0.0 < cap < s.venue.row.value.qty
    ensures var run := [ExitRead(None), ExitReply(Lost(0, false))];
      var sent := ClosedFrom(s.venue.row.value, s.meta, Some(cap));
      && IsRun(s, run)
      && After(s, run) == s.(job := PartialAt(id, price, cap, Some(sent), Queued),
                             wire := Some(Request(id, sent.owner, true, s.venue.row.value.side, cap, price)))
  {
    RunTwo(s, ExitRead(None), ExitReply(Lost(0, false)));
  }

  lemma LookedUpInVain(s: State, job: Job)
    requires s.job == Some(job) && job.at.Queued? && job.sent.Some? && job.id !in s.venue.fills
    ensures IsRun(s, [ExitRetry, ExitLookup(Miss, 0)])
    ensures After(s, [ExitRetry, ExitLookup(Miss, 0)]) == s.(job := Some(job.(at := Reading)))
  {
    RunTwo(s, ExitRetry, ExitLookup(Miss, 0));
  }

  lemma SecondSubmission(s: State, id: OrderId, price: real, cap: real, sent: Closed)
    requires s.job == PartialAt(id, price, cap, Some(sent), Reading) && s.open.None? && id !in s.venue.fills
             && !s.reports
    requires s.venue.row.Some? && 0.0 < cap < s.venue.row.value.qty < 2.0 * cap
    requires s.wire == Some(Request(id, sent.owner, true, s.venue.row.value.side, cap, price))
    ensures var run := [DeliverWire, ExitRead(None), ExitReply(Confirmed(0))];
      && IsRun(s, run)
      && |After(s, run).journal| == |s.journal| + 1
      && After(s, run).journal[|s.journal|].order == Some(id)
      && After(s, run).journal[|s.journal|].closed.qty == s.venue.row.value.qty - cap
      && id in After(s, run).venue.fills && After(s, run).venue.fills[id].qty == cap
  {
    RunThree(s, DeliverWire, ExitRead(None), ExitReply(Confirmed(0)));
  }

  /** The record of the order, if there is one, has the quantity of its fill. */
  ghost predicate BookedExactly(s: State, id: OrderId) {
    forall t :: t in s.journal && t.order == Some(id) ==> id in s.venue.fills && s.venue.fills[id].qty == t.closed.qty
  }

  /** Every oversized partial exit can go that way. */
  lemma OversizedMisbooks(s: State, price: real, cap: real)
    requires Inv(s) && Can(s, StartExit(PartialTp, price, Some(cap))) && IsOversized(s, Some(cap))
    ensures var started := Do(s, StartExit(PartialTp, price, Some(cap)));
      IsRun(started, ResizingRun()) && !BookedExactly(After(started, ResizingRun()), s.nextOrder)
  {
    var started := Do(s, StartExit(PartialTp, price, Some(cap)));
    var first := [ExitRead(None), ExitReply(Lost(0, false)), ExitRetry, ExitLookup(Miss, 0)];
    FirstSubmission(started, s.nextOrder, price, cap);
    SecondSubmission(After(started, first), s.nextOrder, price, cap, ClosedFrom(s.venue.row.value, s.meta, Some(cap)));
    Concat(started, first, [DeliverWire, ExitRead(None), ExitReply(Confirmed(0))]);
    assert first + [DeliverWire, ExitRead(None), ExitReply(Confirmed(0))] == ResizingRun();
    var t := After(started, ResizingRun());
    assert t.journal[|s.journal|] in t.journal;
  }

  /** Steps of a running exit ask nothing of the caller. */
  lemma {:induction false} QuietRunIsCareful(s: State, steps: seq<Step>)
    requires IsRun(s, steps)
    requires forall k :: 0 <= k < |steps| ==> steps[k].DeliverWire? || (IsExitStep(steps[k]) && !steps[k].StartExit?)
    ensures IsCarefulRun(s, steps)
    decreases |steps|
  {
    if steps != [] { QuietRunIsCareful(Do(s, steps[0]), steps[1..]); }
  }

  function Started(s: State, price: real, cap: real): State
    requires Can(s, StartExit(PartialTp, price, Some(cap)))
  {
    Do(s, StartExit(PartialTp, price, Some(cap)))
  }

  /** Whatever careful run follows. */
  ghost predicate AlwaysBookedExactly(s: State, id: OrderId) {
    forall more :: IsCarefulRun(s, more) && IsRun(s, more) ==> BookedExactly(After(s, more), id)
  }

  /** What the exit asks for is what its fill took, or will take however often it is asked for again. */
  predicate JobKeepsSize(s: State, job: Job) {
    && job.reason == PartialTp && job.cap.Some? && s.open.None? && !job.at.Residual?
    && (job.at.ExitSettled? ==> job.id in s.venue.fills)
    && (job.sent.Some? <==> s.wire.Some?)
    && (job.sent.Some? ==>
          s.wire.value.reduceOnly && s.wire.value.id == job.id && s.wire.value.qty == job.sent.value.qty)
    && (s.venue.row.Some? ==> s.venue.row.value.qty > 0.0)
    && (s.late.Some? ==>
          && !s.late.value.request.reduceOnly && s.late.value.request.qty > 0.0
          && (s.venue.row.Some? ==> s.venue.row.value.side == s.late.value.request.side))
    && (s.reports || if job.id in s.venue.fills then
          && job.sent.Some? && s.venue.fills[job.id].qty == job.sent.value.qty
          && (s.venue.row.Some? ==> KeepsSize(s.venue.fills, job, s.venue.row.value.qty))
        else s.venue.row.Some? ==> KeepsSize(s.venue.fills, job, s.venue.row.value.qty))
  }

  /** The order was given out to this exit alone, is not oversized, and is booked as it was filled. */
  ghost predicate SizedOk(s: State, id: OrderId) {
    && id < s.nextOrder && id !in s.oversized && BookedExactly(s, id)
    && (s.late.Some? ==> s.late.value.request.id != id)
    && (s.wire.Some? && s.wire.value.id == id ==> s.job.Some? && s.job.value.id == id)
    && (s.job.Some? && s.job.value.id == id ==> JobKeepsSize(s, s.job.value))
  }

  lemma SizedStarts(s: State, price: real, cap: real)
    requires Inv(s) && ExitsOk(s) && Can(s, StartExit(PartialTp, price, Some(cap))) && !IsOversized(s, Some(cap))
    ensures SizedOk(Started(s, price, cap), s.nextOrder)
  {
  }

  lemma SizedDelivery(s: State, id: OrderId)
    requires SizedOk(s, id) && Can(s, DeliverWire)
    ensures SizedOk(Delivered(s), id)
  {
  }

  lemma SizedLanding(s: State, id: OrderId)
    requires SizedOk(s, id) && Can(s, LandLate) && Careful(s, LandLate)
    ensures SizedOk(Landed(s), id)
  {
  }

  lemma SizedRead(s: State, mark: Option<real>, id: OrderId)
    requires SizedOk(s, id) && Can(s, ExitRead(mark))
    ensures SizedOk(ReadForExit(s, mark), id)
  {
  }

  lemma SizedBooking(s: State, now: int, id: OrderId)
    requires SizedOk(s, id) && s.job.Some? && s.job.value.sent.Some? && s.job.value.id in s.venue.fills
    ensures SizedOk(Completed(s, now), id)
  {
    BookingRecord(s, now);
    BookingFrame(s, now);
    CompletedHistory(s, now);
    SizedBooked(s, Completed(s, now), id);
  }

  lemma CompletedHistory(s: State, now: int)
    requires s.job.Some? && s.job.value.sent.Some? && s.job.value.id in s.venue.fills
    ensures Completed(s, now).oversized == s.oversized && Completed(s, now).reports == s.reports
  {
  }

  lemma SizedBooked(s: State, t: State, id: OrderId)
    requires SizedOk(s, id) && s.job.Some? && s.job.value.sent.Some? && s.job.value.id in s.venue.fills
    requires t.job.Some? && IsBookingOf(s, t) && t.oversized == s.oversized && t.reports == s.reports
    requires |t.journal| == |s.journal| + 1 && t.journal == s.journal + [t.journal[|s.journal|]]
    requires t.journal[|s.journal|].order == Some(s.job.value.id)
    requires t.journal[|s.journal|].closed.qty == (if s.reports then s.venue.fills[s.job.value.id].qty
                                                   else s.job.value.sent.value.qty)
    ensures SizedOk(t, id)
  {
  }

  lemma SizedOutage(s: State, isDropped: bool, id: OrderId)
    requires SizedOk(s, id) && s.job.Some? && MayDrop(s, isDropped) && !s.job.value.at.ExitSettled?
    ensures SizedOk(OutageAt(s, isDropped), id)
  {
  }

  lemma SizedExit(s: State, step: Step, id: OrderId)
    requires SizedOk(s, id) && Can(s, step) && IsExitStep(step) && !IsConfirmation(step)
    ensures SizedOk(Do(s, step), id)
  {
    if step.ExitRead? { SizedRead(s, step.mark, id); }
    else if IsExitCall(step) { SizedCall(s, step, id); }
    else { SizedOtherExit(s, step, id); }
  }

  lemma SizedCall(s: State, step: Step, id: OrderId)
    requires SizedOk(s, id) && Can(s, step) && IsExitCall(step) && !IsConfirmation(step)
    ensures SizedOk(Do(s, step), id)
  {
    match step
    case ExitLookup(answer, now) => if answer.LookupDown? { SizedOutage(s, answer.isDropped, id); }
    case ExitReadDown(isDropped) => SizedOutage(s, isDropped, id);
    case ExitBreak =>
    case ExitReply(reply) => if reply.Lost? { SizedOutage(s, reply.isDropped, id); }
  }

  lemma SizedOtherExit(s: State, step: Step, id: OrderId)
    requires SizedOk(s, id) && Can(s, step)
    requires step.StartExit? || step.ExitRetry? || step.ExitResidual? || step.ExitRelease?
    ensures SizedOk(Do(s, step), id)
  {
  }

  /** A refresh books no orders. */
  lemma RefreshBooksNoOrder(s: State, env: Env, id: OrderId)
    requires Can(s, SyncFinish(env)) && BookedExactly(s, id)
    ensures BookedExactly(Refreshed(s, env), id)
  {
  }

  lemma SizedRefresh(s: State, env: Env, id: OrderId)
    requires SizedOk(s, id) && Can(s, SyncFinish(env))
    ensures SizedOk(Refreshed(s, env), id)
  {
    RefreshBooksNoOrder(s, env, id);
    var t := Refreshed(s, env);
    assert t.venue == s.venue && t.job == s.job && t.wire == s.wire && t.late == s.late && t.open == s.open
        && t.oversized == s.oversized && t.nextOrder == s.nextOrder && t.reports == s.reports;
  }

  lemma SizedFinish(s: State, env: Env, id: OrderId)
    requires SizedOk(s, id) && Can(s, SyncFinish(env))
    ensures SizedOk(Do(s, SyncFinish(env)), id)
  {
    SizedRefresh(s, env, id);
    if s.sync.value.preOpen.Some? { SizedDecision(Refreshed(s, env), s.sync.value.preOpen.value, id); }
  }

  lemma SizedDecision(s: State, p: OpenParams, id: OrderId)
    requires SizedOk(s, id)
    ensures SizedOk(Decide(s, p), id)
  {
  }

  /** Nothing of the order is left but its record. */
  lemma SizedElsewhere(s: State, t: State, id: OrderId)
    requires SizedOk(s, id) && t.journal == s.journal && t.venue == s.venue && t.oversized == s.oversized
    requires s.nextOrder <= t.nextOrder && t.job == s.job && (s.job.Some? ==> s.job.value.id != id)
    requires t.wire.Some? ==> t.wire.value.id != id
    requires t.late.Some? ==> t.late.value.request.id != id
    ensures SizedOk(t, id)
  {
  }

  lemma SizedOpen(s: State, step: Step, id: OrderId)
    requires SizedOk(s, id) && Can(s, step) && IsOpenStep(step)
    ensures SizedOk(Do(s, step), id)
  {
    SizedElsewhere(s, Do(s, step), id);
  }

  lemma SizedIdle(s: State, step: Step, id: OrderId)
    requires SizedOk(s, id) && Can(s, step)
    requires step.Liquidate? || step.OtherOrderSettles? || step.SyncStart? || step.SyncRead? || step.SyncFail?
          || step.UpdateStops? || step.Restart?
    ensures SizedOk(Do(s, step), id)
  {
  }

  lemma SizedStep(s: State, step: Step, id: OrderId)
    requires SizedOk(s, id) && Can(s, step) && Careful(s, step)
    ensures SizedOk(Do(s, step), id)
  {
    if IsConfirmation(step) { SizedBooking(s, if step.ExitLookup? then step.now else step.reply.now, id); }
    else if IsExitStep(step) { SizedExit(s, step, id); }
    else if step.DeliverWire? { SizedDelivery(s, id); }
    else if step.LandLate? { SizedLanding(s, id); }
    else if step.SyncFinish? { SizedFinish(s, step.env, id); }
    else if IsOpenStep(step) { SizedOpen(s, step, id); }
    else { SizedIdle(s, step, id); }
  }

  lemma {:induction false} SizedRun(s: State, steps: seq<Step>, id: OrderId)
    requires SizedOk(s, id) && IsCarefulRun(s, steps) && IsRun(s, steps)
    ensures BookedExactly(After(s, steps), id)
    decreases |steps|
  {
    if steps != [] {
      SizedStep(s, steps[0], id);
      SizedRun(Do(s, steps[0]), steps[1..], id);
    }
  }

  lemma SizedIsBookedExactly(s: State, price: real, cap: real)
    requires Inv(s) && ExitsOk(s) && Can(s, StartExit(PartialTp, price, Some(cap))) && !IsOversized(s, Some(cap))
    ensures AlwaysBookedExactly(Started(s, price, cap), s.nextOrder)
  {
    SizedStarts(s, price, cap);
    forall more | IsCarefulRun(Started(s, price, cap), more) && IsRun(Started(s, price, cap), more)
      ensures BookedExactly(After(Started(s, price, cap), more), s.nextOrder) {
      SizedRun(Started(s, price, cap), more, s.nextOrder);
    }
  }

  lemma OversizedIsNotAlways(s: State, price: real, cap: real)
    requires Inv(s) && Can(s, StartExit(PartialTp, price, Some(cap))) && IsOversized(s, Some(cap))
    ensures !AlwaysBookedExactly(Started(s, price, cap), s.nextOrder)
  {
    OversizedMisbooks(s, price, cap);
    ResizingIsCareful(Started(s, price, cap));
  }

  lemma ResizingIsCareful(s: State)
    requires IsRun(s, ResizingRun())
    ensures IsCarefulRun(s, ResizingRun())
  {
    QuietRunIsCareful(s, ResizingRun());
  }

  /**
   * Exactly when a partial exit is sure to be booked at its fill's quantity, whatever follows: when the exchange
   * reports quantities, or the exit takes at most half of the position or all of it when it is enqueued.
   */
  lemma PartialBooksItsFillIff(symbol: string, reports: bool, before: seq<Step>, price: real, cap: real)
    requires IsCarefulRun(Init(symbol, reports), before) && IsRun(Init(symbol, reports), before)
    requires var s := After(Init(symbol, reports), before);
             Can(s, StartExit(PartialTp, price, Some(cap)))
    ensures var s := After(Init(symbol, reports), before);
      (reports || s.venue.row.None? || 2.0 * cap <= s.venue.row.value.qty || s.venue.row.value.qty <= cap)
        <==> AlwaysBookedExactly(Started(s, price, cap), s.nextOrder)
  {
    var s := After(Init(symbol, reports), before);
    RunInv(Init(symbol, reports), before);
    ReportsIsFixed(Init(symbol, reports), before);
    if IsOversized(s, Some(cap)) { OversizedIsNotAlways(s, price, cap); } else { SizedIsBookedExactly(s, price, cap); }
  }

  // ----- a liquidation before the sidecar knows the position

  /** The next refresh finds the symbol flat with nothing to settle. */
  function StruckAndSeen(env: Env): seq<Step> {
    [Liquidate, SyncStart(None), SyncRead, SyncFinish(env)]
  }

  /**
   * A live position without a sidecar entry, whose liquidation strikes before any refresh has read it: its end is lost
   * for good. Such positions are entries whose reply was lost, until the refresh after them, and entries a crash cut
   * off.
   */
  lemma UnknownLiquidationForgets(s: State, env: Env)
    requires Inv(s) && !Busy(s) && s.sync.None? && s.meta.None? && s.venue.row.Some?
    ensures IsRun(s, StruckAndSeen(env)) && Forgotten(After(s, StruckAndSeen(env)), s.venue.row.value.id)
  {
    var k := s.venue.row.value.id;
    var struck := Do(s, Liquidate);
    StruckFlat(s);
    FlatRefreshForgets(struck, env, k);
    RunThree(struck, SyncStart(None), SyncRead, SyncFinish(env));
    Cons(s, Liquidate, [SyncStart(None), SyncRead, SyncFinish(env)]);
    assert [Liquidate] + [SyncStart(None), SyncRead, SyncFinish(env)] == StruckAndSeen(env);
  }

  // ----- a liquidation before a flip's close has read the position

  /** A flip's close is about to read the position it is to close. */
  predicate IsFlipStarting(s: State) {
    && s.open.Some? && s.open.value.at.Flipping? && s.job.Some? && s.job.value.at.Reading? && s.sync.None?
    && s.venue.row.Some? && s.meta.Some?
  }

  function StruckFlip(now: int, env: Env): seq<Step> {
    [Liquidate, ExitRead(None), FlipEnter] + FilledAndSeen(now, env)
  }

  /**
   * When the position is liquidated before that read, the close passes for done (src/binance/remoteOrders.ts:272-275),
   * the flip enters, and its sidecar entry takes the place of the one the liquidation had still to be booked from.
   */
  lemma StruckFlipForgets(s: State, now: int, env: Env)
    requires Inv(s) && IsFlipStarting(s)
    ensures IsRun(s, StruckFlip(now, env)) && Forgotten(After(s, StruckFlip(now, env)), s.venue.row.value.id)
  {
    var k := s.venue.row.value.id;
    StruckFlipEnters(s);
    var e := After(s, [Liquidate, ExitRead(None), FlipEnter]);
    FlipFills(e, now, env, k);
    Concat(s, [Liquidate, ExitRead(None), FlipEnter], FilledAndSeen(now, env));
  }

  lemma FlipFills(e: State, now: int, env: Env, k: nat)
    requires e.open.Some? && e.open.value.at.EntrySent? && e.job.None? && e.sync.None? && e.late.None?
    requires !e.open.value.isScaleIn && e.open.value.params.qty > 0.0
    requires var p := e.open.value.params;
      e.wire == Some(Request(e.open.value.id, p.strategy, false, p.side, p.qty, p.entryPrice))
    requires e.venue.row.None? && e.open.value.id !in e.venue.fills && e.open.value.id < e.nextOrder && e.meta.Some?
    requires forall id :: id in e.venue.fills ==> id < e.nextOrder
    requires k in e.venue.ended && k < |e.venue.sides| && Unbooked(e.journal, k)
    ensures IsRun(e, FilledAndSeen(now, env)) && Forgotten(After(e, FilledAndSeen(now, env)), k)
  {
    EntryFilled(e, e.open.value, now, k);
    FilledIsForgotten(e, Do(Do(e, DeliverWire), EntryReply(Confirmed(now))), env, k);
    RunFive(e, DeliverWire, EntryReply(Confirmed(now)), SyncStart(None), SyncRead, SyncFinish(env));
  }

  lemma StruckFlipEnters(s: State)
    requires Inv(s) && IsFlipStarting(s)
    ensures IsRun(s, [Liquidate, ExitRead(None), FlipEnter])
    ensures var e := After(s, [Liquidate, ExitRead(None), FlipEnter]); var p := s.open.value.params;
      var k := s.venue.row.value.id;
      && e.open == Some(OpenTask(p, false, true, s.nextOrder, EntrySent)) && e.job.None? && e.venue.row.None?
      && e.wire == Some(Request(s.nextOrder, p.strategy, false, p.side, p.qty, p.entryPrice))
      && s.nextOrder !in e.venue.fills && e.nextOrder == s.nextOrder + 1 && e.sync.None? && e.late.None?
      && e.meta.Some? && p.qty > 0.0 && (forall id :: id in e.venue.fills ==> id < e.nextOrder)
      && k in e.venue.ended && k < |e.venue.sides| && Unbooked(e.journal, k)
  {
    var k := s.venue.row.value.id;
    forall t | t in s.journal && !t.partial ensures t.closed.rowId != k { assert t.closed.rowId in Finals(s.journal); }
    RunThree(s, Liquidate, ExitRead(None), FlipEnter);
  }

  /** The position is open, and its strategy turns it round. */
  const REVERSE: OpenParams := FIRST.(side := Short)
  const TURNING: seq<Step> := [OpenRelease, SyncStart(Some(REVERSE)), SyncRead, SyncFinish(QUIET)]

  function Turning(): State {
    Shown(true).(
      open := Some(OpenTask(REVERSE, false, true, 0, Flipping)), wire := None, nextOrder := 2,
      job := Some(Job(1, Flip, 100.0, 100.0, None, None, None, Reading)))
  }

  lemma ReachesTurning()
    ensures IsRun(Init("BTC", true), OPENING + FILLING + SHOWING + TURNING)
    ensures After(Init("BTC", true), OPENING + FILLING + SHOWING + TURNING) == Turning()
  {
    ReachesShown(true);
    RunTurning();
    Concat(Init("BTC", true), OPENING + FILLING + SHOWING, TURNING);
  }

  lemma RunTurning()
    ensures IsRun(Shown(true), TURNING) && After(Shown(true), TURNING) == Turning()
  {
    RunFour(Shown(true), TURNING[0], TURNING[1], TURNING[2], TURNING[3]);
  }

  lemma TurningIsSound()
    ensures Inv(Turning())
  {
    assert Finals([]) == {};
  }

  /**
   * From an empty account, with no reply lost and no crash: the position is liquidated while a flip of it begins. Its
   * end is never journaled, however the run goes on.
   */
  lemma StruckFlipLosesAnEnd(more: seq<Step>)
    ensures IsRun(Init("BTC", true), OPENING + FILLING + SHOWING + TURNING + StruckFlip(0, QUIET))
    ensures var lost := After(Init("BTC", true), OPENING + FILLING + SHOWING + TURNING + StruckFlip(0, QUIET));
      && 0 in lost.venue.ended
      && (IsRun(lost, more) ==> FinalRecords(After(lost, more).journal, 0) == 0)
  {
    ReachesTurning();
    TurningIsSound();
    StruckFlipForgets(Turning(), 0, QUIET);
    Concat(Init("BTC", true), OPENING + FILLING + SHOWING + TURNING, StruckFlip(0, QUIET));
    var lost := After(Init("BTC", true), OPENING + FILLING + SHOWING + TURNING + StruckFlip(0, QUIET));
    if IsRun(lost, more) { ForgottenForever(lost, more, 0); }
  }

  // ----- from an empty account

  const LOSING: seq<Step> := [DeliverWire, EntryReply(Lost(0, false)), OpenRelease]

  function Unknown(): State {
    Sent(true).(
      venue := Venue(Some(HELD), [Long], ["CARRY"], {}, map[0 := Fill(0, 1.0, 100.0)]),
      expected := Some(Expected(FIRST, 0)), epoch := 1, open := None, wire := None)
  }

  /**
   * From an empty account: a first entry fills and loses its reply, and the position is liquidated before the next
   * refresh. Its end is never journaled, however the run goes on.
   */
  lemma UnknownLiquidationLosesAnEnd(more: seq<Step>)
    ensures IsRun(Init("BTC", true), OPENING + LOSING + StruckAndSeen(QUIET))
    ensures var lost := After(Init("BTC", true), OPENING + LOSING + StruckAndSeen(QUIET));
      && 0 in lost.venue.ended
      && (IsRun(lost, more) ==> FinalRecords(After(lost, more).journal, 0) == 0)
  {
    ReachesUnknown();
    UnknownIsSound();
    UnknownLiquidationForgets(Unknown(), QUIET);
    Concat(Init("BTC", true), OPENING + LOSING, StruckAndSeen(QUIET));
    var lost := After(Init("BTC", true), OPENING + LOSING + StruckAndSeen(QUIET));
    if IsRun(lost, more) { ForgottenForever(lost, more, 0); }
  }

  lemma RunLosing()
    ensures IsRun(Sent(true), LOSING) && After(Sent(true), LOSING) == Unknown()
  {
    RunThree(Sent(true), LOSING[0], LOSING[1], LOSING[2]);
  }

  lemma ReachesUnknown()
    ensures IsRun(Init("BTC", true), OPENING + LOSING) && After(Init("BTC", true), OPENING + LOSING) == Unknown()
  {
    RunOpening(true); RunLosing();
    Concat(Init("BTC", true), OPENING, LOSING);
  }

  lemma UnknownIsSound()
    ensures Inv(Unknown()) && !Busy(Unknown())
  {
    assert Finals([]) == {};
  }

  lemma StruckFlat(s: State)
    requires Inv(s) && !Busy(s) && s.sync.None? && s.meta.None? && s.venue.row.Some?
    ensures var t := Do(s, Liquidate); var k := s.venue.row.value.id;
      && k in t.venue.ended && k < |t.venue.sides| && t.venue.row.None? && t.meta.None? && Unbooked(t.journal, k)
      && IdsUsed(t)
      && t.sync.None? && t.job.None? && t.open.None?
  {
    forall t | t in s.journal && !t.partial
      ensures t.closed.rowId != s.venue.row.value.id { assert t.closed.rowId in Finals(s.journal); }
  }

  lemma FlatRefreshForgets(s: State, env: Env, k: nat)
    requires k in s.venue.ended && k < |s.venue.sides| && s.venue.row.None? && s.meta.None? && Unbooked(s.journal, k)
             && IdsUsed(s)
    requires s.sync.None? && s.job.None? && s.open.None?
    ensures Can(s, SyncStart(None)) && Can(Do(s, SyncStart(None)), SyncRead)
            && Can(Do(Do(s, SyncStart(None)), SyncRead), SyncFinish(env))
    ensures Forgotten(Do(Do(Do(s, SyncStart(None)), SyncRead), SyncFinish(env)), k)
  {
  }

  // ---------------------------------------------------------------- an entry that lands late while a record is owed

  /** The landed row passes for the one the sidecar still holds, whose end is then lost for good. */
  lemma LateEntryForgets(s: State, env: Env, k: nat)
    requires OwesWhileFlat(s, k) && s.late.Some?
    requires s.late.value.request.side == s.meta.value.lastSeen.value.side
             && s.late.value.request.qty != s.meta.value.lastSeen.value.qty
    ensures var steps := [LandLate, SyncStart(None), SyncRead, SyncFinish(env)];
      IsRun(s, steps) && Forgotten(After(s, steps), k)
  {
    var landed := Do(s, LandLate);
    OwedIsUnbooked(s, k);
    LateRow(s, k);
    SameSideRefresh(landed, env, k);
    RunThree(landed, SyncStart(None), SyncRead, SyncFinish(env));
    Cons(s, LandLate, [SyncStart(None), SyncRead, SyncFinish(env)]);
    assert [LandLate] + [SyncStart(None), SyncRead, SyncFinish(env)] ==
           [LandLate, SyncStart(None), SyncRead, SyncFinish(env)];
  }

  lemma LateRow(s: State, k: nat)
    requires OwesWhileFlat(s, k) && s.late.Some? && k in s.venue.ended && k < |s.venue.sides| && Unbooked(s.journal, k)
    ensures var t := Do(s, LandLate); var q := s.late.value.request;
      && t.venue.row.Some? && t.venue.row.value.id != k && t.venue.row.value.side == q.side
      && t.venue.row.value.qty == q.qty
      && k in t.venue.ended && k < |t.venue.sides| && t.journal == s.journal && t.meta == s.meta && t.cache == s.cache
      && t.sync.None? && t.job.None? && t.open.None? && IdsUsed(t)
      && (t.cache.Some? ==> t.cache.value.side == t.meta.value.lastSeen.value.side)
  {
  }

  lemma SameSideRefresh(s: State, env: Env, k: nat)
    requires k in s.venue.ended && k < |s.venue.sides| && Unbooked(s.journal, k) && IdsUsed(s)
    requires s.sync.None? && s.job.None? && s.open.None?
    requires s.venue.row.Some? && s.venue.row.value.id != k && s.meta.Some? && s.meta.value.lastSeen.Some?
    requires s.meta.value.lastSeen.value.side == s.venue.row.value.side
             && s.meta.value.lastSeen.value.qty != s.venue.row.value.qty
    requires s.cache.Some? ==> s.cache.value.side == s.venue.row.value.side
    ensures Can(s, SyncStart(None)) && Can(Do(s, SyncStart(None)), SyncRead)
            && Can(Do(Do(s, SyncStart(None)), SyncRead), SyncFinish(env))
    ensures Forgotten(Do(Do(Do(s, SyncStart(None)), SyncRead), SyncFinish(env)), k)
  {
  }

  // ---------------------------------------------------------------- two strategies

  const OTHER: OpenParams := FIRST.(strategy := "TREND")
  const RIVALRY: seq<Step> := [EntryReply(Lost(0, false)), SyncStart(Some(OTHER)), SyncRead]
  const OVERTAKING: seq<Step> := [DeliverWire, OpenRelease]

  function Rivals(): State {
    Sent(true).(
      expected := Some(Expected(FIRST, 0)), epoch := 1,
      open := Some(OpenTask(FIRST, false, false, 0, EntrySettled)),
      sync := Some(Sync(1, Some(OTHER), Some(None), false)))
  }

  function Overtaken(): State {
    Unknown().(sync := Some(Sync(1, Some(OTHER), Some(None), true)))
  }

  /**
   * An applied refresh alone does not keep an entry off another strategy's position at the exchange: TREND's refresh
   * reads a flat exchange, CARRY's unconfirmed entry lands after it, and TREND's entry is sent on the symbol CARRY
   * holds.
   */
  lemma AppliedRefreshMeetsRival()
    ensures IsRun(Init("BTC", true), OPENING + RIVALRY + OVERTAKING)
    ensures MeetsRival(After(Init("BTC", true), OPENING + RIVALRY + OVERTAKING))
  {
    RunOpening(true); RunRivalry(); RunOvertaking();
    Concat(Init("BTC", true), OPENING, RIVALRY);
    Concat(Init("BTC", true), OPENING + RIVALRY, OVERTAKING);
    RivalSends();
  }

  const WAITED: seq<Step> := [EntryReply(Lost(0, false)), OpenRelease]
  const RIVAL: seq<Step> := [SyncStart(Some(OTHER)), SyncRead, SyncFinish(QUIET)]
  const BREAKING: seq<Step> := [DeliverWire, EntryBreak]

  function Waited(): State {
    Sent(true).(expected := Some(Expected(FIRST, 0)), epoch := 1, open := None, wire := None,
                late := Some(Late(Request(0, "CARRY", false, Long, 1.0, 100.0), false)))
  }

  function RivalSent(): State {
    Waited().(open := Some(OpenTask(OTHER, false, false, 1, EntrySent)),
              wire := Some(Request(1, "TREND", false, Long, 1.0, 100.0)), late := None, nextOrder := 2)
  }

  function RivalBroken(): State {
    RivalSent().(venue := Venue(Some(HELD), [Long], ["TREND"], {}, map[1 := Fill(0, 1.0, 100.0)]), open := None,
                 wire := None)
  }

  lemma RunWaited()
    ensures IsRun(Sent(true), WAITED) && After(Sent(true), WAITED) == Waited()
  {
    RunTwo(Sent(true), WAITED[0], WAITED[1]);
  }

  lemma RunRival()
    ensures IsRun(Waited(), RIVAL) && After(Waited(), RIVAL) == RivalSent()
  {
    RunThree(Waited(), RIVAL[0], RIVAL[1], RIVAL[2]);
  }

  lemma RunBreaking()
    ensures IsRun(RivalSent(), BREAKING) && After(RivalSent(), BREAKING) == RivalBroken()
  {
    RunTwo(RivalSent(), BREAKING[0], BREAKING[1]);
  }

  lemma RunHandingOver()
    ensures IsRun(RivalBroken(), SHOWING)
    ensures After(RivalBroken(), SHOWING).meta == Some(EntryMeta(FIRST, 0, 0))
    ensures After(RivalBroken(), SHOWING).venue == RivalBroken().venue
  {
    RunThree(RivalBroken(), SHOWING[0], SHOWING[1], SHOWING[2]);
  }

  lemma ReachesRivalBroken()
    ensures IsRun(Init("BTC", true), OPENING + WAITED + RIVAL + BREAKING)
    ensures After(Init("BTC", true), OPENING + WAITED + RIVAL + BREAKING) == RivalBroken()
  {
    RunOpening(true); RunWaited(); RunRival(); RunBreaking();
    Concat(Init("BTC", true), OPENING, WAITED);
    Concat(Init("BTC", true), OPENING + WAITED, RIVAL);
    Concat(Init("BTC", true), OPENING + WAITED + RIVAL, BREAKING);
  }

  /**
   * From an empty account: CARRY's entry loses its reply and never lands; TREND's fills and loses its reply, and its
   * lookup fails without an outage. TREND's open takes that for a rejection, so the next refresh hands the position
   * TREND opened to CARRY, which still awaits one.
   */
  lemma BrokenEntryIsHandedOver()
    ensures IsRun(Init("BTC", true), OPENING + WAITED + RIVAL + BREAKING + SHOWING)
    ensures var t := After(Init("BTC", true), OPENING + WAITED + RIVAL + BREAKING + SHOWING);
      && t.venue.row.Some? && t.venue.row.value.id == 0 && t.venue.openers == ["TREND"]
      && t.meta.Some? && !t.meta.value.external && t.meta.value.owner == "CARRY" && Subject(t.meta.value) == 0
  {
    ReachesRivalBroken();
    RunHandingOver();
    Concat(Init("BTC", true), OPENING + WAITED + RIVAL + BREAKING, SHOWING);
  }

  predicate MeetsRival(s: State) {
    && Can(s, SyncFinish(QUIET)) && s.sync.value.epoch == s.epoch && SendsEntry(s, Do(s, SyncFinish(QUIET)))
    && s.venue.row.Some? && s.venue.row.value.id < |s.venue.openers| && s.venue.openers[s.venue.row.value.id] == "CARRY"
    && Do(s, SyncFinish(QUIET)).open.value.params.strategy == "TREND"
  }

  lemma RunRivalry()
    ensures IsRun(Sent(true), RIVALRY) && After(Sent(true), RIVALRY) == Rivals()
  {
    RunThree(Sent(true), RIVALRY[0], RIVALRY[1], RIVALRY[2]);
  }

  lemma RunOvertaking()
    ensures IsRun(Rivals(), OVERTAKING) && After(Rivals(), OVERTAKING) == Overtaken()
  {
    RunTwo(Rivals(), OVERTAKING[0], OVERTAKING[1]);
  }

  lemma RivalSends()
    ensures MeetsRival(Overtaken())
  {
  }
}
