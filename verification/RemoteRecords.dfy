/** What the remote journal says of every close, over any run of the protocol of RemoteProtocol.dfy. */
module RemoteRecords {
  import opened Common
  import opened RemoteState
  import opened RemoteReconcile
  import opened RemoteProtocol
  import opened RemoteGuarantees

  predicate HasRow(row: Option<Row>) {
    row.Some? ==> row.value.qty > 0.0
  }

  predicate HasView(meta: Option<Meta>) {
    meta.Some? && meta.value.lastSeen.Some? ==> meta.value.lastSeen.value.qty > 0.0
  }

  predicate HasParams(expected: Option<Expected>) {
    expected.Some? ==> expected.value.params.qty > 0.0
  }

  ghost predicate HasFills(v: Venue) {
    HasRow(v.row) && forall id :: id in v.fills ==> v.fills[id].qty > 0.0
  }

  predicate HasOrder(job: Option<Job>) {
    job.Some? ==>
      && (job.value.cap.Some? ==> job.value.cap.value > 0.0)
      && (job.value.sent.Some? ==> job.value.sent.value.qty > 0.0)
      && HasView(job.value.kept)
  }

  predicate HasSnapshot(sync: Option<Sync>) {
    sync.Some? ==>
      && (sync.value.preOpen.Some? ==> sync.value.preOpen.value.qty > 0.0)
      && (sync.value.snapshot.Some? ==> HasRow(sync.value.snapshot.value))
  }

  predicate HasEntry(wire: Option<Request>, late: Option<Late>, open: Option<OpenTask>) {
    && (wire.Some? ==> wire.value.qty > 0.0)
    && (late.Some? ==> late.value.request.qty > 0.0)
    && (open.Some? ==> open.value.params.qty > 0.0)
  }

  /** Every quantity on the exchange and in the agent's memory is positive. */
  ghost predicate Positive(s: State) {
    && HasFills(s.venue) && HasRow(s.cache) && HasView(s.meta) && HasParams(s.expected)
    && HasEntry(s.wire, s.late, s.open) && HasSnapshot(s.sync) && HasOrder(s.job)
  }

  /** Every record is of a positive quantity and tells its own price move. */
  ghost predicate Tells(journal: seq<Trade>) {
    forall k :: 0 <= k < |journal| ==> journal[k].closed.qty > 0.0 && IsGross(journal[k])
  }

  lemma DeliveryIsPositive(v: Venue, q: Request)
    requires HasRow(v.row) && q.qty > 0.0 && forall id :: id in v.fills ==> v.fills[id].qty > 0.0
    ensures HasRow(Deliver(v, q).row)
    ensures forall id :: id in Deliver(v, q).fills ==> Deliver(v, q).fills[id].qty > 0.0
  {}

  lemma SettledIsPositive(symbol: string, c: Sidecar, before: Option<Row>, env: Env)
    requires c.meta.Some? && HasView(c.meta) && HasRow(before) && Tells(c.journal)
    ensures Tells(SettleVanished(symbol, c, c.meta.value, before, env).journal)
  {
    SettledIsGross(symbol, c, c.meta.value, before, env);
  }

  lemma ReopenedIsPositive(symbol: string, c: Sidecar, current: Row, before: Option<Row>, env: Env)
    requires HasView(c.meta) && HasRow(before) && Tells(c.journal)
    requires c.expected.Some? ==> c.expected.value.params.qty > 0.0
    ensures Tells(ReconcileOpen(symbol, c, current, before, env).journal)
    ensures HasView(ReconcileOpen(symbol, c, current, before, env).meta)
  {
    ReopenedIsGross(symbol, c, current, before, env);
  }

  lemma ReconcileIsPositive(symbol: string, known: Sidecar, before: Option<Row>, current: Option<Row>, busy: bool,
                            env: Env)
    requires HasView(known.meta) && HasRow(before) && HasRow(current) && Tells(known.journal)
    requires known.expected.Some? ==> known.expected.value.params.qty > 0.0
    ensures
      var c := Reconcile(symbol, known, before, current, busy, env);
      Tells(c.journal) && HasView(c.meta) && (c.expected.Some? ==> c.expected.value.params.qty > 0.0)
  {
    var c := known.(expected := PruneExpired(known.expected, env.now));
    if c.meta.Some? {
      SettledIsPositive(symbol, c, before, env);
    }
    if current.Some? {
      ReopenedIsPositive(symbol, AfterVanished(symbol, c, before, current, busy, env), current.value, before, env);
    }
  }

  lemma RefreshedIsPositive(s: State, env: Env)
    requires Positive(s) && Tells(s.journal) && Can(s, SyncFinish(env))
    ensures Positive(Refreshed(s, env)) && Tells(Refreshed(s, env).journal)
  {
    ReconcileIsPositive(s.symbol, Sidecar(s.meta, s.expected, s.journal), s.cache, s.sync.value.snapshot.value, Busy(s),
                        env);
    RefreshKeepsTheRest(s, env);
  }

  /** A refresh writes the sidecar and the cache; the exchange and the running orders stay. */
  lemma RefreshKeepsTheRest(s: State, env: Env)
    requires Can(s, SyncFinish(env))
    ensures
      var t := Refreshed(s, env);
      && t.venue == s.venue && t.wire == s.wire && t.late == s.late && t.open == s.open && t.job == s.job
      && t.sync.None?
      && if s.sync.value.epoch != s.epoch
         then t.cache == s.cache && t.meta == s.meta && t.expected == s.expected && t.journal == s.journal
         else
           var c := Reconcile(s.symbol, Sidecar(s.meta, s.expected, s.journal), s.cache, s.sync.value.snapshot.value,
                              Busy(s), env);
           t.cache == s.sync.value.snapshot.value && t.meta == c.meta && t.expected == c.expected
           && t.journal == c.journal
  {}

  lemma CompletedIsPositive(s: State, now: int)
    requires Positive(s) && Tells(s.journal)
    requires s.job.Some? && s.job.value.sent.Some? && s.job.value.id in s.venue.fills
    ensures Positive(Completed(s, now)) && Tells(Completed(s, now).journal)
  {
    BookingFrame(s, now);
    BookingRecord(s, now);
    CompletedTells(s, now);
  }

  lemma CompletedTells(s: State, now: int)
    requires Positive(s) && Tells(s.journal)
    requires s.job.Some? && s.job.value.sent.Some? && s.job.value.id in s.venue.fills
    ensures Tells(Completed(s, now).journal)
  {
    CompletedAddsGross(s, now);
    BookingRecord(s, now);
    var t := Completed(s, now);
    assert t.journal[|s.journal|].closed.qty > 0.0;
    assert t.journal == s.journal + [t.journal[|s.journal|]];
  }

  lemma ExitStepIsPositive(s: State, step: Step)
    requires Positive(s) && Can(s, step) && IsExitStep(step) && !IsConfirmation(step)
    ensures Positive(Do(s, step)) && Do(s, step).journal == s.journal
  {
    if step.ExitRead? {
      ReadIsPositive(s, step.mark);
    } else if IsExitCall(step) {
      CallIsPositive(s, step);
    }
  }

  lemma ReadIsPositive(s: State, mark: Option<real>)
    requires Positive(s) && s.job.Some?
    ensures Positive(ReadForExit(s, mark)) && ReadForExit(s, mark).journal == s.journal
  {}

  lemma CallIsPositive(s: State, step: Step)
    requires Positive(s) && Can(s, step) && IsExitCall(step) && !IsConfirmation(step)
    ensures Positive(Do(s, step)) && Do(s, step).journal == s.journal
  {
    match step
    case ExitLookup(answer, now) => if answer.LookupDown? { OutageIsPositive(s, answer.isDropped); }
    case ExitReadDown(isDropped) => OutageIsPositive(s, isDropped);
    case ExitBreak =>
    case ExitReply(reply) => if reply.Lost? { OutageIsPositive(s, reply.isDropped); }
  }

  lemma OutageIsPositive(s: State, isDropped: bool)
    requires Positive(s) && s.job.Some?
    ensures Positive(OutageAt(s, isDropped)) && OutageAt(s, isDropped).journal == s.journal
  {}

  lemma OpenStepIsPositive(s: State, step: Step)
    requires Positive(s) && Can(s, step) && IsOpenStep(step)
    ensures Positive(Do(s, step)) && Do(s, step).journal == s.journal
  {}

  lemma DecisionIsPositive(s: State, p: OpenParams)
    requires Positive(s) && p.qty > 0.0
    ensures Positive(Decide(s, p)) && Decide(s, p).journal == s.journal
  {}

  lemma VenueStepIsPositive(s: State, step: Step)
    requires Positive(s) && Can(s, step) && (step.DeliverWire? || step.LandLate? || step.Liquidate?)
    ensures Positive(Do(s, step)) && Do(s, step).journal == s.journal
  {
    if step.DeliverWire? {
      DeliveryIsPositive(s.venue, s.wire.value);
    } else if step.LandLate? {
      DeliveryIsPositive(s.venue, s.late.value.request);
    }
  }

  lemma OtherStepIsPositive(s: State, step: Step)
    requires Positive(s) && Can(s, step)
    requires step.OtherOrderSettles? || step.SyncStart? || step.SyncRead? || step.SyncFail? || step.UpdateStops?
          || step.Restart?
    ensures Positive(Do(s, step)) && Do(s, step).journal == s.journal
  {}

  lemma StepIsPositive(s: State, step: Step)
    requires Positive(s) && Tells(s.journal) && Can(s, step)
    ensures Positive(Do(s, step)) && Tells(Do(s, step).journal)
  {
    if IsConfirmation(step) {
      CompletedIsPositive(s, if step.ExitLookup? then step.now else step.reply.now);
    } else if step.SyncFinish? {
      RefreshedIsPositive(s, step.env);
      if s.sync.value.preOpen.Some? {
        DecisionIsPositive(Refreshed(s, step.env), s.sync.value.preOpen.value);
      }
    } else if IsExitStep(step) {
      ExitStepIsPositive(s, step);
    } else if IsOpenStep(step) {
      OpenStepIsPositive(s, step);
    } else if step.DeliverWire? || step.LandLate? || step.Liquidate? {
      VenueStepIsPositive(s, step);
    } else {
      OtherStepIsPositive(s, step);
    }
  }

  lemma {:induction false} RunIsPositive(s: State, steps: seq<Step>)
    requires Positive(s) && Tells(s.journal) && IsRun(s, steps)
    ensures Positive(After(s, steps)) && Tells(After(s, steps).journal)
    decreases |steps|
  {
    if steps != [] {
      StepIsPositive(s, steps[0]);
      RunIsPositive(Do(s, steps[0]), steps[1..]);
    }
  }

  /**
   * Over any run, careful or not, every record of the journal, booked by an exit or by a refresh, is of a positive
   * quantity and its pnl is its own price move: positive for a long exactly when the exit is above the entry, for a
   * short exactly when it is below.
   */
  lemma RecordsTellTheirMove(symbol: string, reports: bool, steps: seq<Step>)
    requires IsRun(Init(symbol, reports), steps)
    ensures
      forall t :: t in After(Init(symbol, reports), steps).journal ==>
        var c := t.closed;
        && c.qty > 0.0
        && (c.side.Long? ==> c.entry * c.qty + t.pnl == t.exit * c.qty && (t.pnl > 0.0 <==> t.exit > c.entry))
        && (c.side.Short? ==> c.entry * c.qty - t.pnl == t.exit * c.qty && (t.pnl > 0.0 <==> t.exit < c.entry))
  {
    RunIsPositive(Init(symbol, reports), steps);
  }
}
