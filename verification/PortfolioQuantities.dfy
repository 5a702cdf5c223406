/**
 * Quantities over whole replays: nothing of zero or negative size is ever held or booked, so every folded record is
 * gross.
 */
module PortfolioQuantities {
  import opened Common
  import opened ExecutionSimulator
  import opened PortfolioSimulator
  import opened PortfolioFold
  import opened PortfolioGuarantees
  import opened PortfolioSteps
  import opened MarketDataFeed
  import opened Replay
  import opened ReplayGuarantees
  import opened Sums

  /** Everything held and everything booked has a size. */
  ghost predicate Positive(b: Book) {
    && (forall k :: 0 <= k < |b.positions| ==> b.positions[k].qty > 0.0)
    && (forall k :: 0 <= k < |b.trades| ==> b.trades[k].qty > 0.0)
  }

  // ----- the manager's partial exits -----

  /** What the actions take off a position. */
  function Taken(actions: seq<Action>): real {
    if actions == [] then 0.0
    else
      var last := actions[|actions| - 1];
      Taken(actions[..|actions| - 1]) + (if last.PartialExit? then last.qty else 0.0)
  }

  /** Each partial exit has a size and leaves some of the position. */
  predicate LeaveSome(actions: seq<Action>, qty: real) {
    actions == [] ||
    (var n := |actions| - 1;
     && LeaveSome(actions[..n], qty)
     && (actions[n].PartialExit? ==> 0.0 < actions[n].qty && Taken(actions) < qty))
  }

  /** The manager's partial exits are smaller than the position it is shown. */
  ghost predicate TrimsOnly(manager: Manager) {
    forall pos: SimPosition, bar: Candle :: pos.qty > 0.0 ==> LeaveSome(manager(pos, bar).1, pos.qty)
  }

  lemma {:induction false} SomeIsLeft(actions: seq<Action>, qty: real)
    requires LeaveSome(actions, qty) && qty > 0.0
    ensures Taken(actions) < qty
  {
    if actions != [] {
      SomeIsLeft(actions[..|actions| - 1], qty);
    }
  }

  lemma {:induction false} ActedIsPositive(b: Book, i: nat, actions: seq<Action>, bar: Candle, closedAt: int, c: Costs)
    requires Positive(b) && i < |b.positions| && LeaveSome(actions, b.positions[i].qty)
    ensures Positive(ActedOn(b, i, actions, bar, closedAt, c).0)
    ensures ActedOn(b, i, actions, bar, closedAt, c).0.positions[i].qty == b.positions[i].qty - Taken(actions)
    decreases |actions|
  {
    if actions != [] {
      ActedIsPositive(b, i, actions[..|actions| - 1], bar, closedAt, c);
      SomeIsLeft(actions, b.positions[i].qty);
    }
  }

  lemma ManagerKeepsPositive(manager: Option<Manager>, c: Costs)
    requires manager.Some? ==> TrimsOnly(manager.value)
    ensures KeptByManaging(Positive, manager, c)
  {
    if manager.Some? {
      forall b: Book, i: nat, bar: Candle, at: int | Positive(b) && i < |b.positions|
        ensures Positive(ManagedAt(b, i, bar, manager.value, at, c).0)
      {
        var (pm, actions) := manager.value(b.positions[i], bar);
        if pm.Some? {
          ActedIsPositive(Replaced(b, i, b.positions[i].(pm := pm)), i, actions, bar, at, c);
        }
      }
    }
  }

  // ----- every step -----

  lemma PositiveIsKept(manager: Option<Manager>, c: Costs)
    requires manager.Some? ==> TrimsOnly(manager.value)
    ensures KeptByFunding(Positive) && KeptOnBars(Positive, manager, c)
  {
    ManagerKeepsPositive(manager, c);
    forall b: Book, i: nat, symbol: string, rate: real | Positive(b) && i < |b.positions|
      ensures Positive(FundedAt(b, i, symbol, rate)) {}
    forall b: Book, i: nat, p: SimPosition | Positive(b) && i < |b.positions| && SameIdentity(p, b.positions[i])
      ensures Positive(Replaced(b, i, p))
    {
      assert b.positions[i].qty > 0.0;
    }
    forall b: Book, i: nat, price: real, reason: ExitReason, at: int | Positive(b) && i < |b.positions|
      ensures Positive(ClosedAt(b, i, price, reason, at, c))
    {
      ClosedIsPositive(b, i, price, reason, at, c);
    }
  }

  lemma ClosedIsPositive(b: Book, i: nat, price: real, reason: ExitReason, at: int, c: Costs)
    requires Positive(b) && i < |b.positions|
    ensures Positive(ClosedAt(b, i, price, reason, at, c))
  {
    var after := ClosedAt(b, i, price, reason, at, c);
    forall k | 0 <= k < |after.positions| ensures after.positions[k].qty > 0.0 {
      assert after.positions[k] == b.positions[if k < i then k else k + 1];
    }
  }

  // ----- any run of the portfolio -----

  /** What is asked for has a size, and managers leave some of each position. */
  ghost predicate IsSized(op: Op) {
    match op
    case OpenEvent(r) => r.qty > 0.0
    case ScaleInEvent(i, r) => r.qty > 0.0
    case BarEvent(symbol, bar, manager) => manager.Some? ==> TrimsOnly(manager.value)
    case _ => true
  }

  ghost predicate AllSized(ops: seq<Op>) {
    forall k :: 0 <= k < |ops| ==> IsSized(ops[k])
  }

  lemma ApplyKeepsPositive(b: Book, op: Op, c: Costs)
    requires Positive(b) && Possible(b, op) && IsSized(op)
    ensures Positive(Apply(b, op, c))
  {
    PositiveIsKept(if op.BarEvent? then op.manager else None, c);
    match op
    case OpenEvent(r) =>
    case ScaleInEvent(i, r) =>
    case CloseEvent(i, price, reason, closedAt) => ClosedIsPositive(b, i, price, reason, closedAt, c);
    case FundingEvent(symbol, rate) => FundedKeeps(Positive, b, |b.positions|, symbol, rate);
    case BarEvent(symbol, bar, manager) => OnBarKeeps(Positive, b, 0, symbol, bar, manager, c);
  }

  lemma {:induction false} RunIsPositive(ops: seq<Op>, c: Costs)
    requires IsRun(ops, c) && AllSized(ops)
    ensures Positive(After(ops, c))
    decreases |ops|
  {
    if ops != [] {
      RunIsPositive(ops[..|ops| - 1], c);
      ApplyKeepsPositive(After(ops[..|ops| - 1], c), ops[|ops| - 1], c);
    }
  }

  /** Closing everything that is open leaves records whose folds are gross. */
  lemma AllClosedFoldsGross(b: Book, marks: map<string, real>, at: int, reason: ExitReason, c: Costs)
    requires Sound(b) && Positive(b)
    ensures GrossRecords(Fold(AllClosed(b, marks, at, reason, c).trades))
  {
    var closed := AllClosed(b, marks, at, reason, c);
    SoundIsKept(None, c);
    PositiveIsKept(None, c);
    AllClosedKeeps(Sound, b, marks, at, reason, c);
    AllClosedKeeps(Positive, b, marks, at, reason, c);
    FoldedRecordsAreGross(closed.trades, |closed.trades|);
  }

  /**
   * Main result: after any run of sized operations and a forced close, every folded record's PnL is
   * (exit - entry) x quantity x direction.
   */
  lemma FoldedReplayIsGross(ops: seq<Op>, marks: map<string, real>, at: int, reason: ExitReason, c: Costs)
    requires IsRun(ops, c) && AllSized(ops)
    ensures GrossRecords(Fold(Replayed(ops, marks, at, reason, c).trades))
  {
    RunIsSound(ops, c);
    RunIsPositive(ops, c);
    AllClosedFoldsGross(After(ops, c), marks, at, reason, c);
  }

  // ----- any replay -----

  function Sized(): Fairness {
    (o: PendingOrder) => o.qty > 0.0
  }

  /** The strategies order sizes (ReplayService.ts:265-269) and the managers leave some of each position. */
  ghost predicate SizedPipeline<M(!new)>(p: Pipeline<M>) {
    OrdersAreFair(p, Sized()) && forall mind: M :: p.manager(mind).Some? ==> TrimsOnly(p.manager(mind).value)
  }

  lemma FilledIsPositive(b: Book, o: PendingOrder, bar: Candle, c: Costs)
    requires Positive(b) && o.qty > 0.0
    ensures Positive(Filled(b, o, bar, c))
  {
    var h := HolderOf(b.positions, o.symbol);
    if h < |b.positions| {
      ClosedIsPositive(b, h, EntryQuote(o.side, bar.open, o.qty, c).price, Flip, bar.openTime, c);
    }
  }

  lemma ReplayIsPositive<M(!new)>(d: Data, n: nat, mind: M, cfg: Config, p: Pipeline<M>)
    requires Usable(d) && n <= StepCount(d) && SizedPipeline(p)
    ensures Positive(RunTo(d, n, mind, cfg, p).book)
  {
    PositiveIsKept(None, cfg.costs);
    forall mind: M ensures KeptOnBars(Positive, p.manager(mind), cfg.costs) {
      PositiveIsKept(p.manager(mind), cfg.costs);
    }
    forall b: Book, o: PendingOrder, bar: Candle | Sized()(o) && Positive(b)
      ensures Positive(Filled(b, o, bar, cfg.costs)) {
      FilledIsPositive(b, o, bar, cfg.costs);
    }
    ReplayKeeps(Positive, Sized(), d, n, mind, cfg, p);
  }

  /** Main result: every folded record a replay reports is gross. */
  lemma FoldedFinalBookIsGross<M(!new)>(d: Data, mind: M, cfg: Config, p: Pipeline<M>)
    requires Usable(d) && SizedPipeline(p)
    ensures GrossRecords(Fold(FinalBook(d, mind, cfg, p).trades))
  {
    var n := StepCount(d);
    ReplayIsSound(d, n, mind, cfg, p);
    ReplayIsPositive(d, n, mind, cfg, p);
    AllClosedFoldsGross(RunTo(d, n, mind, cfg, p).book, FinalMarks(d), StepTime(d, n - 1), Close, cfg.costs);
  }
}
