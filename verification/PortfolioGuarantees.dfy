/** Conservation of money over whole replays: equity, trades and their folded records agree. */
module PortfolioGuarantees {
  import opened Common
  import opened ExecutionSimulator
  import opened PortfolioSimulator
  import opened PortfolioFold
  import opened PortfolioSteps
  import opened Sums
  import SymbolRules

  /** Half of the last printed decimal. */
  const HALF: real := 0.0000005

  lemma Round6Near(x: real)
    ensures -HALF <= Round6(x) - x <= HALF
  {}

  // ----- what the trades say -----

  /** Price result plus funding less fees: BacktestMetrics.ts:77. */
  function NetOf(t: SimTrade): real {
    t.pnl + t.funding - t.fees
  }

  function FundingOf(t: SimTrade): real {
    t.funding
  }

  /** How far rounding can move a record's fees and funding. */
  function SlackOf(t: SimTrade): real {
    if t.partial then HALF else 2.0 * HALF
  }

  /** What an open position has already cost the wallet and no record shows yet. */
  function CarriedOf(p: SimPosition): real {
    p.funding - p.fees
  }

  function Drift(b: Book): real {
    b.realized - Sum(b.trades, NetOf) - Sum(b.positions, CarriedOf)
  }

  /** The wallet is what the records say, up to their rounding. */
  ghost predicate Reconciles(b: Book) {
    -Sum(b.trades, SlackOf) <= Drift(b) <= Sum(b.trades, SlackOf)
  }

  // ----- identity of positions -----

  ghost predicate DistinctIds(ps: seq<SimPosition>, counter: nat) {
    && (forall i :: 0 <= i < |ps| ==> ps[i].id.counter < counter)
    && (forall i, j :: 0 <= i < j < |ps| ==> ps[i].id != ps[j].id)
  }

  /** No position has more than one final close, and an open one has none. */
  ghost predicate ClosedOnce(ps: seq<SimPosition>, counter: nat, trades: seq<SimTrade>) {
    && (forall id: PositionId :: CountOf(Finals(trades), id) <= 1)
    && (forall id: PositionId :: id.counter >= counter ==> CountOf(Finals(trades), id) == 0)
    && (forall i :: 0 <= i < |ps| ==> CountOf(Finals(trades), ps[i].id) == 0)
  }

  ghost predicate IsOpen(ps: seq<SimPosition>, id: PositionId) {
    exists i :: 0 <= i < |ps| && ps[i].id == id
  }

  /** Every partial leg belongs to an open position or to one closed once, and carries no funding. */
  ghost predicate LegsAccounted(ps: seq<SimPosition>, trades: seq<SimTrade>) {
    forall k :: 0 <= k < |trades| && trades[k].partial ==>
      && trades[k].id.Some? && trades[k].funding == 0.0
      && (IsOpen(ps, trades[k].id.value) || CountOf(Finals(trades), trades[k].id.value) == 1)
  }

  /** Every record's PnL is its own price move on its own quantity. */
  ghost predicate GrossRecords(trades: seq<SimTrade>) {
    forall k :: 0 <= k < |trades| ==>
      trades[k].pnl == Gross(trades[k].side, trades[k].entry, trades[k].exit, trades[k].qty)
  }

  ghost predicate Identified(b: Book) {
    DistinctIds(b.positions, b.counter) && ClosedOnce(b.positions, b.counter, b.trades)
      && LegsAccounted(b.positions, b.trades)
  }

  ghost predicate Sound(b: Book) {
    Reconciles(b) && Identified(b) && GrossRecords(b.trades)
  }

  // ----- steps that keep the trades -----

  /** Replacing a position by one with the same identity and the same unbooked cash. */
  lemma ReplaceKeeps(b: Book, i: nat, p: SimPosition)
    requires Sound(b) && i < |b.positions|
    requires p.id == b.positions[i].id && CarriedOf(p) == CarriedOf(b.positions[i])
    ensures Sound(b.(positions := b.positions[i := p]))
  {
    SumReplace(b.positions, i, p, CarriedOf);
    SameIds(b.positions, i, p, b.trades);
  }

  lemma SameIds(ps: seq<SimPosition>, i: nat, p: SimPosition, trades: seq<SimTrade>)
    requires i < |ps| && p.id == ps[i].id && LegsAccounted(ps, trades)
    ensures LegsAccounted(ps[i := p], trades)
  {
    forall k | 0 <= k < |trades| && trades[k].partial && IsOpen(ps, trades[k].id.value)
      ensures IsOpen(ps[i := p], trades[k].id.value)
    {
      var j :| 0 <= j < |ps| && ps[j].id == trades[k].id.value;
      assert ps[i := p][j].id == trades[k].id.value;
    }
  }

  /** Moving cash between the wallet and what an open position carries. */
  lemma PayKeeps(b: Book, i: nat, p: SimPosition, amount: real)
    requires Sound(b) && i < |b.positions|
    requires p.id == b.positions[i].id && CarriedOf(p) == CarriedOf(b.positions[i]) + amount
    ensures Sound(b.(positions := b.positions[i := p], realized := b.realized + amount))
  {
    SumReplace(b.positions, i, p, CarriedOf);
    SameIds(b.positions, i, p, b.trades);
  }

  lemma OpenedKeeps(b: Book, r: OpenRequest)
    requires Sound(b)
    ensures Sound(Opened(b, r))
  {
    var p := NewPosition(r, b.counter);
    SumAppend(b.positions, p, CarriedOf);
    forall k | 0 <= k < |b.trades| && b.trades[k].partial && IsOpen(b.positions, b.trades[k].id.value)
      ensures IsOpen(b.positions + [p], b.trades[k].id.value)
    {
      var j :| 0 <= j < |b.positions| && b.positions[j].id == b.trades[k].id.value;
      assert (b.positions + [p])[j].id == b.trades[k].id.value;
    }
  }

  // ----- steps that add a trade -----

  lemma RecordReconciles(b: Book, t: SimTrade, ps: seq<SimPosition>, cash: real)
    requires Reconciles(b)
    requires cash - NetOf(t) - Sum(ps, CarriedOf) + Sum(b.positions, CarriedOf) <= SlackOf(t)
    requires -SlackOf(t) <= cash - NetOf(t) - Sum(ps, CarriedOf) + Sum(b.positions, CarriedOf)
    ensures Reconciles(Book(ps, b.realized + cash, b.counter, b.trades + [t]))
  {
    SumAppend(b.trades, t, NetOf);
    SumAppend(b.trades, t, SlackOf);
  }

  lemma FinalsAppend(trades: seq<SimTrade>, t: SimTrade)
    ensures Finals(trades + [t]) == if t.partial then Finals(trades) else Finals(trades) + [t]
  {
    assert (trades + [t])[..|trades|] == trades;
  }

  lemma CountAppend(finals: seq<SimTrade>, t: SimTrade, id: PositionId)
    ensures CountOf(finals + [t], id) == CountOf(finals, id) + (if t.id == Some(id) then 1 else 0)
  {
    assert (finals + [t])[..|finals|] == finals;
  }

  lemma ReducedReconciles(b: Book, i: nat, qty: real, price: real, closedAt: int, c: Costs)
    requires Reconciles(b) && i < |b.positions|
    ensures Reconciles(ReducedAt(b, i, qty, price, closedAt, c))
  {
    var pos := b.positions[i];
    var left, t := pos.(qty := pos.qty - qty), PartialTrade(pos, qty, price, closedAt, c);
    var quote := ExitQuote(pos.side, price, qty, c);
    SumReplace(b.positions, i, left, CarriedOf);
    Round6Near(quote.fee);
    RecordReconciles(b, t, b.positions[i := left], Gross(pos.side, pos.entry, quote.price, qty) - quote.fee);
  }

  lemma ReducedKeeps(b: Book, i: nat, qty: real, price: real, closedAt: int, c: Costs)
    requires Sound(b) && i < |b.positions|
    ensures Sound(ReducedAt(b, i, qty, price, closedAt, c))
  {
    ReducedReconciles(b, i, qty, price, closedAt, c);
    var pos := b.positions[i];
    var left, t := pos.(qty := pos.qty - qty), PartialTrade(pos, qty, price, closedAt, c);
    FinalsAppend(b.trades, t);
    SameIds(b.positions, i, left, b.trades);
    LegAdded(b.positions[i := left], i, b.trades, t);
  }

  lemma LegAdded(ps: seq<SimPosition>, i: nat, trades: seq<SimTrade>, t: SimTrade)
    requires LegsAccounted(ps, trades) && i < |ps| && t.partial && t.id == Some(ps[i].id) && t.funding == 0.0
    ensures LegsAccounted(ps, trades + [t])
  {
    FinalsAppend(trades, t);
  }

  lemma ClosedKeeps(b: Book, i: nat, price: real, reason: ExitReason, closedAt: int, c: Costs)
    requires Sound(b) && i < |b.positions|
    ensures Sound(ClosedAt(b, i, price, reason, closedAt, c))
  {
    var pos := b.positions[i];
    var t := FinalTrade(pos, price, reason, closedAt, c);
    var quote := ExitQuote(pos.side, price, pos.qty, c);
    SumRemove(b.positions, i, CarriedOf);
    Round6Near(pos.fees + quote.fee);
    Round6Near(pos.funding);
    RecordReconciles(b, t, Remove(b.positions, i), Gross(pos.side, pos.entry, quote.price, pos.qty) - quote.fee);
    CloseIdentified(b, i, t);
  }

  lemma CloseIdentified(b: Book, i: nat, t: SimTrade)
    requires Identified(b) && i < |b.positions| && !t.partial && t.id == Some(b.positions[i].id)
    ensures Identified(b.(positions := Remove(b.positions, i), trades := b.trades + [t]))
  {
    CloseCounts(b.positions, b.counter, i, b.trades, t);
    CloseAccounts(b.positions, i, b.trades, t);
  }

  lemma CloseCounts(ps: seq<SimPosition>, counter: nat, i: nat, trades: seq<SimTrade>, t: SimTrade)
    requires DistinctIds(ps, counter) && ClosedOnce(ps, counter, trades)
    requires i < |ps| && !t.partial && t.id == Some(ps[i].id)
    ensures ClosedOnce(Remove(ps, i), counter, trades + [t])
  {
    FinalsAppend(trades, t);
    forall id: PositionId
      ensures CountOf(Finals(trades + [t]), id) == CountOf(Finals(trades), id) + (if id == ps[i].id then 1 else 0)
    {
      CountAppend(Finals(trades), t, id);
    }
  }

  lemma CloseAccounts(ps: seq<SimPosition>, i: nat, trades: seq<SimTrade>, t: SimTrade)
    requires LegsAccounted(ps, trades) && i < |ps| && !t.partial && t.id == Some(ps[i].id)
    requires CountOf(Finals(trades), ps[i].id) == 0
    ensures LegsAccounted(Remove(ps, i), trades + [t])
  {
    forall k | 0 <= k < |trades| && trades[k].partial
      ensures IsOpen(Remove(ps, i), trades[k].id.value) || CountOf(Finals(trades + [t]), trades[k].id.value) == 1
    {
      LegStaysAccounted(ps, i, trades, t, trades[k].id.value);
    }
  }

  lemma LegStaysAccounted(ps: seq<SimPosition>, i: nat, trades: seq<SimTrade>, t: SimTrade, id: PositionId)
    requires i < |ps| && !t.partial && t.id == Some(ps[i].id) && CountOf(Finals(trades), ps[i].id) == 0
    requires IsOpen(ps, id) || CountOf(Finals(trades), id) == 1
    ensures IsOpen(Remove(ps, i), id) || CountOf(Finals(trades + [t]), id) == 1
  {
    FinalsAppend(trades, t);
    CountAppend(Finals(trades), t, id);
    if IsOpen(ps, id) && id != ps[i].id {
      StillOpen(ps, i, id);
    }
  }

  lemma StillOpen(ps: seq<SimPosition>, i: nat, id: PositionId)
    requires i < |ps| && IsOpen(ps, id) && id != ps[i].id
    ensures IsOpen(Remove(ps, i), id)
  {
    var j :| 0 <= j < |ps| && ps[j].id == id;
    assert Remove(ps, i)[if j < i then j else j - 1].id == id;
  }

  // ----- composite steps -----

  lemma FundedAtKeeps(b: Book, i: nat, symbol: string, rate: real)
    requires Sound(b) && i < |b.positions|
    ensures Sound(FundedAt(b, i, symbol, rate))
  {
    var pos := b.positions[i];
    if pos.symbol == symbol {
      PayKeeps(b, i, pos.(funding := pos.funding + Payment(pos, rate)), Payment(pos, rate));
    }
  }

  lemma SoundIsKept(manager: Option<Manager>, c: Costs)
    ensures KeptByFunding(Sound) && KeptOnBars(Sound, manager, c)
  {
    forall b: Book, i: nat, p: SimPosition | Sound(b) && i < |b.positions| && SameIdentity(p, b.positions[i])
      ensures Sound(Replaced(b, i, p))
    {
      ReplaceKeeps(b, i, p);
    }
    forall b: Book, i: nat, qty: real, price: real, at: int | Sound(b) && i < |b.positions|
      ensures Sound(ReducedAt(b, i, qty, price, at, c))
    {
      ReducedKeeps(b, i, qty, price, at, c);
    }
    forall b: Book, i: nat, price: real, reason: ExitReason, at: int | Sound(b) && i < |b.positions|
      ensures Sound(ClosedAt(b, i, price, reason, at, c))
    {
      ClosedKeeps(b, i, price, reason, at, c);
    }
    forall b: Book, i: nat, symbol: string, rate: real | Sound(b) && i < |b.positions|
      ensures Sound(FundedAt(b, i, symbol, rate))
    {
      FundedAtKeeps(b, i, symbol, rate);
    }
    AnyManagerKeeps(Sound, manager, c);
  }

  // ----- runs -----

  /** Anything the replay does to the portfolio, in any order; positions are named by index. */
  datatype Op =
    | OpenEvent(request: OpenRequest)
    | ScaleInEvent(i: nat, request: OpenRequest)
    | CloseEvent(i: nat, price: real, reason: ExitReason, closedAt: int)
    | FundingEvent(symbol: string, rate: real)
    | BarEvent(symbol: string, bar: Candle, manager: Option<Manager>)

  ghost predicate Possible(b: Book, op: Op) {
    match op
    case ScaleInEvent(i, _) => i < |b.positions|
    case CloseEvent(i, _, _, _) => i < |b.positions|
    case _ => true
  }

  function Apply(b: Book, op: Op, c: Costs): Book
    requires Possible(b, op)
  {
    match op
    case OpenEvent(r) => Opened(b, r)
    case ScaleInEvent(i, r) => ScaledAt(b, i, r)
    case CloseEvent(i, price, reason, closedAt) => ClosedAt(b, i, price, reason, closedAt, c)
    case FundingEvent(symbol, rate) => FundedTo(b, |b.positions|, symbol, rate)
    case BarEvent(symbol, bar, manager) => OnBarFrom(b, 0, symbol, bar, manager, c)
  }

  lemma ApplyKeeps(b: Book, op: Op, c: Costs)
    requires Sound(b) && Possible(b, op)
    ensures Sound(Apply(b, op, c))
  {
    SoundIsKept(if op.BarEvent? then op.manager else None, c);
    match op
    case OpenEvent(r) => OpenedKeeps(b, r);
    case ScaleInEvent(i, r) => PayKeeps(b, i, ScaledIn(b.positions[i], r), -r.fee);
    case CloseEvent(i, price, reason, closedAt) => ClosedKeeps(b, i, price, reason, closedAt, c);
    case FundingEvent(symbol, rate) => FundedKeeps(Sound, b, |b.positions|, symbol, rate);
    case BarEvent(symbol, bar, manager) => OnBarKeeps(Sound, b, 0, symbol, bar, manager, c);
  }

  const START: Book := Book([], 0.0, 0, [])

  /** A run of operations from the empty portfolio, each one possible when it happens. */
  ghost predicate IsRun(ops: seq<Op>, c: Costs)
    decreases |ops|, 0
  {
    ops == [] || (IsRun(ops[..|ops| - 1], c) && Possible(After(ops[..|ops| - 1], c), ops[|ops| - 1]))
  }

  ghost function After(ops: seq<Op>, c: Costs): Book
    requires IsRun(ops, c)
    decreases |ops|, 1
  {
    if ops == [] then START else Apply(After(ops[..|ops| - 1], c), ops[|ops| - 1], c)
  }

  lemma StartIsSound()
    ensures Sound(START)
  {}

  lemma {:induction false} RunIsSound(ops: seq<Op>, c: Costs)
    requires IsRun(ops, c)
    ensures Sound(After(ops, c))
    decreases |ops|
  {
    if ops == [] {
      StartIsSound();
    } else {
      RunIsSound(ops[..|ops| - 1], c);
      ApplyKeeps(After(ops[..|ops| - 1], c), ops[|ops| - 1], c);
    }
  }

  /** The portfolio after a whole replay: the run, then every open position closed. */
  ghost function Replayed(ops: seq<Op>, marks: map<string, real>, at: int, reason: ExitReason, c: Costs): (b: Book)
    requires IsRun(ops, c)
    ensures b.positions == []
  {
    AllClosed(After(ops, c), marks, at, reason, c)
  }

  lemma ReplayedIsSound(ops: seq<Op>, marks: map<string, real>, at: int, reason: ExitReason, c: Costs)
    requires IsRun(ops, c)
    ensures Sound(Replayed(ops, marks, at, reason, c))
  {
    RunIsSound(ops, c);
    SoundIsKept(None, c);
    AllClosedKeeps(Sound, After(ops, c), marks, at, reason, c);
  }

  // ----- the records of a finished replay -----

  lemma FinishedLegsCloseOnce(b: Book)
    requires Sound(b) && b.positions == []
    ensures EveryLegClosesOnce(b.trades)
  {
    forall k | 0 <= k < |b.trades| && b.trades[k].partial
      ensures b.trades[k].id.Some? && CountOf(Finals(b.trades), b.trades[k].id.value) == 1
    {
      assert !IsOpen(b.positions, b.trades[k].id.value);
    }
  }

  /** Main result: after a full replay every partial leg has exactly one final close with its position id. */
  lemma LegsCloseOnce(ops: seq<Op>, marks: map<string, real>, at: int, reason: ExitReason, c: Costs)
    requires IsRun(ops, c)
    ensures EveryLegClosesOnce(Replayed(ops, marks, at, reason, c).trades)
  {
    ReplayedIsSound(ops, marks, at, reason, c);
    FinishedLegsCloseOnce(Replayed(ops, marks, at, reason, c));
  }

  // ----- folding, up to the rounding of the folded fees -----

  function One(t: SimTrade): real {
    1.0
  }

  lemma {:induction false} SumOfOnes(ts: seq<SimTrade>)
    ensures Sum(ts, One) == |ts| as real
  {
    if ts != [] {
      SumOfOnes(ts[..|ts| - 1]);
    }
  }

  /** Absorbing legs rounds the fees once, by no more than half a decimal, and only when there are legs. */
  lemma AbsorbFees(t: SimTrade, legs: seq<SimTrade>)
    ensures -HALF * |legs| as real <= FeesOf(Absorb(t, legs)) - FeesOf(t) - Sum(legs, FeesOf) <= HALF * |legs| as real
  {
    if legs != [] {
      Round6Near(t.fees + Sum(legs, FeesOf));
      HalfTimes(|legs|);
    }
  }

  lemma HalfTimes(n: nat)
    requires n > 0
    ensures HALF * n as real >= HALF
  {}

  /** One more record on both sides keeps the totals as close as the record itself is. */
  lemma AppendBounded(folded: seq<SimTrade>, f: SimTrade, finals: seq<SimTrade>, t: SimTrade,
                      x: SimTrade -> real, y: SimTrade -> real, z: SimTrade -> real)
    requires -HALF * Sum(finals, z) <= Sum(folded, x) - Sum(finals, x) - Sum(finals, y) <= HALF * Sum(finals, z)
    requires -HALF * z(t) <= x(f) - x(t) - y(t) <= HALF * z(t)
    ensures -HALF * Sum(finals + [t], z) <= Sum(folded + [f], x) - Sum(finals + [t], x) - Sum(finals + [t], y)
    ensures Sum(folded + [f], x) - Sum(finals + [t], x) - Sum(finals + [t], y) <= HALF * Sum(finals + [t], z)
  {
    SumAppend(folded, f, x);
    SumAppend(finals, t, x);
    SumAppend(finals, t, y);
    SumAppend(finals, t, z);
  }

  lemma AbsorbBounded(trades: seq<SimTrade>, t: SimTrade)
    ensures
      var gap := FeesOf(Absorb(t, LegsOf(trades, t))) - FeesOf(t) - LegPart(trades, FeesOf)(t);
      -HALF * LegPart(trades, One)(t) <= gap <= HALF * LegPart(trades, One)(t)
  {
    AbsorbFees(t, LegsOf(trades, t));
    SumOfOnes(LegsOf(trades, t));
  }

  lemma {:induction false} FoldFees(trades: seq<SimTrade>, n: nat)
    requires n <= |trades|
    ensures
      var gap := Sum(FoldTo(trades, n), FeesOf) - Sum(Finals(trades[..n]), FeesOf) - Sum(Finals(trades[..n]),
          LegPart(trades, FeesOf));
      -HALF * Sum(Finals(trades[..n]), LegPart(trades, One)) <= gap <= HALF * Sum(Finals(trades[..n]),
          LegPart(trades, One))
  {
    if n > 0 {
      FoldFees(trades, n - 1);
      var t := trades[n - 1];
      assert trades[..n][..n - 1] == trades[..n - 1];
      if !t.partial {
        AbsorbBounded(trades, t);
        AppendBounded(FoldTo(trades, n - 1), Absorb(t, LegsOf(trades, t)), Finals(trades[..n - 1]), t,
                      FeesOf, LegPart(trades, FeesOf), LegPart(trades, One));
      }
    }
  }

  /** A value that absorbing legs leaves alone. */
  ghost predicate Untouched(x: SimTrade -> real) {
    forall t: SimTrade, legs: seq<SimTrade> {:trigger Absorb(t, legs)} :: x(Absorb(t, legs)) == x(t)
  }

  lemma SameAppended(a: seq<SimTrade>, f: SimTrade, b: seq<SimTrade>, t: SimTrade, x: SimTrade -> real)
    requires Sum(a, x) == Sum(b, x) && x(f) == x(t)
    ensures Sum(a + [f], x) == Sum(b + [t], x)
  {
    SumAppend(a, f, x);
    SumAppend(b, t, x);
  }

  lemma AbsorbLeaves(t: SimTrade, legs: seq<SimTrade>, x: SimTrade -> real)
    requires Untouched(x)
    ensures x(Absorb(t, legs)) == x(t)
  {}

  lemma {:induction false} FoldLeaves(trades: seq<SimTrade>, n: nat, x: SimTrade -> real)
    requires n <= |trades| && Untouched(x)
    ensures Sum(FoldTo(trades, n), x) == Sum(Finals(trades[..n]), x)
  {
    if n > 0 {
      FoldLeaves(trades, n - 1, x);
      var t := trades[n - 1];
      assert trades[..n][..n - 1] == trades[..n - 1];
      if !t.partial {
        AbsorbLeaves(t, LegsOf(trades, t), x);
        SameAppended(FoldTo(trades, n - 1), Absorb(t, LegsOf(trades, t)), Finals(trades[..n - 1]), t, x);
      }
    }
  }

  lemma {:induction false} NoLegFunding(trades: seq<SimTrade>)
    requires forall k :: 0 <= k < |trades| && trades[k].partial ==> trades[k].funding == 0.0
    ensures Sum(Partials(trades), FundingOf) == 0.0
  {
    if trades != [] {
      NoLegFunding(trades[..|trades| - 1]);
      if trades[|trades| - 1].partial {
        SumAppend(Partials(trades[..|trades| - 1]), trades[|trades| - 1], FundingOf);
      }
    }
  }

  lemma {:induction false} NetSplits(ts: seq<SimTrade>)
    ensures Sum(ts, NetOf) == Sum(ts, PnlOf) + Sum(ts, FundingOf) - Sum(ts, FeesOf)
  {
    if ts != [] {
      NetSplits(ts[..|ts| - 1]);
    }
  }

  /** Folding moves the total net result by at most half a decimal per partial leg. */
  lemma FoldKeepsNet(trades: seq<SimTrade>)
    requires EveryLegClosesOnce(trades)
    requires forall k :: 0 <= k < |trades| && trades[k].partial ==> trades[k].funding == 0.0
    ensures -HALF * |Partials(trades)| as real <= Sum(Fold(trades), NetOf) - Sum(trades,
        NetOf) <= HALF * |Partials(trades)| as real
  {
    FoldKeepsPnlAndQty(trades);
    FoldFees(trades, |trades|);
    assert Untouched(FundingOf);
    FoldLeaves(trades, |trades|, FundingOf);
    assert trades[..|trades|] == trades;
    SplitTotal(trades, FundingOf);
    SplitTotal(trades, FeesOf);
    NoLegFunding(trades);
    LegsAbsorbedOnce(Finals(trades), trades, FeesOf);
    LegsAbsorbedOnce(Finals(trades), trades, One);
    SumOfOnes(Partials(trades));
    NetSplits(trades);
    NetSplits(Fold(trades));
  }

  lemma {:induction false} SlackTotal(trades: seq<SimTrade>)
    ensures Sum(trades, SlackOf) + HALF * |Partials(trades)| as real == 2.0 * HALF * |trades| as real
  {
    if trades != [] {
      SlackTotal(trades[..|trades| - 1]);
    }
  }

  /** The account grew by pnl + funding - fees over the folded records, to within one millionth per booked leg. */
  predicate Balances(b: Book, initialEquity: real) {
    var gap := Equity(b, initialEquity) - initialEquity - Sum(Fold(b.trades), NetOf);
    -0.000001 * |b.trades| as real <= gap <= 0.000001 * |b.trades| as real
  }

  /** A sound portfolio with nothing open balances. */
  lemma ClosedEquityIsFoldedNet(b: Book, initialEquity: real)
    requires Sound(b) && b.positions == []
    ensures Balances(b, initialEquity)
  {
    FinishedLegsCloseOnce(b);
    FoldKeepsNet(b.trades);
    SlackTotal(b.trades);
  }

  /**
   * Main result: after a full replay and forced close, final equity minus initial equity is the sum of
   * pnl + funding - fees over the folded records, to within one millionth per booked leg.
   */
  lemma EquityIsFoldedNet(ops: seq<Op>, marks: map<string, real>, at: int, reason: ExitReason, c: Costs,
                          initialEquity: real)
    requires IsRun(ops, c)
    ensures Balances(Replayed(ops, marks, at, reason, c), initialEquity)
  {
    ReplayedIsSound(ops, marks, at, reason, c);
    ClosedEquityIsFoldedNet(Replayed(ops, marks, at, reason, c), initialEquity);
  }

  /** Closing everything that is open balances a sound portfolio. */
  lemma AllClosedBalances(b: Book, marks: map<string, real>, at: int, reason: ExitReason, c: Costs, initialEquity: real)
    requires Sound(b)
    ensures Balances(AllClosed(b, marks, at, reason, c), initialEquity)
  {
    SoundIsKept(None, c);
    AllClosedKeeps(Sound, b, marks, at, reason, c);
    ClosedEquityIsFoldedNet(AllClosed(b, marks, at, reason, c), initialEquity);
  }

  /** Main result: in the journal of any replay, every record's PnL is (exit - entry) x quantity x direction. */
  lemma RecordsAreGross(ops: seq<Op>, marks: map<string, real>, at: int, reason: ExitReason, c: Costs)
    requires IsRun(ops, c)
    ensures GrossRecords(Replayed(ops, marks, at, reason, c).trades)
  {
    ReplayedIsSound(ops, marks, at, reason, c);
  }

  lemma {:induction false} FoldedRecordsAreGross(trades: seq<SimTrade>, n: nat)
    requires n <= |trades| && GrossRecords(trades)
    requires forall k :: 0 <= k < |trades| ==> trades[k].qty > 0.0
    ensures GrossRecords(FoldTo(trades, n))
  {
    if n > 0 {
      FoldedRecordsAreGross(trades, n - 1);
      var t := trades[n - 1];
      if !t.partial {
        LegsArePositive(trades, t);
        FoldedPnlIsGross(t, LegsOf(trades, t));
      }
    }
  }

  lemma LegsArePositive(trades: seq<SimTrade>, t: SimTrade)
    requires forall k :: 0 <= k < |trades| ==> trades[k].qty > 0.0
    ensures Sum(LegsOf(trades, t), QtyOf) >= 0.0
  {
    if t.id.Some? {
      LegsQty(trades, t.id.value);
    }
  }

  lemma {:induction false} LegsQty(trades: seq<SimTrade>, id: PositionId)
    requires forall k :: 0 <= k < |trades| ==> trades[k].qty > 0.0
    ensures Sum(Legs(trades, id), QtyOf) >= 0.0
  {
    if trades != [] {
      var earlier, last := trades[..|trades| - 1], trades[|trades| - 1];
      LegsQty(earlier, id);
      if IsLegOf(last, id) {
        SumAppend(Legs(earlier, id), last, QtyOf);
      }
    }
  }
}
