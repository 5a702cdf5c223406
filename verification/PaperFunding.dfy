/** Funding over whole runs of the paper account, its trade journal's cap, and its save file. */
module PaperFunding {
  import opened Common
  import opened PaperEngine
  import opened PaperLedger
  import opened Sums

  // ----- boundaries -----

  /** The boundary indexes from `from` up to but not including `to`. */
  function Boundaries(from: int, to: int): (r: seq<int>)
    ensures |r| == if from <= to then to - from else 0
    ensures forall k :: 0 <= k < |r| ==> r[k] == from + k
  {
    if from < to then seq(to - from, k => from + k) else []
  }

  lemma BoundariesJoin(a: int, b: int, c: int)
    requires a <= b <= c
    ensures Boundaries(a, b) + Boundaries(b, c) == Boundaries(a, c)
  {}

  /** The last boundary a position opened in slot `opened` owes nothing for any more. */
  function Settled(clock: int, openedSlot: int): int {
    if clock < openedSlot then openedSlot else clock
  }

  /** The boundaries one accrual charges a position for. */
  function ChargedFor(clock: int, openedSlot: int, slot: int): seq<int> {
    if clock < 0 || slot <= clock then [] else Boundaries(Settled(clock, openedSlot) + 1, slot + 1)
  }

  /** The amount booked is one boundary's funding, at the current rate and mark, per boundary charged. */
  lemma ChargeIsPerBoundary(pos: Position, rates: map<string, real>, clock: int, slot: int)
    requires pos.symbol in rates && 0 <= clock < slot
    ensures Charge(pos, rates, clock, slot)
         == Part(FundingOf(pos, rates[pos.symbol], 1), |ChargedFor(clock, OpenedSlot(pos), slot)| as real)
  {
    var unit := Notional(Notional(rates[pos.symbol], pos.qty), pos.mark);
    assert Part(unit, 1.0) == unit;
    assert Part(-unit, Crossed(pos, clock, slot) as real) == -Part(unit, Crossed(pos, clock, slot) as real);
  }

  function ClockAfter(clock: int, slot: int): int {
    if clock < 0 || slot > clock then slot else clock
  }

  /** One accrual charges exactly the boundaries between what was settled and what is settled after it. */
  lemma ChargedForIsGap(clock: int, openedSlot: int, slot: int)
    requires clock >= 0
    ensures ChargedFor(clock, openedSlot, slot)
         == Boundaries(Settled(clock, openedSlot) + 1, Settled(ClockAfter(clock, slot), openedSlot) + 1)
  {}

  // ----- which positions survive a run -----

  /** The opening times of the symbol's positions. */
  ghost function Openings(ps: seq<Position>, symbol: string): set<Option<real>> {
    set k | 0 <= k < |ps| && ps[k].symbol == symbol :: ps[k].openedAt
  }

  /** The averaged opening time after a scale-in (paperEngine.ts:258-259). */
  function ScaledOpening(pos: Position, params: FillParams, now: real): real
    requires pos.qty > 0.0 && params.qty > 0.0
  {
    Weighted(if pos.openedAt.Some? then pos.openedAt.value else now, pos.qty, now, params.qty)
  }

  /** The averaged opening settles the same boundaries as the one before it. */
  predicate IsHarmless(pos: Position, params: FillParams, now: real, clock: int)
    requires pos.qty > 0.0 && params.qty > 0.0
  {
    Settled(clock, SlotOf(ScaledOpening(pos, params, now))) == Settled(clock, OpenedSlot(pos))
  }

  /**
   * A scale-in changes what the position will be charged for, at some later accrual, exactly when it moves the opening
   * past a boundary that is not settled yet.
   */
  lemma ScaleInKeepsChargesIff(pos: Position, params: FillParams, price: real, now: real, costs: PaperCosts, clock: int)
    requires pos.qty > 0.0 && params.qty > 0.0 && clock >= 0
    ensures IsHarmless(pos, params, now, clock)
       <==> forall slot :: ChargedFor(clock, OpenedSlot(ScaledIn(pos, params, price, now, costs)), slot)
                        == ChargedFor(clock, OpenedSlot(pos), slot)
  {
    var scaled := OpenedSlot(ScaledIn(pos, params, price, now, costs));
    var a, b := Settled(clock, scaled), Settled(clock, OpenedSlot(pos));
    if a != b {
      var slot := if a < b then b else a;
      assert |ChargedFor(clock, scaled, slot)| != |ChargedFor(clock, OpenedSlot(pos), slot)|;
    }
  }

  /** A scale-in is harmless once every boundary before it is accrued. */
  lemma ScaleInAfterAccrualIsHarmless(pos: Position, params: FillParams, now: real, clock: int)
    requires pos.qty > 0.0 && params.qty > 0.0 && clock >= 0
    requires SlotOf(now) <= clock && (pos.openedAt.Some? ==> pos.openedAt.value <= now)
    ensures IsHarmless(pos, params, now, clock)
  {
    var since := if pos.openedAt.Some? then pos.openedAt.value else now;
    WeightedIsBetween(since, pos.qty, now, params.qty);
    SlotOfMonotone(ScaledOpening(pos, params, now), now);
    SlotOfMonotone(since, now);
  }

  lemma WeightedIsBetween(a: real, qa: real, b: real, qb: real)
    requires a <= b && qa > 0.0 && qb > 0.0
    ensures a <= Weighted(a, qa, b, qb) <= b
  {
    ProductMonotone(a, b, qa);
    ProductMonotone(a, b, qb);
    Between(a, Notional(a, qa) + Notional(b, qb), b, qa + qb);
  }

  lemma Between(a: real, total: real, b: real, q: real)
    requires q > 0.0 && a * q <= total <= b * q
    ensures a <= total / q <= b
  {
    QuotientMonotone(a * q, total, q);
    QuotientMonotone(total, b * q, q);
    ProductQuotient(a, q);
    ProductQuotient(b, q);
  }

  lemma ProductMonotone(x: real, y: real, q: real)
    requires q > 0.0 && x <= y
    ensures x * q <= y * q
  {}

  lemma QuotientMonotone(x: real, y: real, q: real)
    requires q > 0.0 && x <= y
    ensures x / q <= y / q
  {}

  lemma ProductQuotient(x: real, q: real)
    requires q > 0.0
    ensures x * q / q == x
  {}

  lemma SlotOfMonotone(a: real, b: real)
    requires a <= b
    ensures SlotOf(a) <= SlotOf(b)
  {
    QuotientMonotone(a, b, FUNDING_INTERVAL_MS as real);
  }

  /**
   * An entry on the symbol is a harmless scale-in of its position, or is refused because another strategy holds it;
   * every funding call has a rate for the symbol and a time after the epoch.
   */
  ghost predicate Undisturbed(b: Book, e: Event, symbol: string)
    requires Quantities(b.positions)
  {
    && (e.FillEvent? ==> e.params.qty > 0.0)
    && (e.FillEvent? && e.params.symbol == symbol && !e.params.reduceOnly ==>
          && Holding(b.positions, symbol)
          && forall k :: 0 <= k < |b.positions| && b.positions[k].symbol == symbol ==>
               || b.positions[k].strategy != e.params.strategy
               || (b.positions[k].side == e.params.side && IsHarmless(b.positions[k], e.params, e.now, b.clock)))
    && (e.FundingEvent? ==> symbol in e.rates && SlotOf(e.now) >= 0)
  }

  /** All the symbol's positions owe from the same boundary on as one opened in slot `since`. */
  ghost predicate OwesSince(ps: seq<Position>, symbol: string, clock: int, since: int) {
    forall k :: 0 <= k < |ps| && ps[k].symbol == symbol ==> Settled(clock, OpenedSlot(ps[k])) == Settled(clock, since)
  }

  /** Keeping the openings keeps what is owed, and so does a later clock. */
  lemma SameOpeningsOwe(ps: seq<Position>, qs: seq<Position>, symbol: string, clock: int, later: int, since: int)
    requires Openings(qs, symbol) <= Openings(ps, symbol) && OwesSince(ps, symbol, clock, since) && clock <= later
    ensures OwesSince(qs, symbol, later, since)
  {
    forall k | 0 <= k < |qs| && qs[k].symbol == symbol
      ensures Settled(later, OpenedSlot(qs[k])) == Settled(later, since) {
      assert qs[k].openedAt in Openings(ps, symbol);
      var j :| 0 <= j < |ps| && ps[j].symbol == symbol && ps[j].openedAt == qs[k].openedAt;
      assert Settled(clock, OpenedSlot(ps[j])) == Settled(clock, since);
    }
  }

  lemma OpeningsOfReplaced(ps: seq<Position>, i: nat, p: Position, symbol: string)
    requires i < |ps| && p.symbol == ps[i].symbol && (p.symbol == symbol ==> p.openedAt == ps[i].openedAt)
    ensures Openings(ps[i := p], symbol) <= Openings(ps, symbol)
  {
    forall o | o in Openings(ps[i := p], symbol) ensures o in Openings(ps, symbol) {
      var k :| 0 <= k < |ps| && ps[i := p][k].symbol == symbol && ps[i := p][k].openedAt == o;
      assert ps[k].symbol == symbol && ps[k].openedAt == o;
    }
  }

  lemma OpeningsOfRemove(ps: seq<Position>, i: nat, symbol: string)
    requires i < |ps|
    ensures Openings(Remove(ps, i), symbol) <= Openings(ps, symbol)
  {
    forall o | o in Openings(Remove(ps, i), symbol) ensures o in Openings(ps, symbol) {
      var k :| 0 <= k < |Remove(ps, i)| && Remove(ps, i)[k].symbol == symbol && Remove(ps, i)[k].openedAt == o;
      assert ps[if k < i then k else k + 1].openedAt == o;
    }
  }

  lemma OpeningsOfPushed(ps: seq<Position>, p: Position, symbol: string)
    requires p.symbol != symbol
    ensures Openings(ps + [p], symbol) <= Openings(ps, symbol)
  {
    forall o | o in Openings(ps + [p], symbol) ensures o in Openings(ps, symbol) {
      var k :| 0 <= k < |ps + [p]| && (ps + [p])[k].symbol == symbol && (ps + [p])[k].openedAt == o;
      assert ps[k].openedAt == o;
    }
  }

  lemma OpeningsOfReduced(b: Book, i: nat, qty: real, raw: real, reason: ExitReason, costs: PaperCosts, symbol: string)
    requires i < |b.positions| && b.positions[i].qty > 0.0
    ensures Openings(ReduceAt(b, i, qty, raw, reason, costs).0.positions, symbol) <= Openings(b.positions, symbol)
  {
    var left := Reduce(b.positions[i], qty, raw, reason, costs).left;
    OpeningsOfRemove(b.positions, i, symbol);
    OpeningsOfReplaced(b.positions, i, left, symbol);
  }

  lemma OpeningsOfOpen(b: Book, params: FillParams, lastPrices: map<string, real>, now: real, costs: PaperCosts,
                       symbol: string)
    requires Quantities(b.positions) && params.qty > 0.0 && (params.symbol == symbol ==> params.reduceOnly)
    ensures Openings(Open(b, params, lastPrices, now, costs).1.positions, symbol) <= Openings(b.positions, symbol)
  {
    var found := Find(b.positions, params.symbol, params.strategy);
    var price := PriceFor(b, params, lastPrices);
    if price.Some? {
      var entry := FillPrice(params.side, price.value, true, costs);
      if params.reduceOnly {
        if found.Some? {
          var reason := if params.exitReason.Some? then params.exitReason.value else Close;
          OpeningsOfReduced(b, found.value, params.qty, price.value, reason, costs, symbol);
        }
      } else if found.None? {
        OpeningsOfPushed(b.positions, Create(params, entry, now, costs), symbol);
      } else if b.positions[found.value].side == params.side {
        OpeningsOfReplaced(b.positions, found.value, ScaledIn(b.positions[found.value], params, entry, now, costs),
                           symbol);
      } else {
        var i := found.value;
        OpeningsOfReduced(b, i, b.positions[i].qty, price.value, Flip, costs, symbol);
        var closed := ReduceAt(b, i, b.positions[i].qty, price.value, Flip, costs).0;
        OpeningsOfPushed(closed.positions, Create(params, entry, now, costs), symbol);
      }
    }
  }

  lemma OpeningsOfMarkAt(b: Book, i: nat, prices: map<string, real>, costs: PaperCosts, symbol: string)
    requires i < |b.positions| && b.positions[i].qty > 0.0
    ensures Openings(MarkAt(b, i, prices, costs).0.positions, symbol) <= Openings(b.positions, symbol)
  {
    var pos := b.positions[i];
    if pos.symbol in prices && prices[pos.symbol] != 0.0 {
      var marked := pos.(mark := prices[pos.symbol]);
      var exit := FindExit(marked);
      OpeningsOfReplaced(b.positions, i, Refreshed(marked), symbol);
      OpeningsOfReplaced(b.positions, i, marked, symbol);
      if exit.Some? {
        var touched := b.(positions := b.positions[i := marked]);
        OpeningsOfReduced(touched, i, marked.qty, exit.value.0, exit.value.1, costs, symbol);
      }
    }
  }

  lemma {:induction false} OpeningsOfMark(b: Book, i: nat, prices: map<string, real>, costs: PaperCosts, symbol: string)
    requires Quantities(b.positions) && i <= |b.positions|
    ensures Openings(MarkFrom(b, i, prices, costs).0.positions, symbol) <= Openings(b.positions, symbol)
    decreases |b.positions| - i
  {
    if i < |b.positions| {
      MarkAtKeepsQuantities(b, i, prices, costs);
      OpeningsOfMarkAt(b, i, prices, costs, symbol);
      var marked := MarkAt(b, i, prices, costs).0;
      OpeningsOfMark(marked, if |marked.positions| < |b.positions| then i else i + 1, prices, costs, symbol);
    }
  }

  lemma OpeningsOfCharged(ps: seq<Position>, rates: map<string, real>, clock: int, slot: int, symbol: string)
    ensures Openings(ChargedAll(ps, rates, clock, slot), symbol) <= Openings(ps, symbol)
  {
    var qs := ChargedAll(ps, rates, clock, slot);
    forall o | o in Openings(qs, symbol) ensures o in Openings(ps, symbol) {
      var k :| 0 <= k < |qs| && qs[k].symbol == symbol && qs[k].openedAt == o;
      assert ps[k].symbol == symbol && ps[k].openedAt == o;
    }
  }

  /** Entries on the symbol: refused, or a harmless scale-in. */
  lemma EntryOwes(a: Account, params: FillParams, now: real, costs: PaperCosts, symbol: string, since: int)
    requires Quantities(a.book.positions) && Undisturbed(a.book, FillEvent(params, now), symbol)
    requires params.symbol == symbol && !params.reduceOnly && OwesSince(a.book.positions, symbol, a.book.clock, since)
    ensures OwesSince(Open(a.book, params, a.lastPrices, now, costs).1.positions, symbol, a.book.clock, since)
    ensures Holding(a.book.positions, symbol)
  {
    var found := Find(a.book.positions, symbol, params.strategy);
    if found.Some? {
      var pos := a.book.positions[found.value];
      assert Settled(a.book.clock, OpenedSlot(pos)) == Settled(a.book.clock, since);
    } else {
      var k :| 0 <= k < |a.book.positions| && a.book.positions[k].symbol == symbol;
      assert HeldByOther(a.book.positions, symbol, params.strategy);
    }
  }

  /** A step that does not enter on the symbol leaves its openings alone. */
  lemma StepKeepsOpening(a: Account, e: Event, costs: PaperCosts, symbol: string)
    requires InOrder(a.book.positions) && Sensible(e)
    requires e.FillEvent? && e.params.symbol == symbol ==> e.params.reduceOnly
    ensures Openings(Step(a, e, costs).0.book.positions, symbol) <= Openings(a.book.positions, symbol)
  {
    match e
    case FillEvent(params, now) => OpeningsOfOpen(a.book, params, a.lastPrices, now, costs, symbol);
    case MarkEvent(prices) => OpeningsOfMark(a.book, 0, prices, costs, symbol);
    case FundingEvent(rates, now) => OpeningsOfCharged(a.book.positions, rates, a.book.clock, SlotOf(now), symbol);
    case StopsEvent(id, strategy, stopLoss, takeProfit) =>
      var found := Find(a.book.positions, id, strategy);
      if found.Some? {
        var p := a.book.positions[found.value].(stopLoss := Some(stopLoss), takeProfit := takeProfit);
        OpeningsOfReplaced(a.book.positions, found.value, p, symbol);
      }
  }

  // ----- exactly once -----

  /** No event of the run disturbs the symbol's position, at the moment it comes. */
  ghost predicate AllUndisturbed(start: Account, events: seq<Event>, costs: PaperCosts, symbol: string)
    requires InOrder(start.book.positions) && AllSensible(events)
    decreases |events|
  {
    events == [] ||
    (var n := |events| - 1;
     && AllUndisturbed(start, events[..n], costs, symbol)
     && Undisturbed(Run(start, events[..n], costs).0.book, events[n], symbol))
  }

  ghost predicate Holding(ps: seq<Position>, symbol: string) {
    exists k :: 0 <= k < |ps| && ps[k].symbol == symbol
  }

  /** The boundaries the symbol's position was charged for over the run, in order. */
  ghost function ChargesOver(start: Account, events: seq<Event>, costs: PaperCosts, symbol: string): seq<int>
    requires InOrder(start.book.positions) && AllSensible(events)
    decreases |events|
  {
    if events == [] then []
    else
      var n := |events| - 1;
      var a := Run(start, events[..n], costs).0;
      ChargesOver(start, events[..n], costs, symbol) + ChargesAt(a.book, events[n], symbol)
  }

  /** The boundaries one event charges the symbol's position for. */
  ghost function ChargesAt(b: Book, e: Event, symbol: string): seq<int> {
    if e.FundingEvent? && symbol in e.rates && Holding(b.positions, symbol) then
      var k :| 0 <= k < |b.positions| && b.positions[k].symbol == symbol;
      ChargedFor(b.clock, OpenedSlot(b.positions[k]), SlotOf(e.now))
    else []
  }

  lemma ClockOfStep(a: Account, e: Event, costs: PaperCosts)
    requires Quantities(a.book.positions) && Sensible(e)
    ensures Step(a, e, costs).0.book.clock == if e.FundingEvent? then ClockAfter(a.book.clock, SlotOf(e.now))
            else a.book.clock
  {
    match e
    case FillEvent(params, now) =>
    case MarkEvent(prices) => ClockOfMark(a.book, 0, prices, costs);
    case FundingEvent(rates, now) =>
    case StopsEvent(id, strategy, stopLoss, takeProfit) =>
  }

  lemma {:induction false} ClockOfMark(b: Book, i: nat, prices: map<string, real>, costs: PaperCosts)
    requires Quantities(b.positions) && i <= |b.positions|
    ensures MarkFrom(b, i, prices, costs).0.clock == b.clock
    decreases |b.positions| - i
  {
    if i < |b.positions| {
      MarkAtKeepsQuantities(b, i, prices, costs);
      var marked := MarkAt(b, i, prices, costs).0;
      ClockOfMark(marked, if |marked.positions| < |b.positions| then i else i + 1, prices, costs);
    }
  }

  lemma ChargesAtStep(b: Book, e: Event, symbol: string, since: int)
    requires Quantities(b.positions) && b.clock >= 0 && Undisturbed(b, e, symbol) && Holding(b.positions, symbol)
    requires OwesSince(b.positions, symbol, b.clock, since)
    ensures
      var after := if e.FundingEvent? then ClockAfter(b.clock, SlotOf(e.now)) else b.clock;
      ChargedExactly(ChargesAt(b, e, symbol), b.clock, after, since)
  {
    if e.FundingEvent? {
      var k :| 0 <= k < |b.positions| && b.positions[k].symbol == symbol
               && ChargesAt(b, e, symbol) == ChargedFor(b.clock, OpenedSlot(b.positions[k]), SlotOf(e.now));
      ChargedForIsGap(b.clock, OpenedSlot(b.positions[k]), SlotOf(e.now));
    }
  }

  lemma HoldingMeansOpening(ps: seq<Position>, symbol: string)
    ensures Holding(ps, symbol) <==> Openings(ps, symbol) != {}
  {
    if Holding(ps, symbol) {
      var k :| 0 <= k < |ps| && ps[k].symbol == symbol;
      assert ps[k].openedAt in Openings(ps, symbol);
    }
  }

  /** The charges are exactly the boundaries settled while the clock went from one value to another. */
  ghost predicate ChargedExactly(charges: seq<int>, clockFrom: int, clockTo: int, openedSlot: int) {
    charges == Boundaries(Settled(clockFrom, openedSlot) + 1, Settled(clockTo, openedSlot) + 1)
  }

  lemma ChargesJoin(a: seq<int>, b: seq<int>, clockFrom: int, clockMid: int, clockTo: int, openedSlot: int)
    requires clockFrom <= clockMid <= clockTo
    requires ChargedExactly(a, clockFrom, clockMid, openedSlot) && ChargedExactly(b, clockMid, clockTo, openedSlot)
    ensures ChargedExactly(a + b, clockFrom, clockTo, openedSlot)
  {
    BoundariesJoin(Settled(clockFrom, openedSlot) + 1, Settled(clockMid, openedSlot) + 1,
                   Settled(clockTo, openedSlot) + 1);
  }

  /** What a step leaves is owed from the same boundary on. */
  lemma StepOwes(a: Account, e: Event, costs: PaperCosts, symbol: string, since: int)
    requires InOrder(a.book.positions) && Sensible(e) && Undisturbed(a.book, e, symbol)
    requires a.book.clock >= 0 && OwesSince(a.book.positions, symbol, a.book.clock, since)
    ensures var after := Step(a, e, costs).0.book;
      && a.book.clock <= after.clock && OwesSince(after.positions, symbol, after.clock, since)
      && (Holding(after.positions, symbol) ==> Holding(a.book.positions, symbol))
  {
    ClockOfStep(a, e, costs);
    if e.FillEvent? && e.params.symbol == symbol && !e.params.reduceOnly {
      EntryOwes(a, e.params, e.now, costs, symbol, since);
    } else {
      var after := Step(a, e, costs).0.book;
      StepKeepsOpening(a, e, costs, symbol);
      SameOpeningsOwe(a.book.positions, after.positions, symbol, a.book.clock, after.clock, since);
      HoldingMeansOpening(after.positions, symbol);
      HoldingMeansOpening(a.book.positions, symbol);
    }
  }

  lemma {:induction false} RunOwes(start: Account, events: seq<Event>, costs: PaperCosts, symbol: string, since: int)
    requires InOrder(start.book.positions) && AllSensible(events) && AllUndisturbed(start, events, costs, symbol)
    requires start.book.clock >= 0 && OwesSince(start.book.positions, symbol, start.book.clock, since)
    ensures
      var after := Run(start, events, costs).0.book;
      start.book.clock <= after.clock && OwesSince(after.positions, symbol, after.clock, since)
    decreases |events|
  {
    if events != [] {
      var n := |events| - 1;
      RunOwes(start, events[..n], costs, symbol, since);
      assert Sensible(events[n]);
      StepOwes(Run(start, events[..n], costs).0, events[n], costs, symbol, since);
    }
  }

  lemma RunLast(start: Account, events: seq<Event>, e: Event, costs: PaperCosts)
    requires InOrder(start.book.positions) && AllSensible(events) && AllSensible(events + [e]) && Sensible(e)
    ensures Run(start, events + [e], costs).0 == Step(Run(start, events, costs).0, e, costs).0
  {
    assert (events + [e])[..|events|] == events;
  }

  lemma ChargesLast(start: Account, events: seq<Event>, e: Event, costs: PaperCosts, symbol: string)
    requires InOrder(start.book.positions) && AllSensible(events) && AllSensible(events + [e])
    ensures ChargesOver(start, events + [e], costs, symbol)
         == ChargesOver(start, events, costs, symbol) + ChargesAt(Run(start, events, costs).0.book, e, symbol)
  {
    assert (events + [e])[..|events|] == events;
  }

  /** One more event extends an exact list of charges exactly. */
  lemma ChargesExtend(start: Account, events: seq<Event>, e: Event, mid: int, end: int, costs: PaperCosts,
                      symbol: string, since: int)
    requires InOrder(start.book.positions) && AllSensible(events) && AllSensible(events + [e])
    requires start.book.clock <= mid <= end
    requires ChargedExactly(ChargesOver(start, events, costs, symbol), start.book.clock, mid, since)
    requires ChargedExactly(ChargesAt(Run(start, events, costs).0.book, e, symbol), mid, end, since)
    ensures ChargedExactly(ChargesOver(start, events + [e], costs, symbol), start.book.clock, end, since)
  {
    ChargesLast(start, events, e, costs, symbol);
    ChargesJoin(ChargesOver(start, events, costs, symbol), ChargesAt(Run(start, events, costs).0.book, e, symbol),
                start.book.clock, mid, end, since);
  }

  /**
   * Main result: once the clock is set, a position still open at the end was charged for exactly the 8-hour boundaries
   * after its opening and after the clock's start, each once and in order, however the funding calls were spaced and
   * whatever marks, stops, partial closes, refused entries and scale-ins across no unaccrued boundary happened in
   * between.
   */
  lemma {:induction false} ChargedOncePerBoundary(start: Account, events: seq<Event>, costs: PaperCosts,
                                                  symbol: string, since: int)
    requires InOrder(start.book.positions) && AllSensible(events) && AllUndisturbed(start, events, costs, symbol)
    requires start.book.clock >= 0 && OwesSince(start.book.positions, symbol, start.book.clock, since)
    requires Holding(Run(start, events, costs).0.book.positions, symbol)
    ensures ChargedExactly(ChargesOver(start, events, costs, symbol), start.book.clock,
                           Run(start, events, costs).0.book.clock, since)
    decreases |events|
  {
    if events != [] {
      var n := |events| - 1;
      RunOwes(start, events[..n], costs, symbol, since);
      var a := Run(start, events[..n], costs).0;
      assert Sensible(events[n]);
      assert events == events[..n] + [events[n]];
      RunLast(start, events[..n], events[n], costs);
      StepOwes(a, events[n], costs, symbol, since);
      ChargesAtStep(a.book, events[n], symbol, since);
      ClockOfStep(a, events[n], costs);
      ChargedOncePerBoundary(start, events[..n], costs, symbol, since);
      ChargesExtend(start, events[..n], events[n], a.book.clock, Step(a, events[n], costs).0.book.clock, costs, symbol,
                    since);
    }
  }

  // ----- the capped journal -----

  /** Journals several trades one after the other. */
  function JournalAll(trades: seq<Trade>, more: seq<Trade>): seq<Trade>
    decreases |more|
  {
    if more == [] then trades else Journal(JournalAll(trades, more[..|more| - 1]), more[|more| - 1])
  }

  /** Journaling from empty keeps exactly the newest trades up to the cap. */
  lemma {:induction false} JournalKeepsNewest(trades: seq<Trade>)
    ensures JournalAll([], trades) == Newest(trades, MAX_TRADES)
    decreases |trades|
  {
    if trades != [] {
      JournalKeepsNewest(trades[..|trades| - 1]);
      assert trades == trades[..|trades| - 1] + [trades[|trades| - 1]];
    }
  }

  lemma {:induction false} JournalAllConcat(trades: seq<Trade>, a: seq<Trade>, b: seq<Trade>)
    ensures JournalAll(trades, a + b) == JournalAll(JournalAll(trades, a), b)
    decreases |b|
  {
    if b == [] {
      assert a + b == a;
    } else {
      assert (a + b)[..|a + b| - 1] == a + b[..|b| - 1];
      JournalAllConcat(trades, a, b[..|b| - 1]);
    }
  }

  ghost predicate Journals(before: Book, after: Book, e: Effect) {
    after.trades == JournalAll(before.trades, e.booked)
  }

  lemma JournalsInTurn(a: Book, b: Book, c: Book, e: Effect, f: Effect)
    requires Journals(a, b, e) && Journals(b, c, f)
    ensures Journals(a, c, Both(e, f))
  {
    JournalAllConcat(a.trades, e.booked, f.booked);
  }

  lemma ReduceAtJournals(b: Book, i: nat, qty: real, raw: real, reason: ExitReason, costs: PaperCosts)
    requires i < |b.positions| && b.positions[i].qty > 0.0
    ensures var (after, e) := ReduceAt(b, i, qty, raw, reason, costs); Journals(b, after, e)
  {
    var t := Reduce(b.positions[i], qty, raw, reason, costs).trade;
    assert [t][..0] == [];
  }

  lemma OpenJournals(b: Book, params: FillParams, lastPrices: map<string, real>, now: real, costs: PaperCosts)
    requires Quantities(b.positions) && params.qty > 0.0
    ensures var (_, after, e) := Open(b, params, lastPrices, now, costs); Journals(b, after, e)
  {
    var found := Find(b.positions, params.symbol, params.strategy);
    var price := PriceFor(b, params, lastPrices);
    if price.Some? && found.Some? {
      var i := found.value;
      var reason := if params.exitReason.Some? then params.exitReason.value else Close;
      ReduceAtJournals(b, i, params.qty, price.value, reason, costs);
      ReduceAtJournals(b, i, b.positions[i].qty, price.value, Flip, costs);
    }
  }

  lemma MarkAtJournals(b: Book, i: nat, prices: map<string, real>, costs: PaperCosts)
    requires i < |b.positions| && b.positions[i].qty > 0.0
    ensures var (after, e) := MarkAt(b, i, prices, costs); Journals(b, after, e)
  {
    var pos := b.positions[i];
    if pos.symbol in prices && prices[pos.symbol] != 0.0 {
      var marked := pos.(mark := prices[pos.symbol]);
      var exit := FindExit(marked);
      if exit.Some? {
        ReduceAtJournals(b.(positions := b.positions[i := marked]), i, marked.qty, exit.value.0, exit.value.1, costs);
      }
    }
  }

  lemma {:induction false} MarkFromJournals(b: Book, i: nat, prices: map<string, real>, costs: PaperCosts)
    requires Quantities(b.positions) && i <= |b.positions|
    ensures var (after, e) := MarkFrom(b, i, prices, costs); Journals(b, after, e)
    decreases |b.positions| - i
  {
    if i < |b.positions| {
      MarkAtKeepsQuantities(b, i, prices, costs);
      MarkAtJournals(b, i, prices, costs);
      var (marked, e) := MarkAt(b, i, prices, costs);
      var next := if |marked.positions| < |b.positions| then i else i + 1;
      MarkFromJournals(marked, next, prices, costs);
      var (rest, f) := MarkFrom(marked, next, prices, costs);
      JournalsInTurn(b, marked, rest, e, f);
    }
  }

  lemma StepJournals(a: Account, e: Event, costs: PaperCosts)
    requires Quantities(a.book.positions) && Sensible(e)
    ensures var (after, f) := Step(a, e, costs); Journals(a.book, after.book, f)
  {
    match e
    case FillEvent(params, now) => OpenJournals(a.book, params, a.lastPrices, now, costs);
    case MarkEvent(prices) => MarkFromJournals(a.book, 0, prices, costs);
    case FundingEvent(rates, now) =>
    case StopsEvent(id, strategy, stopLoss, takeProfit) =>
  }

  lemma {:induction false} RunJournals(start: Account, events: seq<Event>, costs: PaperCosts)
    requires InOrder(start.book.positions) && AllSensible(events)
    ensures var (a, done) := Run(start, events, costs); Journals(start.book, a.book, done)
    decreases |events|
  {
    if events != [] {
      var n := |events| - 1;
      RunJournals(start, events[..n], costs);
      var (a, done) := Run(start, events[..n], costs);
      assert Sensible(events[n]);
      var (next, e) := Step(a, events[n], costs);
      StepJournals(a, events[n], costs);
      JournalsInTurn(start.book, a.book, next.book, done, e);
    }
  }

  /** Main result: the stored journal is the newest 1000 of the trades ever booked, in order. */
  lemma StoredTradesAreNewest(initial: real, events: seq<Event>, costs: PaperCosts)
    requires AllSensible(events)
    ensures var (a, done) := Run(Opening(initial), events, costs); a.book.trades == Newest(done.booked, MAX_TRADES)
  {
    RunJournals(Opening(initial), events, costs);
    JournalKeepsNewest(Run(Opening(initial), events, costs).1.booked);
  }

  // ----- the save file -----

  /** The saved fields; the shutdown path leaves the clock out. */
  datatype Saved = Saved(positions: seq<Position>, equity: real, wallet: real, trades: seq<Trade>, clock: Option<int>)

  /** The debounced save (paperEngine.ts:152-174). */
  function Persist(b: Book): Saved {
    Saved(b.positions, EquityOf(b), b.wallet, b.trades, Some(b.clock))
  }

  /** The synchronous save on shutdown (paperEngine.ts:349-370). */
  function Flush(b: Book): Saved {
    Persist(b).(clock := None)
  }

  /** `loadState` (paperEngine.ts:135-150). */
  function Load(s: Saved): Book {
    Book(s.positions, s.wallet, s.trades, if s.clock.Some? then s.clock.value else UNSET)
  }

  /**
   * Saving and loading loses nothing on the debounced path. On the shutdown path the next funding call
   * charges the same as without the restart if and only if no boundary was crossed for the position.
   */
  lemma SavePaths(b: Book, openedSlot: int, slot: int)
    ensures Load(Persist(b)) == b
    ensures ChargedFor(Load(Flush(b)).clock, openedSlot, slot) == ChargedFor(b.clock, openedSlot, slot)
       <==> b.clock < 0 || slot <= Settled(b.clock, openedSlot)
  {
    assert ChargedFor(Load(Flush(b)).clock, openedSlot, slot) == [];
    assert b.clock >= 0 && slot > Settled(b.clock, openedSlot) ==> |ChargedFor(b.clock, openedSlot, slot)| > 0;
  }
}
