/** Any property of the book kept by the simple steps is kept by bars, funding and closing everything. */
module PortfolioSteps {
  import opened Common
  import opened ExecutionSimulator
  import opened PortfolioSimulator

  type Property = Book -> bool

  /** The same position of the same symbol and size, with the same cash not yet booked. */
  predicate SameIdentity(p: SimPosition, q: SimPosition) {
    p.id == q.id && p.symbol == q.symbol && p.qty == q.qty && p.fees == q.fees && p.funding == q.funding
  }

  ghost predicate KeptByReplacing(P: Property) {
    forall b: Book, i: nat, p: SimPosition ::
      P(b) && i < |b.positions| && SameIdentity(p, b.positions[i]) ==> P(Replaced(b, i, p))
  }

  ghost predicate KeptByReducing(P: Property, c: Costs) {
    forall b: Book, i: nat, qty: real, price: real, at: int ::
      P(b) && i < |b.positions| ==> P(ReducedAt(b, i, qty, price, at, c))
  }

  ghost predicate KeptByClosing(P: Property, c: Costs) {
    forall b: Book, i: nat, price: real, reason: ExitReason, at: int ::
      P(b) && i < |b.positions| ==> P(ClosedAt(b, i, price, reason, at, c))
  }

  ghost predicate KeptByFunding(P: Property) {
    forall b: Book, i: nat, symbol: string, rate: real ::
      P(b) && i < |b.positions| ==> P(FundedAt(b, i, symbol, rate))
  }

  /** Kept by whatever the manager does to a position on a bar. */
  ghost predicate KeptByManaging(P: Property, manager: Option<Manager>, c: Costs) {
    forall b: Book, i: nat, bar: Candle, at: int ::
      manager.Some? && P(b) && i < |b.positions| ==> P(ManagedAt(b, i, bar, manager.value, at, c).0)
  }

  ghost predicate KeptOnBars(P: Property, manager: Option<Manager>, c: Costs) {
    KeptByReplacing(P) && KeptByClosing(P, c) && KeptByManaging(P, manager, c)
  }

  lemma {:induction false} FundedKeeps(P: Property, b: Book, n: nat, symbol: string, rate: real)
    requires KeptByFunding(P) && P(b) && n <= |b.positions|
    ensures P(FundedTo(b, n, symbol, rate))
  {
    if n > 0 {
      FundedKeeps(P, b, n - 1, symbol, rate);
    }
  }

  lemma {:induction false} ActedKeeps(P: Property, b: Book, i: nat, actions: seq<Action>, bar: Candle, closedAt: int,
                                      c: Costs)
    requires KeptByReplacing(P) && KeptByReducing(P, c) && P(b) && i < |b.positions|
    ensures P(ActedOn(b, i, actions, bar, closedAt, c).0)
    decreases |actions|
  {
    if actions != [] {
      ActedKeeps(P, b, i, actions[..|actions| - 1], bar, closedAt, c);
    }
  }

  lemma ManagedKeeps(P: Property, b: Book, i: nat, bar: Candle, manager: Manager, closedAt: int, c: Costs)
    requires KeptByReplacing(P) && KeptByReducing(P, c) && P(b) && i < |b.positions|
    ensures P(ManagedAt(b, i, bar, manager, closedAt, c).0)
  {
    var (pm, actions) := manager(b.positions[i], bar);
    if pm.Some? {
      var touched := b.positions[i].(pm := pm);
      assert SameIdentity(touched, b.positions[i]);
      ActedKeeps(P, Replaced(b, i, touched), i, actions, bar, closedAt, c);
    }
  }

  /** What partial exits of any size keep, every manager keeps. */
  lemma AnyManagerKeeps(P: Property, manager: Option<Manager>, c: Costs)
    requires KeptByReplacing(P) && KeptByReducing(P, c)
    ensures KeptByManaging(P, manager, c)
  {
    if manager.Some? {
      forall b: Book, i: nat, bar: Candle, at: int | P(b) && i < |b.positions|
        ensures P(ManagedAt(b, i, bar, manager.value, at, c).0) {
        ManagedKeeps(P, b, i, bar, manager.value, at, c);
      }
    }
  }

  lemma ManagedBarKeeps(P: Property, b: Book, i: nat, bar: Candle, manager: Manager, closedAt: int, c: Costs)
    requires KeptOnBars(P, Some(manager), c) && P(b) && i < |b.positions|
    ensures P(ManagedBar(b, i, bar, manager, closedAt, c))
  {
    assert P(ManagedAt(b, i, bar, Some(manager).value, closedAt, c).0);
  }

  lemma ResolvedKeeps(P: Property, b: Book, i: nat, pos: SimPosition, bar: Candle, manager: Option<Manager>, c: Costs)
    requires KeptOnBars(P, manager, c) && P(b) && i < |b.positions|
    ensures P(Resolved(b, i, pos, bar, manager, c))
  {
    if manager.Some? {
      ManagedBarKeeps(P, b, i, bar, manager.value, bar.openTime + FIFTEEN_MINUTES_MS, c);
    }
  }

  lemma BarKeeps(P: Property, b: Book, i: nat, symbol: string, bar: Candle, manager: Option<Manager>, c: Costs)
    requires KeptOnBars(P, manager, c) && P(b) && i < |b.positions|
    ensures P(BarAt(b, i, symbol, bar, manager, c))
  {
    var pos := b.positions[i];
    assert SameIdentity(pos.(mark := bar.close), pos);
    ResolvedKeeps(P, Replaced(b, i, pos.(mark := bar.close)), i, pos, bar, manager, c);
  }

  lemma {:induction false} OnBarKeeps(P: Property, b: Book, i: nat, symbol: string, bar: Candle,
                                      manager: Option<Manager>, c: Costs)
    requires KeptOnBars(P, manager, c) && P(b) && i <= |b.positions|
    ensures P(OnBarFrom(b, i, symbol, bar, manager, c))
    decreases |b.positions| - i
  {
    if i < |b.positions| {
      BarAtSize(b, i, symbol, bar, manager, c);
      BarKeeps(P, b, i, symbol, bar, manager, c);
      var next := BarAt(b, i, symbol, bar, manager, c);
      OnBarKeeps(P, next, if |next.positions| < |b.positions| then i else i + 1, symbol, bar, manager, c);
    }
  }

  lemma {:induction false} AllClosedKeeps(P: Property, b: Book, marks: map<string, real>, at: int, reason: ExitReason,
                                          c: Costs)
    requires KeptByClosing(P, c) && P(b)
    ensures P(AllClosed(b, marks, at, reason, c))
    decreases |b.positions|
  {
    if b.positions != [] {
      var pos := b.positions[0];
      AllClosedKeeps(P, ClosedAt(b, 0, if pos.symbol in marks then marks[pos.symbol] else pos.mark, reason, at, c),
                     marks, at, reason, c);
    }
  }
}
