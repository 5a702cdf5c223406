/** Stop replacement, restore, audit and emergency close on the live venue: src/binance/liveBook.ts. */
module LiveBook {
  import opened Common
  import opened SymbolRules

  datatype OrderKind = StopMarket | TakeProfitMarket

  /** A resting closePosition order; `protects` is the side of the position it would close. */
  datatype VenueOrder = VenueOrder(kind: OrderKind, protects: Side, price: real)

  datatype LiveMeta = LiveMeta(side: Side, stopLoss: real, takeProfit: Option<real>, stopOrderId: Option<int>,
                               tpOrderId: Option<int>)

  predicate IsStop(o: VenueOrder, side: Side) {
    o.kind.StopMarket? && o.protects == side
  }

  /** The level a recorded stop has on the exchange: the port rounds it toward the market (client.ts:517-522). */
  function Level(meta: LiveMeta, r: Rules): real
    requires WellFormed(r)
  {
    RoundStopPrice(meta.stopLoss, meta.side, r)
  }

  function StopAt(meta: LiveMeta, stopLoss: real, r: Rules): VenueOrder
    requires WellFormed(r)
  {
    VenueOrder(StopMarket, meta.side, RoundStopPrice(stopLoss, meta.side, r))
  }

  /** The recorded stop order rests at its level. */
  ghost predicate Guards(orders: map<int, VenueOrder>, meta: LiveMeta, r: Rules)
    requires WellFormed(r)
  {
    && meta.stopOrderId.Some? && meta.stopOrderId.value in orders
    && orders[meta.stopOrderId.value] == StopAt(meta, meta.stopLoss, r)
  }

  /** Nobody else has put a stop there: any stop resting for the position is the recorded one. */
  ghost predicate OnlyOwnStops(orders: map<int, VenueOrder>, meta: LiveMeta, r: Rules)
    requires WellFormed(r)
  {
    forall id :: id in orders && IsStop(orders[id], meta.side) ==>
      meta.stopOrderId == Some(id) && orders[id] == StopAt(meta, meta.stopLoss, r)
  }

  /** A stop no looser than `level` rests for the side. */
  ghost predicate Covers(orders: map<int, VenueOrder>, side: Side, level: real) {
    exists id :: id in orders && IsStop(orders[id], side) && NoLooser(side, orders[id].price, level)
  }

  /** Every stop that rested for the side is matched by one at least as tight. */
  ghost predicate KeepsProtection(before: map<int, VenueOrder>, after: map<int, VenueOrder>, side: Side) {
    forall id :: id in before && IsStop(before[id], side) ==> Covers(after, side, before[id].price)
  }

  lemma ProtectionKept(a: map<int, VenueOrder>, b: map<int, VenueOrder>, c: map<int, VenueOrder>, side: Side)
    requires KeepsProtection(a, b, side) && KeepsProtection(b, c, side)
    ensures KeepsProtection(a, c, side)
  {
    forall id | id in a && IsStop(a[id], side) ensures Covers(c, side, a[id].price) {
      var j :| j in b && IsStop(b[j], side) && NoLooser(side, b[j].price, a[id].price);
      assert Covers(c, side, b[j].price);
    }
  }

  /** Nothing of `before` is gone. */
  ghost predicate Extends(before: map<int, VenueOrder>, after: map<int, VenueOrder>) {
    forall id :: id in before ==> id in after && after[id] == before[id]
  }

  lemma ExtendingProtects(before: map<int, VenueOrder>, after: map<int, VenueOrder>, side: Side)
    requires Extends(before, after)
    ensures KeepsProtection(before, after, side)
  {}

  /** Cancelling one stop and placing another protects as well when the other is no looser. */
  lemma SwapProtects(before: map<int, VenueOrder>, after: map<int, VenueOrder>, side: Side, gone: int, next: int)
    requires gone in before && Extends(before - {gone}, after)
    requires next in after && IsStop(after[next], side) && NoLooser(side, after[next].price, before[gone].price)
    ensures KeepsProtection(before, after, side)
  {
    forall id | id in before && IsStop(before[id], side) ensures Covers(after, side, before[id].price) {
      if id != gone {
        assert id in before - {gone};
      }
    }
  }

  /** Nothing is gone, and whatever is new is a copy of one order. */
  ghost predicate AddsCopies(before: map<int, VenueOrder>, after: map<int, VenueOrder>, next: int, order: VenueOrder) {
    Extends(before, after) && forall id :: id in after && id !in before ==> id >= next && after[id] == order
  }

  ghost predicate NoStops(orders: map<int, VenueOrder>, side: Side) {
    forall id :: id in orders ==> !IsStop(orders[id], side)
  }

  /** Of the stops for the side, it is the one listed first. */
  ghost predicate IsFirst(orders: map<int, VenueOrder>, side: Side, listing: int -> int, id: int) {
    && id in orders && IsStop(orders[id], side)
    && forall k :: k in orders && IsStop(orders[k], side) ==> listing(id) <= listing(k)
  }

  ghost predicate Leads(ids: set<int>, listing: int -> int, id: int) {
    id in ids && forall k :: k in ids ==> listing(id) <= listing(k)
  }

  lemma {:induction false} FirstExists(ids: set<int>, some: int, listing: int -> int) returns (first: int)
    requires some in ids
    ensures Leads(ids, listing, first)
    decreases |ids|
  {
    first := some;
    assert forall k :: k in ids ==> k == some || k in ids - {some};
    if other :| other in ids - {some} {
      var next := FirstExists(ids - {some}, other, listing);
      if listing(next) < listing(some) { first := next; }
    }
  }

  lemma GuardIsAStop(orders: map<int, VenueOrder>, meta: LiveMeta, r: Rules)
    requires WellFormed(r)
    ensures Guards(orders, meta, r) ==> !NoStops(orders, meta.side)
  {
    if Guards(orders, meta, r) {
      var id: int := meta.stopOrderId.value;
      assert id in orders && IsStop(orders[id], meta.side);
    }
  }

  /** A reduce-only market order for an emergency close, and whether it came through. */
  datatype Ask = Ask(side: Side, qty: real, taken: bool)

  /**
   * The venue for one symbol. Any call may fail, and the position may be closed at any moment by an order that
   * triggers; while it stays open no order disappears by itself. A failed call changes nothing, except that a call may
   * come through and lose its answer: then an order rests although its placement is reported failed, or is gone
   * although its cancel is. A steady venue loses only the answers of placements and fails nothing else, and nothing
   * triggers on it.
   */
  class Venue {
    const rules: Rules
    const steady: bool
    /** The placements whose answer is lost. */
    const lost: set<int>
    /** The side the position is on while it is open. */
    const held: Side
    /** Where in its answers the venue lists an order. */
    const listing: int -> int
    var size: real
    var orders: map<int, VenueOrder>
    var nextId: int
    /** Emergency market orders sent. */
    ghost var emergencies: nat
    ghost var asked: seq<Ask>
    /** Stops cancelled although the answer said otherwise. */
    ghost var mislaid: nat

    ghost predicate Valid()
      reads this
    {
      && WellFormed(rules) && size >= 0.0 && OnGrid(size, rules.step)
      && (forall i, j :: listing(i) == listing(j) ==> i == j) && emergencies == |asked|
      && (forall id :: id in orders ==>
          id < nextId && (orders[id].kind.StopMarket? ==> OnGrid(orders[id].price, rules.tick)))
    }

    /** A position of this side is open. */
    predicate Holds(side: Side)
      reads this
    {
      size > 0.0 && held == side
    }

    /** The signed amount the venue reports: positive is long. */
    function Amount(): real
      reads this
    {
      if held.Long? then size else -size
    }

    constructor (rules: Rules, steady: bool, lost: set<int>, held: Side, listing: int -> int, size: real)
      requires WellFormed(rules) && size >= 0.0 && OnGrid(size, rules.step)
      requires forall i, j :: listing(i) == listing(j) ==> i == j
      ensures Valid() && this.rules == rules && this.steady == steady && this.lost == lost
      ensures this.held == held && this.listing == listing && this.size == size && orders == map[]
      ensures emergencies == 0 && mislaid == 0
    {
      this.rules, this.steady, this.lost, this.held := rules, steady, lost, held;
      this.listing, this.size := listing, size;
      orders, nextId, emergencies, mislaid, asked := map[], 0, 0, 0, [];
    }

    /** Time passes: an order may trigger and close the position, taking orders with it. */
    method Pass()
      requires Valid()
      modifies this`size, this`orders
      ensures Valid() && (size == 0.0 || (size == old(size) && orders == old(orders)))
      ensures old(size) == 0.0 ==> size == 0.0
      ensures steady ==> size == old(size) && orders == old(orders)
    {
      var strikes: bool := *;
      if strikes && !steady {
        var gone: set<int> := *;
        InUnitsOfUnits(0, rules.step);
        size, orders := 0.0, orders - gone;
      }
    }

    method Cancel(id: int) returns (ok: bool)
      requires Valid()
      modifies this`size, this`orders, this`mislaid
      ensures Valid() && (old(size) == 0.0 ==> size == 0.0)
      ensures size > 0.0 || steady ==>
                && size == old(size) && (orders == old(orders) || orders == old(orders) - {id})
                && (ok ==> orders == old(orders) - {id})
      ensures size > 0.0 && ok ==> id in old(orders)
      ensures steady ==> ok == (id in old(orders)) && (!ok ==> orders == old(orders)) && mislaid == old(mislaid)
      ensures ok ==> mislaid == old(mislaid)
      ensures mislaid == old(mislaid) || mislaid == old(mislaid) + 1
      ensures size > 0.0 && !ok && id in old(orders) && old(orders)[id].kind.StopMarket? ==>
                (mislaid > old(mislaid) <==> id !in orders)
      ensures size > 0.0 && mislaid > old(mislaid) ==> id in old(orders) && old(orders)[id].kind.StopMarket?
    {
      Pass();
      var comesThrough: bool, isAnswered: bool := *, *;
      ok := false;
      if (comesThrough || steady) && id in orders {
        ok := isAnswered || steady;
        if !ok && orders[id].kind.StopMarket? {
          mislaid := mislaid + 1;
        }
        orders := orders - {id};
      }
    }

    method PlaceConditional(kind: OrderKind, protects: Side, stopPrice: real) returns (id: Option<int>)
      requires Valid()
      modifies this`size, this`orders, this`nextId
      ensures Valid() && (old(size) == 0.0 ==> size == 0.0) && nextId >= old(nextId)
      ensures size > 0.0 || steady ==>
                && size == old(size)
                && AddsCopies(old(orders), orders, old(nextId), Asked(kind, protects, stopPrice))
                && (id.Some? ==> id.value in orders && orders[id.value] == Asked(kind, protects, stopPrice))
                && (lost == {} ==> orders == Placed(old(orders), id, kind, protects, stopPrice))
      ensures id.Some? ==> id.value == old(nextId) && nextId == old(nextId) + 1
      ensures steady ==>
                && nextId == old(nextId) + 1 && id == (if old(nextId) in lost then None else Some(old(nextId)))
                && orders == old(orders)[old(nextId) := Asked(kind, protects, stopPrice)]
    {
      Pass();
      var fails: bool := *;
      if fails && !steady {
        return None;
      }
      AskedFits(kind, protects, stopPrice);
      id := if nextId in lost then None else Some(nextId);
      orders := orders[nextId := Asked(kind, protects, stopPrice)];
      nextId := nextId + 1;
    }

    /** What a placement asks for. */
    function Asked(kind: OrderKind, protects: Side, price: real): VenueOrder
      requires WellFormed(rules)
    {
      VenueOrder(kind, protects, Ticked(kind, protects, price))
    }

    lemma AskedFits(kind: OrderKind, protects: Side, price: real)
      requires WellFormed(rules)
      ensures kind.StopMarket? ==> OnGrid(Asked(kind, protects, price).price, rules.tick)
    {
      RoundStopNeverLoosens(price, protects, rules);
    }

    /** A stop rounds toward the market, a target to the nearest tick (client.ts:519). */
    function Ticked(kind: OrderKind, protects: Side, price: real): real
      requires WellFormed(rules)
    {
      if kind.StopMarket? then RoundStopPrice(price, protects, rules) else RoundPrice(price, rules)
    }

    /** The orders after placements whose answers all arrive: at most one more, the one reported. */
    function Placed(before: map<int, VenueOrder>, id: Option<int>, kind: OrderKind, protects: Side, price: real)
        : map<int, VenueOrder>
      requires WellFormed(rules)
    {
      if id.None? then before else before[id.value := Asked(kind, protects, price)]
    }

    method OpenOrders() returns (open: Option<map<int, VenueOrder>>)
      requires Valid()
      modifies this`size, this`orders
      ensures Valid() && (old(size) == 0.0 ==> size == 0.0)
      ensures size > 0.0 || steady ==>
                size == old(size) && orders == old(orders) && (open.Some? ==> open.value == orders)
      ensures steady ==> open.Some?
    {
      Pass();
      var fails: bool := *;
      open := if fails && !steady then None else Some(orders);
    }

    /** The signed amount of the position, 0 when flat. */
    method FetchPosition() returns (amount: Option<real>)
      requires Valid()
      modifies this`size, this`orders
      ensures Valid() && (old(size) == 0.0 ==> size == 0.0)
      ensures size > 0.0 || steady ==> size == old(size) && orders == old(orders)
      ensures amount.Some? ==> amount.value == Amount()
      ensures steady ==> amount.Some?
    {
      Pass();
      var fails: bool := *;
      amount := if fails && !steady then None else Some(Amount());
    }

    /**
     * The reduce-only market order of an emergency close; an oversized or wrong-sided one is rejected and changes
     * nothing.
     */
    method EmergencyReduce(protects: Side, quantity: real)
      requires Valid() && OnGrid(quantity, rules.step) && quantity > 0.0
      modifies this`size, this`orders, this`emergencies, this`asked
      ensures |asked| == |old(asked)| + 1 && old(asked) <= asked && (steady ==> asked[|old(asked)|].taken)
      ensures asked[|old(asked)|] == Ask(protects, quantity, asked[|old(asked)|].taken)
      ensures asked[|old(asked)|].taken && held == protects && quantity == old(size) ==> size == 0.0
      ensures Valid() && emergencies == old(emergencies) + 1 && (old(size) == 0.0 ==> size == 0.0)
      ensures size == 0.0 || size == old(size) || size == old(size) - quantity
      ensures steady && held == protects && quantity <= old(size) ==> size == old(size) - quantity
    {
      var fails: bool := *;
      emergencies, asked := emergencies + 1, asked + [Ask(protects, quantity, !fails || steady)];
      Pass();
      if (!fails || steady) && held == protects && quantity <= size {
        GridDifference(size, quantity, rules.step);
        size := size - quantity;
      }
    }
  }

  lemma GridDifference(a: real, b: real, unit: real)
    requires unit > 0.0 && OnGrid(a, unit) && OnGrid(b, unit)
    ensures OnGrid(a - b, unit)
  {
    var m := GridPoint(a, unit);
    var n := GridPoint(b, unit);
    assert Units(m, unit) - Units(n, unit) == Units(m - n, unit);
    InUnitsOfUnits(m - n, unit);
  }

  lemma WholeLots(x: real, r: Rules)
    requires WellFormed(r) && x > 0.0 && OnGrid(x, r.step)
    ensures x >= r.step
  {
    var n := GridPoint(x, r.step);
    if n <= 0 {
      UnitsMonotone(n, 0, r.step);
    } else {
      UnitsMonotone(1, n, r.step);
    }
  }

  lemma AtLeastOneLot(x: real, r: Rules)
    requires WellFormed(r) && x >= r.step
    ensures RoundQty(x, r) > 0.0
  {
    RoundQtyRoundsDown(x, r);
  }

  datatype AuditResult = Finished | Skipped | Failed

  /** Further toward the market, for the side asked for (liveBook.ts:267). */
  predicate Improves(newStop: real, stopLoss: real, side: Side) {
    (newStop - stopLoss) * Direction(side) > 0.0
  }

  /** The recorded stop after a move that came through. */
  function MovedStop(stopLoss: real, stop: real, side: Side, r: Rules): real
    requires WellFormed(r)
  {
    if Improves(RoundPrice(stop, r), stopLoss, side) then RoundPrice(stop, r) else stopLoss
  }

  class LiveBook {
    const venue: Venue
    const attempts: nat
    /** The symbol's record, if it is managed. */
    var store: Option<LiveMeta>
    /** Last known signed amount. */
    var raw: Option<real>

    /** A cached amount is a real one and a recorded target id was given out by the venue. */
    ghost predicate Valid()
      reads this, venue
    {
      && venue.Valid() && (raw.Some? ==> Abs(raw.value) >= venue.rules.step)
      && (store.Some? && store.value.tpOrderId.Some? ==> store.value.tpOrderId.value < venue.nextId)
    }

    /** While the recorded position is open its size is known, and its recorded target is not a stop. */
    ghost predicate Known()
      reads this, venue
    {
      store.Some? && (venue.Holds(store.value.side) ==>
        && raw.Some?
        && (store.value.tpOrderId.Some? && store.value.tpOrderId.value in venue.orders ==>
              venue.orders[store.value.tpOrderId.value].kind.TakeProfitMarket?))
    }

    /** A stop rests for the recorded position at its recorded level. */
    ghost predicate Rests()
      reads this, venue
      requires venue.Valid()
    {
      store.Some? && Guards(venue.orders, store.value, venue.rules)
    }

    /** While the recorded position is open, its recorded stop rests. */
    ghost predicate Guarded()
      reads this, venue
      requires venue.Valid()
    {
      Known() && (venue.Holds(store.value.side) ==> Rests())
    }

    /** While the recorded position is open, no other stop rests for it. */
    ghost predicate OwnStopsOnly()
      reads this, venue
      requires venue.Valid()
    {
      store.Some? && venue.Holds(store.value.side) ==> OnlyOwnStops(venue.orders, store.value, venue.rules)
    }

    /** The recorded position is open. */
    predicate Open()
      reads this, venue
    {
      store.Some? && venue.Holds(store.value.side)
    }

    /** A recorded target order, if there is one, rests. */
    ghost predicate TargetRests()
      reads this, venue
    {
      store.Some? && (store.value.tpOrderId.Some? ==> store.value.tpOrderId.value in venue.orders)
    }

    /** Every call comes through: an answer may be lost, but not twice in a row, and then the retry comes through. */
    ghost predicate Steady() {
      && venue.steady && attempts > 0
      && (venue.lost == {} || (attempts > 1 && forall m, n :: m in venue.lost && n in venue.lost ==> n != m + 1))
    }

    constructor (venue: Venue, attempts: nat)
      requires venue.Valid()
      ensures Valid() && this.venue == venue && this.attempts == attempts && store.None?
    {
      this.venue, this.attempts, store, raw := venue, attempts, None, None;
    }

    /**
     * liveBook.ts:273-279: tries until one placement is answered. Every order that rested still does, the reported one
     * rests, and any further one is a copy of it whose answer was lost.
     */
    method PlaceWithRetry(kind: OrderKind, protects: Side, stopPrice: real) returns (id: Option<int>)
      requires Valid()
      modifies venue`size, venue`orders, venue`nextId
      ensures Valid() && (old(venue.size) == 0.0 ==> venue.size == 0.0) && venue.nextId >= old(venue.nextId)
      ensures venue.size > 0.0 || venue.steady ==>
                && venue.size == old(venue.size)
                && AddsCopies(old(venue.orders), venue.orders, old(venue.nextId),
                              venue.Asked(kind, protects, stopPrice))
                && (id.Some? ==>
                    id.value in venue.orders && venue.orders[id.value] == venue.Asked(kind, protects, stopPrice))
                && (venue.lost == {} ==> venue.orders == venue.Placed(old(venue.orders), id, kind, protects, stopPrice))
      ensures id.Some? ==> old(venue.nextId) <= id.value < venue.nextId
      ensures Steady() ==>
                && id == Some(if old(venue.nextId) in venue.lost then old(venue.nextId) + 1 else old(venue.nextId))
                && old(venue.nextId) in venue.orders
                && venue.orders[old(venue.nextId)] == venue.Asked(kind, protects, stopPrice)
                && venue.nextId == id.value + 1
    {
      id := None;
      ghost var first := venue.nextId;
      for attempt := 0 to attempts
        invariant Valid() && id.None? && venue.nextId >= first
        invariant old(venue.size) == 0.0 ==> venue.size == 0.0
        invariant venue.size > 0.0 || venue.steady ==>
                    && venue.size == old(venue.size)
                    && AddsCopies(old(venue.orders), venue.orders, first, venue.Asked(kind, protects, stopPrice))
                    && (venue.lost == {} ==> venue.orders == old(venue.orders))
        invariant Steady() ==> attempt <= 1 && venue.nextId == first + attempt
        invariant Steady() && attempt == 1 ==>
                    && first in venue.lost && first in venue.orders
                    && venue.orders[first] == venue.Asked(kind, protects, stopPrice)
      {
        id := venue.PlaceConditional(kind, protects, stopPrice);
        if id.Some? {
          return;
        }
      }
    }

    /** A cached amount is the exchange's while a position is open. */
    predicate CacheIsRight()
      reads this, venue
    {
      venue.size > 0.0 ==> raw == Some(venue.Amount())
    }

    /** Whatever emergency order was sent last asked for the whole position: as it was, or as it was last known. */
    twostate predicate ClosesAll(side: Side)
      reads this, venue
      requires venue.Valid()
    {
      venue.emergencies > old(venue.emergencies) ==>
        var last := venue.asked[|venue.asked| - 1];
        last.side == side && last.qty > 0.0 && (last.qty == old(venue.size) || last.qty == LotsOf(old(raw)))
    }

    /** The position as the exchange shows it or, when that read fails, as it was last known (liveBook.ts:351-354). */
    method LastKnown() returns (held: Option<real>, ghost read: Option<real>)
      requires Valid()
      modifies this`raw, venue`size, venue`orders
      ensures Valid() && held == raw && (old(venue.size) == 0.0 ==> venue.size == 0.0)
      ensures venue.size > 0.0 || venue.steady ==> venue.size == old(venue.size) && venue.orders == old(venue.orders)
      ensures read.None? ==> held == old(raw)
      ensures read.Some? ==>
                && read.value == venue.Amount() && held == if read.value == 0.0 then None else read
      ensures venue.steady ==> read.Some?
    {
      var amount := venue.FetchPosition();
      read := amount;
      if amount.Some? {
        if amount.value != 0.0 {
          WholeLots(venue.size, venue.rules);
        }
        raw := if amount.value != 0.0 then amount else None;
      }
      held := raw;
    }

    /**
     * liveBook.ts:347-361: a sent close asks for what the exchange just said the position is or, when that read fails,
     * for the last known size, rounded down to lots. So when the cache is right, an open position of that side is
     * closed whole or, if the order does not come through, not at all; and when every call comes through it is flat.
     */
    method EmergencyClose(side: Side) returns (sent: bool, ghost read: Option<real>)
      requires Valid()
      modifies this`raw, venue`size, venue`orders, venue`emergencies, venue`asked
      ensures Valid() && venue.emergencies == old(venue.emergencies) + (if sent then 1 else 0)
      ensures old(venue.size) == 0.0 ==> venue.size == 0.0
      ensures read.Some? ==> read.value == 0.0 || read.value == old(venue.Amount())
      ensures sent ==>
                var last := venue.asked[|venue.asked| - 1];
                last.side == side && last.qty == LotsOf(if read.Some? then read else old(raw))
      ensures sent <==> LotsOf(if read.Some? then read else old(raw)) > 0.0
      ensures ClosesAll(side)
      ensures old(venue.Holds(side)) && (read.Some? || old(CacheIsRight())) ==>
                && (venue.size == 0.0 || venue.size == old(venue.size))
                && (sent && venue.asked[|venue.asked| - 1].taken ==> venue.size == 0.0)
      ensures old(CacheIsRight()) ==> CacheIsRight() || venue.emergencies > old(venue.emergencies)
      ensures !sent ==> venue.size == 0.0 || old(raw).None?
      ensures !sent && venue.size > 0.0 ==> venue.size == old(venue.size) && venue.orders == old(venue.orders)
      ensures venue.steady && old(venue.Holds(side)) ==> sent && venue.size == 0.0
    {
      if venue.size > 0.0 {
        RoundQtyKeepsLots(venue.size, venue.rules);
      }
      var held;
      held, read := LastKnown();
      var quantity := if held.Some? then RoundQty(Abs(held.value), venue.rules) else 0.0;
      if held.Some? {
        AtLeastOneLot(Abs(held.value), venue.rules);
        RoundQtyRoundsDown(Abs(held.value), venue.rules);
      }
      sent := quantity > 0.0;
      if sent {
        venue.EmergencyReduce(side, quantity);
      }
    }

    /** A size in whole lots; none when flat or unknown. */
    function LotsOf(amount: Option<real>): real
      reads venue
      requires venue.Valid()
    {
      if amount.None? || amount.value == 0.0 then 0.0 else RoundQty(Abs(amount.value), venue.rules)
    }

    /**
     * From a guarded book, the recorded stop is no looser than `before` and rests, or an emergency close was sent, or a
     * stop was cancelled unnoticed.
     */
    twostate predicate Held(before: LiveMeta)
      reads this, venue
      requires venue.Valid()
    {
      && store.Some? && store.value.side == before.side
      && NoLooser(before.side, Level(store.value, venue.rules), Level(before, venue.rules))
      && (Guarded() || venue.emergencies > old(venue.emergencies) || venue.mislaid > old(venue.mislaid))
    }

    /**
     * While the position stays open, its protection is as tight as before, or an emergency close was sent, or a stop
     * was cancelled unnoticed.
     */
    twostate predicate Protected(side: Side)
      reads this, venue
    {
      venue.Holds(side) ==>
        || KeepsProtection(old(venue.orders), venue.orders, side) || venue.emergencies > old(venue.emergencies)
        || venue.mislaid > old(venue.mislaid)
    }

    /** A stop that was cancelled unnoticed leaves the open position bare, and the record names it still. */
    twostate predicate BareIfMislaid(before: LiveMeta)
      reads this, venue
    {
      venue.mislaid > old(venue.mislaid) && venue.emergencies == old(venue.emergencies) && venue.Holds(before.side) ==>
        && store.Some? && store.value.(takeProfit := before.takeProfit, tpOrderId := before.tpOrderId) == before
        && NoStops(venue.orders, before.side)
    }

    /** From a book whose own stop is the only one, it still is, or an emergency close was sent. */
    twostate predicate Sole()
      reads this, venue
      requires venue.Valid()
    {
      OwnStopsOnly() || venue.emergencies > old(venue.emergencies)
    }

    function WithoutStop(orders: map<int, VenueOrder>, meta: LiveMeta): map<int, VenueOrder> {
      if meta.stopOrderId.Some? then orders - {meta.stopOrderId.value} else orders
    }

    /**
     * Beside the orders that rested, the first one placed does even if its answer was lost; nothing but it and the
     * recorded one is new.
     */
    ghost predicate Renewed(rested: map<int, VenueOrder>, first: int, before: LiveMeta, newStop: real)
      reads this, venue
      requires venue.Valid()
    {
      && Guarded() && store.value.stopLoss == newStop && store.value.side == before.side
      && first in venue.orders && venue.orders[first] == StopAt(before, newStop, venue.rules)
      && (first in venue.lost ==> store.value.stopOrderId != Some(first))
      && Extends(rested, venue.orders)
      && (forall id :: id in venue.orders && id !in rested ==>
            && (id == first || store.value.stopOrderId == Some(id)) && id >= first
            && venue.orders[id] == StopAt(before, newStop, venue.rules))
    }

    /** The stop was replaced, and the position is untouched. */
    twostate predicate Replaced(before: LiveMeta, newStop: real)
      reads this, venue
      requires venue.Valid()
    {
      && venue.size == old(venue.size) && venue.emergencies == old(venue.emergencies)
      && venue.mislaid == old(venue.mislaid)
      && Renewed(WithoutStop(old(venue.orders), before), old(venue.nextId), before, newStop)
    }

    /**
     * liveBook.ts:281-304: cancel, place, restore, close. The record ends at the new level or at the old one; when
     * every call comes through, at the new one. Whatever calls fail and whatever answers are lost, protection never
     * gets looser, unless it is the cancel that comes through and loses its answer: that leaves the position bare.
     */
    method ReplaceStop(meta: LiveMeta, newStop: real)
      requires Valid() && store == Some(meta)
      modifies this, venue
      ensures venue.Valid() && ClosesAll(meta.side)
      ensures venue.mislaid >= old(venue.mislaid)
      ensures Valid() && venue.emergencies >= old(venue.emergencies) && (old(venue.size) == 0.0 ==> venue.size == 0.0)
      ensures venue.nextId >= old(venue.nextId)
      ensures store.Some? && store.value.(stopLoss := meta.stopLoss, stopOrderId := meta.stopOrderId) == meta
      ensures store.value.stopLoss == meta.stopLoss || store.value.stopLoss == newStop
      ensures old(Guarded()) && NoLooser(meta.side, newStop, meta.stopLoss) ==> Held(meta) && Protected(meta.side)
      ensures old(Guarded()) && old(OwnStopsOnly()) && venue.lost == {} ==> Sole() && BareIfMislaid(meta)
      ensures Steady() && old(Guarded()) && old(venue.Holds(meta.side)) ==>
                Replaced(meta, newStop) && (old(TargetRests()) ==> TargetRests())
    {
      if NoLooser(meta.side, newStop, meta.stopLoss) {
        RoundStopKeepsTightness(meta.side, newStop, meta.stopLoss, venue.rules);
      }
      ghost var before := venue.orders;
      if meta.stopOrderId.Some? {
        var ok := venue.Cancel(meta.stopOrderId.value);
        if !ok {
          return;
        }
      }
      PlaceNext(meta, newStop);
      SwapProtectsWhileHeld(before, meta, old(Guarded()) && NoLooser(meta.side, newStop, meta.stopLoss)
                                            && venue.emergencies == old(venue.emergencies));
    }

    /**
     * The second half of a replacement, once the old stop is cancelled: place the new one, or restore the old, or
     * close.
     */
    method PlaceNext(meta: LiveMeta, newStop: real)
      requires Valid() && store == Some(meta)
      modifies this, venue
      ensures venue.Valid() && ClosesAll(meta.side)
      ensures venue.mislaid == old(venue.mislaid)
      ensures Valid() && venue.emergencies >= old(venue.emergencies) && (old(venue.size) == 0.0 ==> venue.size == 0.0)
      ensures venue.nextId >= old(venue.nextId)
      ensures store.Some? && store.value.(stopLoss := meta.stopLoss, stopOrderId := meta.stopOrderId) == meta
      ensures store.value.stopLoss == meta.stopLoss || store.value.stopLoss == newStop
      ensures old(Known()) ==> Guarded() || venue.emergencies > old(venue.emergencies)
      ensures old(Known()) && venue.Holds(meta.side) && venue.emergencies == old(venue.emergencies) ==>
                Extends(old(venue.orders), venue.orders)
      ensures old(Known()) && old(Cleared()) && venue.lost == {} ==> Sole()
      ensures Steady() && old(Known()) && old(venue.Holds(meta.side)) ==>
                && venue.size == old(venue.size) && venue.emergencies == old(venue.emergencies)
                && Renewed(old(venue.orders), old(venue.nextId), meta, newStop)
    {
      var placed := PlaceWithRetry(StopMarket, meta.side, newStop);
      if placed.Some? {
        store := Some(meta.(stopLoss := newStop, stopOrderId := placed));
        return;
      }
      RestoreStop(meta);
    }

    /** What the swap of the recorded stop does to the protection of an open position. */
    lemma SwapProtectsWhileHeld(before: map<int, VenueOrder>, was: LiveMeta, isSwap: bool)
      requires venue.Valid() && store.Some? && store.value.side == was.side
      requires isSwap && venue.Holds(was.side) ==>
                 && Rests() && Guards(before, was, venue.rules)
                 && Extends(before - {was.stopOrderId.value}, venue.orders)
                 && NoLooser(was.side, Level(store.value, venue.rules), Level(was, venue.rules))
      ensures isSwap && venue.Holds(was.side) ==> KeepsProtection(before, venue.orders, was.side)
    {
      if isSwap && venue.Holds(was.side) {
        SwapProtects(before, venue.orders, was.side, was.stopOrderId.value, store.value.stopOrderId.value);
      }
    }

    /** No stop rests for the recorded position while it is open. */
    ghost predicate Cleared()
      reads this, venue
    {
      store.Some? && (venue.Holds(store.value.side) ==> NoStops(venue.orders, store.value.side))
    }

    /** The new stop could not be placed: the old one is restored, or the position closed (liveBook.ts:297-303). */
    method RestoreStop(meta: LiveMeta)
      requires Valid() && store == Some(meta)
      modifies this, venue
      ensures venue.Valid() && ClosesAll(meta.side)
      ensures venue.mislaid == old(venue.mislaid)
      ensures Valid() && venue.emergencies >= old(venue.emergencies) && (old(venue.size) == 0.0 ==> venue.size == 0.0)
      ensures venue.nextId >= old(venue.nextId)
      ensures store.Some? && store.value.(stopOrderId := meta.stopOrderId) == meta
      ensures old(Known()) ==> Guarded() || venue.emergencies > old(venue.emergencies)
      ensures old(Known()) && venue.Holds(meta.side) && venue.emergencies == old(venue.emergencies) ==>
                Extends(old(venue.orders), venue.orders)
      ensures old(Known()) && old(Cleared()) && venue.lost == {} ==> Sole()
    {
      var restored := PlaceWithRetry(StopMarket, meta.side, meta.stopLoss);
      if restored.Some? {
        store := Some(meta.(stopOrderId := restored));
        return;
      }
      var sent, read := EmergencyClose(meta.side);
    }

    function WithoutTarget(orders: map<int, VenueOrder>, meta: LiveMeta, isDropped: bool): map<int, VenueOrder> {
      if isDropped && meta.tpOrderId.Some? then orders - {meta.tpOrderId.value} else orders
    }

    /** liveBook.ts:306-313: the record drops its target exactly when its order, if any, was cancelled and said so. */
    method DropTarget(meta: LiveMeta)
      requires Valid() && store == Some(meta)
      modifies this`store, venue`size, venue`orders, venue`mislaid
      ensures Valid() && (store == Some(meta) || store == Some(meta.(takeProfit := None, tpOrderId := None)))
      ensures old(Guarded()) ==> Guarded() && (old(OwnStopsOnly()) ==> OwnStopsOnly())
      ensures old(venue.size) == 0.0 ==> venue.size == 0.0
      ensures venue.size > 0.0 || venue.steady ==>
                && venue.size == old(venue.size)
                && (store != Some(meta) ==> venue.orders == WithoutTarget(old(venue.orders), meta, true))
                && (venue.orders == old(venue.orders) || venue.orders == WithoutTarget(old(venue.orders), meta, true))
      ensures venue.mislaid >= old(venue.mislaid)
      ensures old(Guarded()) && venue.size > 0.0 && venue.held == meta.side ==> venue.mislaid == old(venue.mislaid)
      ensures venue.steady ==> venue.mislaid == old(venue.mislaid)
      ensures venue.steady && (meta.tpOrderId.Some? ==> meta.tpOrderId.value in old(venue.orders)) ==>
                store == Some(meta.(takeProfit := None, tpOrderId := None))
    {
      if meta.tpOrderId.Some? {
        var ok := venue.Cancel(meta.tpOrderId.value);
        if !ok {
          return;
        }
      }
      store := Some(meta.(takeProfit := None, tpOrderId := None));
    }

    lemma DroppingProtects(before: map<int, VenueOrder>, after: map<int, VenueOrder>, meta: LiveMeta, isDropped: bool)
      requires after == WithoutTarget(before, meta, isDropped)
      requires meta.tpOrderId.Some? && meta.tpOrderId.value in before ==>
                 before[meta.tpOrderId.value].kind.TakeProfitMarket?
      ensures KeepsProtection(before, after, meta.side)
    {
      forall id | id in before && IsStop(before[id], meta.side) ensures Covers(after, meta.side, before[id].price) {
        assert id in after && after[id] == before[id];
      }
    }

    /**
     * The first half of a move: replace the stop if the new one is further toward the market, for the side asked for.
     */
    method MoveStop(current: LiveMeta, newStop: real, side: Side)
      requires Valid() && store == Some(current)
      modifies this, venue
      ensures venue.Valid() && ClosesAll(current.side)
      ensures venue.mislaid >= old(venue.mislaid)
      ensures Valid() && venue.emergencies >= old(venue.emergencies) && (old(venue.size) == 0.0 ==> venue.size == 0.0)
      ensures store.Some? && store.value.(stopLoss := current.stopLoss, stopOrderId := current.stopOrderId) == current
      ensures old(Guarded()) && current.side == side ==> Held(current) && Protected(side)
      ensures old(Guarded()) && old(OwnStopsOnly()) && venue.lost == {} ==> Sole() && BareIfMislaid(current)
      ensures Steady() && old(Guarded()) && old(Open()) && Improves(newStop, current.stopLoss, side) ==>
                Replaced(current, newStop) && (old(TargetRests()) ==> TargetRests())
      ensures !Improves(newStop, current.stopLoss, side) ==> unchanged(this) && unchanged(venue)
    {
      if Improves(newStop, current.stopLoss, side) {
        ReplaceStop(current, newStop);
      } else if Guarded() && current.side == side {
        ExtendingProtects(venue.orders, venue.orders, side);
      }
    }

    /**
     * `updateStops` inside the lock (liveBook.ts:254-271). For the side the position is on, the recorded stop never
     * loosens, and afterwards it rests, or an emergency close was sent, or the cancel lost its answer. When every call
     * comes through, the record and the exchange carry the new stop if it improves the old one, and no target if none
     * is asked for.
     */
    method UpdateStops(stop: real, target: Option<real>, side: Side)
      requires Valid()
      modifies this, venue
      ensures venue.Valid() && (old(store).Some? ==> ClosesAll(old(store).value.side))
      ensures venue.mislaid >= old(venue.mislaid)
      ensures Valid() && venue.emergencies >= old(venue.emergencies) && (old(venue.size) == 0.0 ==> venue.size == 0.0)
      ensures old(Guarded()) && old(store).value.side == side ==> Held(old(store).value) && Protected(side)
      ensures old(Guarded()) && old(OwnStopsOnly()) && venue.lost == {} ==>
                Sole() && (old(store).value.side == side ==> BareIfMislaid(old(store).value))
      ensures old(store).None? ==> unchanged(this) && unchanged(venue)
      ensures Steady() && old(Guarded()) && old(Open()) ==> Moved(old(store).value, stop, target, side)
    {
      if store.None? {
        return;
      }
      var current := store.value;
      MoveStop(current, RoundPrice(stop, venue.rules), side);
      if target.None? && current.takeProfit.Some? {
        ghost var between, known := venue.orders, Guarded();
        ForgetTarget(store.value);
        if known && venue.Holds(side) && current.side == side && KeepsProtection(old(venue.orders), between, side) {
          ProtectionKept(old(venue.orders), between, venue.orders, side);
        }
      }
    }

    /** The second half of a move: no target is asked for any more. */
    method ForgetTarget(meta: LiveMeta)
      requires Valid() && store == Some(meta)
      modifies this`store, venue`size, venue`orders, venue`mislaid
      ensures Valid() && (store == Some(meta) || store == Some(meta.(takeProfit := None, tpOrderId := None)))
      ensures old(Guarded()) ==> Guarded() && (old(OwnStopsOnly()) ==> OwnStopsOnly())
      ensures old(OwnStopsOnly()) ==> OwnStopsOnly()
      ensures old(venue.size) == 0.0 ==> venue.size == 0.0
      ensures venue.size > 0.0 || venue.steady ==> venue.size == old(venue.size)
      ensures venue.mislaid >= old(venue.mislaid)
      ensures old(Guarded()) && venue.Holds(meta.side) ==>
                venue.mislaid == old(venue.mislaid) && KeepsProtection(old(venue.orders), venue.orders, meta.side)
      ensures venue.Holds(meta.side) && NoStops(old(venue.orders), meta.side) ==> NoStops(venue.orders, meta.side)
      ensures venue.steady ==> venue.mislaid == old(venue.mislaid)
      ensures venue.steady && (meta.tpOrderId.Some? ==> meta.tpOrderId.value in old(venue.orders)) ==>
                store == Some(meta.(takeProfit := None, tpOrderId := None))
    {
      ghost var before, known := venue.orders, Guarded();
      DropTarget(meta);
      if known && venue.Holds(meta.side) {
        DroppingProtects(before, venue.orders, meta, venue.orders != before);
      }
    }

    /** The outcome of a move in which every call came through. */
    twostate predicate Moved(before: LiveMeta, stop: real, target: Option<real>, side: Side)
      reads this, venue
      requires venue.Valid()
    {
      && Guarded() && venue.size == old(venue.size) && venue.emergencies == old(venue.emergencies)
      && venue.mislaid == old(venue.mislaid) && store.value.side == before.side
      && store.value.stopLoss == MovedStop(before.stopLoss, stop, side, venue.rules)
      && (target.Some? || before.takeProfit.None? ==>
            && store.value.takeProfit == before.takeProfit && store.value.tpOrderId == before.tpOrderId
            && (Improves(RoundPrice(stop, venue.rules), before.stopLoss, side) ==>
                  Replaced(before, RoundPrice(stop, venue.rules))))
      && (target.None? && old(TargetRests()) ==> store.value.takeProfit.None?)
    }

    /** A new entry's record replaces the symbol's old one once its protective orders rest (liveBook.ts:153-172). */
    method RecordEntry(entry: LiveMeta)
      requires Valid() && (entry.tpOrderId.Some? ==> entry.tpOrderId.value < venue.nextId)
      modifies this`store
      ensures Valid() && store == Some(entry)
    {
      store := Some(entry);
    }

    /** The exit-side stop that the snapshot lists first, if there is one. */
    method FindStop(open: map<int, VenueOrder>, side: Side) returns (id: Option<int>)
      ensures id.Some? ==> IsFirst(open, side, venue.listing, id.value)
      ensures id.None? ==> NoStops(open, side)
    {
      var stops := set k | k in open && IsStop(open[k], side);
      if some :| some in stops {
        ghost var leading := FirstExists(stops, some, venue.listing);
        var first :| first in stops && forall k :: k in stops ==> venue.listing(first) <= venue.listing(k);
        assert forall k :: k in open && IsStop(open[k], side) ==> k in stops;
        id := Some(first);
      } else {
        assert forall k :: k in open && IsStop(open[k], side) ==> k in stops;
        id := None;
      }
    }

    /**
     * No stop was seen: confirm the position, then re-place its stop or close it (liveBook.ts:328-340). A position
     * that is gone or on the other side is forgotten.
     */
    method Reprotect(meta: LiveMeta) returns (result: AuditResult)
      requires Valid() && store == Some(meta)
      modifies this`store, this`raw, venue
      ensures venue.Valid() && ClosesAll(meta.side)
      ensures venue.mislaid == old(venue.mislaid)
      ensures Valid() && venue.emergencies >= old(venue.emergencies) && (old(venue.size) == 0.0 ==> venue.size == 0.0)
      ensures venue.Holds(meta.side) ==> store.Some? && store.value.(stopOrderId := meta.stopOrderId) == meta
      ensures result.Finished? && venue.Holds(meta.side) ==> Rests() || venue.emergencies > old(venue.emergencies)
      ensures !result.Finished? ==> store == Some(meta) && (venue.size > 0.0 ==> venue.orders == old(venue.orders))
      ensures result.Finished? && !old(venue.Holds(meta.side)) ==> store.None?
      ensures Steady() ==>
                result.Finished? && venue.size == old(venue.size) && venue.emergencies == old(venue.emergencies)
      ensures Steady() && old(venue.Holds(meta.side)) ==> Rests()
    {
      var amount := venue.FetchPosition();
      if amount.None? {
        return Failed;
      }
      if amount.value != 0.0 {
        WholeLots(venue.size, venue.rules);
        RoundQtyKeepsLots(venue.size, venue.rules);
      }
      raw := if amount.value == 0.0 then None else amount;
      if amount.value == 0.0 || (amount.value > 0.0) != meta.side.Long? {
        store := None;
        return Finished;
      }
      var placed := PlaceWithRetry(StopMarket, meta.side, meta.stopLoss);
      if placed.Some? {
        store := Some(meta.(stopOrderId := placed));
        return Finished;
      }
      var sent, read := EmergencyClose(meta.side);
      result := Finished;
    }

    /**
     * `auditProtection` inside the lock (liveBook.ts:315-341). When it runs to its end on a position
     * that is still open, a stop rests at the level recorded before or an emergency close was sent, even
     * if none rested when it began; when a read fails it changes nothing. With no stop resting and every call coming
     * through, a position that is gone or flipped is forgotten. A guarded book's orders are left alone, and the record
     * follows the stop that was listed first.
     */
    method Audit() returns (result: AuditResult, ghost adopted: Option<int>)
      requires Valid()
      modifies this`store, this`raw, venue
      ensures venue.Valid() && (old(store).Some? ==> ClosesAll(old(store).value.side))
      ensures venue.mislaid == old(venue.mislaid)
      ensures Valid() && venue.emergencies >= old(venue.emergencies) && (old(venue.size) == 0.0 ==> venue.size == 0.0)
      ensures old(store).Some? && old(OwnStopsOnly()) && venue.Holds(old(store).value.side) ==>
                AuditKept(old(store).value, result)
      ensures old(Guarded()) && venue.Holds(old(store).value.side) ==> Followed(old(store).value, result, adopted)
      ensures Steady() && old(store).Some? ==>
                && result.Finished? && venue.size == old(venue.size) && venue.emergencies == old(venue.emergencies)
                && (old(NoStops(venue.orders, store.value.side)) && !venue.Holds(old(store).value.side) ==> store.None?)
    {
      adopted := None;
      if store.None? {
        return Finished, adopted;
      }
      var meta := store.value;
      var open := venue.OpenOrders();
      if open.None? {
        return Skipped, adopted;
      }
      result, adopted := ActOn(meta, open.value);
    }

    /** The audit once its snapshot is read: adopt the stop it shows, or protect the position again. */
    method ActOn(meta: LiveMeta, open: map<int, VenueOrder>) returns (result: AuditResult, ghost adopted: Option<int>)
      requires Valid() && store == Some(meta) && (venue.size > 0.0 || venue.steady ==> open == venue.orders)
      modifies this`store, this`raw, venue
      ensures venue.Valid() && ClosesAll(meta.side)
      ensures venue.mislaid == old(venue.mislaid)
      ensures Valid() && venue.emergencies >= old(venue.emergencies) && (old(venue.size) == 0.0 ==> venue.size == 0.0)
      ensures old(OwnStopsOnly()) && venue.Holds(meta.side) ==> AuditKept(meta, result)
      ensures old(Guarded()) && venue.Holds(meta.side) ==> Followed(meta, result, adopted)
      ensures Steady() ==>
                && result.Finished? && venue.size == old(venue.size) && venue.emergencies == old(venue.emergencies)
                && (NoStops(open, meta.side) && !venue.Holds(meta.side) ==> store.None?)
    {
      var found := FindStop(open, meta.side);
      adopted := found;
      if found.Some? {
        Adopt(meta, found.value, open[found.value]);
        return Finished, adopted;
      }
      GuardIsAStop(open, meta, venue.rules);
      result := Reprotect(meta);
    }

    /** What an audit that began with only the bot's own stops leaves on an open position. */
    twostate predicate AuditKept(before: LiveMeta, new result: AuditResult)
      reads this, venue
      requires venue.Valid()
    {
      && store.Some? && store.value.side == before.side
      && Level(store.value, venue.rules) == Level(before, venue.rules)
      && (result.Finished? ==> Rests() || venue.emergencies > old(venue.emergencies))
      && (!result.Finished? ==> store.value == before && venue.orders == old(venue.orders))
    }

    /**
     * What an audit of a guarded book leaves on an open position: its orders, and the record of the stop it adopted.
     */
    twostate predicate Followed(before: LiveMeta, result: AuditResult, new adopted: Option<int>)
      reads this, venue
      requires venue.Valid()
    {
      && Guarded() && venue.orders == old(venue.orders) && venue.emergencies == old(venue.emergencies)
      && (result.Finished? <==> adopted.Some?) && (adopted.None? ==> store == Some(before))
      && (adopted.Some? ==>
            && IsFirst(venue.orders, before.side, venue.listing, adopted.value)
            && store == Some(Adopted(before, adopted.value, venue.orders[adopted.value]))
            && Level(store.value, venue.rules) == venue.orders[adopted.value].price)
    }

    function Adopted(meta: LiveMeta, id: int, stop: VenueOrder): LiveMeta {
      meta.(stopOrderId := Some(id), stopLoss := stop.price)
    }

    /** The exchange is the truth: the record follows the stop that rests (liveBook.ts:323-327). */
    method Adopt(meta: LiveMeta, id: int, stop: VenueOrder)
      requires Valid() && store == Some(meta)
      modifies this`store
      ensures Valid() && store == Some(Adopted(meta, id, stop))
      ensures id in venue.orders && venue.orders[id] == stop && IsStop(stop, meta.side) ==>
                && Rests() && Level(store.value, venue.rules) == stop.price && (old(Guarded()) ==> Guarded())
                && (OnlyOwnStops(venue.orders, meta, venue.rules) ==> AuditKept(meta, Finished))
    {
      if OnGrid(stop.price, venue.rules.tick) {
        RoundStopKeepsTicks(stop.price, meta.side, venue.rules);
      }
      if meta.stopOrderId != Some(id) || stop.price != meta.stopLoss {
        store := Some(Adopted(meta, id, stop));
      }
    }
  }

  lemma RoundStopTwice(meta: LiveMeta, r: Rules)
    requires WellFormed(r)
    ensures RoundStopPrice(Level(meta, r), meta.side, r) == Level(meta, r)
  {
    RoundStopNeverLoosens(meta.stopLoss, meta.side, r);
    RoundStopKeepsTicks(Level(meta, r), meta.side, r);
  }

  // ----- queues of tasks on one symbol -----

  datatype Task = Move(stop: real, target: Option<real>) | Audit

  /** The recorded stop after a task that came through, while the position is open. */
  function StopAfter(stopLoss: real, side: Side, task: Task, r: Rules): real
    requires WellFormed(r)
  {
    match task
    case Move(stop, target) => MovedStop(stopLoss, stop, side, r)
    case Audit => RoundStopPrice(stopLoss, side, r)
  }

  function StopAfterAll(stopLoss: real, side: Side, tasks: seq<Task>, n: nat, r: Rules): real
    requires WellFormed(r) && n <= |tasks|
  {
    if n == 0 then stopLoss else StopAfter(StopAfterAll(stopLoss, side, tasks, n - 1, r), side, tasks[n - 1], r)
  }

  /** What every call coming through amounts to: the level of the stop honours every move that was asked for. */
  lemma {:induction false} EveryMoveIsHonoured(stopLoss: real, side: Side, tasks: seq<Task>, n: nat, k: nat, r: Rules)
    requires WellFormed(r) && k < n <= |tasks| && tasks[k].Move?
    ensures NoLooser(side, RoundStopPrice(StopAfterAll(stopLoss, side, tasks, n, r), side, r),
                     RoundPrice(tasks[k].stop, r))
  {
    var before := StopAfterAll(stopLoss, side, tasks, n - 1, r);
    var after := StopAfterAll(stopLoss, side, tasks, n, r);
    if k == n - 1 {
      RoundPriceIsNearestTick(tasks[k].stop, r);
      RoundStopKeepsTicks(RoundPrice(tasks[k].stop, r), side, r);
      RoundStopKeepsTightness(side, after, RoundPrice(tasks[k].stop, r), r);
    } else {
      EveryMoveIsHonoured(stopLoss, side, tasks, n - 1, k, r);
      TaskNeverLoosens(before, side, tasks[n - 1], r);
    }
  }

  /** A task that comes through never loosens the level the stop has on the exchange. */
  lemma TaskNeverLoosens(stopLoss: real, side: Side, task: Task, r: Rules)
    requires WellFormed(r)
    ensures NoLooser(side, RoundStopPrice(StopAfter(stopLoss, side, task, r), side, r),
                     RoundStopPrice(stopLoss, side, r))
  {
    if task.Move? {
      RoundStopKeepsTightness(side, StopAfter(stopLoss, side, task, r), stopLoss, r);
    } else {
      RoundStopNeverLoosens(stopLoss, side, r);
      RoundStopKeepsTicks(RoundStopPrice(stopLoss, side, r), side, r);
    }
  }

  /** With nobody else's stop resting, the stop an audit adopts is the recorded one, at its recorded level. */
  lemma AdoptedIsOwn(orders: map<int, VenueOrder>, meta: LiveMeta, id: int, r: Rules)
    requires WellFormed(r) && OnlyOwnStops(orders, meta, r) && id in orders && IsStop(orders[id], meta.side)
    ensures orders[id].price == Level(meta, r)
    ensures OnlyOwnStops(orders, meta.(stopOrderId := Some(id), stopLoss := orders[id].price), r)
  {
    RoundStopTwice(meta, r);
  }

  /** The book is still guarded, for a position protected at least as tightly as before. */
  twostate predicate Carried(book: LiveBook, before: LiveMeta)
    reads book, book.venue
    requires book.venue.Valid()
  {
    && book.Guarded() && book.store.value.side == before.side
    && KeepsProtection(old(book.venue.orders), book.venue.orders, before.side)
  }

  /** Its own stop is still the only one, and no looser than it was. */
  ghost predicate Tightened(book: LiveBook, before: LiveMeta)
    reads book, book.venue
    requires book.venue.Valid()
  {
    && book.store.Some? && book.OwnStopsOnly()
    && NoLooser(before.side, Level(book.store.value, book.venue.rules), Level(before, book.venue.rules))
  }

  /** The position is still open and no emergency close was sent. */
  twostate predicate Calm(book: LiveBook, side: Side)
    reads book, book.venue
  {
    && book.venue.Holds(side) && book.venue.emergencies == old(book.venue.emergencies)
    && book.venue.mislaid == old(book.venue.mislaid)
  }

  /**
   * Main result: over any queue of serialised updates and audits on one position, in any order, whatever calls fail
   * and whatever answers are lost, as long as the position stays open, no emergency close had to be sent and no stop
   * was cancelled unnoticed, the recorded stop rests after every task and the exchange protects the position at least
   * as tightly as at the start. When nobody else placed a stop and no answer is lost, the recorded stop itself never
   * loosens, and when every call comes through it is exactly the stop the tasks ask for.
   */
  method RunQueue(book: LiveBook, tasks: seq<Task>)
    requires book.Valid() && book.Guarded()
    modifies book, book.venue
    ensures book.Valid()
    ensures Calm(book, old(book.store).value.side) ==> book.Rests() && Carried(book, old(book.store).value)
    ensures old(book.OwnStopsOnly()) && book.venue.lost == {} && Calm(book, old(book.store).value.side) ==>
              Tightened(book, old(book.store).value)
    ensures book.Steady() && old(book.Open()) && old(book.OwnStopsOnly()) && book.venue.lost == {} ==>
              book.store.Some? && var before := old(book.store).value;
              book.store.value.stopLoss == StopAfterAll(before.stopLoss, before.side, tasks, |tasks|, book.venue.rules)
  {
    ghost var start, isSole := book.store.value, book.OwnStopsOnly() && book.venue.lost == {};
    ghost var orders := book.venue.orders;
    ExtendingProtects(orders, orders, start.side);
    for i := 0 to |tasks|
      invariant book.Valid() && book.venue.emergencies >= old(book.venue.emergencies)
      invariant book.venue.mislaid >= old(book.venue.mislaid)
      invariant Calm(book, start.side) ==>
                  && book.Guarded() && book.store.value.side == start.side
                  && KeepsProtection(orders, book.venue.orders, start.side)
      invariant isSole && Calm(book, start.side) ==> Tightened(book, start)
      invariant book.Steady() && old(book.Open()) && isSole ==>
                  && Calm(book, start.side)
                  && book.store.value.stopLoss == StopAfterAll(start.stopLoss, start.side, tasks, i, book.venue.rules)
    {
      ghost var between := book.venue.orders;
      RunTask(book, tasks[i]);
      if Calm(book, start.side) {
        ProtectionKept(orders, between, book.venue.orders, start.side);
      }
    }
  }

  /** One task of the queue, on the position the queue began with. */
  method RunTask(book: LiveBook, task: Task)
    requires book.Valid()
    modifies book, book.venue
    ensures book.venue.mislaid >= old(book.venue.mislaid)
    ensures book.Valid() && book.venue.emergencies >= old(book.venue.emergencies)
    ensures old(book.venue.size) == 0.0 ==> book.venue.size == 0.0
    ensures old(book.Guarded()) && Calm(book, old(book.store).value.side) ==> Carried(book, old(book.store).value)
    ensures old(book.Guarded()) && old(book.OwnStopsOnly()) && book.venue.lost == {}
            && Calm(book, old(book.store).value.side) ==>
              Tightened(book, old(book.store).value)
    ensures book.Steady() && old(book.Guarded()) && old(book.OwnStopsOnly()) && book.venue.lost == {}
            && old(book.Open()) ==>
              && Calm(book, old(book.store).value.side) && book.store.Some?
              && book.store.value.stopLoss == StopAfter(old(book.store).value.stopLoss, old(book.store).value.side,
                                                        task,
                                                        book.venue.rules)
  {
    match task {
      case Move(stop, target) => RunMove(book, stop, target);
      case Audit => RunAudit(book);
    }
  }

  method RunMove(book: LiveBook, stop: real, target: Option<real>)
    requires book.Valid()
    modifies book, book.venue
    ensures book.venue.mislaid >= old(book.venue.mislaid)
    ensures book.Valid() && book.venue.emergencies >= old(book.venue.emergencies)
    ensures old(book.venue.size) == 0.0 ==> book.venue.size == 0.0
    ensures old(book.Guarded()) && Calm(book, old(book.store).value.side) ==> Carried(book, old(book.store).value)
    ensures old(book.Guarded()) && old(book.OwnStopsOnly()) && book.venue.lost == {}
            && Calm(book, old(book.store).value.side) ==>
              Tightened(book, old(book.store).value)
    ensures book.Steady() && old(book.Guarded()) && old(book.OwnStopsOnly()) && book.venue.lost == {}
            && old(book.Open()) ==>
              && Calm(book, old(book.store).value.side) && book.store.Some?
              && book.store.value.stopLoss == MovedStop(old(book.store).value.stopLoss, stop,
                                                        old(book.store).value.side, book.venue.rules)
  {
    var side := if book.store.Some? then book.store.value.side else Long;
    book.UpdateStops(stop, target, side);
  }

  method RunAudit(book: LiveBook)
    requires book.Valid()
    modifies book, book.venue
    ensures book.venue.mislaid >= old(book.venue.mislaid)
    ensures book.Valid() && book.venue.emergencies >= old(book.venue.emergencies)
    ensures old(book.venue.size) == 0.0 ==> book.venue.size == 0.0
    ensures old(book.Guarded()) && Calm(book, old(book.store).value.side) ==> Carried(book, old(book.store).value)
    ensures old(book.Guarded()) && old(book.OwnStopsOnly()) && Calm(book, old(book.store).value.side) ==>
              Tightened(book, old(book.store).value)
    ensures book.Steady() && old(book.Guarded()) && old(book.OwnStopsOnly()) && old(book.Open()) ==>
              && Calm(book, old(book.store).value.side) && book.store.Some?
              && book.store.value.stopLoss == Level(old(book.store).value, book.venue.rules)
  {
    ghost var orders, guarded, sole := book.venue.orders, book.Guarded(), book.OwnStopsOnly();
    ghost var before := book.store;
    var result, adopted := book.Audit();
    if guarded && Calm(book, before.value.side) {
      ExtendingProtects(orders, orders, before.value.side);
      if sole && adopted.Some? {
        AdoptedIsOwn(orders, before.value, adopted.value, book.venue.rules);
      }
    }
  }

  // ----- where the promise ends -----

  /**
   * A move still queued when its position was flipped and the new entry recorded: it is judged by the side it was
   * asked for, so it goes through if and only if it is further from the market than the new position's stop, which it
   * then replaces.
   */
  method MoveAfterFlip(book: LiveBook, entry: LiveMeta, stop: real, target: Option<real>, asked: Side)
    requires book.Valid() && book.Steady() && book.raw.Some? && book.venue.Holds(entry.side) && asked != entry.side
    requires Guards(book.venue.orders, entry, book.venue.rules)
    requires entry.tpOrderId.Some? ==>
               && entry.tpOrderId.value in book.venue.orders
               && book.venue.orders[entry.tpOrderId.value].kind.TakeProfitMarket?
    modifies book, book.venue
    ensures book.Valid() && book.Guarded() && book.Open() && book.store.value.side == entry.side
    ensures var asksFor := RoundPrice(stop, book.venue.rules);
            && (Improves(asksFor, entry.stopLoss, asked) <==>
                !NoLooser(entry.side, book.store.value.stopLoss, entry.stopLoss))
            && book.store.value.stopLoss == if Improves(asksFor, entry.stopLoss, asked) then asksFor else entry.stopLoss
    ensures OnGrid(entry.stopLoss, book.venue.rules.tick) ==>
              (!NoLooser(entry.side, Level(book.store.value, book.venue.rules), Level(entry, book.venue.rules)) <==>
               Improves(RoundPrice(stop, book.venue.rules), entry.stopLoss, asked))
  {
    book.RecordEntry(entry);
    book.UpdateStops(stop, target, asked);
    RoundPriceIsNearestTick(stop, book.venue.rules);
    RoundStopKeepsTicks(RoundPrice(stop, book.venue.rules), entry.side, book.venue.rules);
    if OnGrid(entry.stopLoss, book.venue.rules.tick) {
      RoundStopKeepsTicks(entry.stopLoss, entry.side, book.venue.rules);
    }
  }

  /**
   * A move whose cancel comes through and loses its answer gives up with the old stop gone (liveBook.ts:284-288): while
   * no emergency close was sent, the open position is left without any stop exactly then, and its record still names
   * one. The next audit that runs to its end puts a stop back, no looser than the one before the move.
   */
  method RepairLostCancel(book: LiveBook, stop: real, target: Option<real>)
      returns (result: AuditResult, ghost isBare: bool)
    requires book.Valid() && book.Guarded() && book.Open() && book.OwnStopsOnly() && book.venue.lost == {}
    modifies book, book.venue
    ensures book.Valid() && book.venue.emergencies >= old(book.venue.emergencies)
    ensures var before := old(book.store).value;
            book.venue.Holds(before.side) && book.venue.emergencies == old(book.venue.emergencies) ==>
              (isBare <==> book.venue.mislaid > old(book.venue.mislaid))
    ensures var before := old(book.store).value;
            book.venue.Holds(before.side) && result.Finished? ==>
              || book.venue.emergencies > old(book.venue.emergencies)
              || (book.Rests() && book.store.value.side == before.side
                  && NoLooser(before.side, Level(book.store.value, book.venue.rules), Level(before, book.venue.rules)))
  {
    ghost var side, rules := book.store.value.side, book.venue.rules;
    book.UpdateStops(stop, target, book.store.value.side);
    isBare := NoStops(book.venue.orders, side);
    if book.store.Some? {
      GuardIsAStop(book.venue.orders, book.store.value, rules);
    }
    ghost var adopted;
    result, adopted := book.Audit();
  }

  /** Two moves, the first of which loses an answer, have come through on the open position. */
  ghost predicate LeavesOrphan(book: LiveBook, orphan: int, side: Side, first: real, second: real)
    reads book, book.venue
    requires book.venue.Valid()
  {
    && book.Guarded() && book.Open() && book.store.value.side == side && book.store.value.takeProfit.None?
    && orphan in book.venue.orders && book.venue.orders[orphan] == VenueOrder(StopMarket, side, first)
    && Level(book.store.value, book.venue.rules) == second
  }

  /** Besides the orphan, only stops at the level of the second move rest. */
  ghost predicate OthersAt(orders: map<int, VenueOrder>, side: Side, orphan: int, second: real) {
    forall id :: id in orders && IsStop(orders[id], side) && id != orphan ==> orders[id].price == second
  }

  /** One move on a steady venue, of a position that has no target. */
  method MoveOnce(book: LiveBook, stop: real)
    requires book.Valid() && book.Steady() && book.Guarded() && book.Open() && book.store.value.takeProfit.None?
    requires Improves(RoundPrice(stop, book.venue.rules), book.store.value.stopLoss, book.store.value.side)
    modifies book, book.venue
    ensures book.Valid() && book.Guarded() && book.Open()
    ensures book.store.value.side == old(book.store).value.side && book.store.value.takeProfit.None?
    ensures KeepsProtection(old(book.venue.orders), book.venue.orders, book.store.value.side)
    ensures book.Replaced(old(book.store).value, RoundPrice(stop, book.venue.rules))
    ensures Level(book.store.value, book.venue.rules) == RoundPrice(stop, book.venue.rules)
    ensures StopAt(old(book.store).value, RoundPrice(stop, book.venue.rules), book.venue.rules)
            == VenueOrder(StopMarket, book.store.value.side, RoundPrice(stop, book.venue.rules))
  {
    RoundPriceIsNearestTick(stop, book.venue.rules);
    RoundStopKeepsTicks(RoundPrice(stop, book.venue.rules), book.store.value.side, book.venue.rules);
    book.UpdateStops(stop, None, book.store.value.side);
  }

  method LeaveOrphan(book: LiveBook, first: real, second: real) returns (ghost orphan: int)
    requires book.Valid() && book.Steady() && book.Guarded() && book.Open() && book.store.value.takeProfit.None?
    requires book.venue.nextId in book.venue.lost
    requires var side, r := book.store.value.side, book.venue.rules;
             && Improves(RoundPrice(first, r), book.store.value.stopLoss, side)
             && Improves(RoundPrice(second, r), RoundPrice(first, r), side)
    modifies book, book.venue
    ensures book.Valid()
    ensures LeavesOrphan(book, orphan, old(book.store).value.side, RoundPrice(first, book.venue.rules),
                         RoundPrice(second, book.venue.rules))
    ensures old(book.OwnStopsOnly()) ==>
              OthersAt(book.venue.orders, book.store.value.side, orphan, RoundPrice(second, book.venue.rules))
    ensures KeepsProtection(old(book.venue.orders), book.venue.orders, old(book.store).value.side)
  {
    orphan := book.venue.nextId;
    ghost var start := book.venue.orders;
    MoveOnce(book, first);
    assert book.venue.orders[orphan] ==
           VenueOrder(StopMarket, book.store.value.side, RoundPrice(first, book.venue.rules));
    assert book.store.value.stopOrderId != Some(orphan);
    ghost var between := book.venue.orders;
    MoveOnce(book, second);
    ProtectionKept(start, between, book.venue.orders, book.store.value.side);
  }

  /**
   * A lost answer leaves an orphan: the first of two moves places its stop twice and records the second, so the orphan
   * still rests when the next move has gone further. The audit adopts the stop the venue lists first. If nobody else's
   * stops rested before the moves, it loosens the record if and only if the orphan is listed first; the exchange keeps
   * the tighter one, so the position stays as protected as it was.
   */
  method AdoptingAnOrphan(book: LiveBook, first: real, second: real)
      returns (ghost orphan: int, ghost adopted: Option<int>)
    requires book.Valid() && book.Steady() && book.Guarded() && book.Open() && book.store.value.takeProfit.None?
    requires book.venue.nextId in book.venue.lost
    requires var side, r := book.store.value.side, book.venue.rules;
             && Improves(RoundPrice(first, r), book.store.value.stopLoss, side)
             && Improves(RoundPrice(second, r), RoundPrice(first, r), side)
    modifies book, book.venue
    ensures book.Valid() && book.Guarded() && book.Open() && book.store.value.side == old(book.store).value.side
    ensures adopted.Some? && IsFirst(book.venue.orders, book.store.value.side, book.venue.listing, adopted.value)
    ensures var side, orders := book.store.value.side, book.venue.orders;
            var asked := RoundPrice(second, book.venue.rules);
            && orphan in orders && IsStop(orders[orphan], side) && !NoLooser(side, orders[orphan].price, asked)
            && (NoLooser(side, Level(book.store.value, book.venue.rules), asked) <==>
                NoLooser(side, orders[adopted.value].price, asked))
            && (old(book.OwnStopsOnly()) ==>
                  (!NoLooser(side, Level(book.store.value, book.venue.rules), asked) <==>
                   IsFirst(orders, side, book.venue.listing, orphan)))
            && Covers(orders, side, asked)
    ensures KeepsProtection(old(book.venue.orders), book.venue.orders, book.store.value.side)
  {
    orphan := LeaveOrphan(book, first, second);
    ghost var tight := book.store.value.stopOrderId.value;
    assert NoLooser(book.store.value.side, book.venue.orders[tight].price, RoundPrice(second, book.venue.rules));
    var result;
    result, adopted := book.Audit();
  }
}
