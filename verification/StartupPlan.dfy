/** What the bot cancels, reports and blocks when it starts: src/binance/liveProtection.ts:32-88. */
module StartupPlan {
  import opened Common

  datatype OrderType = Limit | StopMarket | TakeProfitMarket | Other

  datatype OrderSide = Buy | Sell

  /** `isOwnEntryId`: the client id starts with the bot's entry prefix. */
  datatype OpenOrder = OpenOrder(symbol: string, orderId: int, isOwnEntryId: bool, orderType: OrderType,
                                 side: OrderSide,
                                 reduceOnly: bool, closePosition: bool, stopPrice: real)

  datatype VenuePosition = VenuePosition(symbol: string, amount: real)

  predicate IsEntryOrder(o: OpenOrder) {
    o.orderType.Limit? && !o.reduceOnly && !o.closePosition && o.isOwnEntryId
  }

  predicate IsProtectiveOrder(o: OpenOrder) {
    (o.orderType.StopMarket? || o.orderType.TakeProfitMarket?) && o.closePosition
  }

  function ExitSideOf(amount: real): OrderSide {
    if amount > 0.0 then Sell else Buy
  }

  /** A stop that protects the symbol's position (liveProtection.ts:51-53). */
  predicate IsStopFor(o: OpenOrder, symbol: string, amount: real) {
    o.symbol == symbol && o.side == ExitSideOf(amount) && IsProtectiveOrder(o) && o.orderType.StopMarket?
  }

  /** `a` is at least as tight as `b` for a position of this sign. */
  predicate AsTight(amount: real, a: real, b: real) {
    if amount > 0.0 then a >= b else a <= b
  }

  /** `protectionOf(...).stopPrice`, as one scan over the open orders. */
  method TightestStop(orders: seq<OpenOrder>, symbol: string, amount: real) returns (stopPrice: Option<real>)
    ensures stopPrice.None? <==> forall i :: 0 <= i < |orders| ==> !IsStopFor(orders[i], symbol, amount)
    ensures stopPrice.Some? ==>
              && (exists i :: 0 <= i < |orders| && IsStopFor(orders[i], symbol, amount) &&
                    orders[i].stopPrice == stopPrice.value)
              && forall i :: 0 <= i < |orders| && IsStopFor(orders[i], symbol, amount) ==>
                 AsTight(amount, stopPrice.value, orders[i].stopPrice)
  {
    stopPrice := None;
    for i := 0 to |orders|
      invariant stopPrice.None? <==> forall k :: 0 <= k < i ==> !IsStopFor(orders[k], symbol, amount)
      invariant stopPrice.Some? ==>
                  && (exists k :: 0 <= k < i && IsStopFor(orders[k], symbol, amount) &&
                        orders[k].stopPrice == stopPrice.value)
                  && forall k :: 0 <= k < i && IsStopFor(orders[k], symbol, amount) ==>
                     AsTight(amount, stopPrice.value, orders[k].stopPrice)
    {
      var o := orders[i];
      if IsStopFor(o, symbol, amount) {
        stopPrice := Some(
          if stopPrice.None? then o.stopPrice
          else if amount > 0.0 then Max(stopPrice.value, o.stopPrice) else Min(stopPrice.value, o.stopPrice));
      }
    }
  }

  // ----- the plan -----

  /** Symbols with a position, in order; a later row of the same symbol replaces the earlier one. */
  function Held(positions: seq<VenuePosition>): map<string, real> {
    if positions == [] then map[]
    else
      var last := positions[|positions| - 1];
      var earlier := Held(positions[..|positions| - 1]);
      if last.amount == 0.0 then earlier else earlier[last.symbol := last.amount]
  }

  lemma {:induction false} HeldIsNonZero(positions: seq<VenuePosition>, symbol: string)
    ensures symbol in Held(positions) ==> Held(positions)[symbol] != 0.0
    ensures symbol in Held(positions) <==>
            exists i :: 0 <= i < |positions| && positions[i].symbol == symbol && positions[i].amount != 0.0
  {
    if positions != [] {
      var n := |positions| - 1;
      HeldIsNonZero(positions[..n], symbol);
      if exists i :: 0 <= i < |positions| && positions[i].symbol == symbol && positions[i].amount != 0.0 {
        var i :| 0 <= i < |positions| && positions[i].symbol == symbol && positions[i].amount != 0.0;
        if i < n {
          assert positions[..n][i].symbol == symbol;
        }
      }
    }
  }

  /** An order the plan cancels: the bot's own resting entry, or protection without a position. */
  predicate MustCancel(o: OpenOrder, held: map<string, real>) {
    IsEntryOrder(o) || (IsProtectiveOrder(o) && o.symbol !in held)
  }

  /** An order the plan only reports. */
  predicate IsUnrecognised(o: OpenOrder) {
    !IsEntryOrder(o) && !IsProtectiveOrder(o)
  }

  /** The orders among the first `n` that satisfy a test, in order. */
  function Where(orders: seq<OpenOrder>, n: nat, test: OpenOrder -> bool): (r: seq<OpenOrder>)
    requires n <= |orders|
    ensures forall i :: 0 <= i < n ==> (test(orders[i]) ==> orders[i] in r)
    ensures forall o :: o in r ==> test(o) && o in orders
  {
    if n == 0 then []
    else if test(orders[n - 1]) then Where(orders, n - 1, test) + [orders[n - 1]]
    else Where(orders, n - 1, test)
  }

  function Cancels(held: map<string, real>): OpenOrder -> bool {
    (o: OpenOrder) => MustCancel(o, held)
  }

  ghost predicate Unprotected(orders: seq<OpenOrder>, symbol: string, amount: real) {
    forall i :: 0 <= i < |orders| ==> !IsStopFor(orders[i], symbol, amount)
  }

  /**
   * `planStartupReconciliation` (liveProtection.ts:74-88): exactly the bot's own entries and the
   * protection of flat symbols are cancelled, exactly the orders it does not know are reported, and
   * exactly the held symbols without a stop are blocked.
   */
  method PlanStartup(orders: seq<OpenOrder>, positions: seq<VenuePosition>)
      returns (cancel: seq<OpenOrder>, unprotected: set<string>, unrecognised: seq<OpenOrder>)
    ensures cancel == Where(orders, |orders|, Cancels(Held(positions)))
    ensures unrecognised == Where(orders, |orders|, IsUnrecognised)
    ensures forall s: string :: s in unprotected <==> s in Held(positions) && Unprotected(orders, s, Held(positions)[s])
  {
    var held := Held(positions);
    cancel, unrecognised := [], [];
    for i := 0 to |orders|
      invariant cancel == Where(orders, i, Cancels(held)) && unrecognised == Where(orders, i, IsUnrecognised)
    {
      var o := orders[i];
      if IsEntryOrder(o) {
        cancel := cancel + [o];
      } else if IsProtectiveOrder(o) && o.symbol !in held {
        cancel := cancel + [o];
      } else if !IsProtectiveOrder(o) {
        unrecognised := unrecognised + [o];
      }
    }
    unprotected := {};
    for i := 0 to |positions|
      invariant forall s: string :: s in unprotected ==> s in held && Unprotected(orders, s, held[s])
      invariant forall k ::
                  0 <= k < i && positions[k].symbol in held &&
                  Unprotected(orders, positions[k].symbol, held[positions[k].symbol]) ==>
                    positions[k].symbol in unprotected
    {
      var symbol := positions[i].symbol;
      if symbol in held {
        var stop := TightestStop(orders, symbol, held[symbol]);
        if stop.None? {
          unprotected := unprotected + {symbol};
        }
      }
    }
    forall s: string | s in held && Unprotected(orders, s, held[s]) ensures s in unprotected {
      HeldIsNonZero(positions, s);
      var i :| 0 <= i < |positions| && positions[i].symbol == s && positions[i].amount != 0.0;
      assert positions[i].symbol in held;
    }
  }

  // ----- what the orders can do -----

  /** The position left when a triggered order has done its work: a close-all order empties the side it exits. */
  function AfterTrigger(o: OpenOrder, amount: real): real {
    if o.closePosition && (if o.side == Sell then amount > 0.0 else amount < 0.0) then 0.0 else amount
  }

  /** The stops that count as a position's protection are the close-all stops of its symbol that empty it. */
  lemma StopsEmptyThePosition(o: OpenOrder, symbol: string, amount: real)
    requires amount != 0.0
    ensures IsStopFor(o, symbol, amount) <==>
            o.symbol == symbol && o.orderType == StopMarket && AfterTrigger(o, amount) == 0.0
  {}

  /** An order of the bot's own that rests at a price and may still add to a position. */
  predicate MayStillEnter(o: OpenOrder) {
    o.isOwnEntryId && o.orderType == Limit && !(o.reduceOnly || o.closePosition)
  }

  /** A stop or target that closes whatever position there is. */
  predicate ClosesAll(o: OpenOrder) {
    o.closePosition && o.orderType in {StopMarket, TakeProfitMarket}
  }

  predicate IsFlat(positions: seq<VenuePosition>, symbol: string) {
    forall i :: 0 <= i < |positions| && positions[i].symbol == symbol ==> positions[i].amount == 0.0
  }

  /**
   * Every open order meets one of three fates: the bot's own entries and the close-all orders of flat symbols are
   * cancelled, the close-all orders of held symbols stay, and everything else is reported.
   */
  lemma EveryOrderHasItsFate(orders: seq<OpenOrder>, positions: seq<VenuePosition>, o: OpenOrder)
    requires o in orders
    ensures o in Where(orders, |orders|, Cancels(Held(positions))) <==>
            MayStillEnter(o) || (ClosesAll(o) && IsFlat(positions, o.symbol))
    ensures o in Where(orders, |orders|, IsUnrecognised) <==> !MayStillEnter(o) && !ClosesAll(o)
  {
    CleanupSparesProtection(orders, positions, o);
    HeldIsNonZero(positions, o.symbol);
    var i :| 0 <= i < |orders| && orders[i] == o;
    assert Cancels(Held(positions))(orders[i]) <==> MustCancel(o, Held(positions));
    assert IsUnrecognised(orders[i]) <==> IsUnrecognised(o);
  }

  /**
   * Main result: the cleanup never touches protection of a symbol that is held, and no order is both
   * cancelled and reported.
   */
  lemma CleanupSparesProtection(orders: seq<OpenOrder>, positions: seq<VenuePosition>, o: OpenOrder)
    requires o in orders
    ensures
      var held := Held(positions);
      var cancelled := o in Where(orders, |orders|, Cancels(held));
      var reported := o in Where(orders, |orders|, IsUnrecognised);
      && !(cancelled && reported)
      && (IsProtectiveOrder(o) ==>
          (cancelled <==> forall i :: 0 <= i < |positions| && positions[i].symbol == o.symbol ==>
           positions[i].amount == 0.0))
      && (!cancelled && !reported <==> IsProtectiveOrder(o) && o.symbol in held)
  {
    HeldIsNonZero(positions, o.symbol);
    var i :| 0 <= i < |orders| && orders[i] == o;
    assert Cancels(Held(positions))(orders[i]) <==> MustCancel(o, Held(positions));
    assert IsUnrecognised(orders[i]) <==> IsUnrecognised(o);
  }
}
