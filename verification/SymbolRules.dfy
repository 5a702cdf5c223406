/** Tick and lot rounding: src/binance/symbolRules.ts. */
module SymbolRules {
  import opened Common

  /** Float error absorbed before a quotient is floored or ceiled (STEP_EPSILON). */
  const EPSILON: real := 0.000000001

  /** `priceScale` and `qtyScale` are 10^pricePrecision and 10^quantityPrecision. */
  datatype Rules = Rules(tick: real, step: real, priceScale: real, qtyScale: real)

  predicate IsInteger(x: real) {
    x.Floor as real == x
  }

  /** `n` units, as a price or a quantity. */
  function Units(n: int, unit: real): real {
    n as real * unit
  }

  /** How many units `x` is. */
  function InUnits(x: real, unit: real): real
    requires unit > 0.0
  {
    x / unit
  }

  function Scaled(x: real, scale: real): real {
    x * scale
  }

  predicate OnGrid(x: real, unit: real)
    requires unit > 0.0
  {
    IsInteger(InUnits(x, unit))
  }

  /** The unit is a positive multiple of the last printed decimal, as the exchange's filters are. */
  predicate Printable(unit: real, scale: real) {
    unit > 0.0 && scale > 0.0 && IsInteger(Scaled(unit, scale))
  }

  predicate WellFormed(r: Rules) {
    Printable(r.tick, r.priceScale) && Printable(r.step, r.qtyScale)
  }

  /** `Math.round`: the nearest integer, halves upward. */
  function RoundHalfUp(x: real): int {
    (x + 0.5).Floor
  }

  function Ceil(x: real): int {
    -((-x).Floor)
  }

  /** `Number(x.toFixed(k))` with scale 10^k: the nearest multiple of 1/scale. */
  function ToFixed(x: real, scale: real): real
    requires scale > 0.0
  {
    InUnits(RoundHalfUp(Scaled(x, scale)) as real, scale)
  }

  /** Nearest valid tick (symbolRules.ts:66-69). */
  function RoundPrice(price: real, r: Rules): real
    requires WellFormed(r)
  {
    ToFixed(Units(RoundHalfUp(InUnits(price, r.tick)), r.tick), r.priceScale)
  }

  function StopTick(ticks: real, protects: Side): int {
    if protects.Long? then Ceil(ticks - EPSILON) else (ticks + EPSILON).Floor
  }

  /** A protective stop rounds toward the market (symbolRules.ts:75-80); `protects` is the position's side. */
  function RoundStopPrice(price: real, protects: Side, r: Rules): real
    requires WellFormed(r)
  {
    ToFixed(Units(StopTick(InUnits(price, r.tick), protects), r.tick), r.priceScale)
  }

  /** Whole lots, allowing for float noise just under a step (symbolRules.ts:83-86). */
  function RoundQty(qty: real, r: Rules): real
    requires WellFormed(r)
  {
    ToFixed(Units((InUnits(qty, r.step) + EPSILON).Floor, r.step), r.qtyScale)
  }

  /** `a` is at least as tight as `b` for a stop protecting `side`. */
  predicate NoLooser(side: Side, a: real, b: real) {
    if side.Long? then a >= b else a <= b
  }

  // ----- arithmetic of units -----

  lemma UnitsMonotone(m: int, n: int, unit: real)
    requires unit > 0.0 && m <= n
    ensures Units(m, unit) <= Units(n, unit)
  {}

  lemma InUnitsMonotone(a: real, b: real, unit: real)
    requires unit > 0.0 && a <= b
    ensures InUnits(a, unit) <= InUnits(b, unit)
  {}

  lemma InUnitsOfUnits(n: int, unit: real)
    requires unit > 0.0
    ensures InUnits(Units(n, unit), unit) == n as real
    ensures OnGrid(Units(n, unit), unit)
  {
    FloorOfInteger(n);
  }

  lemma GridPoint(x: real, unit: real) returns (n: int)
    requires unit > 0.0 && OnGrid(x, unit)
    ensures x == Units(n, unit) && InUnits(x, unit) == n as real
  {
    n := InUnits(x, unit).Floor;
    DivMul(x, unit);
  }

  /** Being `lo` to `hi` units above `x` in units is being that far in price. */
  lemma UnitsNear(n: int, x: real, unit: real, lo: real, hi: real)
    requires unit > 0.0
    ensures InUnits(x, unit) + lo <= n as real ==> x + lo * unit <= Units(n, unit)
    ensures InUnits(x, unit) + lo < n as real ==> x + lo * unit < Units(n, unit)
    ensures n as real <= InUnits(x, unit) + hi ==> Units(n, unit) <= x + hi * unit
    ensures n as real < InUnits(x, unit) + hi ==> Units(n, unit) < x + hi * unit
  {
    DivMul(x, unit);
    var q := x / unit;
    assert (q + lo) * unit == x + lo * unit;
    assert (q + hi) * unit == x + hi * unit;
    Order(q + lo, n as real, unit);
    Order(n as real, q + hi, unit);
  }

  lemma Order(a: real, b: real, unit: real)
    requires unit > 0.0
    ensures a <= b ==> a * unit <= b * unit
    ensures a < b ==> a * unit < b * unit
  {}

  lemma DivMul(x: real, unit: real)
    requires unit > 0.0
    ensures x / unit * unit == x
    ensures x * unit / unit == x
  {}

  lemma FloorOfInteger(n: int)
    ensures (n as real).Floor == n
    ensures (n as real + 0.5).Floor == n
    ensures (n as real + EPSILON).Floor == n
  {}

  lemma ToFixedOfInteger(x: real, scale: real, j: int)
    requires scale > 0.0 && Scaled(x, scale) == j as real
    ensures ToFixed(x, scale) == x
  {
    FloorOfInteger(j);
    DivMul(x, scale);
  }

  lemma ScaledUnits(n: int, unit: real, scale: real, m: int)
    requires Scaled(unit, scale) == m as real
    ensures Scaled(Units(n, unit), scale) == (n * m) as real
  {
    assert n as real * unit * scale == n as real * (unit * scale);
  }

  /** Printing a multiple of the tick to the tick's own decimals changes nothing. */
  lemma ToFixedKeepsUnits(n: int, unit: real, scale: real)
    requires Printable(unit, scale)
    ensures ToFixed(Units(n, unit), scale) == Units(n, unit)
  {
    var m := Scaled(unit, scale).Floor;
    ScaledUnits(n, unit, scale, m);
    ToFixedOfInteger(Units(n, unit), scale, n * m);
  }

  // ----- prices -----

  lemma RoundPriceTick(price: real, r: Rules)
    requires WellFormed(r)
    ensures RoundPrice(price, r) == Units(RoundHalfUp(InUnits(price, r.tick)), r.tick)
  {
    ToFixedKeepsUnits(RoundHalfUp(InUnits(price, r.tick)), r.tick, r.priceScale);
  }

  /** A rounded price is a valid tick, no more than half a tick away. */
  lemma RoundPriceIsNearestTick(price: real, r: Rules)
    requires WellFormed(r)
    ensures OnGrid(RoundPrice(price, r), r.tick)
    ensures price - 0.5 * r.tick <= RoundPrice(price, r) <= price + 0.5 * r.tick
  {
    RoundPriceTick(price, r);
    var n := RoundHalfUp(InUnits(price, r.tick));
    InUnitsOfUnits(n, r.tick);
    UnitsNear(n, price, r.tick, -0.5, 0.5);
  }

  lemma RoundPriceKeepsTicks(price: real, r: Rules)
    requires WellFormed(r) && OnGrid(price, r.tick)
    ensures RoundPrice(price, r) == price
  {
    RoundPriceTick(price, r);
    var n := GridPoint(price, r.tick);
    FloorOfInteger(n);
  }

  lemma RoundPriceMonotone(p: real, q: real, r: Rules)
    requires WellFormed(r) && p <= q
    ensures RoundPrice(p, r) <= RoundPrice(q, r)
  {
    RoundPriceTick(p, r);
    RoundPriceTick(q, r);
    InUnitsMonotone(p, q, r.tick);
    UnitsMonotone(RoundHalfUp(InUnits(p, r.tick)), RoundHalfUp(InUnits(q, r.tick)), r.tick);
  }

  /** Rounding keeps the order of two stops on either side of the market. */
  lemma RoundPriceKeepsTightness(side: Side, a: real, b: real, r: Rules)
    requires WellFormed(r) && NoLooser(side, a, b)
    ensures NoLooser(side, RoundPrice(a, r), RoundPrice(b, r))
  {
    if side.Long? {
      RoundPriceMonotone(b, a, r);
    } else {
      RoundPriceMonotone(a, b, r);
    }
  }

  // ----- protective stops -----

  lemma RoundStopTick(price: real, side: Side, r: Rules)
    requires WellFormed(r)
    ensures RoundStopPrice(price, side, r) == Units(StopTick(InUnits(price, r.tick), side), r.tick)
  {
    ToFixedKeepsUnits(StopTick(InUnits(price, r.tick), side), r.tick, r.priceScale);
  }

  /** A stop never rounds looser than it was sized (beyond the float allowance), and moves less than a tick. */
  lemma RoundStopNeverLoosens(price: real, side: Side, r: Rules)
    requires WellFormed(r)
    ensures OnGrid(RoundStopPrice(price, side, r), r.tick)
    ensures side.Long? ==> price - EPSILON * r.tick <= RoundStopPrice(price, side, r) < price + r.tick
    ensures side.Short? ==> price - r.tick < RoundStopPrice(price, side, r) <= price + EPSILON * r.tick
  {
    RoundStopTick(price, side, r);
    var n := StopTick(InUnits(price, r.tick), side);
    InUnitsOfUnits(n, r.tick);
    if side.Long? {
      UnitsNear(n, price, r.tick, -EPSILON, 1.0);
    } else {
      UnitsNear(n, price, r.tick, -1.0, EPSILON);
    }
  }

  /** A stop that is already a valid tick is left alone, so re-placing it cannot creep. */
  lemma RoundStopKeepsTicks(price: real, side: Side, r: Rules)
    requires WellFormed(r) && OnGrid(price, r.tick)
    ensures RoundStopPrice(price, side, r) == price
  {
    RoundStopTick(price, side, r);
    var n := GridPoint(price, r.tick);
    FloorOfInteger(n);
    FloorOfInteger(-n);
  }

  lemma StopTickMonotone(side: Side, x: real, y: real)
    requires x <= y
    ensures StopTick(x, side) <= StopTick(y, side)
  {}

  /** Stop rounding keeps the order of two stops. */
  lemma RoundStopKeepsTightness(side: Side, a: real, b: real, r: Rules)
    requires WellFormed(r) && NoLooser(side, a, b)
    ensures NoLooser(side, RoundStopPrice(a, side, r), RoundStopPrice(b, side, r))
  {
    RoundStopTick(a, side, r);
    RoundStopTick(b, side, r);
    var lo, hi := Min(a, b), Max(a, b);
    InUnitsMonotone(lo, hi, r.tick);
    StopTickMonotone(side, InUnits(lo, r.tick), InUnits(hi, r.tick));
    UnitsMonotone(StopTick(InUnits(lo, r.tick), side), StopTick(InUnits(hi, r.tick), side), r.tick);
  }

  // ----- quantities -----

  lemma RoundQtyLot(qty: real, r: Rules)
    requires WellFormed(r)
    ensures RoundQty(qty, r) == Units((InUnits(qty, r.step) + EPSILON).Floor, r.step)
  {
    ToFixedKeepsUnits((InUnits(qty, r.step) + EPSILON).Floor, r.step, r.qtyScale);
  }

  /** A rounded quantity never exceeds the intended size (beyond the float allowance) nor misses a whole step. */
  lemma RoundQtyRoundsDown(qty: real, r: Rules)
    requires WellFormed(r)
    ensures OnGrid(RoundQty(qty, r), r.step)
    ensures qty - r.step < RoundQty(qty, r) <= qty + EPSILON * r.step
  {
    RoundQtyLot(qty, r);
    var n := (InUnits(qty, r.step) + EPSILON).Floor;
    InUnitsOfUnits(n, r.step);
    UnitsNear(n, qty, r.step, -1.0, EPSILON);
  }

  /** A whole number of lots is kept, so rounding twice is rounding once. */
  lemma RoundQtyKeepsLots(qty: real, r: Rules)
    requires WellFormed(r) && OnGrid(qty, r.step)
    ensures RoundQty(qty, r) == qty
  {
    RoundQtyLot(qty, r);
    var n := GridPoint(qty, r.step);
    FloorOfInteger(n);
  }
}
