/**
 * What marking the paper book closes, and at which price: src/binance/paperEngine.ts:67-79 and 319-340,
 * src/binance/stopRules.ts.
 */
module PaperExits {
  import opened Common
  import opened PaperEngine
  import opened PaperLedger
  import opened Sums

  /** `price` is as good as `level` or better for whoever holds the side. */
  predicate AtLeastAsGood(side: Side, price: real, level: real) {
    if side.Long? then price >= level else price <= level
  }

  predicate AtLiquidation(pos: Position) {
    LiquidationPrice(pos).Some? && AtLeastAsGood(pos.side, LiquidationPrice(pos).value, pos.mark)
  }

  predicate AtStop(pos: Position) {
    pos.stopLoss.Some? && pos.stopLoss.value > 0.0 && AtLeastAsGood(pos.side, pos.stopLoss.value, pos.mark)
  }

  predicate AtTarget(pos: Position) {
    pos.takeProfit.Some? && pos.takeProfit.value > 0.0 && AtLeastAsGood(pos.side, pos.mark, pos.takeProfit.value)
  }

  /**
   * A position exits exactly when its mark has reached a level; liquidation goes before the stop and the stop before
   * the target. A stop fills at the mark, never better than its level; a liquidation and a target fill at their own
   * levels.
   */
  lemma ExitsAreAtTheirLevels(pos: Position)
    ensures FindExit(pos).None? <==> !AtLiquidation(pos) && !AtStop(pos) && !AtTarget(pos)
    ensures FindExit(pos).Some? ==>
              var (price, reason) := FindExit(pos).value;
              && (reason.Liquidation? <==> AtLiquidation(pos))
              && (reason.StopLoss? <==> AtStop(pos) && !AtLiquidation(pos))
              && (reason.TakeProfit? <==> AtTarget(pos) && !AtStop(pos) && !AtLiquidation(pos))
              && (reason.Liquidation? ==> Some(price) == LiquidationPrice(pos))
              && (reason.StopLoss? ==> price == pos.mark && AtLeastAsGood(pos.side, pos.stopLoss.value, price))
              && (reason.TakeProfit? ==> Some(price) == pos.takeProfit && AtLeastAsGood(pos.side, pos.mark, price))
  {}

  predicate Priced(pos: Position, prices: map<string, real>) {
    pos.symbol in prices && prices[pos.symbol] != 0.0
  }

  function MarkedAt(pos: Position, prices: map<string, real>): Position
    requires Priced(pos, prices)
  {
    pos.(mark := prices[pos.symbol])
  }

  /** The new price has reached one of the position's levels. */
  predicate Reached(pos: Position, prices: map<string, real>) {
    Priced(pos, prices) && FindExit(MarkedAt(pos, prices)).Some?
  }

  /** The positions whose levels were not reached, marked, in their order. */
  function Survivors(ps: seq<Position>, prices: map<string, real>): seq<Position> {
    if ps == [] then []
    else if Reached(ps[0], prices) then Survivors(ps[1..], prices)
    else [if Priced(ps[0], prices) then Refreshed(MarkedAt(ps[0], prices)) else ps[0]] + Survivors(ps[1..], prices)
  }

  /** The trades that close those whose levels were reached, in their order. */
  function Closings(ps: seq<Position>, prices: map<string, real>, costs: PaperCosts): seq<Trade>
    requires Quantities(ps)
  {
    if ps == [] then []
    else
      (if Reached(ps[0], prices) then [ClosingOf(MarkedAt(ps[0], prices), costs)] else [])
        + Closings(ps[1..], prices, costs)
  }

  /** The whole position, at its exit. */
  function ClosingOf(pos: Position, costs: PaperCosts): Trade
    requires pos.qty > 0.0 && FindExit(pos).Some?
  {
    Reduce(pos, pos.qty, FindExit(pos).value.0, FindExit(pos).value.1, costs).trade
  }

  /** What the loop does to position `i`. */
  predicate Handled(before: seq<Position>, i: nat, prices: map<string, real>, after: seq<Position>)
    requires i < |before|
  {
    && i <= |after| && after[..i] == before[..i]
    && if Reached(before[i], prices) then after[i..] == before[i + 1..]
       else
         && |after| == |before| && after[i + 1..] == before[i + 1..]
         && after[i] == if Priced(before[i], prices) then Refreshed(MarkedAt(before[i], prices)) else before[i]
  }

  lemma MarkOne(b: Book, i: nat, prices: map<string, real>, costs: PaperCosts)
    requires Quantities(b.positions) && i < |b.positions|
    ensures Handled(b.positions, i, prices, MarkAt(b, i, prices, costs).0.positions)
    ensures MarkAt(b, i, prices, costs).1.booked
         == if Reached(b.positions[i], prices) then [ClosingOf(MarkedAt(b.positions[i], prices), costs)] else []
  {
    var pos := b.positions[i];
    if Reached(pos, prices) {
      var marked := MarkedAt(pos, prices);
      var exit := FindExit(marked).value;
      var book := b.(positions := b.positions[i := marked]);
      FullReduceRemoves(book, i, exit.0, exit.1, costs);
      assert Remove(book.positions, i) == b.positions[..i] + b.positions[i + 1..];
    }
  }

  /** One pass of the loop: the book it leaves, and the rest of the run from there. */
  lemma MarkFromNext(b: Book, i: nat, prices: map<string, real>, costs: PaperCosts) returns (after: Book)
    requires Quantities(b.positions) && i < |b.positions|
    ensures Quantities(after.positions) && Handled(b.positions, i, prices, after.positions)
    ensures var rest := MarkFrom(after, if Reached(b.positions[i], prices) then i else i + 1, prices, costs);
            && MarkFrom(b, i, prices, costs).0 == rest.0
            && MarkFrom(b, i, prices, costs).1.booked
               == (if Reached(b.positions[i], prices) then [ClosingOf(MarkedAt(b.positions[i], prices), costs)]
                   else []) + rest.1.booked
  {
    MarkAtKeepsQuantities(b, i, prices, costs);
    MarkOne(b, i, prices, costs);
    after := MarkAt(b, i, prices, costs).0;
    assert Reached(b.positions[i], prices) <==> |after.positions| < |b.positions|;
  }

  /** The loop from position `i` on leaves the earlier ones alone and does to the rest what their levels ask for. */
  lemma {:induction false} MarkFromSurvives(b: Book, i: nat, prices: map<string, real>, costs: PaperCosts)
    requires Quantities(b.positions) && i <= |b.positions|
    ensures MarkFrom(b, i, prices, costs).0.positions == b.positions[..i] + Survivors(b.positions[i..], prices)
    ensures MarkFrom(b, i, prices, costs).1.booked == Closings(b.positions[i..], prices, costs)
    decreases |b.positions| - i
  {
    if i == |b.positions| {
      assert b.positions[..i] + [] == b.positions;
    } else {
      var after := MarkFromNext(b, i, prices, costs);
      var j := if Reached(b.positions[i], prices) then i else i + 1;
      Assembled(b.positions, i, prices, after.positions, j);
      FirstCloses(b.positions, i, prices, costs);
      MarkFromSurvives(after, j, prices, costs);
    }
  }

  /** What is done and what is left after a pass make up what was done and left before it. */
  lemma Assembled(before: seq<Position>, i: nat, prices: map<string, real>, after: seq<Position>, j: nat)
    requires i < |before| && Handled(before, i, prices, after) && j == if Reached(before[i], prices) then i else i + 1
    ensures j <= |after| && after[j..] == before[i + 1..] && |after| - j < |before| - i
    ensures after[..j] + Survivors(after[j..], prices) == before[..i] + Survivors(before[i..], prices)
  {
    FirstSurvives(before, i, prices);
    var rest := Survivors(before[i + 1..], prices);
    if !Reached(before[i], prices) {
      assert after[..j] == before[..i] + [after[i]];
      assert before[..i] + [after[i]] + rest == before[..i] + ([after[i]] + rest);
    }
  }

  /** What the first of the remaining positions contributes. */
  lemma FirstSurvives(ps: seq<Position>, i: nat, prices: map<string, real>)
    requires i < |ps|
    ensures Survivors(ps[i..], prices) == (if Reached(ps[i], prices) then [] else
              [if Priced(ps[i], prices) then Refreshed(MarkedAt(ps[i], prices)) else ps[i]])
                + Survivors(ps[i + 1..], prices)
  {
    assert ps[i..][0] == ps[i] && ps[i..][1..] == ps[i + 1..];
  }

  lemma FirstCloses(ps: seq<Position>, i: nat, prices: map<string, real>, costs: PaperCosts)
    requires Quantities(ps) && i < |ps|
    ensures Closings(ps[i..], prices, costs)
         == (if Reached(ps[i], prices) then [ClosingOf(MarkedAt(ps[i], prices), costs)] else [])
           + Closings(ps[i + 1..], prices, costs)
  {
    assert ps[i..][0] == ps[i] && ps[i..][1..] == ps[i + 1..];
  }

  /**
   * Main result: marking the book closes exactly the positions whose level the new price reached, each whole and once,
   * in order, and keeps the others marked, although positions are removed while the loop runs.
   */
  lemma MarkingClosesExactlyTheReached(b: Book, prices: map<string, real>, costs: PaperCosts)
    requires Quantities(b.positions)
    ensures MarkFrom(b, 0, prices, costs).0.positions == Survivors(b.positions, prices)
    ensures MarkFrom(b, 0, prices, costs).1.booked == Closings(b.positions, prices, costs)
  {
    MarkFromSurvives(b, 0, prices, costs);
    assert b.positions[0..] == b.positions && b.positions[..0] == [];
  }

  /** Afterwards no priced position is left at or past one of its levels. */
  lemma {:induction false} NothingReachedIsLeft(ps: seq<Position>, prices: map<string, real>, pos: Position)
    requires pos in Survivors(ps, prices) && Priced(pos, prices)
    ensures pos.mark == prices[pos.symbol] && FindExit(pos).None?
  {
    if !Reached(ps[0], prices) && pos == Survivors(ps, prices)[0] {
      var marked := MarkedAt(ps[0], prices);
      assert pos == Refreshed(marked) && LiquidationPrice(pos) == LiquidationPrice(marked);
    } else {
      NothingReachedIsLeft(ps[1..], prices, pos);
    }
  }
}
