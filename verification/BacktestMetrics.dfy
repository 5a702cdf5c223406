/** Totals, drawdown, streaks and slices of a replay: src/backtesting/BacktestMetrics.ts. */
module BacktestMetrics {
  import opened Common
  import opened PortfolioSimulator
  import opened PortfolioGuarantees
  import opened Sums

  // ----- net result -----

  function Wins(trades: seq<SimTrade>): seq<SimTrade> {
    if trades == [] then []
    else
      var earlier, last := Wins(trades[..|trades| - 1]), trades[|trades| - 1];
      if NetOf(last) > 0.0 then earlier + [last] else earlier
  }

  function Losses(trades: seq<SimTrade>): seq<SimTrade> {
    if trades == [] then []
    else
      var earlier, last := Losses(trades[..|trades| - 1]), trades[|trades| - 1];
      if NetOf(last) <= 0.0 then earlier + [last] else earlier
  }

  /** Gross win less gross loss (BacktestMetrics.ts:138-142). */
  function NetPnl(trades: seq<SimTrade>): real {
    Sum(Wins(trades), NetOf) - Abs(Sum(Losses(trades), NetOf))
  }

  lemma {:induction false} WinsAndLosses(trades: seq<SimTrade>)
    ensures Sum(Wins(trades), NetOf) + Sum(Losses(trades), NetOf) == Sum(trades, NetOf)
    ensures Sum(Losses(trades), NetOf) <= 0.0
  {
    if trades != [] {
      var earlier, last := trades[..|trades| - 1], trades[|trades| - 1];
      WinsAndLosses(earlier);
      SumAppend(Wins(earlier), last, NetOf);
      SumAppend(Losses(earlier), last, NetOf);
    }
  }

  /** Every trade is a win or a loss, once: a win exactly when its net result is positive. */
  lemma {:induction false} EveryTradeWinsOrLoses(trades: seq<SimTrade>)
    ensures multiset(Wins(trades)) + multiset(Losses(trades)) == multiset(trades)
    ensures (forall t :: t in Wins(trades) ==> NetOf(t) > 0.0) && forall t :: t in Losses(trades) ==> NetOf(t) <= 0.0
  {
    if trades != [] {
      EveryTradeWinsOrLoses(trades[..|trades| - 1]);
      assert trades == trades[..|trades| - 1] + [trades[|trades| - 1]];
    }
  }

  /** The headline net result is what the account experienced: the sum over all trades, win or loss. */
  lemma NetPnlIsTotal(trades: seq<SimTrade>)
    ensures NetPnl(trades) == Sum(trades, NetOf)
  {
    WinsAndLosses(trades);
  }

  // ----- drawdown -----

  /** `d` is the largest fall from any earlier point of the curve to a later one. */
  ghost predicate IsMaxDrawdown(curve: seq<real>, d: real) {
    && d >= 0.0
    && (forall i, j :: 0 <= i <= j < |curve| ==> curve[i] - curve[j] <= d)
    && (curve != [] ==> exists i, j :: 0 <= i <= j < |curve| && curve[i] - curve[j] == d)
  }

  /** BacktestMetrics.ts:147-152. */
  method MaxDrawdown(curve: seq<real>, initialEquity: real) returns (d: real)
    ensures IsMaxDrawdown(curve, d)
  {
    d := 0.0;
    var peak := if curve != [] then curve[0] else initialEquity;
    ghost var top: nat := 0;
    assert curve != [] ==> curve[0] - curve[0] == d;
    for k := 0 to |curve|
      invariant curve != [] ==> top < |curve| && peak == curve[top]
      invariant top == 0 || top < k
      invariant forall i :: 0 <= i < k ==> curve[i] <= peak
      invariant d >= 0.0 && forall i, j :: 0 <= i <= j < k ==> curve[i] - curve[j] <= d
      invariant curve != [] ==> exists i, j :: 0 <= i <= j < |curve| && curve[i] - curve[j] == d
    {
      if curve[k] > peak {
        top := k;
      }
      peak := Max(peak, curve[k]);
      if peak - curve[k] > d {
        d := peak - curve[k];
        assert curve[top] - curve[k] == d;
      }
    }
  }

  // ----- losing streak -----

  /** Trades `from..upTo` are all losses. */
  ghost predicate LosingRun(trades: seq<SimTrade>, from: nat, upTo: nat) {
    from <= upTo <= |trades| && forall k :: from <= k < upTo ==> NetOf(trades[k]) <= 0.0
  }

  /** BacktestMetrics.ts:166-175: the longest run of consecutive losses. */
  method MaxConsecutiveLosses(trades: seq<SimTrade>) returns (longest: nat)
    ensures forall from: nat, upTo: nat :: LosingRun(trades, from, upTo) ==> upTo - from <= longest
    ensures exists from: nat, upTo: nat :: LosingRun(trades, from, upTo) && upTo - from == longest
  {
    longest := 0;
    var consecutive := 0;
    assert LosingRun(trades, 0, 0);
    for k := 0 to |trades|
      invariant consecutive <= k && LosingRun(trades, k - consecutive, k)
      invariant consecutive < k ==> NetOf(trades[k - consecutive - 1]) > 0.0
      invariant forall from: nat, upTo: nat :: LosingRun(trades, from, upTo) && upTo <= k ==> upTo - from <= longest
      invariant exists from: nat, upTo: nat :: LosingRun(trades, from, upTo) && upTo - from == longest
    {
      if NetOf(trades[k]) <= 0.0 {
        consecutive := consecutive + 1;
        if consecutive > longest {
          longest := consecutive;
          assert LosingRun(trades, k + 1 - consecutive, k + 1);
        }
      } else {
        consecutive := 0;
      }
    }
  }

  // ----- slices -----

  datatype Group = Group(key: string, trades: seq<SimTrade>)

  /** The trades of one key, in order. */
  function Keyed(trades: seq<SimTrade>, keyOf: SimTrade -> Option<string>, key: string): seq<SimTrade> {
    if trades == [] then []
    else
      var earlier, last := Keyed(trades[..|trades| - 1], keyOf, key), trades[|trades| - 1];
      if keyOf(last) == Some(key) then earlier + [last] else earlier
  }

  /** What a trade adds to the slices: nothing without a key. */
  function SlicedNet(keyOf: SimTrade -> Option<string>): SimTrade -> real {
    (t: SimTrade) => if keyOf(t).Some? then NetOf(t) else 0.0
  }

  function GroupNet(g: Group): real {
    Sum(g.trades, NetOf)
  }

  /** Each group is exactly its key's trades and no key has two groups. */
  ghost predicate Groups(groups: seq<Group>, trades: seq<SimTrade>, keyOf: SimTrade -> Option<string>) {
    && (forall i :: 0 <= i < |groups| ==> groups[i].trades == Keyed(trades, keyOf, groups[i].key))
    && (forall i, j :: 0 <= i < j < |groups| ==> groups[i].key != groups[j].key)
  }

  ghost predicate Covered(groups: seq<Group>, trades: seq<SimTrade>, keyOf: SimTrade -> Option<string>) {
    forall key: string :: Keyed(trades, keyOf, key) != [] ==> exists i :: 0 <= i < |groups| && groups[i].key == key
  }

  function FindGroup(groups: seq<Group>, key: string): (i: nat)
    ensures i <= |groups|
    ensures i < |groups| ==> groups[i].key == key
    ensures i == |groups| ==> forall k :: 0 <= k < |groups| ==> groups[k].key != key
  {
    if groups == [] then 0
    else if groups[0].key == key then 0
    else 1 + FindGroup(groups[1..], key)
  }

  lemma KeyedAppend(trades: seq<SimTrade>, t: SimTrade, keyOf: SimTrade -> Option<string>, key: string)
    ensures Keyed(trades + [t], keyOf, key)
         == if keyOf(t) == Some(key) then Keyed(trades, keyOf, key) + [t] else Keyed(trades, keyOf, key)
  {
    assert (trades + [t])[..|trades|] == trades;
  }

  /** One trade goes to its key's group, a new one if need be. */
  function Place(groups: seq<Group>, t: SimTrade, keyOf: SimTrade -> Option<string>): seq<Group> {
    if keyOf(t).None? then groups
    else
      var key := keyOf(t).value;
      var i := FindGroup(groups, key);
      if i < |groups| then groups[i := Group(key, groups[i].trades + [t])] else groups + [Group(key, [t])]
  }

  lemma PlaceGroups(groups: seq<Group>, trades: seq<SimTrade>, t: SimTrade, keyOf: SimTrade -> Option<string>)
    requires Groups(groups, trades, keyOf) && Covered(groups, trades, keyOf)
    ensures Groups(Place(groups, t, keyOf), trades + [t], keyOf)
  {
    var placed := Place(groups, t, keyOf);
    forall i | 0 <= i < |placed| ensures placed[i].trades == Keyed(trades + [t], keyOf, placed[i].key) {
      KeyedAppend(trades, t, keyOf, placed[i].key);
      if i < |groups| {
        assert groups[i].trades == Keyed(trades, keyOf, groups[i].key);
      } else {
        assert Keyed(trades, keyOf, placed[i].key) == [];
      }
    }
  }

  lemma PlaceCovers(groups: seq<Group>, trades: seq<SimTrade>, t: SimTrade, keyOf: SimTrade -> Option<string>)
    requires Covered(groups, trades, keyOf)
    ensures Covered(Place(groups, t, keyOf), trades + [t], keyOf)
  {
    var placed := Place(groups, t, keyOf);
    forall key: string | Keyed(trades + [t], keyOf, key) != []
      ensures exists i :: 0 <= i < |placed| && placed[i].key == key {
      KeyedAppend(trades, t, keyOf, key);
      if Keyed(trades, keyOf, key) != [] {
        var i :| 0 <= i < |groups| && groups[i].key == key;
        assert placed[i].key == key;
      } else {
        assert placed[FindGroup(groups, key)].key == key;
      }
    }
  }

  lemma PlaceNet(groups: seq<Group>, t: SimTrade, keyOf: SimTrade -> Option<string>)
    ensures Sum(Place(groups, t, keyOf), GroupNet) == Sum(groups, GroupNet) + SlicedNet(keyOf)(t)
  {
    if keyOf(t).Some? {
      var key := keyOf(t).value;
      var i := FindGroup(groups, key);
      if i < |groups| {
        SumReplace(groups, i, Group(key, groups[i].trades + [t]), GroupNet);
        SumAppend(groups[i].trades, t, NetOf);
      } else {
        SumAppend(groups, Group(key, [t]), GroupNet);
        assert [] + [t] == [t];
        SumAppend([], t, NetOf);
      }
    }
  }

  /** `groupBy` (BacktestMetrics.ts:105-115) before sorting: a partition by key whose net results add up. */
  method GroupBy(trades: seq<SimTrade>, keyOf: SimTrade -> Option<string>) returns (groups: seq<Group>)
    ensures Groups(groups, trades, keyOf) && Covered(groups, trades, keyOf)
    ensures Sum(groups, GroupNet) == Sum(trades, SlicedNet(keyOf))
  {
    groups := [];
    for k := 0 to |trades|
      invariant Groups(groups, trades[..k], keyOf) && Covered(groups, trades[..k], keyOf)
      invariant Sum(groups, GroupNet) == Sum(trades[..k], SlicedNet(keyOf))
    {
      assert trades[..k + 1] == trades[..k] + [trades[k]];
      PlaceGroups(groups, trades[..k], trades[k], keyOf);
      PlaceCovers(groups, trades[..k], trades[k], keyOf);
      PlaceNet(groups, trades[k], keyOf);
      SumAppend(trades[..k], trades[k], SlicedNet(keyOf));
      groups := Place(groups, trades[k], keyOf);
    }
    assert trades[..|trades|] == trades;
  }
}
