/** Closed trades reconstructed from executions: src/binance/liveJournal.ts:49-114 and 213-257. */
module LiveJournal {
  import opened Common
  import opened Sums

  type Quantity = x: real | x > 0.0 witness 1.0

  datatype OrderSide = Buy | Sell

  datatype Fill = Fill(id: int, symbol: string, orderId: int, side: OrderSide, price: real, qty: Quantity,
                       realizedPnl: real, commission: real, commissionAsset: string, time: int)

  datatype Funding = Funding(symbol: string, amount: real, time: int)

  datatype Event = FillEvent(fill: Fill) | FundingEvent(funding: Funding)

  datatype Trade = Trade(symbol: string, strategy: string, side: Side, entry: real, exit: real, qty: real, pnl: real,
                         closedAt: int)

  type OwnerLookup = (string, int) -> string

  // ----- one fill -----

  predicate Closes(f: Fill) {
    f.realizedPnl != 0.0
  }

  function UsdtFee(f: Fill): real {
    if f.commissionAsset == "USDT" then f.commission else 0.0
  }

  function UnpricedFee(f: Fill): real {
    if f.commissionAsset == "USDT" then 0.0 else f.commission
  }

  function SymbolOf(e: Event): string {
    if e.FillEvent? then e.fill.symbol else e.funding.symbol
  }

  function TimeOf(e: Event): int {
    if e.FillEvent? then e.fill.time else e.funding.time
  }

  function Times(a: real, b: real): real {
    a * b
  }

  function Over(a: real, q: Quantity): real {
    a / q
  }

  // ----- sums -----

  function QtyOf(f: Fill): real {
    f.qty
  }

  function CostOf(f: Fill): real {
    Times(f.price, f.qty)
  }

  function PnlOf(f: Fill): real {
    f.realizedPnl
  }

  function TotalQty(fills: seq<Fill>): (q: real)
    ensures fills != [] ==> q > 0.0
    ensures q >= 0.0
    ensures q == Sum(fills, QtyOf)
  {
    if fills == [] then 0.0 else TotalQty(fills[..|fills| - 1]) + fills[|fills| - 1].qty
  }

  /** The latest execution time of a non-empty group. */
  function LastTime(fills: seq<Fill>): int
    requires fills != []
  {
    var t := fills[|fills| - 1].time;
    if |fills| == 1 then t
    else
      var earlier := LastTime(fills[..|fills| - 1]);
      if earlier < t then t else earlier
  }

  // ----- the scan -----

  /** A finished group of closing executions, with the charges it took over. */
  datatype Closed = Closed(fills: seq<Fill>, charges: real)

  /** The loop variables; `group` is empty when no close is in progress. */
  datatype Scan = Scan(carry: map<string, real>, closed: seq<Closed>, group: seq<Fill>, unpriced: real)

  function CarryOf(carry: map<string, real>, symbol: string): real {
    if symbol in carry then carry[symbol] else 0.0
  }

  /** A sell closes a long. */
  function DirectionOf(side: OrderSide): real {
    if side.Sell? then 1.0 else -1.0
  }

  /** The trade of one finished group (liveJournal.ts:66-94): entry recovered from the realized result. */
  function TradeOf(c: Closed, ownerOf: OwnerLookup): Trade
    requires c.fills != []
  {
    var qty := TotalQty(c.fills);
    var exit := Over(Sum(c.fills, CostOf), qty);
    var realized := Sum(c.fills, PnlOf);
    var first := c.fills[0];
    Trade(first.symbol, ownerOf(first.symbol, LastTime(c.fills)), if first.side.Sell? then Long else Short,
          exit - Over(Times(DirectionOf(first.side), realized), qty), exit, qty,
          realized - Sum(c.fills, UsdtFee) + c.charges, LastTime(c.fills))
  }

  function Finish(s: Scan): Scan {
    if s.group == [] then s
    else
      var symbol := s.group[0].symbol;
      Scan(s.carry[symbol := 0.0], s.closed + [Closed(s.group, CarryOf(s.carry, symbol))], [],
           s.unpriced + Sum(s.group, UnpricedFee))
  }

  predicate SameOrder(f: Fill, g: Fill) {
    f.orderId == g.orderId && f.symbol == g.symbol
  }

  /** One event (liveJournal.ts:96-111): only a closing execution of another order ends the group in progress. */
  function Step(s: Scan, e: Event): Scan {
    match e
    case FundingEvent(funding) =>
      s.(carry := s.carry[funding.symbol := CarryOf(s.carry, funding.symbol) + funding.amount])
    case FillEvent(f) =>
      if !Closes(f) then
        s.(carry := s.carry[f.symbol := CarryOf(s.carry, f.symbol) - UsdtFee(f)],
           unpriced := s.unpriced + UnpricedFee(f))
      else
        var ready := if s.group != [] && !SameOrder(s.group[0], f) then Finish(s) else s;
        ready.(group := ready.group + [f])
  }

  function ScanOf(events: seq<Event>, pending: map<string, real>): Scan {
    if events == [] then Scan(pending, [], [], 0.0)
    else Step(ScanOf(events[..|events| - 1], pending), events[|events| - 1])
  }

  function Built(events: seq<Event>, pending: map<string, real>): Scan {
    Finish(ScanOf(events, pending))
  }

  ghost predicate NonEmpty(closed: seq<Closed>) {
    forall k :: 0 <= k < |closed| ==> closed[k].fills != []
  }

  lemma {:induction false} ScanNonEmpty(events: seq<Event>, pending: map<string, real>)
    ensures NonEmpty(ScanOf(events, pending).closed)
    ensures NonEmpty(Built(events, pending).closed)
  {
    if events != [] {
      ScanNonEmpty(events[..|events| - 1], pending);
    }
  }

  ghost predicate IsTrades(trades: seq<Trade>, closed: seq<Closed>, ownerOf: OwnerLookup)
    requires NonEmpty(closed)
  {
    |trades| == |closed| && forall k :: 0 <= k < |trades| ==> trades[k] == TradeOf(closed[k], ownerOf)
  }

  // ----- sorting by time -----

  /** A stable insertion of the last event among the sorted earlier ones. */
  function Insert(events: seq<Event>, e: Event): seq<Event> {
    if events == [] || TimeOf(events[|events| - 1]) <= TimeOf(e) then events + [e]
    else Insert(events[..|events| - 1], e) + [events[|events| - 1]]
  }

  function SortByTime(events: seq<Event>): seq<Event> {
    if events == [] then [] else Insert(SortByTime(events[..|events| - 1]), events[|events| - 1])
  }

  function FillEvents(fills: seq<Fill>): (r: seq<Event>)
    ensures |r| == |fills|
  {
    seq(|fills|, k requires 0 <= k < |fills| => FillEvent(fills[k]))
  }

  function FundingEvents(funding: seq<Funding>): (r: seq<Event>)
    ensures |r| == |funding|
  {
    seq(|funding|, k requires 0 <= k < |funding| => FundingEvent(funding[k]))
  }

  /** `closedTradesFromFills` (liveJournal.ts:49-114). */
  method ClosedTradesFromFills(fills: seq<Fill>, funding: seq<Funding>, ownerOf: OwnerLookup,
                               pending: map<string, real>)
      returns (trades: seq<Trade>, unpricedFees: real, carry: map<string, real>)
    ensures
      var built := Built(SortByTime(FillEvents(fills) + FundingEvents(funding)), pending);
      && NonEmpty(built.closed) && IsTrades(trades, built.closed, ownerOf)
      && carry == built.carry && unpricedFees == built.unpriced
  {
    var events := SortByTime(FillEvents(fills) + FundingEvents(funding));
    trades, unpricedFees, carry := [], 0.0, pending;
    var group: seq<Fill> := [];
    ghost var scan := ScanOf([], pending);
    for i := 0 to |events|
      invariant scan == ScanOf(events[..i], pending) && NonEmpty(scan.closed)
      invariant IsTrades(trades, scan.closed, ownerOf)
      invariant unpricedFees == scan.unpriced && carry == scan.carry && group == scan.group
    {
      assert events[..i + 1][..i] == events[..i];
      trades, unpricedFees, carry, group := TakeEvent(scan, events[i], trades, unpricedFees, carry, group, ownerOf);
      scan := Step(scan, events[i]);
    }
    assert events[..|events|] == events;
    if group != [] {
      trades, unpricedFees, carry := FinishGroup(scan, trades, unpricedFees, carry, group, ownerOf);
    }
  }

  /** One event of the loop (liveJournal.ts:96-111). */
  method TakeEvent(ghost scan: Scan, e: Event, trades: seq<Trade>, unpricedFees: real, carry: map<string, real>,
                   group: seq<Fill>, ownerOf: OwnerLookup)
      returns (trades': seq<Trade>, unpricedFees': real, carry': map<string, real>, group': seq<Fill>)
    requires NonEmpty(scan.closed) && IsTrades(trades, scan.closed, ownerOf)
    requires unpricedFees == scan.unpriced && carry == scan.carry && group == scan.group
    ensures var next := Step(scan, e);
            && NonEmpty(next.closed) && IsTrades(trades', next.closed, ownerOf)
            && unpricedFees' == next.unpriced && carry' == next.carry && group' == next.group
  {
    trades', unpricedFees', carry', group' := trades, unpricedFees, carry, group;
    match e {
      case FundingEvent(f) =>
        carry' := carry[f.symbol := CarryOf(carry, f.symbol) + f.amount];
      case FillEvent(f) =>
        if !Closes(f) {
          carry' := carry[f.symbol := CarryOf(carry, f.symbol) - UsdtFee(f)];
          unpricedFees' := unpricedFees + UnpricedFee(f);
        } else {
          if group != [] && !SameOrder(group[0], f) {
            trades', unpricedFees', carry' := FinishGroup(scan, trades, unpricedFees, carry, group, ownerOf);
            group' := [];
          }
          group' := group' + [f];
        }
    }
  }

  /** `finish` (liveJournal.ts:66-94). */
  method FinishGroup(ghost scan: Scan, trades: seq<Trade>, unpricedFees: real, carry: map<string, real>,
                     group: seq<Fill>,
                     ownerOf: OwnerLookup)
      returns (trades': seq<Trade>, unpricedFees': real, carry': map<string, real>)
    requires group != [] && group == scan.group && NonEmpty(scan.closed)
    requires IsTrades(trades, scan.closed, ownerOf) && unpricedFees == scan.unpriced && carry == scan.carry
    ensures NonEmpty(Finish(scan).closed) && IsTrades(trades', Finish(scan).closed, ownerOf)
    ensures unpricedFees' == Finish(scan).unpriced && carry' == Finish(scan).carry
  {
    var fees, unpriced := 0.0, 0.0;
    for i := 0 to |group|
      invariant fees == Sum(group[..i], UsdtFee) && unpriced == Sum(group[..i], UnpricedFee)
    {
      assert group[..i + 1][..i] == group[..i];
      if group[i].commissionAsset == "USDT" {
        fees := fees + group[i].commission;
      } else {
        unpriced := unpriced + group[i].commission;
      }
    }
    assert group[..|group|] == group;
    var symbol, side := group[0].symbol, group[0].side;
    var qty := TotalQty(group);
    var exit := Over(Sum(group, CostOf), qty);
    var realized := Sum(group, PnlOf);
    var closedAt := LastTime(group);
    trades' := trades + [Trade(symbol, ownerOf(symbol, closedAt), if side.Sell? then Long else Short,
                               exit - Over(Times(DirectionOf(side), realized), qty), exit, qty,
                               realized - fees + CarryOf(carry, symbol), closedAt)];
    carry' := carry[symbol := 0.0];
    unpricedFees' := unpricedFees + unpriced;
  }

  // ----- owners -----

  const EXECUTOR := "EXECUTOR-\U{03B5}"

  datatype OwnerRecord = OwnerRecord(symbol: string, side: Side, strategy: string, submittedAt: int)

  predicate Matches(r: OwnerRecord, symbol: string, at: int, side: Option<Side>) {
    r.symbol == symbol && (side.None? || r.side == side.value) && r.submittedAt <= at
  }

  /** The record at `k` is the owner's: the latest match, the first of equals. */
  ghost predicate IsOwner(records: seq<OwnerRecord>, k: nat, symbol: string, at: int, side: Option<Side>) {
    && k < |records| && Matches(records[k], symbol, at, side)
    && (forall j :: 0 <= j < |records| && Matches(records[j], symbol, at, side) ==>
        records[j].submittedAt <= records[k].submittedAt)
    && (forall j :: 0 <= j < k && Matches(records[j], symbol, at, side) ==>
        records[j].submittedAt < records[k].submittedAt)
  }

  /** `ownerAt` (liveJournal.ts:246-256): the last match of the scan, or the fallback owner. */
  method OwnerAt(records: seq<OwnerRecord>, symbol: string, at: int, side: Option<Side>) returns (owner: string)
    ensures (forall j :: 0 <= j < |records| ==> !Matches(records[j], symbol, at, side)) ==> owner == EXECUTOR
    ensures forall k :: 0 <= k < |records| && IsOwner(records, k, symbol, at, side) ==> owner == records[k].strategy
    ensures (exists j :: 0 <= j < |records| && Matches(records[j], symbol, at, side)) ==>
              exists k :: 0 <= k < |records| && IsOwner(records, k, symbol, at, side)
    ensures owner == EXECUTOR
            || exists k :: 0 <= k < |records| && owner == records[k].strategy && records[k].symbol == symbol
                           && records[k].submittedAt <= at && (side.Some? ==> records[k].side == side.value)
    ensures forall j ::
              (0 <= j < |records| && records[j].symbol == symbol && records[j].submittedAt <= at
               && (side.Some? ==> records[j].side == side.value)) ==>
                exists k :: 0 <= k < |records| && owner == records[k].strategy && records[k].symbol == symbol
                            && records[j].submittedAt <= records[k].submittedAt <= at
  {
    owner := EXECUTOR;
    var latest := None;
    ghost var best := 0;
    for i := 0 to |records|
      invariant latest.None? ==> owner == EXECUTOR && forall j :: 0 <= j < i ==> !Matches(records[j], symbol, at, side)
      invariant latest.Some? ==> best < i && IsOwner(records[..i], best, symbol, at, side)
                                 && owner == records[best].strategy && latest.value == records[best].submittedAt
    {
      var r := records[i];
      if Matches(r, symbol, at, side) && (latest.None? || r.submittedAt > latest.value) {
        owner, latest, best := r.strategy, Some(r.submittedAt), i;
      }
    }
    assert records[..|records|] == records;
  }
}
