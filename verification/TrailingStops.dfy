/** Trailing stops: src/agents/TrailingStopManager.ts and the write-back in AdaptiveSuperTrendAgent.ts. */
module TrailingStops {
  import opened Common
  import opened SymbolRules

  datatype Regime = High | Medium | Low

  /** The agent's view of a symbol: its latest bar. */
  datatype TrailState = TrailState(assignedAtr: real, regime: Option<Regime>, superTrend: Option<real>)

  datatype Levels = Levels(stopLoss: real, takeProfit: real)

  /** What stays fixed over a position's life: side, entry and the risk recorded at entry. */
  datatype Terms = Terms(side: Side, entry: real, initialRisk: Option<real>)

  const TP_TRIGGER_ATR := 0.5
  const TP_EXTENSION_ATR := 1.0
  const LOW_TP_MULTIPLE := 2.0

  function Tighter(side: Side, a: real, b: real): real {
    if side.Long? then Max(a, b) else Min(a, b)
  }

  function Gain(terms: Terms, mark: real): real {
    (mark - terms.entry) * Direction(terms.side)
  }

  /** The price that locks `profit` per unit above (long) or below (short) the entry. */
  function Lock(terms: Terms, profit: real): real {
    if terms.side.Long? then terms.entry + profit else terms.entry - profit
  }

  function Behind(side: Side, mark: real, distance: real): real {
    if side.Long? then mark - distance else mark + distance
  }

  /** TrailingStopManager.ts:29-42. */
  function ApplyProfitTiers(terms: Terms, stopLoss: real, mark: real, oneR: real, atr: real): real {
    var gain := Gain(terms, mark);
    if oneR <= 0.0 || gain < oneR then stopLoss
    else
      var sl := Tighter(terms.side, stopLoss, terms.entry);
      var sl := if gain >= 1.5 * oneR then Tighter(terms.side, sl, Lock(terms, 0.5 * oneR)) else sl;
      var sl := if gain >= 2.0 * oneR
                then Tighter(terms.side, Tighter(terms.side, sl, Lock(terms, oneR)),
                             Behind(terms.side, mark, 1.5 * atr))
                else sl;
      if gain >= 3.0 * oneR then Tighter(terms.side, sl, Lock(terms, 2.0 * oneR)) else sl
  }

  /** TrailingStopManager.ts:54-70. */
  function ApplyTargetExtensions(terms: Terms, l: Levels, mark: real, state: TrailState): Levels {
    var d := Direction(terms.side);
    var atr := state.assignedAtr;
    var near := (l.takeProfit - mark) * d <= TP_TRIGGER_ATR * atr;
    var sl := if near then Tighter(terms.side, l.stopLoss, l.takeProfit - d * atr) else l.stopLoss;
    var tp := if near then l.takeProfit + d * TP_EXTENSION_ATR * atr else l.takeProfit;
    var cap := mark + d * LOW_TP_MULTIPLE * atr;
    var capped := state.regime == Some(Low) && Gain(terms, mark) > 0.0 && (tp - cap) * d > TP_TRIGGER_ATR * atr;
    Levels(sl, if capped then cap else tp)
  }

  /** One R: the recorded risk, or the distance to the current stop when none was recorded. */
  function OneR(terms: Terms, currentStop: real): real {
    if terms.initialRisk.Some? then terms.initialRisk.value else Abs(terms.entry - currentStop)
  }

  predicate Tracked(l: Levels) {
    l.stopLoss > 0.0 && l.takeProfit > 0.0
  }

  /** The levels the rules ask for before the unchanged ones are dropped. */
  function Wanted(terms: Terms, l: Levels, mark: real, state: TrailState): Levels {
    var base := if state.superTrend.Some? then Tighter(terms.side, l.stopLoss, state.superTrend.value) else l.stopLoss;
    var tiered := ApplyProfitTiers(terms, base, mark, OneR(terms, l.stopLoss), state.assignedAtr);
    ApplyTargetExtensions(terms, Levels(tiered, l.takeProfit), mark, state)
  }

  /** TrailingStopManager.ts:76-96; a missing or non-numeric level arrives as 0. */
  function NextStops(terms: Terms, l: Levels, mark: real, state: TrailState): Option<Levels> {
    if !Tracked(l) || Wanted(terms, l, mark, state) == l then None else Some(Wanted(terms, l, mark, state))
  }

  function RoundLevels(l: Levels, r: Rules): Levels
    requires WellFormed(r)
  {
    Levels(RoundPrice(l.stopLoss, r), RoundPrice(l.takeProfit, r))
  }

  /** The update `stopUpdates` emits for one position (AdaptiveSuperTrendAgent.ts:104-110). */
  function UpdateFor(terms: Terms, l: Levels, mark: real, state: Option<TrailState>, r: Rules): Option<Levels>
    requires WellFormed(r)
  {
    if state.None? then None
    else
      match NextStops(terms, l, mark, state.value)
      case None => None
      case Some(next) => if RoundLevels(next, r) == l then None else Some(RoundLevels(next, r))
  }

  /** The levels the position carries once an emitted update is written back. */
  function WrittenBack(terms: Terms, l: Levels, mark: real, state: Option<TrailState>, r: Rules): Levels
    requires WellFormed(r)
  {
    match UpdateFor(terms, l, mark, state, r)
    case None => l
    case Some(next) => next
  }

  /** One evaluation: the mark it saw and the agent's bar for the symbol, if it has one. */
  datatype Tick = Tick(mark: real, state: Option<TrailState>)

  function Run(terms: Terms, l: Levels, ticks: seq<Tick>, r: Rules): Levels
    requires WellFormed(r)
    decreases |ticks|
  {
    if ticks == [] then l
    else Run(terms, WrittenBack(terms, l, ticks[0].mark, ticks[0].state, r), ticks[1..], r)
  }

  // ----- stopUpdates: the loop over positions -----

  datatype Position = Position(symbol: string, strategy: string, terms: Terms, levels: Levels, mark: real)

  datatype StopUpdate = StopUpdate(symbol: string, strategy: string, levels: Levels)

  /** The bar only matters for the agent's own positions. */
  function StateOf(p: Position, id: string, latest: map<string, TrailState>): Option<TrailState> {
    if p.strategy == id then Get(latest, p.symbol) else None
  }

  function PositionUpdate(p: Position, id: string, latest: map<string, TrailState>,
                          rules: string -> Rules): Option<Levels>
    requires WellFormed(rules(p.symbol))
  {
    UpdateFor(p.terms, p.levels, p.mark, StateOf(p, id, latest), rules(p.symbol))
  }

  ghost predicate AllWellFormed(rules: string -> Rules) {
    forall s: string :: WellFormed(rules(s))
  }

  /** The updates of the first `n` positions, in order. */
  ghost function Updates(ps: seq<Position>, n: nat, id: string, latest: map<string, TrailState>,
                         rules: string -> Rules): seq<StopUpdate>
    requires AllWellFormed(rules) && n <= |ps|
  {
    if n == 0 then []
    else
      var p := ps[n - 1];
      var update := PositionUpdate(p, id, latest, rules);
      Updates(ps, n - 1, id, latest, rules)
        + (if update.Some? then [StopUpdate(p.symbol, p.strategy, update.value)] else [])
  }

  /** `stopUpdates` (AdaptiveSuperTrendAgent.ts:101-113): unchanged and foreign positions are omitted. */
  method StopUpdates(ps: seq<Position>, id: string, latest: map<string, TrailState>, rules: string -> Rules)
      returns (updates: seq<StopUpdate>)
    requires AllWellFormed(rules)
    ensures updates == Updates(ps, |ps|, id, latest, rules)
  {
    updates := [];
    for i := 0 to |ps|
      invariant updates == Updates(ps, i, id, latest, rules)
    {
      var p := ps[i];
      var state := StateOf(p, id, latest);
      if state.Some? {
        var next := NextStops(p.terms, p.levels, p.mark, state.value);
        if next.Some? {
          var rounded := RoundLevels(next.value, rules(p.symbol));
          if rounded != p.levels {
            updates := updates + [StopUpdate(p.symbol, p.strategy, rounded)];
          }
        }
      }
    }
  }

  /** Every update sent belongs to one of the agent's positions and really changes its levels. */
  lemma {:induction false} UpdatesAreOwnAndReal(ps: seq<Position>, n: nat, id: string, latest: map<string, TrailState>,
                                                rules: string -> Rules, u: StopUpdate)
    requires AllWellFormed(rules) && n <= |ps| && u in Updates(ps, n, id, latest, rules)
    ensures exists i :: 0 <= i < n && ps[i].symbol == u.symbol && ps[i].strategy == u.strategy == id
                        && ps[i].levels != u.levels
  {
    if n > 0 {
      var p := ps[n - 1];
      var update := PositionUpdate(p, id, latest, rules);
      if u in Updates(ps, n - 1, id, latest, rules) {
        UpdatesAreOwnAndReal(ps, n - 1, id, latest, rules, u);
      } else {
        assert u == StopUpdate(p.symbol, p.strategy, update.value);
      }
    }
  }

  /** An own position whose symbol has a bar and whose levels are known is updated when its rounded levels change. */
  lemma {:induction false} OwnChangesAreSent(ps: seq<Position>, n: nat, id: string, latest: map<string, TrailState>,
                                             rules: string -> Rules, i: nat)
    requires AllWellFormed(rules) && i < n <= |ps| && ps[i].strategy == id && ps[i].symbol in latest
    requires ps[i].levels.stopLoss > 0.0 && ps[i].levels.takeProfit > 0.0
    requires
      var wanted := Wanted(ps[i].terms, ps[i].levels, ps[i].mark, latest[ps[i].symbol]);
      wanted != ps[i].levels && RoundLevels(wanted, rules(ps[i].symbol)) != ps[i].levels
    ensures
      var wanted := Wanted(ps[i].terms, ps[i].levels, ps[i].mark, latest[ps[i].symbol]);
      StopUpdate(ps[i].symbol, id, RoundLevels(wanted, rules(ps[i].symbol))) in Updates(ps, n, id, latest, rules)
  {
    if i < n - 1 {
      OwnChangesAreSent(ps, n - 1, id, latest, rules, i);
    }
  }

  /** The levels written back are the wanted ones, each at its nearest tick, or nothing changes. */
  lemma WrittenBackIsWanted(terms: Terms, l: Levels, mark: real, state: TrailState, r: Rules)
    requires WellFormed(r)
    ensures
      var wanted, after := Wanted(terms, l, mark, state), WrittenBack(terms, l, mark, Some(state), r);
      after == l || (IsNearestTick(after.stopLoss, wanted.stopLoss, r)
                     && IsNearestTick(after.takeProfit, wanted.takeProfit, r))
  {
    RoundPriceIsNearestTick(Wanted(terms, l, mark, state).stopLoss, r);
    RoundPriceIsNearestTick(Wanted(terms, l, mark, state).takeProfit, r);
  }

  ghost predicate IsNearestTick(rounded: real, price: real, r: Rules)
    requires WellFormed(r)
  {
    OnGrid(rounded, r.tick) && -0.5 * r.tick <= rounded - price <= 0.5 * r.tick
  }

  /** A position with a level missing is left alone. */
  lemma UnknownLevelsAreLeft(terms: Terms, l: Levels, mark: real, state: Option<TrailState>, r: Rules)
    requires WellFormed(r) && (l.stopLoss <= 0.0 || l.takeProfit <= 0.0)
    ensures WrittenBack(terms, l, mark, state, r) == l
  {}

  // ----- what the rules ask for -----

  /** How far `to` lies ahead of `from`, in the direction of the position's profit. */
  function Ahead(side: Side, from: real, to: real): real {
    if side.Long? then to - from else from - to
  }

  /** A level some rule asks the stop to be at, at this mark. */
  ghost predicate Asks(terms: Terms, l: Levels, mark: real, state: TrailState, level: real) {
    || level == l.stopLoss
    || state.superTrend == Some(level)
    || GainAsks(terms, level, mark, OneR(terms, l.stopLoss), state.assignedAtr)
    || TargetAsks(terms, level, l.takeProfit, mark, state.assignedAtr)
  }

  /** The tiers, and from two units of gain on the trail at one and a half ATR behind the mark. */
  predicate GainAsks(terms: Terms, level: real, mark: real, oneR: real, atr: real) {
    var gain, kept := Ahead(terms.side, terms.entry, mark), Ahead(terms.side, terms.entry, level);
    oneR > 0.0 &&
    ( || (gain >= oneR && kept == 0.0)
      || (gain >= 1.5 * oneR && kept == 0.5 * oneR)
      || (gain >= 2.0 * oneR && kept == oneR)
      || (gain >= 2.0 * oneR && kept == gain - 1.5 * atr)
      || (gain >= 3.0 * oneR && kept == 2.0 * oneR))
  }

  /** Within half an ATR of the target, one ATR before it. */
  predicate TargetAsks(terms: Terms, level: real, target: real, mark: real, atr: real) {
    Ahead(terms.side, mark, target) <= 0.5 * atr && Ahead(terms.side, level, target) == atr
  }

  /** The stop goes to the tightest level any rule asks for, and to no other. */
  lemma StopIsTheTightestAsked(terms: Terms, l: Levels, mark: real, state: TrailState)
    ensures
      var stop := Wanted(terms, l, mark, state).stopLoss;
      Asks(terms, l, mark, state, stop)
      && forall level :: Asks(terms, l, mark, state, level) ==> NoLooser(terms.side, stop, level)
  {
    var base := if state.superTrend.Some? then Tighter(terms.side, l.stopLoss, state.superTrend.value) else l.stopLoss;
    var oneR := OneR(terms, l.stopLoss);
    var tiered := ApplyProfitTiers(terms, base, mark, oneR, state.assignedAtr);
    var stop := Wanted(terms, l, mark, state).stopLoss;
    TierIsAsked(terms, base, mark, oneR, state.assignedAtr);
    TargetTakesTheTighter(terms, Levels(tiered, l.takeProfit), mark, state);
    forall level | Asks(terms, l, mark, state, level) ensures NoLooser(terms.side, stop, level) {
      if GainAsks(terms, level, mark, oneR, state.assignedAtr) {
        TiersAreNoLooser(terms, base, mark, oneR, state.assignedAtr, level);
      }
    }
  }

  lemma TierIsAsked(terms: Terms, base: real, mark: real, oneR: real, atr: real)
    ensures
      var stop := ApplyProfitTiers(terms, base, mark, oneR, atr);
      (stop == base || GainAsks(terms, stop, mark, oneR, atr)) && NoLooser(terms.side, stop, base)
  {}

  lemma TiersAreNoLooser(terms: Terms, base: real, mark: real, oneR: real, atr: real, level: real)
    requires GainAsks(terms, level, mark, oneR, atr)
    ensures NoLooser(terms.side, ApplyProfitTiers(terms, base, mark, oneR, atr), level)
  {}

  lemma TargetTakesTheTighter(terms: Terms, l: Levels, mark: real, state: TrailState)
    ensures
      var stop := ApplyTargetExtensions(terms, l, mark, state).stopLoss;
      && (stop == l.stopLoss || TargetAsks(terms, stop, l.takeProfit, mark, state.assignedAtr))
      && NoLooser(terms.side, stop, l.stopLoss)
      && forall level :: TargetAsks(terms, level, l.takeProfit, mark, state.assignedAtr) ==>
                           NoLooser(terms.side, stop, level)
  {}

  /**
   * The target, as a distance ahead of the mark: within half an ATR it moves one ATR on; and in a low regime a position
   * in profit has it brought back to two ATR whenever it is more than two and a half ahead.
   */
  lemma TargetKeepsItsDistance(terms: Terms, l: Levels, mark: real, state: TrailState)
    ensures
      var atr, before := state.assignedAtr, Ahead(terms.side, mark, l.takeProfit);
      var extended := if before <= 0.5 * atr then before + atr else before;
      Ahead(terms.side, mark, Wanted(terms, l, mark, state).takeProfit) ==
      if state.regime == Some(Low) && Ahead(terms.side, terms.entry, mark) > 0.0 && extended > 2.5 * atr then 2.0 * atr
      else extended
  {}

  // ----- the ratchet -----

  lemma WantedNeverLoosens(terms: Terms, l: Levels, mark: real, state: TrailState)
    ensures NoLooser(terms.side, Wanted(terms, l, mark, state).stopLoss, l.stopLoss)
  {}

  /**
   * One write-back is never looser than the rounded current stop: only a stop that was off the
   * grid to begin with can move away from the market, and then by its own rounding alone.
   */
  lemma WrittenBackBound(terms: Terms, l: Levels, tick: Tick, r: Rules)
    requires WellFormed(r)
    ensures
      var after := WrittenBack(terms, l, tick.mark, tick.state, r);
      after == l || NoLooser(terms.side, after.stopLoss, RoundPrice(l.stopLoss, r))
  {
    if tick.state.Some? {
      WantedNeverLoosens(terms, l, tick.mark, tick.state.value);
      RoundPriceKeepsTightness(terms.side, Wanted(terms, l, tick.mark, tick.state.value).stopLoss, l.stopLoss, r);
    }
  }

  lemma WrittenBackStaysOnGrid(terms: Terms, l: Levels, tick: Tick, r: Rules)
    requires WellFormed(r)
    requires OnGrid(l.stopLoss, r.tick)
    ensures OnGrid(WrittenBack(terms, l, tick.mark, tick.state, r).stopLoss, r.tick)
  {
    if tick.state.Some? {
      RoundPriceIsNearestTick(Wanted(terms, l, tick.mark, tick.state.value).stopLoss, r);
    }
  }

  lemma StepNeverLoosens(terms: Terms, l: Levels, tick: Tick, r: Rules)
    requires WellFormed(r)
    requires OnGrid(l.stopLoss, r.tick)
    ensures NoLooser(terms.side, WrittenBack(terms, l, tick.mark, tick.state, r).stopLoss, l.stopLoss)
  {
    WrittenBackBound(terms, l, tick, r);
    RoundPriceKeepsTicks(l.stopLoss, r);
  }

  /** Main result: over any sequence of marks and bars, a stop on the tick grid only ever tightens. */
  lemma {:induction false} StopOnlyTightens(terms: Terms, l: Levels, ticks: seq<Tick>, r: Rules)
    requires WellFormed(r)
    requires OnGrid(l.stopLoss, r.tick)
    ensures OnGrid(Run(terms, l, ticks, r).stopLoss, r.tick)
    ensures NoLooser(terms.side, Run(terms, l, ticks, r).stopLoss, l.stopLoss)
    decreases |ticks|
  {
    if ticks != [] {
      StepNeverLoosens(terms, l, ticks[0], r);
      WrittenBackStaysOnGrid(terms, l, ticks[0], r);
      StopOnlyTightens(terms, WrittenBack(terms, l, ticks[0].mark, ticks[0].state, r), ticks[1..], r);
    }
  }

  /** A tick on which nothing but the target moves, whatever the entry and risk: the mark sits at the entry. */
  function TargetOnlyTick(terms: Terms, l: Levels): Tick {
    var atr := 2.0 * Abs(l.takeProfit - terms.entry) + Abs(l.takeProfit - l.stopLoss) + 1.0;
    Tick(terms.entry, Some(TrailState(atr, None, None)))
  }

  lemma TargetOnlyTickKeepsTheStop(terms: Terms, l: Levels)
    requires terms.initialRisk.Some?
    ensures
      var tick := TargetOnlyTick(terms, l);
      var wanted := Wanted(terms, l, tick.mark, tick.state.value);
      wanted.stopLoss == l.stopLoss && wanted.takeProfit != l.takeProfit
  {}

  /**
   * Exactly when the written-back stop cannot loosen: a tracked stop is safe from every tick if and
   * only if rounding it does not itself move it away from the market.
   */
  lemma LoosensExactlyByItsRounding(terms: Terms, l: Levels, r: Rules)
    requires WellFormed(r) && Tracked(l) && terms.initialRisk.Some?
    ensures NoLooser(terms.side, RoundPrice(l.stopLoss, r), l.stopLoss)
       <==> forall tick: Tick ::
              NoLooser(terms.side, WrittenBack(terms, l, tick.mark, tick.state, r).stopLoss, l.stopLoss)
  {
    forall tick: Tick | NoLooser(terms.side, RoundPrice(l.stopLoss, r), l.stopLoss)
      ensures NoLooser(terms.side, WrittenBack(terms, l, tick.mark, tick.state, r).stopLoss, l.stopLoss)
    {
      WrittenBackBound(terms, l, tick, r);
    }
    var tick := TargetOnlyTick(terms, l);
    TargetOnlyTickKeepsTheStop(terms, l);
    assert WrittenBack(terms, l, tick.mark, tick.state, r).stopLoss == RoundPrice(l.stopLoss, r);
  }

  // ----- profit locks -----

  /** The four tiers: seeing `multiple` R of gain locks `locked` R of profit. */
  datatype Tier = Tier(multiple: real, locked: real)

  /** A distance of `multiple` R. */
  function Rs(multiple: real, oneR: real): real {
    multiple * oneR
  }

  const TIERS: set<Tier> := {Tier(1.0, 0.0), Tier(1.5, 0.5), Tier(2.0, 1.0), Tier(3.0, 2.0)}

  /** The tick reached the tier while the position was tracked by the agent. */
  predicate Reaches(terms: Terms, l: Levels, tick: Tick, tier: Tier) {
    && terms.initialRisk.Some? && terms.initialRisk.value > 0.0
    && tick.state.Some? && Tracked(l)
    && Gain(terms, tick.mark) >= Rs(tier.multiple, terms.initialRisk.value)
  }

  function LockOf(terms: Terms, tier: Tier): real
    requires terms.initialRisk.Some?
  {
    Lock(terms, Rs(tier.locked, terms.initialRisk.value))
  }

  lemma TiersLock(terms: Terms, stopLoss: real, mark: real, oneR: real, atr: real, tier: Tier)
    requires tier in TIERS && oneR > 0.0 && Gain(terms, mark) >= Rs(tier.multiple, oneR)
    ensures NoLooser(terms.side, ApplyProfitTiers(terms, stopLoss, mark, oneR, atr), Lock(terms, Rs(tier.locked, oneR)))
  {}

  lemma WantedLocks(terms: Terms, l: Levels, tick: Tick, tier: Tier)
    requires tier in TIERS && Reaches(terms, l, tick, tier)
    ensures NoLooser(terms.side, Wanted(terms, l, tick.mark, tick.state.value).stopLoss, LockOf(terms, tier))
  {
    var state := tick.state.value;
    var base := if state.superTrend.Some? then Tighter(terms.side, l.stopLoss, state.superTrend.value) else l.stopLoss;
    TiersLock(terms, base, tick.mark, terms.initialRisk.value, state.assignedAtr, tier);
  }

  /** One tick that reaches a tier leaves the stop no looser than the lock, up to its rounding. */
  lemma StepLocks(terms: Terms, l: Levels, tick: Tick, tier: Tier, r: Rules)
    requires WellFormed(r) && OnGrid(l.stopLoss, r.tick)
    requires tier in TIERS && Reaches(terms, l, tick, tier)
    ensures NoLooser(terms.side, WrittenBack(terms, l, tick.mark, tick.state, r).stopLoss,
                     RoundPrice(LockOf(terms, tier), r))
  {
    WantedLocks(terms, l, tick, tier);
    RoundPriceKeepsTightness(terms.side, Wanted(terms, l, tick.mark, tick.state.value).stopLoss, LockOf(terms, tier),
                             r);
    RoundPriceKeepsTicks(l.stopLoss, r);
  }

  /**
   * Main result: once an update has seen 1R, 1.5R, 2R or 3R of gain, the stop never again sits below
   * entry, +0.5R, +1R or +2R by more than half a tick, whatever marks and bars follow.
   */
  lemma ProfitStaysLocked(terms: Terms, l: Levels, before: seq<Tick>, tick: Tick, later: seq<Tick>, tier: Tier,
                          r: Rules)
    requires WellFormed(r) && OnGrid(l.stopLoss, r.tick)
    requires tier in TIERS && Reaches(terms, Run(terms, l, before, r), tick, tier)
    ensures
      var stop := Run(terms, l, before + [tick] + later, r).stopLoss;
      && NoLooser(terms.side, stop, RoundPrice(LockOf(terms, tier), r))
      && NoLooser(terms.side, stop, LockOf(terms, tier) - Direction(terms.side) * (0.5 * r.tick))
  {
    var at := Run(terms, l, before, r);
    StopOnlyTightens(terms, l, before, r);
    StepLocks(terms, at, tick, tier, r);
    WrittenBackStaysOnGrid(terms, at, tick, r);
    var after := WrittenBack(terms, at, tick.mark, tick.state, r);
    StopOnlyTightens(terms, after, later, r);
    RunConcat(terms, l, before, [tick] + later, r);
    assert before + ([tick] + later) == before + [tick] + later;
    assert ([tick] + later)[1..] == later;
    RoundPriceIsNearestTick(LockOf(terms, tier), r);
  }

  lemma {:induction false} RunConcat(terms: Terms, l: Levels, a: seq<Tick>, b: seq<Tick>, r: Rules)
    requires WellFormed(r)
    ensures Run(terms, l, a + b, r) == Run(terms, Run(terms, l, a, r), b, r)
    decreases |a|
  {
    if a == [] {
      assert a + b == b;
    } else {
      assert (a + b)[1..] == a[1..] + b;
      RunConcat(terms, WrittenBack(terms, l, a[0].mark, a[0].state, r), a[1..], b, r);
    }
  }

  /**
   * Without a recorded risk the unit is the distance to the current stop, and shrinks with it. The profit tiers leave
   * the stop alone at every mark if and only if it stands exactly at the entry: there is no unit left, and no gain
   * locks more.
   */
  lemma UnrecordedRiskStopsLocking(terms: Terms, stopLoss: real, atr: real)
    requires terms.initialRisk.None?
    ensures (forall mark: real :: ApplyProfitTiers(terms, stopLoss, mark, OneR(terms, stopLoss), atr) == stopLoss) <==>
            stopLoss == terms.entry
  {
    var oneR := OneR(terms, stopLoss);
    if stopLoss != terms.entry {
      var mark := terms.entry + Direction(terms.side) * (3.0 * oneR);
      assert Gain(terms, mark) == 3.0 * oneR;
      TiersLock(terms, stopLoss, mark, oneR, atr, Tier(3.0, 2.0));
      assert ApplyProfitTiers(terms, stopLoss, mark, oneR, atr) != stopLoss;
    }
  }

  /** No tick shows a trend line or comes near the target. */
  ghost predicate Plain(terms: Terms, l: Levels, ticks: seq<Tick>, r: Rules)
    requires WellFormed(r)
    decreases |ticks|
  {
    ticks == [] ||
    ((ticks[0].state.Some? ==>
        && ticks[0].state.value.superTrend.None?
        && (l.takeProfit - ticks[0].mark) * Direction(terms.side) > TP_TRIGGER_ATR * ticks[0].state.value.assignedAtr)
     && Plain(terms, WrittenBack(terms, l, ticks[0].mark, ticks[0].state, r), ticks[1..], r))
  }

  /** So a stop at the entry stays there over any run that only the tiers could move it in, however large the gain. */
  lemma {:induction false} EntryStopIsStuck(terms: Terms, l: Levels, ticks: seq<Tick>, r: Rules)
    requires WellFormed(r) && terms.initialRisk.None? && l.stopLoss == terms.entry && OnGrid(terms.entry, r.tick)
    requires Plain(terms, l, ticks, r)
    ensures Run(terms, l, ticks, r).stopLoss == terms.entry
    decreases |ticks|
  {
    if ticks != [] {
      RoundPriceKeepsTicks(terms.entry, r);
      EntryStopIsStuck(terms, WrittenBack(terms, l, ticks[0].mark, ticks[0].state, r), ticks[1..], r);
    }
  }
}
