/** Following one live entry to resolution: src/binance/liveEntry.ts:158-249. */
module LiveEntry {
  import opened Common

  /** Ids of the two closePosition legs of one placement. */
  datatype LegIds = LegIds(stopOrderId: Option<int>, tpOrderId: Option<int>)

  function IdSet(o: Option<int>): set<int> {
    if o.Some? then {o.value} else {}
  }

  function Ids(legs: LegIds): set<int> {
    IdSet(legs.stopOrderId) + IdSet(legs.tpOrderId)
  }

  function CurrentIds(legs: Option<LegIds>): set<int> {
    if legs.Some? then Ids(legs.value) else {}
  }

  function StaleIds(stale: seq<LegIds>): set<int> {
    if stale == [] then {} else StaleIds(stale[..|stale| - 1]) + Ids(stale[|stale| - 1])
  }

  lemma {:induction false} StaleContains(stale: seq<LegIds>, i: nat)
    requires i < |stale|
    ensures Ids(stale[i]) <= StaleIds(stale)
  {
    if i < |stale| - 1 {
      StaleContains(stale[..|stale| - 1], i);
    }
  }

  lemma {:induction false} StaleSplit(stale: seq<LegIds>)
    requires stale != []
    ensures StaleIds(stale) == Ids(stale[0]) + StaleIds(stale[1..])
  {
    if |stale| > 1 {
      StaleSplit(stale[..|stale| - 1]);
      assert stale[..|stale| - 1][1..] == stale[1..][..|stale| - 2];
    }
  }

  lemma StaleAppend(stale: seq<LegIds>, legs: LegIds)
    ensures StaleIds(stale + [legs]) == StaleIds(stale) + Ids(legs)
  {
    assert (stale + [legs])[..|stale|] == stale;
  }

  lemma NewIsDisjoint(newIds: set<int>, known: set<int>, n: int)
    requires (forall id :: id in newIds ==> n <= id) && (forall id :: id in known ==> id < n)
    ensures newIds !! known
  {
    forall id: int ensures !(id in newIds && id in known) {}
    assert newIds * known == {};
  }

  /** A market close that was asked for: its size, and whether it came through. */
  datatype Close = Close(qty: real, done: bool)

  /** A close asked for from index `from` on came through. */
  ghost predicate ClosedSince(asked: seq<Close>, from: nat) {
    exists i :: from <= i < |asked| && asked[i].done
  }

  lemma ClosedSinceAppend(asked: seq<Close>, close: Close, from: nat)
    requires from <= |asked|
    ensures ClosedSince(asked + [close], from) <==> ClosedSince(asked, from) || close.done
  {
    if close.done {
      assert (asked + [close])[|asked|].done;
    } else if i :| from <= i < |asked| && asked[i].done {
      assert (asked + [close])[i].done;
    }
  }

  lemma ClosedSinceSplit(before: seq<Close>, asked: seq<Close>, from: nat)
    requires from <= |before| && before <= asked
    ensures ClosedSince(asked, from) <==> ClosedSince(before, from) || ClosedSince(asked, |before|)
  {
    if i :| from <= i < |before| && before[i].done {
      assert asked[i].done;
    }
    if i :| from <= i < |asked| && asked[i].done {
      assert i < |before| ==> before[i].done;
    }
  }

  /** Calls that can be out of order. */
  datatype Call = PlacingStop | PlacingTarget | CancellingAll | Flattening

  /**
   * The venue for one symbol and one entry order. Calls may fail, the order may fill or end, and legs may trigger, at
   * any time. A placement that fails at its target leaves the stop it placed first. When `quiet`, nobody else trades:
   * no fill and no trigger changes the position. When `still`, nothing at all changes by itself and exactly the calls
   * in `down` fail.
   */
  class Venue {
    const quiet: bool
    const still: bool
    const down: set<Call>
    var terminal: bool
    var held: real
    /** Resting legs that the tracker placed. */
    var resting: set<int>
    var nextId: int
    /** Legs that triggered or were cancelled by someone else. */
    ghost var triggered: set<int>
    /** Stops of placements that failed at their target. */
    ghost var orphans: set<int>
    /** Times a cancel-all was asked for. */
    ghost var wipes: nat
    /** Closes asked for, in order. */
    ghost var asked: seq<Close>

    ghost predicate Valid()
      reads this
    {
      held >= 0.0 && (still ==> quiet) && forall id :: id in resting ==> id < nextId
    }

    constructor (quiet: bool, still: bool, down: set<Call>, terminal: bool, held: real)
      requires held >= 0.0 && (still ==> quiet)
      ensures Valid() && this.quiet == quiet && this.still == still && this.down == down
      ensures this.terminal == terminal && this.held == held
      ensures resting == {} && triggered == {} && orphans == {} && asked == []
    {
      this.quiet, this.still, this.down, this.terminal, this.held := quiet, still, down, terminal, held;
      resting, nextId, triggered, orphans, wipes, asked := {}, 0, {}, {}, 0, [];
    }

    /** A finished order stays finished, and legs only leave by triggering. */
    twostate predicate Passed()
      reads this
    {
      && (old(terminal) ==> terminal) && old(triggered) <= triggered
      && resting <= old(resting) && old(resting) <= resting + triggered
    }

    twostate predicate Unmoved()
      reads this
    {
      held == old(held) && terminal == old(terminal) && resting == old(resting)
    }

    /**
     * Every close asked for in between was for `qty`; and where nobody else trades, a position of that size is flat as
     * soon as one of them came through, and as it was before that.
     */
    /** The last close asked for was for `qty` and came through. */
    twostate predicate Flattened(qty: real)
      reads this
    {
      |asked| > |old(asked)| && asked[|asked| - 1] == Close(qty, true)
    }

    twostate predicate ClosesAll(qty: real)
      reads this
    {
      && old(asked) <= asked
      && (forall i :: |old(asked)| <= i < |asked| ==> asked[i].qty == qty)
      && (quiet && old(held) == qty ==> held == if ClosedSince(asked, |old(asked)|) then 0.0 else qty)
    }

    /** Time passes: fills, triggers, the order's end. */
    method Pass()
      requires Valid()
      modifies this`terminal, this`held, this`resting, this`triggered
      ensures Valid() && Passed() && (still ==> Unmoved()) && (quiet ==> held == old(held))
    {
      if !quiet {
        var size: real := *;
        var gone: set<int> := *;
        held := if size < 0.0 then 0.0 else size;
        triggered := triggered + (resting * gone);
        resting := resting - gone;
      }
      if !still {
        var ended: bool := *;
        terminal := terminal || ended;
      }
    }

    /** Whether the call fails this time. */
    method Fails(call: Option<Call>) returns (fails: bool)
      ensures still ==> fails == (call.Some? && call.value in down)
    {
      fails := *;
      if still {
        fails := call.Some? && call.value in down;
      }
    }

    method OrderState() returns (isTerminal: Option<bool>)
      requires Valid()
      modifies this`terminal, this`held, this`resting, this`triggered
      ensures Valid() && Passed() && (still ==> Unmoved() && isTerminal.Some?) && (quiet ==> held == old(held))
      ensures isTerminal.Some? ==> isTerminal.value == terminal
    {
      Pass();
      var fails := Fails(None);
      isTerminal := if fails then None else Some(terminal);
    }

    method PositionQty() returns (qty: Option<real>)
      requires Valid()
      modifies this`terminal, this`held, this`resting, this`triggered
      ensures Valid() && Passed() && (still ==> Unmoved() && qty.Some?) && (quiet ==> held == old(held))
      ensures qty.Some? ==> qty.value == held
    {
      Pass();
      var fails := Fails(None);
      qty := if fails then None else Some(held);
    }

    /** The two reads a pass starts with: whether the order is over, and the position size. */
    method Look() returns (seen: Option<(bool, real)>)
      requires Valid()
      modifies this`terminal, this`held, this`resting, this`triggered
      ensures Valid() && Passed() && (still ==> Unmoved() && seen.Some?) && (quiet ==> held == old(held))
      ensures seen.Some? ==> (seen.value.0 ==> terminal) && seen.value.1 == held && (still ==> seen.value.0 == terminal)
    {
      var order := OrderState();
      if order.None? {
        return None;
      }
      var qty := PositionQty();
      seen := if qty.None? then None else Some((order.value, qty.value));
    }

    /** Somebody trades the position to another size. */
    method Trade(size: real)
      requires Valid() && size >= 0.0
      modifies this`held
      ensures Valid() && held == size
    {
      held := size;
    }

    predicate CanPlace(withTarget: bool) {
      PlacingStop !in down && (withTarget ==> PlacingTarget !in down)
    }

    /**
     * A stop leg and then, when the job has a target, a target leg. A stop that cannot be placed asks for the position
     * to be closed (client.ts:855-858).
     */
    method PlaceLegs(withTarget: bool, qty: real) returns (legs: Option<LegIds>)
      requires Valid()
      modifies this`terminal, this`held, this`resting, this`nextId, this`triggered, this`orphans, this`asked
      ensures ClosesAll(qty) && (legs.Some? ==> asked == old(asked))
      ensures Valid() && (old(terminal) ==> terminal) && nextId >= old(nextId)
      ensures old(resting) <= resting + triggered && old(triggered) <= triggered && old(orphans) <= orphans
      ensures legs.None? ==> resting <= old(resting) + orphans
      ensures legs.Some? ==>
                && resting <= old(resting) + Ids(legs.value) && orphans == old(orphans) && legs.value.stopOrderId.Some?
                && Ids(legs.value) <= resting && forall id :: id in Ids(legs.value) ==> old(nextId) <= id < nextId
      ensures still ==> (legs.Some? <==> CanPlace(withTarget)) && terminal == old(terminal)
      ensures still && (legs.Some? || Flattening in down) ==> held == old(held)
      ensures still && legs.Some? ==> resting == old(resting) + Ids(legs.value)
    {
      Pass();
      var failsFirst := Fails(Some(PlacingStop));
      if failsFirst {
        ghost var between, before := resting + triggered, asked;
        var closed := Flatten(qty);
        assert old(resting) <= between <= resting + triggered;
        assert asked[..|before|] == before && asked[|before|] == Close(qty, closed);
        return None;
      }
      var stop := nextId;
      resting, nextId := resting + {stop}, nextId + 1;
      if withTarget {
        var failsSecond := Fails(Some(PlacingTarget));
        if failsSecond {
          orphans := orphans + {stop};
          return None;
        }
        resting, nextId := resting + {nextId}, nextId + 1;
      }
      legs := Some(LegIds(Some(stop), if withTarget then Some(stop + 1) else None));
    }

    /**
     * The stop is cancelled before the target, and a failure leaves what is left of them. Never called with the legs
     * that protect the position.
     */
    method CancelLegs(legs: LegIds, ghost current: set<int>) returns (ok: bool)
      requires Valid() && Ids(legs) !! current
      modifies this`terminal, this`held, this`resting, this`triggered
      ensures Valid() && resting <= old(resting) && (old(terminal) ==> terminal)
      ensures old(resting) <= resting + triggered + Ids(legs) && old(triggered) <= triggered
      ensures ok ==> resting !! Ids(legs)
      ensures still ==> ok && held == old(held) && terminal == old(terminal) && resting == old(resting) - Ids(legs)
      ensures quiet ==> held == old(held)
    {
      Pass();
      var failsFirst := Fails(None);
      if failsFirst {
        return false;
      }
      resting := resting - IdSet(legs.stopOrderId);
      assert old(resting) <= resting + triggered + Ids(legs);
      Pass();
      assert old(resting) <= resting + triggered + Ids(legs);
      var failsSecond := Fails(None);
      if failsSecond {
        return false;
      }
      resting := resting - IdSet(legs.tpOrderId);
      ok := true;
    }

    /** Cancels the entry order; a cancelled order is over once the venue says so. */
    method CancelOrder() returns (ok: bool)
      requires Valid()
      modifies this`terminal, this`held, this`resting, this`triggered
      ensures Valid() && Passed() && (still ==> ok && held == old(held) && resting == old(resting))
      ensures quiet ==> held == old(held)
    {
      Pass();
      var fails := Fails(None);
      if fails {
        return false;
      }
      var ended: bool := *;
      terminal := terminal || ended;
      ok := true;
    }

    /** Cancel-all: afterwards no leg rests, orphans included. */
    method CancelAllOpen() returns (ok: bool)
      requires Valid()
      modifies this`terminal, this`held, this`resting, this`triggered, this`orphans, this`wipes
      ensures Valid() && (old(terminal) ==> terminal) && old(triggered) <= triggered && wipes == old(wipes) + 1
      ensures if ok then resting == {} && orphans == {} else Passed() && orphans == old(orphans)
      ensures still ==> ok == (CancellingAll !in down) && held == old(held) && terminal == old(terminal)
      ensures quiet ==> held == old(held)
    {
      wipes := wipes + 1;
      Pass();
      var fails := Fails(Some(CancellingAll));
      if fails {
        return false;
      }
      resting, orphans, ok := {}, {}, true;
    }

    /** The reduce-only market close. */
    method Flatten(qty: real) returns (ok: bool)
      requires Valid()
      modifies this`terminal, this`held, this`resting, this`triggered, this`asked
      ensures Valid() && Passed() && asked == old(asked) + [Close(qty, ok)]
      ensures quiet ==> held == if !ok then old(held) else if old(held) <= qty then 0.0 else old(held) - qty
      ensures still ==> ok == (Flattening !in down) && (ok || Unmoved()) && terminal == old(terminal)
    {
      Pass();
      var fails := Fails(Some(Flattening));
      asked := asked + [Close(qty, !fails)];
      if fails {
        return false;
      }
      held := if held <= qty then 0.0 else held - qty;
      ok := true;
    }
  }

  // ----- the tracker -----

  /** The pass leaves the legs alone (liveEntry.ts:175). */
  predicate SkipsSync(legs: Option<LegIds>, legsQty: real, held: real) {
    held == legsQty && !(held == 0.0 && legs.Some?)
  }

  /** The pass reports the entry resolved (liveEntry.ts:178). */
  predicate Resolves(terminal: bool, legsQty: real, held: real, stale: seq<LegIds>) {
    terminal && held == legsQty && stale == []
  }

  /** One entry being followed, with the fields of `EntryContext`. */
  class Tracker {
    const venue: Venue
    const withTarget: bool
    var legs: Option<LegIds>
    var legsQty: real
    var stale: seq<LegIds>
    var cancelSent: bool
    /** A cancel-all came through whose flatten failed, and no legs were placed since. */
    ghost var exposed: bool

    /**
     * Every resting leg the tracker placed is current, listed as stale or an orphan of a failed placement; no leg is
     * both current and stale; and the current legs rest unless they triggered, or all are gone.
     */
    ghost predicate Valid()
      reads this, venue
    {
      && venue.Valid()
      && venue.resting <= CurrentIds(legs) + StaleIds(stale) + venue.orphans
      && CurrentIds(legs) !! StaleIds(stale)
      && (forall id :: id in CurrentIds(legs) + StaleIds(stale) ==> id < venue.nextId)
      && (legs.None? <==> legsQty == 0.0) && legsQty >= 0.0
      && (legs.Some? ==> legs.value.stopOrderId.Some?)
      && (if exposed then venue.resting <= venue.orphans else CurrentIds(legs) <= venue.resting + venue.triggered)
    }

    constructor (venue: Venue, withTarget: bool)
      requires venue.Valid() && venue.resting == {}
      ensures Valid() && this.venue == venue && legs.None? && legsQty == 0.0 && stale == [] && !cancelSent && !exposed
    {
      this.venue, this.withTarget, legs, legsQty, stale, cancelSent := venue, withTarget, None, 0.0, [], false;
      exposed := false;
    }

    /** The current legs rest, and an open position has them. */
    ghost predicate Protects(held: real)
      reads this, venue
    {
      CurrentIds(legs) <= venue.resting && (held > 0.0 ==> legs.Some? && legs.value.stopOrderId.Some?)
    }

    /** Nothing the pass remembers has changed. */
    twostate predicate Same()
      reads this
    {
      legs == old(legs) && legsQty == old(legsQty) && stale == old(stale)
    }

    /** Placing and flattening fail, cancel-all comes through, and nothing else happens. */
    predicate CannotProtect() {
      venue.still && !venue.CanPlace(withTarget) && CancellingAll !in venue.down && Flattening in venue.down
    }

    /** Placing fails, and everything else comes through. */
    predicate CanOnlyFlatten() {
      venue.still && !venue.CanPlace(withTarget) && CancellingAll !in venue.down && Flattening !in venue.down
    }

    /**
     * liveEntry.ts:202-238; false when a cancel-all or the flatten after a failed placement failed too, and then the
     * legs are remembered as they were. Either legs for this size are current, or the position was asked to be
     * flattened, for the whole size seen.
     */
    method SyncLegs(held: real) returns (ok: bool)
      requires Valid() && held >= 0.0
      modifies this`legs, this`legsQty, this`stale, this`exposed, venue
      ensures Valid() && (old(venue.terminal) ==> venue.terminal)
      ensures (ok ==> !exposed) && venue.wipes >= old(venue.wipes)
      ensures venue.wipes == old(venue.wipes) ==> ok && legsQty == held
      ensures venue.wipes > old(venue.wipes) && ok ==> legs.None? && stale == [] && venue.resting == {}
      ensures !ok ==> Same() && (exposed && !old(exposed) ==> venue.resting == {})
      ensures venue.ClosesAll(held)
      ensures venue.wipes > old(venue.wipes) && ok ==> venue.Flattened(held)
      ensures exposed && !old(exposed) ==>
                |venue.asked| > |old(venue.asked)| && venue.asked[|venue.asked| - 1] == Close(held, false)
      ensures CanOnlyFlatten() && held > 0.0 ==>
                ok && venue.wipes > old(venue.wipes) && venue.terminal == old(venue.terminal)
      ensures held == 0.0 ==> unchanged(venue)
      ensures venue.still && (held == 0.0 || venue.CanPlace(withTarget)) ==>
                && ok && legsQty == held && venue.held == old(venue.held) && venue.terminal == old(venue.terminal)
                && venue.wipes == old(venue.wipes) && Protects(held)
      ensures CannotProtect() && held > 0.0 ==>
                && !ok && exposed && venue.resting == {}
                && venue.held == old(venue.held) && venue.terminal == old(venue.terminal)
    {
      if held == 0.0 {
        Supersede(None, 0.0);
        return true;
      }
      var next := venue.PlaceLegs(withTarget, held);
      if next.None? {
        ok := Abandon(held, |old(venue.asked)|, venue.quiet && old(venue.held) == held);
        return;
      }
      NewIsDisjoint(Ids(next.value), CurrentIds(legs) + StaleIds(stale), old(venue.nextId));
      Supersede(next, held);
      ok := true;
    }

    /**
     * The pair of calls after a failed placement: cancel-all and flatten (liveEntry.ts:215-220). `from` counts the
     * closes asked for before the pass, and `alone` says that nobody else traded since.
     */
    method Abandon(held: real, ghost from: nat, ghost alone: bool) returns (ok: bool)
      requires Valid() && held >= 0.0 && from <= |venue.asked|
      requires alone ==> venue.quiet && venue.held == if ClosedSince(venue.asked, from) then 0.0 else held
      modifies this`legs, this`legsQty, this`stale, this`exposed, venue
      ensures Valid() && (old(venue.terminal) ==> venue.terminal) && venue.wipes == old(venue.wipes) + 1
      ensures ok ==> legs.None? && stale == [] && venue.resting == {} && !exposed
      ensures !ok ==> Same() && (exposed && !old(exposed) ==> venue.resting == {})
      ensures old(venue.asked) <= venue.asked <= old(venue.asked) + [Close(held, ok)]
      ensures ok || (exposed && !old(exposed)) ==> venue.asked == old(venue.asked) + [Close(held, ok)]
      ensures alone ==> venue.held == if ClosedSince(venue.asked, from) then 0.0 else held
      ensures venue.still ==> venue.terminal == old(venue.terminal)
      ensures venue.still && CancellingAll !in venue.down ==>
                && ok == (Flattening !in venue.down) && (!ok ==> exposed && venue.resting == {})
                && (!ok ==> venue.held == old(venue.held))
    {
      ok := venue.CancelAllOpen();
      if ok {
        exposed := true;
        ok := venue.Flatten(held);
        ClosedSinceAppend(old(venue.asked), Close(held, ok), from);
      }
      if ok {
        legs, legsQty, stale, exposed := None, 0.0, [], false;
      }
    }

    /** Makes `next` current and lists the legs it replaces as stale. */
    method Supersede(next: Option<LegIds>, qty: real)
      requires venue.Valid() && CurrentIds(legs) !! StaleIds(stale)
               && CurrentIds(next) !! (CurrentIds(legs) + StaleIds(stale))
      requires venue.resting <= CurrentIds(next) + CurrentIds(legs) + StaleIds(stale) + venue.orphans
      requires CurrentIds(next) <= venue.resting && (next.Some? ==> next.value.stopOrderId.Some?)
      requires forall id :: id in CurrentIds(next) + CurrentIds(legs) + StaleIds(stale) ==> id < venue.nextId
      requires (next.None? <==> qty == 0.0) && qty >= 0.0
      modifies this`legs, this`legsQty, this`stale, this`exposed
      ensures Valid() && legsQty == qty && legs == next && !exposed
    {
      if legs.Some? {
        StaleAppend(stale, legs.value);
        stale := stale + [legs.value];
      }
      legs, legsQty, exposed := next, qty, false;
    }

    /** liveEntry.ts:240-249: a leg that could not be cancelled stays listed. */
    method CancelStale()
      requires Valid()
      modifies this`stale, venue`terminal, venue`held, venue`resting, venue`triggered
      ensures Valid() && (old(venue.terminal) ==> venue.terminal) && venue.resting <= old(venue.resting)
      ensures venue.still ==>
                && stale == [] && venue.held == old(venue.held) && venue.terminal == old(venue.terminal)
                && (CurrentIds(legs) <= old(venue.resting) ==> CurrentIds(legs) <= venue.resting)
      ensures venue.quiet ==> venue.held == old(venue.held)
    {
      ghost var current, listed := CurrentIds(legs), StaleIds(stale);
      var pending := stale;
      var kept: seq<LegIds> := [];
      while pending != []
        invariant venue.Valid() && (old(venue.terminal) ==> venue.terminal) && venue.resting <= old(venue.resting)
        invariant venue.resting <= current + StaleIds(kept) + StaleIds(pending) + venue.orphans
        invariant if exposed then venue.resting <= venue.orphans else current <= venue.resting + venue.triggered
        invariant StaleIds(kept) <= listed && StaleIds(pending) <= listed
        invariant venue.quiet ==> venue.held == old(venue.held)
        invariant venue.still && current <= old(venue.resting) ==> current <= venue.resting
        invariant venue.still ==> kept == [] && venue.held == old(venue.held) && venue.terminal == old(venue.terminal)
        decreases |pending|
      {
        StaleSplit(pending);
        var ok := venue.CancelLegs(pending[0], current);
        if !ok {
          StaleAppend(kept, pending[0]);
          kept := kept + [pending[0]];
        }
        pending := pending[1..];
      }
      stale := kept;
    }

    /**
     * What is left when nothing can be placed or flattened: an open position keeps the legs it remembers, resting or
     * not.
     */
    twostate predicate Remembered(held: real)
      reads this, venue
    {
      && venue.terminal == old(venue.terminal) && venue.held == old(venue.held) && (old(stale) == [] ==> stale == [])
      && (held > 0.0 ==> legs == old(legs) && legsQty == old(legsQty))
      && (held > 0.0 && held != old(legsQty) ==> exposed && venue.resting == {})
      && (old(venue.resting) == {} ==> venue.resting == {})
    }

    /** The part of a pass that brings the legs in line with the size it saw (liveEntry.ts:175-176). */
    method Align(held: real) returns (ok: bool)
      requires Valid() && held >= 0.0
      modifies this`legs, this`legsQty, this`stale, this`exposed, venue
      ensures Valid() && (old(venue.terminal) ==> venue.terminal)
      ensures ok && exposed && held == legsQty > 0.0 ==> old(exposed) && legs == old(legs) && held == old(legsQty)
      ensures venue.still && venue.CanPlace(withTarget) ==>
                && ok && legsQty == held && stale == [] && venue.held == old(venue.held)
                && venue.terminal == old(venue.terminal)
                && (old(legs).None? || old(Protects(legsQty)) ==> Protects(held))
      ensures CannotProtect() ==>
                && (ok <==> held == 0.0 || held == old(legsQty)) && (ok ==> legsQty == held && stale == [])
                && Remembered(held)
      ensures venue.ClosesAll(held) && (held > 0.0 && legs.None? && old(legs).Some? ==> venue.Flattened(held))
      ensures CanOnlyFlatten() && 0.0 < held != old(legsQty) ==>
                ok && legs.None? && stale == [] && venue.resting == {} && venue.Flattened(held)
    {
      if !SkipsSync(legs, legsQty, held) {
        ok := SyncLegs(held);
        if !ok {
          return;
        }
      }
      CancelStale();
      ok := true;
    }

    /**
     * What the log reports as resolved: the order over, the observed position the size protected, nothing superseded
     * listed or resting; the legs reported rest unless they triggered, except after a flatten that failed.
     */
    ghost predicate Resolved(held: real)
      reads this, venue
    {
      && venue.terminal && held == legsQty && (legs.None? <==> held == 0.0) && stale == []
      && venue.resting <= CurrentIds(legs) + venue.orphans
      && (if exposed then venue.resting <= venue.orphans else CurrentIds(legs) <= venue.resting + venue.triggered)
    }

    /** The end of a pass: resolved, or an overdue order is cancelled once (liveEntry.ts:178-191). */
    method Conclude(terminal: bool, held: real, overdue: bool) returns (resolved: bool)
      requires Valid()
      modifies this`cancelSent, venue`terminal, venue`held, venue`resting, venue`triggered
      ensures Valid() && venue.Passed() && resolved == Resolves(terminal, legsQty, held, stale)
      ensures resolved ==> unchanged(venue)
      ensures venue.quiet ==> venue.held == old(venue.held)
      ensures venue.still ==> venue.resting == old(venue.resting) && (terminal ==> venue.Unmoved())
      ensures cancelSent ==> old(cancelSent) || (overdue && !terminal)
      ensures venue.still && !terminal && overdue ==> cancelSent
    {
      resolved := Resolves(terminal, legsQty, held, stale);
      if !resolved && !terminal && !cancelSent && overdue {
        cancelSent := venue.CancelOrder();
      }
    }

    /**
     * One pass over the venue (liveEntry.ts:171-199): `observed` is the position size it saw. It keeps the tracker's
     * account of its legs whatever fails; it resolves only in a resolved state; and on a terminal order with a steady
     * position and no failing call it does resolve, with the position protected. An order still working is cancelled
     * once it is overdue, and only then. When legs can neither be placed nor the position be flattened, it resolves if
     * and only if the position is flat or has the size of the legs it remembers, resting or not.
     */
    method Step(overdue: bool) returns (resolved: bool, ghost observed: real)
      requires Valid()
      modifies this, venue
      ensures Valid() && (old(venue.terminal) ==> venue.terminal)
      ensures resolved ==> Resolved(observed)
      ensures resolved && exposed && observed > 0.0 ==> old(exposed) && legs == old(legs) && observed == old(legsQty)
      ensures venue.still && venue.CanPlace(withTarget) && old(venue.terminal) ==>
                resolved && observed == old(venue.held)
      ensures venue.still && venue.CanPlace(withTarget) && (old(legs).None? || old(Protects(legsQty))) ==>
                Protects(old(venue.held))
      ensures CannotProtect() && old(venue.terminal) ==>
                && (resolved <==> venue.held == 0.0 || venue.held == old(legsQty))
                && observed == venue.held && Remembered(observed)
      ensures cancelSent ==> old(cancelSent) || overdue
      ensures venue.ClosesAll(observed)
      ensures observed > 0.0 && legs.None? && old(legs).Some? ==> venue.Flattened(observed)
      ensures venue.quiet ==>
                venue.held == if ClosedSince(venue.asked, |old(venue.asked)|) then 0.0 else old(venue.held)
      ensures CanOnlyFlatten() && 0.0 < old(venue.held) != old(legsQty) ==>
                legs.None? && stale == [] && venue.resting == {} && venue.held == 0.0 && !resolved
      ensures venue.still && venue.CanPlace(withTarget) && !old(venue.terminal) && overdue ==> cancelSent
    {
      resolved, observed := false, 0.0;
      var seen := venue.Look();
      if seen.None? {
        return;
      }
      var (terminal, held) := seen.value;
      observed := held;
      var aligned := Align(held);
      if !aligned {
        return;
      }
      resolved := Conclude(terminal, held, overdue);
    }
  }

  /**
   * The polling loop (liveEntry.ts:158-168) for up to `polls` passes: however the venue behaves, every resting leg
   * stays accounted for, and when the entry is reported resolved its order is over, the observed position is the
   * protected size and nothing superseded rests. On a finished order with every call succeeding the first pass
   * resolves it, with the position protected.
   */
  method Follow(tracker: Tracker, polls: nat) returns (resolved: bool, ghost observed: real)
    requires tracker.Valid()
    modifies tracker, tracker.venue
    ensures tracker.Valid()
    ensures resolved ==> tracker.Resolved(observed)
    ensures tracker.venue.quiet ==>
              tracker.venue.held ==
              if ClosedSince(tracker.venue.asked, |old(tracker.venue.asked)|) then 0.0 else old(tracker.venue.held)
    ensures IsReady(tracker, old(tracker.venue.terminal)) && polls > 0 ==>
              resolved && observed == old(tracker.venue.held)
    ensures IsReady(tracker, old(tracker.venue.terminal)) && polls > 0 && old(tracker.legs).None? ==>
              tracker.Protects(observed)
  {
    resolved, observed := false, 0.0;
    for i := 0 to polls
      invariant tracker.Valid() && !resolved
      invariant i == 0 ==> tracker.legs == old(tracker.legs) && tracker.venue.terminal == old(tracker.venue.terminal)
                           && tracker.venue.held == old(tracker.venue.held)
      invariant old(tracker.venue.asked) <= tracker.venue.asked
      invariant tracker.venue.quiet ==>
                  tracker.venue.held ==
                  if ClosedSince(tracker.venue.asked, |old(tracker.venue.asked)|) then 0.0 else old(tracker.venue.held)
      invariant i > 0 ==> !IsReady(tracker, old(tracker.venue.terminal))
    {
      var overdue: bool := *;
      ghost var before := tracker.venue.asked;
      resolved, observed := tracker.Step(overdue);
      ClosedSinceSplit(before, tracker.venue.asked, |old(tracker.venue.asked)|);
      if resolved {
        return;
      }
    }
  }

  /** The order is over and every call comes through. */
  predicate IsReady(tracker: Tracker, terminal: bool) {
    terminal && tracker.venue.still && tracker.venue.CanPlace(tracker.withTarget)
  }

  /**
   * Cancel-all and flatten are two calls, and the pair matters. The position has outgrown its legs, new legs cannot be
   * placed, cancel-all comes through and the flatten does not: the legs are gone but still remembered. The next pass
   * finds the position traded to another size and resolves the entry if and only if that is the size of the legs that
   * are gone, or the position is flat. In the first case an open position is reported protected with no leg resting.
   */
  method ResolvesUnprotected(tracker: Tracker, size: real) returns (resolved: bool, ghost observed: real)
    requires tracker.Valid() && tracker.CannotProtect() && tracker.legs.Some? && tracker.stale == []
    requires tracker.venue.terminal && 0.0 < tracker.venue.held != tracker.legsQty && size >= 0.0
    modifies tracker, tracker.venue
    ensures tracker.Valid() && tracker.venue.resting == {} && tracker.venue.held == size
    ensures resolved <==> size == old(tracker.legsQty) || size == 0.0
    ensures size == old(tracker.legsQty) ==>
              observed > 0.0 && tracker.Resolved(observed) && tracker.legs == old(tracker.legs)
  {
    resolved, observed := tracker.Step(false);
    tracker.venue.Trade(size);
    resolved, observed := tracker.Step(false);
  }
}
