/**
 * Protective legs on the live venue: placeProtection and updateStops (src/binance/client.ts,
 * src/binance/liveProtection.ts).
 */
module LiveLegs {
  import opened Common

  const PROTECTION_ATTEMPTS: nat := 3

  datatype LegKind = StopMarket | TakeProfitMarket

  /** A resting closePosition order on one symbol; `protects` is the side of the position it closes. */
  datatype Leg = Leg(kind: LegKind, protects: Side, price: real, clientId: int)

  predicate IsStop(leg: Leg, side: Side) {
    leg.kind.StopMarket? && Protects(leg, side)
  }

  /** The legs that protect a position of this side: `protectionOf`, liveProtection.ts:50-62. */
  predicate Protects(leg: Leg, side: Side) {
    leg.protects == side
  }

  /** An order of the venue's open-order list. */
  datatype Listed = Listed(orderId: int, leg: Leg)

  /** The list is exactly the resting legs. */
  ghost predicate Lists(open: seq<Listed>, legs: map<int, Leg>) {
    && (forall k :: 0 <= k < |open| ==> open[k].orderId in legs && legs[open[k].orderId] == open[k].leg)
    && (forall id: int :: id in legs ==> exists i :: 0 <= i < |open| && open[i].orderId == id)
  }

  /** Ids of the listed legs of one kind that protect the position, in list order (liveProtection.ts:52-54). */
  function IdsOf(open: seq<Listed>, side: Side, kind: LegKind): (ids: seq<int>)
    ensures forall i :: 0 <= i < |open| && open[i].leg.protects == side && open[i].leg.kind == kind ==>
              open[i].orderId in ids
    ensures forall id :: id in ids ==>
              exists i :: 0 <= i < |open| && open[i].orderId == id && open[i].leg.protects == side
  {
    if open == [] then []
    else
      var rest := IdsOf(open[..|open| - 1], side, kind);
      var last := open[|open| - 1];
      if last.leg.protects == side && last.leg.kind == kind then rest + [last.orderId] else rest
  }

  ghost predicate HasStop(legs: map<int, Leg>, side: Side) {
    exists id: int :: id in legs && IsStop(legs[id], side)
  }

  /** No two resting legs share a client id. */
  ghost predicate OnePerClientId(legs: map<int, Leg>) {
    forall a: int, b: int :: a in legs && b in legs && legs[a].clientId == legs[b].clientId ==> a == b
  }

  /** The leg landed under a new id. */
  ghost predicate Lands(before: map<int, Leg>, after: map<int, Leg>, id: int, leg: Leg) {
    id !in before && after == before[id := leg]
  }

  /** How the venue answers a submit. */
  datatype Reply =
    | Accepted(orderId: int)
    /** The client id is already known to the venue. */
    | Duplicate
    /** An error code: nothing rests under this client id. */
    | Refused
    /** Nothing can be concluded: it may rest. */
    | NoAnswer

  /** How it answers a lookup by client id. */
  datatype Lookup = Resting(orderId: int) | NotResting | LookupFailed(withCode: bool)

  /**
   * What came of a placement. It escapes when a duplicate-id answer is followed by a lookup that fails: that error is
   * thrown out of the handler of the first one (client.ts:843-848), past the retries and past the emergency close.
   */
  datatype Placed = Placed(orderId: int) | Failed | Escaped

  /** What a reduce-only order leaves of a position. */
  function Reduced(position: real, quantity: real): real {
    if quantity <= 0.0 then position else if position <= quantity then 0.0 else position - quantity
  }

  /**
   * The venue for one symbol, changed only by calls. It dedupes on client id, may apply a request and lose the answer,
   * at once or while it is next asked about the same client id, and may refuse or lose any request. `gap` records that
   * after some call no stop protected `side`. A candid venue refuses nothing but a repeated client id and answers
   * everything but submits, whose answers it may lose; a steady one loses none of those either.
   */
  class Venue {
    const side: Side
    const candid: bool
    const steady: bool
    var legs: map<int, Leg>
    /** Client ids the venue has seen. */
    var known: set<int>
    var nextId: nat
    /** The last submit, when it was lost on its way and may still arrive. */
    var late: Option<Leg>
    /** The open position on `side`. */
    var position: real
    ghost var gap: bool
    /** Reduce-only market closes asked for. */
    ghost var closes: nat
    /** Submits and lookups answered with an error code, other than a repeated id, and those not answered at all. */
    ghost var rejections: nat
    ghost var ambiguous: nat

    ghost predicate Valid()
      reads this
    {
      && OnePerClientId(legs) && (steady ==> candid)
      && (forall id: int :: id in legs ==> 0 <= id < nextId && legs[id].clientId in known)
    }

    /** Client ids that were submitted and may be or become known. */
    function Used(): set<int>
      reads this
    {
      known + if late.Some? then {late.value.clientId} else {}
    }

    constructor (side: Side, candid: bool, steady: bool, position: real)
      requires steady ==> candid
      ensures Valid() && this.side == side && this.candid == candid && this.steady == steady
      ensures this.position == position && legs == map[] && known == {} && late.None? && !gap
      ensures closes == 0 && rejections == 0 && ambiguous == 0
    {
      this.side, this.candid, this.steady, this.position := side, candid, steady, position;
      legs, known, nextId, late := map[], {}, 0, None;
      gap, closes, rejections, ambiguous := false, 0, 0, 0;
    }

    /** The submit on its way arrives now, or not yet, if it is of this client id; another one never will. */
    method Arrive(clientId: int)
      requires Valid()
      modifies this`legs, this`known, this`nextId, this`late
      ensures Valid() && nextId >= old(nextId) && (late.Some? ==> late == old(late) && late.value.clientId == clientId)
      ensures (legs == old(legs) && known == old(known) && nextId == old(nextId))
              || (old(late).Some? && old(late).value.clientId == clientId && clientId !in old(known) && late.None?
                  && Lands(old(legs), legs, old(nextId), old(late).value) && known == old(known) + {clientId})
    {
      var arrives: bool := *;
      if late.Some? && (late.value.clientId != clientId || clientId in known) {
        late := None;
      } else if late.Some? && arrives {
        legs, known := legs[nextId := late.value], known + {clientId};
        nextId, late := nextId + 1, None;
      }
    }

    /** A submit, after what was on its way had its chance to arrive. */
    method Submit(leg: Leg) returns (reply: Reply)
      requires Valid() && (late.Some? && late.value.clientId == leg.clientId ==> late.value == leg)
      modifies this`legs, this`known, this`nextId, this`late, this`gap, this`rejections, this`ambiguous
      ensures Valid() && nextId >= old(nextId)
      ensures rejections == old(rejections) + (if reply.Refused? then 1 else 0)
      ensures ambiguous == old(ambiguous) + (if reply.NoAnswer? then 1 else 0)
      ensures reply.Duplicate? ==> leg.clientId in old(known) || (old(late) == Some(leg) && legs != old(legs))
      ensures candid ==> !reply.Refused?
      ensures late.Some? ==> late.value == leg && reply.NoAnswer?
      ensures legs == old(legs) || (leg.clientId !in old(known) && Lands(old(legs), legs, old(nextId), leg))
      ensures known == (if legs == old(legs) then old(known) else old(known) + {leg.clientId})
      ensures reply.Accepted? ==>
                && reply.orderId == old(nextId) && Lands(old(legs), legs, reply.orderId, leg)
                && leg.clientId !in old(known)
      ensures reply.Refused? ==> legs == old(legs) && leg.clientId !in known
      ensures steady && leg.clientId in old(known) ==> reply.Duplicate?
      ensures steady && leg.clientId !in old(Used()) ==> reply.Accepted?
      ensures gap == (old(gap) || !HasStop(legs, side))
    {
      Arrive(leg.clientId);
      if leg.clientId in known {
        reply := Repeat();
      } else {
        reply := Take(leg);
      }
      gap := gap || !HasStop(legs, side);
    }

    /** A client id the venue knows. */
    method Repeat() returns (reply: Reply)
      requires Valid()
      modifies this`late, this`ambiguous
      ensures Valid() && late.None? && (reply.Duplicate? || reply.NoAnswer?) && (steady ==> reply.Duplicate?)
      ensures ambiguous == old(ambiguous) + (if reply.NoAnswer? then 1 else 0)
    {
      var answers: bool := *;
      reply := if answers || steady then Duplicate else NoAnswer;
      late, ambiguous := None, ambiguous + (if reply.NoAnswer? then 1 else 0);
    }

    /** A new client id: accepted, refused, landed without an answer, or lost on its way. */
    method Take(leg: Leg) returns (reply: Reply)
      requires Valid() && leg.clientId !in known
      modifies this`legs, this`known, this`nextId, this`late, this`rejections, this`ambiguous
      ensures Valid() && nextId >= old(nextId) && !reply.Duplicate? && (candid ==> !reply.Refused?)
      ensures rejections == old(rejections) + (if reply.Refused? then 1 else 0)
      ensures ambiguous == old(ambiguous) + (if reply.NoAnswer? then 1 else 0)
      ensures if leg.clientId in known then
                Lands(old(legs), legs, old(nextId), leg) && known == old(known) + {leg.clientId} && late.None?
              else legs == old(legs) && known == old(known) && (late.Some? ==> late.value == leg && reply.NoAnswer?)
      ensures reply.Accepted? ==> reply.orderId == old(nextId) && leg.clientId in known
      ensures reply.Refused? ==> leg.clientId !in known
      ensures steady ==> reply.Accepted?
    {
      var lands: bool, answers: bool, refuses: bool, travels: bool := *, *, *, *;
      answers, refuses := answers || steady, refuses && !candid;
      late := None;
      if refuses && answers {
        reply := Refused;
      } else if !refuses && (lands || answers) {
        legs, known := legs[nextId := leg], known + {leg.clientId};
        reply := if answers then Accepted(nextId) else NoAnswer;
        nextId := nextId + 1;
      } else {
        reply, late := NoAnswer, if travels then Some(leg) else None;
      }
      rejections := rejections + (if reply.Refused? then 1 else 0);
      ambiguous := ambiguous + (if reply.NoAnswer? then 1 else 0);
    }

    /** The reduce-only market order; a failed one may have come through. */
    method MarketClose(quantity: real) returns (ok: bool)
      requires Valid()
      modifies this`position, this`closes
      ensures Valid() && closes == old(closes) + 1
      ensures position == old(position) || position == Reduced(old(position), quantity)
      ensures ok ==> position == Reduced(old(position), quantity)
      ensures candid ==> ok
    {
      var lands: bool;
      ok, lands := *, *;
      ok, closes := ok || candid, closes + 1;
      if ok || lands {
        position := Reduced(position, quantity);
      }
    }

    /** `restingOrder` (client.ts:864-872). */
    method RestingOrder(clientId: int) returns (found: Lookup)
      requires Valid()
      modifies this`legs, this`known, this`nextId, this`late, this`gap, this`rejections, this`ambiguous
      ensures Valid() && gap == (old(gap) || !HasStop(legs, side)) && nextId >= old(nextId)
      ensures late.Some? ==> late == old(late) && late.value.clientId == clientId
      ensures (legs == old(legs) && known == old(known))
              || (old(late).Some? && old(late).value.clientId == clientId && clientId !in old(known)
                  && Lands(old(legs), legs, old(nextId), old(late).value) && known == old(known) + {clientId})
      ensures rejections == old(rejections) + (if found.LookupFailed? && found.withCode then 1 else 0)
      ensures ambiguous == old(ambiguous) + (if found.LookupFailed? && !found.withCode then 1 else 0)
      ensures found.Resting? ==> found.orderId in legs && legs[found.orderId].clientId == clientId
      ensures found.NotResting? ==> forall id: int :: id in legs ==> legs[id].clientId != clientId
      ensures candid ==> !found.LookupFailed?
    {
      Arrive(clientId);
      gap := gap || !HasStop(legs, side);
      var fails: bool, coded: bool := *, *;
      if fails && !candid {
        rejections := rejections + (if coded then 1 else 0);
        ambiguous := ambiguous + (if coded then 0 else 1);
        return LookupFailed(coded);
      }
      if id: int :| id in legs && legs[id].clientId == clientId {
        found := Resting(id);
      } else {
        found := NotResting;
      }
    }

    /** A cancel that fails may have come through; false is a failure other than "already gone". */
    method Cancel(orderId: int) returns (ok: bool)
      requires Valid()
      modifies this`legs, this`gap
      ensures Valid() && (legs == old(legs) || legs == old(legs) - {orderId})
      ensures ok ==> legs == old(legs) - {orderId}
      ensures candid ==> ok
      ensures gap == (old(gap) || !HasStop(legs, side))
    {
      var lands: bool;
      ok, lands := *, *;
      ok := ok || candid;
      if ok || lands {
        legs := legs - {orderId};
      }
      gap := gap || !HasStop(legs, side);
    }

    /** The resting legs, oldest first, unless the read fails. */
    method AllOpenOrders() returns (open: Option<seq<Listed>>)
      requires Valid()
      modifies this`gap
      ensures Valid() && gap == (old(gap) || !HasStop(legs, side))
      ensures open.Some? ==> Lists(open.value, legs)
      ensures candid ==> open.Some?
    {
      gap := gap || !HasStop(legs, side);
      var fails: bool := *;
      if fails && !candid {
        return None;
      }
      var listed: seq<Listed> := [];
      for id := 0 to nextId
        invariant forall k :: 0 <= k < |listed| ==>
                    listed[k].orderId in legs && legs[listed[k].orderId] == listed[k].leg
        invariant forall k: int :: k in legs && k < id ==> exists i :: 0 <= i < |listed| && listed[i].orderId == k
      {
        ghost var before := listed;
        if id in legs {
          listed := listed + [Listed(id, legs[id])];
          assert listed[|listed| - 1].orderId == id;
        }
        assert forall i :: 0 <= i < |before| ==> listed[i] == before[i];
      }
      open := Some(listed);
    }
  }

  // ----- one leg -----

  /** The leg landed at most once: the legs are the old ones, or the old ones and this one. */
  ghost predicate AtMostOnce(before: map<int, Leg>, after: map<int, Leg>, leg: Leg) {
    after == before || exists id: int :: id !in before && after == before[id := leg]
  }

  /** The lookup an attempt starts or ends with found the leg: it is the one that landed. */
  lemma FoundIsTheLeg(before: map<int, Leg>, after: map<int, Leg>, leg: Leg, id: int)
    requires AtMostOnce(before, after, leg) && id in after && after[id].clientId == leg.clientId
    requires forall k: int :: k in before ==> before[k].clientId != leg.clientId
    ensures id !in before && after == before[id := leg]
  {}

  /** What the attempts so far have done. */
  datatype Attempt = Done(result: Placed) | Again

  /**
   * One attempt (client.ts:840-852). A venue rejection ends the placement; an ambiguous failure leads to another
   * attempt, which asks by client id first; a duplicate-id answer means an earlier request landed. It goes on exactly
   * when something got no answer, and fails only on an answer with an error code. It escapes only when a request still
   * on its way arrives between that lookup and the submit: a leg that rests when an attempt begins is found.
   */
  method TryOnce(venue: Venue, leg: Leg, first: bool, ghost before: map<int, Leg>) returns (attempt: Attempt)
    requires venue.Valid() && AtMostOnce(before, venue.legs, leg)
    requires forall k: int :: k in before ==> before[k].clientId != leg.clientId
    requires leg.clientId in venue.known ==> venue.legs != before
    requires leg.clientId !in venue.known ==> venue.legs == before
    requires if first then leg.clientId !in venue.Used() else venue.late.None? || venue.late.value == leg
    modifies venue`legs, venue`known, venue`nextId, venue`late, venue`gap, venue`rejections, venue`ambiguous
    ensures venue.Valid() && AtMostOnce(before, venue.legs, leg) && venue.known <= old(venue.known) + {leg.clientId}
    ensures leg.clientId in venue.known <==> venue.legs != before
    ensures venue.late.Some? ==> venue.late.value == leg
    ensures attempt.Done? && attempt.result.Placed? ==>
              attempt.result.orderId !in before && venue.legs == before[attempt.result.orderId := leg]
    ensures HasStop(before, venue.side) ==> old(venue.gap) == venue.gap
    ensures attempt.Again? <==> venue.ambiguous == old(venue.ambiguous) + 1 && !IsEscape(attempt)
    ensures attempt.Again? ==> venue.rejections == old(venue.rejections)
    ensures old(venue.ambiguous) <= venue.ambiguous <= old(venue.ambiguous) + 1
    ensures attempt == Done(Failed) <==> venue.rejections > old(venue.rejections) && !IsEscape(attempt)
    ensures IsEscape(attempt) ==> old(venue.legs) == before != venue.legs && !first && !venue.candid
    ensures venue.candid ==> venue.rejections == old(venue.rejections)
    ensures venue.steady && first ==> attempt.Done? && attempt.result.Placed?
  {
    StopsStay(before, venue.legs, leg, venue.side);
    if !first {
      var found := venue.RestingOrder(leg.clientId);
      StopsStay(before, venue.legs, leg, venue.side);
      match found {
        case Resting(id) =>
          FoundIsTheLeg(before, venue.legs, leg, id);
          return Done(Placed(id));
        case LookupFailed(coded) =>
          return if coded then Done(Failed) else Again;
        case NotResting =>
      }
    }
    var reply := venue.Submit(leg);
    StopsStay(before, venue.legs, leg, venue.side);
    match reply {
      case Accepted(id) => attempt := Done(Placed(id));
      case Refused => attempt := Done(Failed);
      case NoAnswer => attempt := Again;
      case Duplicate => attempt := FindDuplicate(venue, leg, before);
    }
  }

  predicate IsEscape(attempt: Attempt) {
    attempt == Done(Escaped)
  }

  /** The lookup after a duplicate-id answer (client.ts:845-850). */
  method FindDuplicate(venue: Venue, leg: Leg, ghost before: map<int, Leg>) returns (attempt: Attempt)
    requires venue.Valid() && AtMostOnce(before, venue.legs, leg) && venue.legs != before
    requires forall k: int :: k in before ==> before[k].clientId != leg.clientId
    requires leg.clientId in venue.known && venue.late.None?
    modifies venue`legs, venue`known, venue`nextId, venue`late, venue`gap, venue`rejections, venue`ambiguous
    ensures venue.Valid() && attempt.Done? && venue.late.None?
    ensures venue.legs == old(venue.legs) && venue.known == old(venue.known)
    ensures attempt.result.Placed? ==>
              attempt.result.orderId !in before && venue.legs == before[attempt.result.orderId := leg]
    ensures HasStop(before, venue.side) ==> old(venue.gap) == venue.gap
    ensures if attempt.result.Placed? then
              venue.rejections == old(venue.rejections) && venue.ambiguous == old(venue.ambiguous)
            else attempt.result.Escaped? && !venue.candid
    ensures old(venue.ambiguous) <= venue.ambiguous <= old(venue.ambiguous) + 1
    ensures venue.candid ==> venue.rejections == old(venue.rejections)
  {
    StopsStay(before, venue.legs, leg, venue.side);
    var found := venue.RestingOrder(leg.clientId);
    if found.Resting? {
      FoundIsTheLeg(before, venue.legs, leg, found.orderId);
      attempt := Done(Placed(found.orderId));
    } else {
      attempt := Done(if found.LookupFailed? then Escaped else Failed);
    }
  }

  lemma StopsStay(before: map<int, Leg>, after: map<int, Leg>, leg: Leg, side: Side)
    requires AtMostOnce(before, after, leg)
    ensures HasStop(before, side) ==> HasStop(after, side)
  {
    if HasStop(before, side) {
      var id: int :| id in before && IsStop(before[id], side);
      assert id in after && IsStop(after[id], side);
    }
  }

  /**
   * The attempts of `placeProtection` (client.ts:828-854): whatever is lost or repeated, the leg lands at most once
   * under its client id, and a returned id is the one the venue holds. It fails only on an answer with an error code or
   * after all attempts went unanswered; on a candid venue exactly then, so a leg whose answers were lost is found
   * again.
   */
  method PlaceProtection(venue: Venue, leg: Leg) returns (placed: Placed)
    requires venue.Valid() && leg.clientId !in venue.Used()
    modifies venue`legs, venue`known, venue`nextId, venue`late, venue`gap, venue`rejections, venue`ambiguous
    ensures venue.Valid() && AtMostOnce(old(venue.legs), venue.legs, leg)
            && venue.known <= old(venue.known) + {leg.clientId} && (venue.late.Some? ==> venue.late.value == leg)
    ensures placed.Placed? ==>
              placed.orderId !in old(venue.legs) && venue.legs == old(venue.legs)[placed.orderId := leg]
    ensures HasStop(old(venue.legs), venue.side) ==> venue.gap == old(venue.gap)
    ensures placed.Failed? ==>
              || venue.rejections > old(venue.rejections)
              || venue.ambiguous == old(venue.ambiguous) + PROTECTION_ATTEMPTS
    ensures placed.Escaped? ==>
              venue.legs != old(venue.legs) && !venue.candid && venue.ambiguous > old(venue.ambiguous)
    ensures venue.candid ==> (placed.Placed? <==> venue.ambiguous < old(venue.ambiguous) + PROTECTION_ATTEMPTS)
    ensures venue.ambiguous >= old(venue.ambiguous)
    ensures venue.steady ==> placed.Placed?
  {
    ghost var before := venue.legs;
    for attempt := 0 to PROTECTION_ATTEMPTS
      invariant venue.Valid() && AtMostOnce(before, venue.legs, leg) && venue.known <= old(venue.known) + {leg.clientId}
      invariant leg.clientId in venue.known <==> venue.legs != before
      invariant if attempt == 0 then leg.clientId !in venue.Used() else venue.late.None? || venue.late.value == leg
      invariant HasStop(before, venue.side) ==> venue.gap == old(venue.gap)
      invariant venue.ambiguous == old(venue.ambiguous) + attempt && venue.rejections == old(venue.rejections)
      invariant venue.steady ==> attempt == 0
    {
      var outcome := TryOnce(venue, leg, attempt == 0, before);
      if outcome.Done? {
        return outcome.result;
      }
    }
    placed := Failed;
  }

  // ----- moving the protection -----

  datatype NewLegs = NewLegs(stopId: int, targetId: Option<int>)

  /** Every leg that rested still does. */
  ghost predicate Keeps(before: map<int, Leg>, after: map<int, Leg>) {
    forall id: int :: id in before ==> id in after && after[id] == before[id]
  }

  /** The new legs rest beside those of `before`, and nothing else does. */
  ghost predicate Adds(before: map<int, Leg>, after: map<int, Leg>, stop: Leg, target: Option<Leg>, placed: NewLegs) {
    && Keeps(before, after)
    && placed.stopId !in before && placed.stopId in after && after[placed.stopId] == stop
    && (placed.targetId.Some? <==> target.Some?)
    && (target.Some? ==>
          var id: int := placed.targetId.value;
          id !in before && id in after && after[id] == target.value)
    && (forall id: int :: id in after ==> id in before || id == placed.stopId || placed.targetId == Some(id))
  }

  /** The new legs protect the position, nothing else does, and legs that do not protect it are untouched. */
  ghost predicate Replaced(before: map<int, Leg>, after: map<int, Leg>, side: Side, stop: Leg, target: Option<Leg>) {
    && (exists id: int :: id in after && after[id] == stop)
    && (target.Some? ==> exists id: int :: id in after && after[id] == target.value)
    && (forall id: int :: id in after && Protects(after[id], side) ==> after[id] == stop || Some(after[id]) == target)
    && (forall id: int :: id in before && !Protects(before[id], side) ==> id in after && after[id] == before[id])
  }

  predicate AreNewLegs(stop: Leg, target: Option<Leg>, side: Side, used: set<int>) {
    && IsStop(stop, side) && stop.clientId !in used
    && (target.Some? ==>
          && target.value.clientId !in used + {stop.clientId} && target.value.protects == side
          && target.value.kind.TakeProfitMarket?)
  }

  /**
   * `updateStops` (client.ts:747-765). If a stop rested before, one rests after every single venue call, whichever
   * calls fail or lose their answer; on success exactly the new legs protect the position; and as long as the new stop
   * does not rest, no old leg is gone.
   */
  method UpdateStops(venue: Venue, stop: Leg, target: Option<Leg>) returns (ok: bool)
    requires venue.Valid() && AreNewLegs(stop, target, venue.side, venue.Used())
    modifies venue`legs, venue`known, venue`nextId, venue`late, venue`gap, venue`rejections, venue`ambiguous
    ensures venue.Valid()
    ensures old(HasStop(venue.legs, venue.side)) ==> venue.gap == old(venue.gap) && HasStop(venue.legs, venue.side)
    ensures ok ==> Replaced(old(venue.legs), venue.legs, venue.side, stop, target)
    ensures !ok ==> Keeps(old(venue.legs), venue.legs) || exists id: int :: id in venue.legs && venue.legs[id] == stop
    ensures venue.candid && venue.ambiguous < old(venue.ambiguous) + PROTECTION_ATTEMPTS ==> ok
    ensures venue.steady ==> ok
  {
    var open := venue.AllOpenOrders();
    if open.None? {
      return false;
    }
    ghost var before := venue.legs;
    var placed := PlaceLegs(venue, stop, target);
    if placed.None? {
      return false;
    }
    ghost var both := venue.legs;
    var superseded := IdsOf(open.value, venue.side, StopMarket) + IdsOf(open.value, venue.side, TakeProfitMarket);
    var keep := {placed.value.stopId} + (if placed.value.targetId.Some? then {placed.value.targetId.value} else {});
    ok := CancelOld(venue, superseded, keep, placed.value.stopId);
    if ok {
      CancelledAll(open.value, before, both, venue.legs, venue.side, stop, target, placed.value);
    }
  }

  /** Cancelling what was listed and is not kept leaves exactly the new protection. */
  lemma CancelledAll(open: seq<Listed>, before: map<int, Leg>, both: map<int, Leg>, after: map<int, Leg>, side: Side,
                     stop: Leg, target: Option<Leg>, placed: NewLegs)
    requires Lists(open, before) && Adds(before, both, stop, target, placed)
    requires var ids := IdsOf(open, side, StopMarket) + IdsOf(open, side, TakeProfitMarket);
             var keep := {placed.stopId} + (if placed.targetId.Some? then {placed.targetId.value} else {});
             CancelledBut(both, after, ids, keep)
    ensures Replaced(before, after, side, stop, target)
  {
    var ids := IdsOf(open, side, StopMarket) + IdsOf(open, side, TakeProfitMarket);
    assert placed.stopId in after;
    if target.Some? {
      var targetId: int := placed.targetId.value;
      assert targetId in after;
    }
    forall id: int | id in after && Protects(after[id], side) ensures after[id] == stop || Some(after[id]) == target {
      if id in before { ProtectionIsListed(open, before, side, id); }
    }
    forall id: int | id in before && !Protects(before[id], side) ensures id in after && after[id] == before[id] {
      assert id !in ids;
    }
  }

  lemma ProtectionIsListed(open: seq<Listed>, legs: map<int, Leg>, side: Side, id: int)
    requires Lists(open, legs) && id in legs && Protects(legs[id], side)
    ensures id in IdsOf(open, side, StopMarket) + IdsOf(open, side, TakeProfitMarket)
  {
    var i :| 0 <= i < |open| && open[i].orderId == id;
  }

  /** The listed ids are gone unless kept, and nothing else is. */
  ghost predicate CancelledBut(before: map<int, Leg>, after: map<int, Leg>, ids: seq<int>, keep: set<int>) {
    && (forall id: int :: id in after ==> id in before && after[id] == before[id] && (id in ids ==> id in keep))
    && (forall id: int :: id in before && (id in keep || id !in ids) ==> id in after)
  }

  /**
   * `placeProtection` for a leg of a new entry (client.ts:828-861): a stop that could not be placed asks for the
   * position to be closed, once, and the call fails whether or not that came through; a target that could not be
   * placed asks for nothing, and neither does a leg that rests although its placement escaped.
   */
  method PlaceOrClose(venue: Venue, leg: Leg, quantity: real) returns (placed: Placed, closed: bool)
    requires venue.Valid() && leg.clientId !in venue.Used()
    modifies venue
    ensures venue.Valid() && AtMostOnce(old(venue.legs), venue.legs, leg)
            && venue.known <= old(venue.known) + {leg.clientId} && (venue.late.Some? ==> venue.late.value == leg)
    ensures placed.Placed? ==>
              placed.orderId !in old(venue.legs) && venue.legs == old(venue.legs)[placed.orderId := leg]
    ensures venue.closes == old(venue.closes) + (if placed.Failed? && leg.kind.StopMarket? then 1 else 0)
    ensures venue.closes == old(venue.closes) ==> venue.position == old(venue.position)
    ensures closed ==>
              && venue.closes > old(venue.closes) && venue.position == Reduced(old(venue.position), quantity)
              && (0.0 < old(venue.position) <= quantity ==> venue.position == 0.0)
              && (0.0 < quantity < old(venue.position) ==> venue.position + quantity == old(venue.position))
    ensures venue.position == old(venue.position) || venue.position == Reduced(old(venue.position), quantity)
    ensures placed.Failed? ==>
              || venue.rejections > old(venue.rejections)
              || venue.ambiguous == old(venue.ambiguous) + PROTECTION_ATTEMPTS
    ensures placed.Escaped? ==> venue.legs != old(venue.legs) && !venue.candid
    ensures venue.candid && venue.ambiguous < old(venue.ambiguous) + PROTECTION_ATTEMPTS ==>
              placed.Placed? && venue.closes == old(venue.closes)
    ensures venue.candid && leg.kind.StopMarket? && placed.Failed? ==>
              closed && venue.position == Reduced(old(venue.position), quantity)
    ensures venue.ambiguous >= old(venue.ambiguous)
    ensures venue.steady ==> placed.Placed?
  {
    closed := false;
    placed := PlaceProtection(venue, leg);
    if placed.Failed? && leg.kind.StopMarket? {
      closed := venue.MarketClose(quantity);
    }
  }

  /**
   * `placeServerProtectionOrders` (client.ts:815-821), behind every entry: it succeeds with exactly the new legs
   * beside the old ones; when it fails, either the new stop rests, or a close of the position was asked for. A candid
   * venue that loses fewer answers than there are attempts gets both legs.
   */
  method PlaceEntryLegs(venue: Venue, stop: Leg, target: Option<Leg>, quantity: real) returns (placed: Option<NewLegs>)
    requires venue.Valid() && AreNewLegs(stop, target, venue.side, venue.Used())
    modifies venue
    ensures venue.Valid() && Keeps(old(venue.legs), venue.legs)
    ensures placed.Some? ==>
              && Adds(old(venue.legs), venue.legs, stop, target, placed.value)
              && venue.closes == old(venue.closes) && venue.position == old(venue.position)
    ensures placed.None? && venue.closes == old(venue.closes) ==>
              && venue.position == old(venue.position) && HasStop(venue.legs, venue.side)
              && exists id: int :: id in venue.legs && venue.legs[id] == stop
    ensures placed.None? && venue.closes == old(venue.closes) && venue.candid ==> target.Some?
    ensures venue.candid && venue.ambiguous < old(venue.ambiguous) + PROTECTION_ATTEMPTS ==> placed.Some?
    ensures venue.closes > old(venue.closes) ==>
              && placed.None? && venue.closes == old(venue.closes) + 1 && AtMostOnce(old(venue.legs), venue.legs, stop)
              && (venue.position == old(venue.position) || venue.position == Reduced(old(venue.position), quantity))
    ensures venue.steady ==> placed.Some?
  {
    ghost var before := venue.legs;
    var stopOrder, closed := PlaceOrClose(venue, stop, quantity);
    if !stopOrder.Placed? {
      if stopOrder.Escaped? {
        var id: int :| id in venue.legs && venue.legs[id] == stop;
        RestingStop(venue.legs, id, venue.side);
      }
      return None;
    }
    if target.None? {
      return Some(NewLegs(stopOrder.orderId, None));
    }
    ghost var first := venue.legs;
    RestingStop(first, stopOrder.orderId, venue.side);
    var targetOrder;
    targetOrder, closed := PlaceOrClose(venue, target.value, quantity);
    StopsStay(first, venue.legs, target.value, venue.side);
    assert stopOrder.orderId in venue.legs && venue.legs[stopOrder.orderId] == stop;
    placed := if targetOrder.Placed? then Some(NewLegs(stopOrder.orderId, Some(targetOrder.orderId))) else None;
  }

  /** The new stop and, if there is one, the new target (client.ts:754-755). */
  method PlaceLegs(venue: Venue, stop: Leg, target: Option<Leg>) returns (placed: Option<NewLegs>)
    requires venue.Valid() && AreNewLegs(stop, target, venue.side, venue.Used())
    modifies venue`legs, venue`known, venue`nextId, venue`late, venue`gap, venue`rejections, venue`ambiguous
    ensures venue.Valid() && Keeps(old(venue.legs), venue.legs)
    ensures HasStop(old(venue.legs), venue.side) ==> venue.gap == old(venue.gap) && HasStop(venue.legs, venue.side)
    ensures placed.Some? ==> Adds(old(venue.legs), venue.legs, stop, target, placed.value)
    ensures venue.candid && venue.ambiguous < old(venue.ambiguous) + PROTECTION_ATTEMPTS ==> placed.Some?
    ensures venue.ambiguous >= old(venue.ambiguous)
    ensures venue.steady ==> placed.Some?
  {
    ghost var before := venue.legs;
    var stopOrder := PlaceProtection(venue, stop);
    StopsStay(before, venue.legs, stop, venue.side);
    if !stopOrder.Placed? {
      return None;
    }
    if target.None? {
      return Some(NewLegs(stopOrder.orderId, None));
    }
    ghost var first := venue.legs;
    RestingStop(first, stopOrder.orderId, venue.side);
    var targetOrder := PlaceProtection(venue, target.value);
    StopsStay(first, venue.legs, target.value, venue.side);
    placed := if targetOrder.Placed? then Some(NewLegs(stopOrder.orderId, Some(targetOrder.orderId))) else None;
  }

  lemma RestingStop(legs: map<int, Leg>, id: int, side: Side)
    requires id in legs && IsStop(legs[id], side)
    ensures HasStop(legs, side)
  {}

  /** The cancel loop (client.ts:757-764): the kept legs are never touched. */
  method CancelOld(venue: Venue, ids: seq<int>, keep: set<int>, stopOrderId: int) returns (ok: bool)
    requires venue.Valid() && stopOrderId in keep && stopOrderId in venue.legs
             && IsStop(venue.legs[stopOrderId], venue.side)
    modifies venue`legs, venue`gap
    ensures venue.Valid() && venue.gap == old(venue.gap) && HasStop(venue.legs, venue.side)
    ensures stopOrderId in venue.legs && venue.legs[stopOrderId] == old(venue.legs)[stopOrderId]
    ensures ok ==> CancelledBut(old(venue.legs), venue.legs, ids, keep)
    ensures venue.candid ==> ok
  {
    RestingStop(venue.legs, stopOrderId, venue.side);
    for i := 0 to |ids|
      invariant venue.Valid() && venue.gap == old(venue.gap) && HasStop(venue.legs, venue.side)
      invariant stopOrderId in venue.legs && IsStop(venue.legs[stopOrderId], venue.side)
      invariant CancelledBut(old(venue.legs), venue.legs, ids[..i], keep)
    {
      if ids[i] !in keep {
        ghost var before := venue.legs;
        var gone := venue.Cancel(ids[i]);
        RestingStop(venue.legs, stopOrderId, venue.side);
        if !gone {
          return false;
        }
      }
      assert ids[..i + 1] == ids[..i] + [ids[i]];
    }
    assert ids[..|ids|] == ids;
    ok := true;
  }
}
