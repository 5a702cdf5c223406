/**
 * One live entry at a time: reserve, release and track (src/binance/liveEntry.ts:139-156) under submitLiveEntry
 * (src/binance/client.ts:399-442).
 */
module EntrySlot {
  import opened Common

  datatype Holder = Holder(symbol: string, clientOrderId: Option<int>)

  /** Where one call of `submitLiveEntry` is. Every await in it is a point where other calls may run. */
  datatype Phase =
    | Waiting
    /** Reserved; the leverage, margin, price and submit calls are still to answer. */
    | Reserved
    /** Submitted, or submitted with no answer: followed until the venue says what happened. */
    | Tracked
    /** Thrown at the caller without an order, or resolved. */
    | Over

  datatype Submission = Submission(symbol: string, clientOrderId: int, phase: Phase)

  predicate Unresolved(s: Submission) {
    s.phase.Reserved? || s.phase.Tracked?
  }

  /** How the part of the call after the reservation can end. */
  datatype Outcome =
    | Accepted
    /** The venue refused the order with an error code. */
    | Rejected
    /** A timeout or dropped connection: the order may rest. */
    | NoAnswer
    /** Something before the submit failed, such as setting the leverage. */
    | FailedBefore

  class Tracker {
    var holder: Option<Holder>

    /** liveEntry.ts:140-143; false is the thrown refusal. */
    method Reserve(symbol: string) returns (ok: bool)
      modifies this
      ensures ok <==> old(holder).None?
      ensures holder == if ok then Some(Holder(symbol, None)) else old(holder)
    {
      ok := holder.None?;
      if ok {
        holder := Some(Holder(symbol, None));
      }
    }

    /** liveEntry.ts:146-148: only a reservation without an order is given back. */
    method Release(symbol: string)
      modifies this
      ensures holder == if old(holder).Some? && old(holder).value == Holder(symbol, None) then None else old(holder)
    {
      if holder.Some? && holder.value.symbol == symbol && holder.value.clientOrderId.None? {
        holder := None;
      }
    }

    /** The synchronous part of `track` (liveEntry.ts:151-152). */
    method Track(symbol: string, clientOrderId: int)
      modifies this
      ensures holder == Some(Holder(symbol, Some(clientOrderId)))
    {
      holder := Some(Holder(symbol, Some(clientOrderId)));
    }

    /** The end of a followed entry (liveEntry.ts:155). */
    method Finish()
      modifies this
      ensures holder == None
    {
      holder := None;
    }
  }

  /** Any number of concurrent submissions over one tracker, one await-free section at a time. */
  class Desk {
    const tracker: Tracker
    var submissions: seq<Submission>

    /** The holder is the one unresolved submission, with its order id once there is an order. */
    ghost predicate Valid()
      reads this, tracker
    {
      forall i :: 0 <= i < |submissions| && Unresolved(submissions[i]) ==>
        && tracker.holder == Some(HolderOf(submissions[i]))
        && forall j :: 0 <= j < |submissions| && Unresolved(submissions[j]) ==> i == j
    }

    /** A held slot belongs to someone, so it is always given back. */
    ghost predicate Owned()
      reads this, tracker
    {
      tracker.holder.Some? ==> exists i :: 0 <= i < |submissions| && Unresolved(submissions[i])
    }

    static function HolderOf(s: Submission): Holder {
      Holder(s.symbol, if s.phase.Tracked? then Some(s.clientOrderId) else None)
    }

    constructor (tracker: Tracker)
      requires tracker.holder.None?
      ensures Valid() && Owned() && this.tracker == tracker && submissions == []
    {
      this.tracker, submissions := tracker, [];
    }

    /** A new call of `submitLiveEntry`. */
    method Call(symbol: string, clientOrderId: int)
      requires Valid() && Owned()
      modifies this
      ensures Valid() && Owned() && submissions == old(submissions) + [Submission(symbol, clientOrderId, Waiting)]
    {
      submissions := submissions + [Submission(symbol, clientOrderId, Waiting)];
      assert forall i :: 0 <= i < |old(submissions)| ==> submissions[i] == old(submissions[i]);
    }

    method SetPhase(i: nat, phase: Phase)
      requires i < |submissions|
      modifies this
      ensures submissions == old(submissions)[i := old(submissions)[i].(phase := phase)]
    {
      submissions := submissions[i := submissions[i].(phase := phase)];
    }

    /**
     * The reservation (client.ts:405, outside the try): it is refused if and only if another entry is
     * unresolved, and then nothing changes but the refused call.
     */
    method TryReserve(i: nat) returns (ok: bool)
      requires Valid() && Owned() && i < |submissions| && submissions[i].phase.Waiting?
      modifies this, tracker
      ensures Valid() && Owned()
      ensures ok <==> forall j :: 0 <= j < |old(submissions)| ==> !Unresolved(old(submissions)[j])
      ensures submissions == old(submissions)[i := old(submissions)[i].(phase := if ok then Reserved else Over)]
    {
      ok := tracker.Reserve(submissions[i].symbol);
      SetPhase(i, if ok then Reserved else Over);
      if ok {
        assert Unresolved(submissions[i]);
      } else {
        ghost var k :| 0 <= k < |old(submissions)| && Unresolved(old(submissions)[k]);
        assert Unresolved(submissions[k]);
      }
    }

    /**
     * The rest of the call (client.ts:406-441): an order that may exist is tracked, anything else gives
     * the slot back. The release after an unanswered submit does not.
     */
    method Answer(i: nat, outcome: Outcome)
      requires Valid() && Owned() && i < |submissions| && submissions[i].phase.Reserved?
      modifies this, tracker
      ensures Valid() && Owned()
      ensures submissions == old(submissions)[i := old(submissions)[i].(phase :=
                if outcome.Accepted? || outcome.NoAnswer? then Tracked else Over)]
      ensures tracker.holder.Some? <==> outcome.Accepted? || outcome.NoAnswer?
    {
      var s := submissions[i];
      if outcome.Accepted? || outcome.NoAnswer? {
        tracker.Track(s.symbol, s.clientOrderId);
        SetPhase(i, Tracked);
        assert Unresolved(submissions[i]);
      } else {
        SetPhase(i, Over);
      }
      if !outcome.Accepted? {
        tracker.Release(s.symbol);
      }
    }

    /** The tracker resolves the entry. */
    method Resolve(i: nat)
      requires Valid() && Owned() && i < |submissions| && submissions[i].phase.Tracked?
      modifies this, tracker
      ensures Valid() && Owned() && tracker.holder.None?
      ensures submissions == old(submissions)[i := old(submissions)[i].(phase := Over)]
    {
      tracker.Finish();
      SetPhase(i, Over);
    }
  }

  /** What can happen next: a new call, or one call's next await-free section. */
  datatype Event =
    | Called(symbol: string, clientOrderId: int)
    | Reserves(call: nat)
    | Answered(call: nat, outcome: Outcome)
    | Resolved(call: nat)

  /** Main result: over any interleaving of calls, answers and resolutions at most one live entry is unresolved. */
  method Interleave(desk: Desk, events: seq<Event>)
    requires desk.Valid() && desk.Owned()
    modifies desk, desk.tracker
    ensures desk.Valid() && desk.Owned()
    ensures forall i, j | 0 <= i < |desk.submissions| && 0 <= j < |desk.submissions| ::
              Unresolved(desk.submissions[i]) && Unresolved(desk.submissions[j]) ==> i == j
    ensures desk.tracker.holder.None? <==> forall i :: 0 <= i < |desk.submissions| ==> !Unresolved(desk.submissions[i])
  {
    for k := 0 to |events|
      invariant desk.Valid() && desk.Owned()
    {
      match events[k] {
        case Called(symbol, clientOrderId) => desk.Call(symbol, clientOrderId);
        case Reserves(i) =>
          if i < |desk.submissions| && desk.submissions[i].phase.Waiting? { var ok := desk.TryReserve(i); }
        case Answered(i, outcome) =>
          if i < |desk.submissions| && desk.submissions[i].phase.Reserved? { desk.Answer(i, outcome); }
        case Resolved(i) =>
          if i < |desk.submissions| && desk.submissions[i].phase.Tracked? { desk.Resolve(i); }
      }
    }
  }
}
