/** The per-symbol promise chain that serialises stop work: `exclusive`, src/binance/liveBook.ts:146-150. */
module SymbolLock {
  import opened Common

  datatype Status = Waiting | Running | Done

  /** A task and the promise it was chained to when it was queued; either outcome of that promise starts it. */
  datatype Ticket = Ticket(after: Option<nat>, status: Status)

  /** A task has left the queue only if the promise it waits for has settled. */
  ghost predicate Chained(tickets: seq<Ticket>) {
    forall i :: 0 <= i < |tickets| ==>
      && tickets[i].after == (if i == 0 then None else Some(i - 1))
      && (!tickets[i].status.Waiting? && i > 0 ==> tickets[i - 1].status.Done?)
  }

  /** Everything queued before a task that has started is over. */
  lemma {:induction false} EarlierAreDone(tickets: seq<Ticket>, i: nat, j: nat)
    requires Chained(tickets) && i < j < |tickets| && !tickets[j].status.Waiting?
    ensures tickets[i].status.Done?
    decreases j
  {
    if i < j - 1 {
      EarlierAreDone(tickets, i, j - 1);
    }
  }

  /**
   * Main result: at most one task of a symbol runs at a time and they run in the order they were queued,
   * so an audit can never act between a replacement's cancel and its place.
   */
  lemma OneAtATimeInOrder(tickets: seq<Ticket>, i: nat, j: nat)
    requires Chained(tickets) && i < |tickets| && j < |tickets|
    ensures tickets[i].status.Running? && tickets[j].status.Running? ==> i == j
    ensures i < j && tickets[j].status.Done? ==> tickets[i].status.Done?
  {
    if i < j && !tickets[j].status.Waiting? {
      EarlierAreDone(tickets, i, j);
    }
    if j < i && !tickets[i].status.Waiting? {
      EarlierAreDone(tickets, j, i);
    }
  }

  class Chain {
    var tickets: seq<Ticket>
    /** `locks.get(symbol)`: the last promise of the chain. */
    var tail: Option<nat>

    ghost predicate Valid()
      reads this
    {
      Chained(tickets) && tail == if tickets == [] then None else Some(|tickets| - 1)
    }

    constructor ()
      ensures Valid() && tickets == []
    {
      tickets, tail := [], None;
    }

    /** Queues a task behind the chain's tail. */
    method Exclusive() returns (i: nat)
      requires Valid()
      modifies this
      ensures Valid() && i == |old(tickets)| && tickets == old(tickets) + [Ticket(old(tail), Waiting)]
    {
      i := |tickets|;
      tickets := tickets + [Ticket(tail, Waiting)];
      tail := Some(i);
    }

    /** The scheduler may start any task whose promise has settled. */
    predicate Ready(i: nat)
      reads this
    {
      i < |tickets| && tickets[i].status.Waiting?
      && (tickets[i].after.None? || (tickets[i].after.value < |tickets|
                                     && tickets[tickets[i].after.value].status.Done?))
    }

    method Start(i: nat)
      requires Valid() && Ready(i)
      modifies this`tickets
      ensures Valid() && tickets == old(tickets)[i := old(tickets)[i].(status := Running)]
    {
      tickets := tickets[i := tickets[i].(status := Running)];
    }

    /** A task ends, with or without an error. */
    method Settle(i: nat)
      requires Valid() && i < |tickets| && tickets[i].status.Running?
      modifies this`tickets
      ensures Valid() && tickets == old(tickets)[i := old(tickets)[i].(status := Done)]
    {
      tickets := tickets[i := tickets[i].(status := Done)];
    }
  }
}
