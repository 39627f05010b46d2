/** The linked list on which threads wait for the answers that a listener receives: the list operations. */
module Waiters {
  import opened Options

  /** message_t as a structure with its two data pointers, None for NULL. */
  datatype Slots = Slots(reqId: int, trainId: int, code: int, data0: Option<string>, data1: Option<string>)

  /** pending_message_t. */
  class Pending {
    const reqId: int
    var ready: bool
    var message: Slots
    var next: Pending?

    constructor (reqId: int, junk: Slots)
      ensures this.reqId == reqId && !ready && next == null && message == junk
    {
      this.reqId, ready, message, next := reqId, false, junk, null;
    }
  }

  /** message_list. */
  class WaitingList {
    var head: Pending?
    ghost var list: seq<Pending>

    ghost predicate Valid()
      reads this, list
    {
      && (forall i, j :: 0 <= i < j < |list| ==> list[i] != list[j])
      && head == Entry(list, 0)
      && (forall i :: 0 <= i < |list| ==> list[i].next == Entry(list, i + 1))
    }

    constructor ()
      ensures Valid() && list == []
    {
      head, list := null, [];
    }

    /** A new waiter goes to the front. */
    method Register(response: Pending)
      requires Valid() && response !in list
      modifies this, response`next
      ensures Valid() && list == [response] + old(list)
    {
      response.next := head;
      head := response;
      list := [response] + list;
    }

    /** The listener's search: the first waiter with the message's identifier gets it, and nobody else. */
    method Deliver(m: Slots) returns (pending: Pending?)
      requires Valid()
      modifies list
      ensures Valid() && list == old(list)
      ensures pending == null <==> forall p :: p in list ==> p.reqId != m.reqId
      ensures pending != null ==> pending in list && pending.reqId == m.reqId && pending.ready && pending.message == m
      ensures pending != null ==> exists a :: 0 <= a < |list| && FirstAt(list, a, m.reqId) && list[a] == pending
      ensures forall p :: p in list && p != pending ==> p.ready == old(p.ready) && p.message == old(p.message)
    {
      pending := head;
      ghost var i := 0;
      while pending != null
        invariant i <= |list| && pending == Entry(list, i)
        invariant forall k :: 0 <= k < i ==> list[k].reqId != m.reqId
        decreases |list| - i
      {
        if pending.reqId == m.reqId {
          assert FirstAt(list, i, m.reqId);
          pending.message := m;
          pending.ready := true;
          return;
        }
        pending := pending.next;
        i := i + 1;
      }
    }

    /** The node before response, if there is one. */
    method Before(response: Pending) returns (prev: Pending?, ghost i: nat)
      requires Valid() && head != response
      ensures prev == Entry(list, i) && i <= |list|
      ensures if response in list then i + 1 < |list| && list[i + 1] == response else prev == null
    {
      prev, i := head, 0;
      while prev != null && prev.next != response
        invariant i <= |list| && prev == Entry(list, i)
        invariant forall k :: 0 <= k <= i && k < |list| ==> list[k] != response
        decreases |list| - i
      {
        prev := prev.next;
        i := i + 1;
      }
    }

    method Skip(prev: Pending, response: Pending, ghost i: nat)
      requires Valid() && i + 1 < |list| && list[i] == prev && list[i + 1] == response
      modifies this`list, prev`next
      ensures Valid() && list == old(list)[..i + 1] + old(list)[i + 2..]
    {
      Without(list, i + 1);
      prev.next := response.next;
      list := list[..i + 1] + list[i + 2..];
    }

    method DropHead()
      requires Valid() && list != []
      modifies this
      ensures Valid() && list == old(list)[1..]
    {
      head := head.next;
      list := list[1..];
    }

    /** Unlinking; a waiter that is not in the list is not looked for any further. */
    method Remove(response: Pending) returns (ghost at: nat)
      requires Valid()
      modifies this, list
      ensures Valid()
      ensures response !in old(list) ==> list == old(list)
      ensures response in old(list) ==>
                at < |old(list)| && old(list)[at] == response && list == old(list)[..at] + old(list)[at + 1..]
      ensures forall p :: p in old(list) ==> p.ready == old(p.ready) && p.message == old(p.message)
    {
      at := 0;
      if head == response {
        DropHead();
      } else {
        var prev, i := Before(response);
        if prev != null {
          Skip(prev, response, i);
          at := i + 1;
        }
      }
    }
  }

  lemma Without(list: seq<Pending>, at: nat)
    requires at < |list|
    ensures var rest := list[..at] + list[at + 1..];
            |rest| == |list| - 1 && forall k :: 0 <= k < |rest| ==> rest[k] == list[if k < at then k else k + 1]
  {
  }

  /** The first entry for an identifier. */
  predicate FirstAt(list: seq<Pending>, a: nat, reqId: int)
    requires a < |list|
  {
    list[a].reqId == reqId && forall b :: 0 <= b < a ==> list[b].reqId != reqId
  }

  ghost function Entry(list: seq<Pending>, i: nat): Pending? {
    if i < |list| then list[i] else null
  }
}
