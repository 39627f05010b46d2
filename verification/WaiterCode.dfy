/** The linked list of the program and the list of the run model are the same list. */
module WaiterCode {
  import opened Options
  import opened Waiters
  import opened WaiterRuns

  predicate Shows(p: Pending, n: Node)
    reads p
  {
    p.reqId == n.reqId && p.message == n.message && p.ready == n.ready
  }

  /** The same waiters in the same order, objs[i] being the structure that waiter i allocated. */
  ghost predicate SameWaiters(list: seq<Pending>, objs: seq<Pending>, ids: seq<nat>) {
    |list| == |ids| && forall a :: 0 <= a < |ids| ==> ids[a] < |objs| && list[a] == objs[ids[a]]
  }

  ghost predicate ShowsAll(objs: seq<Pending>, nodes: seq<Node>)
    reads objs
  {
    |objs| == |nodes| && forall i :: 0 <= i < |objs| ==> Shows(objs[i], nodes[i])
  }

  ghost predicate Apart(objs: seq<Pending>) {
    forall i, j :: 0 <= i < j < |objs| ==> objs[i] != objs[j]
  }

  /** The structures in memory are those of the world. */
  ghost predicate Represents(L: WaitingList, objs: seq<Pending>, w: World)
    reads L, L.list, objs
  {
    L.Valid() && Apart(objs) && SameWaiters(L.list, objs, w.list) && ShowsAll(objs, w.nodes)
  }

  /** A waiter's registration is one event. */
  method Register(L: WaitingList, ghost objs: seq<Pending>, ghost w: World, response: Pending, ghost i: nat)
    requires Represents(L, objs, w) && Inv(w) && Enabled(w, Push(i)) && response == objs[i]
    modifies L, response`next
    ensures Represents(L, objs, Apply(w, Push(i)))
  {
    hide Inv, L.Valid, SameWaiters, Apart;
    NotListed(w, i);
    PushedAt(L.list, objs, w.list, i);
    L.Register(response);
  }

  lemma PushedAt(list: seq<Pending>, objs: seq<Pending>, ids: seq<nat>, i: nat)
    requires SameWaiters(list, objs, ids) && Apart(objs) && i < |objs| && i !in ids
    ensures objs[i] !in list && SameWaiters([objs[i]] + list, objs, [i] + ids)
  {
  }

  lemma NotListed(w: World, i: nat)
    requires Inv(w) && i < |w.nodes| && w.nodes[i].pc.Created?
    ensures i !in w.list
  {
  }

  lemma InList(w: World, i: nat)
    requires Inv(w) && i < |w.nodes| && w.nodes[i].pc.Copying?
    ensures i in w.list
  {
  }

  lemma WithoutAt(list: seq<Pending>, objs: seq<Pending>, ids: seq<nat>, at: nat, i: nat)
    requires SameWaiters(list, objs, ids) && Apart(objs) && at < |list| && i < |objs| && list[at] == objs[i]
    ensures ids[at] == i && SameWaiters(list[..at] + list[at + 1..], objs, ids[..at] + ids[at + 1..])
  {
  }

  /** Leaving the list changes no other field. */
  lemma StillShows(objs: seq<Pending>, w: World, i: nat, at: nat)
    requires ShowsAll(objs, w.nodes) && Enabled(w, Unlink(i, at))
    ensures ShowsAll(objs, Apply(w, Unlink(i, at)).nodes)
  {
  }

  /** And so is its removal; it always finds the waiter. */
  method Remove(L: WaitingList, ghost objs: seq<Pending>, ghost w: World, response: Pending, ghost i: nat)
    returns (ghost at: nat)
    requires Represents(L, objs, w) && Inv(w) && w.scan.None?
    requires i < |objs| && response == objs[i] && w.nodes[i].pc.Copying? && w.nodes[i].pc.todo == {}
    modifies L, L.list
    ensures Enabled(w, Unlink(i, at)) && Represents(L, objs, Apply(w, Unlink(i, at)))
  {
    hide Inv, L.Valid;
    InList(w, i);
    ghost var list := L.list;
    assert response in list by {
      var a :| 0 <= a < |w.list| && w.list[a] == i;
      assert list[a] == response;
    }
    at := L.Remove(response);
    WithoutAt(list, objs, w.list, at, i);
    assert ShowsAll(objs, w.nodes) by {
      forall k | 0 <= k < |objs| ensures Shows(objs[k], w.nodes[k]) {
        assert objs[k] in list || objs[k] !in list;
      }
    }
    StillShows(objs, w, i, at);
  }

  // ----- a delivery is an arrival and the looks of one search -----

  /** The search run to its end. */
  function Searched(w: World): World
    requires w.scan.Some?
    requires forall a :: 0 <= a < |w.list| ==> w.list[a] < |w.nodes|
    decreases |w.list| - w.scan.value.at
  {
    var v := Looked(w);
    if v.scan.None? || w.scan.value.at >= |w.list| then v else Searched(v)
  }

  /** Events lead from w to v. */
  ghost predicate Leads(w: World, es: seq<Event>, v: World)
    decreases |es|
  {
    if es == [] then v == w else Enabled(w, es[0]) && Leads(Apply(w, es[0]), es[1..], v)
  }

  lemma {:induction false} SearchLeads(w: World) returns (es: seq<Event>)
    requires w.scan.Some? && forall a :: 0 <= a < |w.list| ==> w.list[a] < |w.nodes|
    ensures Leads(w, es, Searched(w))
    decreases |w.list| - w.scan.value.at
  {
    var v := Looked(w);
    if v.scan.None? || w.scan.value.at >= |w.list| {
      assert Leads(v, [], v);
      es := [Look];
      assert es[1..] == [];
    } else {
      var fs := SearchLeads(v);
      es := [Look] + fs;
      assert es[1..] == fs;
    }
  }

  /** The end of a search that has passed no addressee yet: the first of the rest gets the message, or the mailbox. */
  lemma {:induction false} SearchEnds(w: World, k: nat)
    requires w.scan.Some? && w.scan.value.at <= k <= |w.list|
    requires forall a :: 0 <= a < |w.list| ==> w.list[a] < |w.nodes|
    requires forall a :: w.scan.value.at <= a < k ==> w.nodes[w.list[a]].reqId != w.scan.value.m.reqId
    requires k < |w.list| ==> w.nodes[w.list[k]].reqId == w.scan.value.m.reqId
    ensures Searched(w) ==
      if k < |w.list| then
        w.(scan := None, nodes := w.nodes[w.list[k] := Give(w.nodes[w.list[k]], w.scan.value.m)])
      else w.(scan := None, mailbox := Some(w.scan.value.m))
    decreases |w.list| - w.scan.value.at
  {
    if w.scan.value.at < k {
      SearchEnds(Looked(w), k);
    }
  }

  /** Where the first addressee of a message is. */
  ghost function Addressee(w: World, m: Slots, k: nat): (a: nat)
    requires k <= |w.list| && forall a :: 0 <= a < |w.list| ==> w.list[a] < |w.nodes|
    ensures k <= a <= |w.list| && forall b :: k <= b < a ==> w.nodes[w.list[b]].reqId != m.reqId
    ensures a < |w.list| ==> w.nodes[w.list[a]].reqId == m.reqId
    decreases |w.list| - k
  {
    if k == |w.list| || w.nodes[w.list[k]].reqId == m.reqId then k else Addressee(w, m, k + 1)
  }

  /** What the listener does with one message, its lock held throughout: the program and the model agree on who gets
      it, and the program takes it for a request exactly when the model does. */
  method Deliver(L: WaitingList, ghost objs: seq<Pending>, ghost w: World, m: Slots)
    returns (pending: Pending?, ghost es: seq<Event>, ghost v: World)
    requires Represents(L, objs, w) && Inv(w) && w.scan.None?
    modifies L.list
    ensures Leads(w, es, v) && Represents(L, objs, v) && v.scan.None?
    ensures v.mailbox == if pending == null then Some(m) else w.mailbox
  {
    hide Inv, L.Valid, Looked, Searched;
    InRange(w);
    ghost var u := Apply(w, Arrive(m));
    ghost var k := Addressee(w, m, 0);
    SearchEnds(u, k);
    ghost var fs := SearchLeads(u);
    es, v := [Arrive(m)] + fs, Searched(u);
    assert es[1..] == fs;
    ghost var list := L.list;
    SameFirst(list, objs, w, m, k);
    pending := L.Deliver(m);
    if k < |list| {
      assert pending == list[k] by {
        var a :| 0 <= a < |list| && FirstAt(list, a, m.reqId) && list[a] == pending;
        assert FirstAt(list, k, m.reqId);
      }
    }
    assert ShowsAll(objs, v.nodes) by {
      forall j | 0 <= j < |objs| ensures Shows(objs[j], v.nodes[j]) {
        assert objs[j] in list || objs[j] !in list;
      }
    }
  }

  lemma SameFirst(list: seq<Pending>, objs: seq<Pending>, w: World, m: Slots, k: nat)
    requires SameWaiters(list, objs, w.list) && ShowsAll(objs, w.nodes) && k <= |list|
    requires forall b :: 0 <= b < k ==> w.nodes[w.list[b]].reqId != m.reqId
    requires k < |list| ==> w.nodes[w.list[k]].reqId == m.reqId
    ensures k < |list| ==> FirstAt(list, k, m.reqId)
    ensures k == |list| ==> forall p :: p in list ==> p.reqId != m.reqId
  {
    forall b | 0 <= b < |list| ensures list[b].reqId == w.nodes[w.list[b]].reqId {
      assert Shows(objs[w.list[b]], w.nodes[w.list[b]]);
    }
  }

  lemma InRange(w: World)
    requires Inv(w)
    ensures forall a :: 0 <= a < |w.list| ==> w.list[a] < |w.nodes|
  {
    assert forall a :: 0 <= a < |w.list| ==> w.list[a] in w.list;
  }
}
