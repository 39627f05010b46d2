/** Waiting threads and the listener, step by step: every interleaving of their critical sections. */
module WaiterRuns {
  import opened Options
  import opened Waiters

  datatype Field = ReqId | TrainId | Code | Data0 | Data1

  const ALL := {ReqId, TrainId, Code, Data0, Data1}
  const NOTHING := Slots(0, 0, 0, None, None)

  /** Where a thread is in wait_for_response. The copy of the message to the caller is not protected by a lock: the
      fields are read one at a time, in any order; todo are those not read yet. */
  datatype Pc =
    | Created | Waiting | Copying(got: Slots, todo: set<Field>) | Removed(result: Slots) | Returned(result: Slots)

  /** A waiter's node. The last five fields record its history: what the memory of the fresh node held, whether and
      after how many deliveries the wait ended by timeout, which messages came, and after how many of them each field
      was read by the copy. */
  datatype Node = Node(reqId: int, limit: nat, message: Slots, ready: bool, pc: Pc,
                       junk: Slots, timedOut: bool, cut: nat, delivered: seq<Slots>, at: map<Field, nat>)

  /** The listener holds the list's lock while it searches for the addressee of a message. */
  datatype Scan = Scan(m: Slots, at: nat)

  /** pool holds the identifiers handed out by generate_unique_req_id and not used for a wait yet. */
  datatype World = World(nextId: int, pool: set<int>, nodes: seq<Node>, list: seq<nat>, scan: Option<Scan>,
                         mailbox: Option<Slots>)

  datatype Event =
    | Generate
    | Create(id: int, limit: nat, junk: Slots)
    | Push(i: nat)
    | Timeout(i: nat)
    | Wake(i: nat)
    | Read(i: nat, f: Field)
    | Unlink(i: nat, at: nat)
    | Return(i: nat)
    | Arrive(m: Slots)
    | Look

  const START := World(1, {}, [], [], None, None)

  /** What a timeout leaves: code -1 and no data. */
  predicate Marker(m: Slots) {
    m.code == -1 && m.data0 == None
  }

  function Marked(m: Slots): (r: Slots)
    ensures Marker(r)
  {
    m.(code := -1, data0 := None)
  }

  predicate Registered(n: Node) {
    n.pc.Waiting? || n.pc.Copying?
  }

  function Fresh(id: int, limit: nat, junk: Slots): Node {
    Node(id, limit, junk, false, Created, junk, false, 0, [], map[])
  }

  /** One field of a structure assignment. */
  function Copy(got: Slots, f: Field, m: Slots): Slots {
    match f
    case ReqId => got.(reqId := m.reqId)
    case TrainId => got.(trainId := m.trainId)
    case Code => got.(code := m.code)
    case Data0 => got.(data0 := m.data0)
    case Data1 => got.(data1 := m.data1)
  }

  predicate Agree(a: Slots, b: Slots, f: Field) {
    match f
    case ReqId => a.reqId == b.reqId
    case TrainId => a.trainId == b.trainId
    case Code => a.code == b.code
    case Data0 => a.data0 == b.data0
    case Data1 => a.data1 == b.data1
  }

  function Give(n: Node, m: Slots): Node {
    n.(message := m, ready := true, delivered := n.delivered + [m])
  }

  predicate Enabled(w: World, e: Event) {
    match e
    case Generate => true
    case Create(id, _, _) => id in w.pool
    case Push(i) => i < |w.nodes| && w.nodes[i].pc.Created? && w.scan.None?
    case Timeout(i) => i < |w.nodes| && w.nodes[i].pc.Waiting? && w.nodes[i].limit > 0
    case Wake(i) => i < |w.nodes| && w.nodes[i].pc.Waiting? && w.nodes[i].ready
    case Read(i, f) => i < |w.nodes| && w.nodes[i].pc.Copying? && f in w.nodes[i].pc.todo
    case Unlink(i, at) =>
      && i < |w.nodes| && w.nodes[i].pc.Copying? && w.nodes[i].pc.todo == {} && w.scan.None?
      && at < |w.list| && w.list[at] == i
    case Return(i) => i < |w.nodes| && w.nodes[i].pc.Removed?
    case Arrive(_) => w.scan.None?
    case Look => w.scan.Some?
  }

  /** The listener's next look: at the end of the list the message is a request, otherwise it is for this waiter or
      the search goes on. */
  function Looked(w: World): World
    requires w.scan.Some?
  {
    var Scan(m, at) := w.scan.value;
    if at >= |w.list| then w.(scan := None, mailbox := Some(m))
    else if w.list[at] >= |w.nodes| then w
    else if w.nodes[w.list[at]].reqId == m.reqId then
      w.(scan := None, nodes := w.nodes[w.list[at] := Give(w.nodes[w.list[at]], m)])
    else w.(scan := Some(Scan(m, at + 1)))
  }

  /** What a waiter's own step makes of its node. */
  function Moved(n: Node, e: Event): Node {
    match e
    case Push(_) => n.(pc := Waiting)
    case Timeout(_) =>
      n.(message := Marked(n.message), ready := true, pc := Copying(NOTHING, ALL), timedOut := true,
          cut := |n.delivered|)
    case Wake(_) => n.(pc := Copying(NOTHING, ALL))
    case Read(_, f) =>
      if n.pc.Copying? then
        n.(pc := Copying(Copy(n.pc.got, f, n.message), n.pc.todo - {f}), at := n.at[f := |n.delivered|])
      else n
    case Unlink(_, _) => if n.pc.Copying? then n.(pc := Removed(n.pc.got)) else n
    case Return(_) => if n.pc.Removed? then n.(pc := Returned(n.pc.result)) else n
    case Generate => n
    case Create(_, _, _) => n
    case Arrive(_) => n
    case Look => n
  }

  function Apply(w: World, e: Event): World
    requires Enabled(w, e)
  {
    match e
    case Generate => w.(nextId := w.nextId + 1, pool := w.pool + {w.nextId})
    case Create(id, limit, junk) => w.(pool := w.pool - {id}, nodes := w.nodes + [Fresh(id, limit, junk)])
    case Push(i) => w.(nodes := w.nodes[i := Moved(w.nodes[i], e)], list := [i] + w.list)
    case Timeout(i) => w.(nodes := w.nodes[i := Moved(w.nodes[i], e)])
    case Wake(i) => w.(nodes := w.nodes[i := Moved(w.nodes[i], e)])
    case Read(i, _) => w.(nodes := w.nodes[i := Moved(w.nodes[i], e)])
    case Unlink(i, at) => w.(nodes := w.nodes[i := Moved(w.nodes[i], e)], list := w.list[..at] + w.list[at + 1..])
    case Return(i) => w.(nodes := w.nodes[i := Moved(w.nodes[i], e)])
    case Arrive(m) => w.(scan := Some(Scan(m, 0)))
    case Look => Looked(w)
  }

  // ----- what every step keeps -----

  /** What the node held after c deliveries, from the end of the wait on. */
  function Version(n: Node, c: nat): Slots
    requires c <= |n.delivered|
  {
    var m := if c == 0 then n.junk else n.delivered[c - 1];
    if n.timedOut && c == n.cut then Marked(m) else m
  }

  /** How many deliveries had been made at least when the copy began. */
  function Began(n: Node): nat {
    if n.timedOut then n.cut else 1
  }

  /** Field f of the copy is that of the message which the node held when it was read. */
  predicate ReadFrom(n: Node, got: Slots, f: Field) {
    f in n.at && Began(n) <= n.at[f] <= |n.delivered| && Agree(got, Version(n, n.at[f]), f)
  }

  predicate ReadAll(n: Node, r: Slots) {
    ReadFrom(n, r, ReqId) && ReadFrom(n, r, TrainId) && ReadFrom(n, r, Code) && ReadFrom(n, r, Data0)
        && ReadFrom(n, r, Data1)
  }

  ghost predicate CopyOk(n: Node, got: Slots, todo: set<Field>) {
    n.ready && forall f: Field :: f !in todo ==> ReadFrom(n, got, f)
  }

  ghost predicate NodeOk(n: Node) {
    && (forall m :: m in n.delivered ==> m.reqId == n.reqId)
    && n.message == Version(n, |n.delivered|)
    && (n.timedOut ==> n.cut <= |n.delivered|)
    && (n.ready ==> n.delivered != [] || n.timedOut)
    && (n.limit == 0 ==> !n.timedOut)
    && match n.pc
       case Created => !n.ready && !n.timedOut && n.delivered == []
       case Waiting => !n.timedOut
       case Copying(got, todo) => CopyOk(n, got, todo)
       case Removed(r) => CopyOk(n, r, {})
       case Returned(r) => CopyOk(n, r, {})
  }

  ghost predicate Listed(w: World) {
    && (forall a, b :: 0 <= a < b < |w.list| ==> w.list[a] != w.list[b])
    && (forall i :: i in w.list ==> i < |w.nodes| && Registered(w.nodes[i]))
    && (forall i :: 0 <= i < |w.nodes| && Registered(w.nodes[i]) ==> i in w.list)
  }

  ghost predicate Unique(w: World) {
    && (forall i, j :: 0 <= i < j < |w.nodes| ==> w.nodes[i].reqId != w.nodes[j].reqId)
    && (forall i :: 0 <= i < |w.nodes| ==> w.nodes[i].reqId < w.nextId && w.nodes[i].reqId !in w.pool)
    && (forall id :: id in w.pool ==> id < w.nextId)
  }

  /** The listener is at a node of the list, and those it has passed do not wait for this message. */
  ghost predicate Scanning(w: World) {
    w.scan.Some? ==>
      && w.scan.value.at <= |w.list|
      && forall a :: 0 <= a < w.scan.value.at && a < |w.list| && w.list[a] < |w.nodes| ==>
           w.nodes[w.list[a]].reqId != w.scan.value.m.reqId
  }

  ghost predicate Inv(w: World) {
    && (forall i :: 0 <= i < |w.nodes| ==> NodeOk(w.nodes[i]))
    && Listed(w) && Unique(w) && Scanning(w)
  }

  /** Reading one more field. */
  lemma ReadOk(n: Node, i: nat, f: Field)
    requires NodeOk(n) && n.pc.Copying? && f in n.pc.todo
    ensures NodeOk(Moved(n, Read(i, f)))
  {
    var v := Moved(n, Read(i, f));
    forall g: Field | g !in v.pc.todo ensures ReadFrom(v, v.pc.got, g) {
      if g != f {
        assert ReadFrom(n, n.pc.got, g);
      }
    }
  }

  lemma MovedOk(n: Node, e: Event)
    requires NodeOk(n)
    requires e.Push? ==> n.pc.Created?
    requires e.Timeout? ==> n.pc.Waiting? && n.limit > 0
    requires e.Wake? ==> n.pc.Waiting? && n.ready
    requires e.Read? ==> n.pc.Copying? && e.f in n.pc.todo
    requires e.Unlink? ==> n.pc.Copying? && n.pc.todo == {}
    ensures NodeOk(Moved(n, e)) && Moved(n, e).reqId == n.reqId
  {
    forall f: Field ensures f in ALL {
      assert f.ReqId? || f.TrainId? || f.Code? || f.Data0? || f.Data1?;
    }
    if e.Read? {
      ReadOk(n, e.i, e.f);
    }
  }

  lemma GivenOk(n: Node, m: Slots)
    requires NodeOk(n) && m.reqId == n.reqId && !n.pc.Created?
    ensures NodeOk(Give(n, m))
  {
    var v := Give(n, m);
    assert forall c: nat :: c <= |n.delivered| ==> Version(v, c) == Version(n, c);
    forall f: Field, got: Slots ensures ReadFrom(n, got, f) ==> ReadFrom(v, got, f) {
    }
  }

  lemma NodesOk(w: World, e: Event)
    requires Inv(w) && Enabled(w, e)
    ensures forall i :: 0 <= i < |Apply(w, e).nodes| ==> NodeOk(Apply(w, e).nodes[i])
  {
    match e
    case Generate =>
    case Create(_, _, _) =>
    case Push(i) => MovedOk(w.nodes[i], e);
    case Timeout(i) => MovedOk(w.nodes[i], e);
    case Wake(i) => MovedOk(w.nodes[i], e);
    case Read(i, _) => MovedOk(w.nodes[i], e);
    case Unlink(i, _) => MovedOk(w.nodes[i], e);
    case Return(i) => MovedOk(w.nodes[i], e);
    case Arrive(_) =>
    case Look =>
      var Scan(m, at) := w.scan.value;
      assert at < |w.list| ==> w.list[at] in w.list;
      if at < |w.list| && w.nodes[w.list[at]].reqId == m.reqId {
        GivenOk(w.nodes[w.list[at]], m);
      }
  }

  lemma PushListed(w: World, i: nat)
    requires Listed(w) && Enabled(w, Push(i))
    ensures Listed(Apply(w, Push(i)))
  {
    var v := Apply(w, Push(i));
    assert i !in w.list;
    assert v.list[0] == i;
    forall j | 0 <= j < |v.nodes| && Registered(v.nodes[j]) ensures j in v.list {
      if j != i {
        assert j in w.list;
      }
    }
    assert forall a :: 0 < a < |v.list| ==> v.list[a] == w.list[a - 1];
  }

  lemma WithoutOne(list: seq<nat>, at: nat)
    requires at < |list| && forall a, b :: 0 <= a < b < |list| ==> list[a] != list[b]
    ensures var rest := list[..at] + list[at + 1..];
            && (forall a, b :: 0 <= a < b < |rest| ==> rest[a] != rest[b])
            && (forall x :: x in rest <==> x in list && x != list[at])
  {
    var rest := list[..at] + list[at + 1..];
    forall x | x in list && x != list[at] ensures x in rest {
      var a :| 0 <= a < |list| && list[a] == x;
      assert rest[if a < at then a else a - 1] == x;
    }
  }

  lemma UnlinkListed(w: World, i: nat, at: nat)
    requires Listed(w) && Enabled(w, Unlink(i, at))
    ensures Listed(Apply(w, Unlink(i, at)))
  {
    WithoutOne(w.list, at);
  }

  lemma SameListed(w: World, v: World)
    requires Listed(w) && v.list == w.list && |v.nodes| >= |w.nodes|
    requires forall i :: 0 <= i < |v.nodes| ==> (Registered(v.nodes[i]) <==> i < |w.nodes| && Registered(w.nodes[i]))
    ensures Listed(v)
  {
    forall j | 0 <= j < |v.nodes| && Registered(v.nodes[j]) ensures j in v.list {
      assert j in w.list;
    }
  }

  lemma StillListed(w: World, e: Event)
    requires Inv(w) && Enabled(w, e)
    ensures Listed(Apply(w, e))
  {
    if e.Push? {
      PushListed(w, e.i);
    } else if e.Unlink? {
      UnlinkListed(w, e.i, e.at);
    } else {
      SameListed(w, Apply(w, e));
    }
  }

  lemma SameIds(w: World, e: Event)
    requires Enabled(w, e)
    ensures var v := Apply(w, e);
            && |v.nodes| == (if e.Create? then |w.nodes| + 1 else |w.nodes|)
            && (forall i :: 0 <= i < |w.nodes| ==> v.nodes[i].reqId == w.nodes[i].reqId)
            && (e.Create? ==> v.nodes[|w.nodes|].reqId == e.id)
  {
    if e.Look? && w.scan.value.at < |w.list| {
      var i: nat := w.list[w.scan.value.at];
      assert i >= 0;
    }
  }

  lemma StillUnique(w: World, e: Event)
    requires Inv(w) && Enabled(w, e)
    ensures Unique(Apply(w, e))
  {
    hide NodeOk, Listed, Scanning, Looked, Moved;
    SameIds(w, e);
    var v := Apply(w, e);
    if !e.Create? && !e.Generate? {
      SamePool(w, e);
    }
  }

  lemma SamePool(w: World, e: Event)
    requires Enabled(w, e) && !e.Create? && !e.Generate?
    ensures Apply(w, e).pool == w.pool && Apply(w, e).nextId == w.nextId
  {
  }

  lemma SameList(w: World, e: Event)
    requires Enabled(w, e) && !e.Look? && !e.Arrive? && w.scan.Some?
    ensures Apply(w, e).list == w.list && Apply(w, e).scan == w.scan
  {
  }

  lemma StillScanning(w: World, e: Event)
    requires Inv(w) && Enabled(w, e)
    ensures Scanning(Apply(w, e))
  {
    SameIds(w, e);
    if e.Look? {
    } else if e.Arrive? {
    } else if w.scan.Some? {
      SameList(w, e);
      assert forall a :: 0 <= a < |w.list| ==> w.list[a] in w.list;
    }
  }

  lemma StepInv(w: World, e: Event)
    requires Inv(w) && Enabled(w, e)
    ensures Inv(Apply(w, e))
  {
    NodesOk(w, e);
    StillListed(w, e);
    StillUnique(w, e);
    StillScanning(w, e);
  }

  // ----- runs -----

  ghost predicate Run(ws: seq<World>, es: seq<Event>) {
    && |ws| == |es| + 1 && ws[0] == START
    && forall k :: 0 <= k < |es| ==> Step(ws[k], es[k], ws[k + 1])
  }

  predicate Step(w: World, e: Event, v: World) {
    Enabled(w, e) && v == Apply(w, e)
  }

  lemma {:induction false} RunInv(ws: seq<World>, es: seq<Event>, k: nat)
    requires Run(ws, es) && k < |ws|
    ensures Inv(ws[k])
    decreases k
  {
    if k > 0 {
      RunInv(ws, es, k - 1);
      assert Step(ws[k - 1], es[k - 1], ws[k]);
      StepInv(ws[k - 1], es[k - 1]);
    }
  }

  /** In every reachable state the list holds exactly the registered waiters that are not removed, each once. */
  lemma ListIsRegistered(ws: seq<World>, es: seq<Event>, k: nat)
    requires Run(ws, es) && k < |ws|
    ensures var w := ws[k];
            && (forall i :: 0 <= i < |w.nodes| ==> (Registered(w.nodes[i]) <==> i in w.list))
            && (forall a, b :: 0 <= a < b < |w.list| ==> w.list[a] != w.list[b])
  {
    RunInv(ws, es, k);
  }

  /** The listener reads and writes nodes of waiters that are still registered only; it delivers to the one waiter of
      the message's identifier if that one is registered, and takes the message for a request exactly when none is. */
  lemma ListenerSafe(ws: seq<World>, es: seq<Event>, k: nat)
    requires Run(ws, es) && k < |es| && es[k].Look?
    ensures var w, v, s := ws[k], ws[k + 1], ws[k].scan.value;
            && (s.at < |w.list| ==> w.list[s.at] < |w.nodes| && Registered(w.nodes[w.list[s.at]]))
            && (forall i :: 0 <= i < |w.nodes| && !Registered(w.nodes[i]) ==> v.nodes[i] == w.nodes[i])
            && (s.at == |w.list| ==>
                  && v == w.(scan := None, mailbox := Some(s.m))
                  && forall i :: 0 <= i < |w.nodes| && Registered(w.nodes[i]) ==> w.nodes[i].reqId != s.m.reqId)
            && (s.at < |w.list| && v.scan.None? ==>
                  && w.nodes[w.list[s.at]].reqId == s.m.reqId
                  && v == w.(scan := None, nodes := w.nodes[w.list[s.at] := Give(w.nodes[w.list[s.at]], s.m)]))
            && (v.scan.Some? ==> v.nodes == w.nodes && v.mailbox == w.mailbox)
  {
    RunInv(ws, es, k);
    assert Step(ws[k], es[k], ws[k + 1]);
    assert ws[k].scan.value.at < |ws[k].list| ==> ws[k].list[ws[k].scan.value.at] in ws[k].list;
  }

  /** Two messages that differ in everything but the identifier. */
  predicate Unlike(a: Slots, b: Slots) {
    a.trainId != b.trainId && a.code != b.code && a.data0 != b.data0 && a.data1 != b.data1
  }

  ghost predicate AllUnlike(ms: seq<Slots>) {
    forall a, b :: 0 <= a < b < |ms| ==> Unlike(ms[a], ms[b])
  }

  /** The fields beside the identifier were read without a delivery in between. */
  predicate InOneGo(n: Node)
    requires TrainId in n.at && Code in n.at && Data0 in n.at && Data1 in n.at
  {
    n.at[TrainId] == n.at[Code] == n.at[Data0] == n.at[Data1]
  }

  /** Without a timeout, and as long as the deliveries differ in every field, the copy is a delivered message exactly if
      it was read in one go. */
  lemma WholeIff(n: Node, r: Slots)
    requires NodeOk(n) && CopyOk(n, r, {}) && !n.timedOut && AllUnlike(n.delivered)
    ensures ReadAll(n, r)
    ensures r in n.delivered <==> InOneGo(n)
  {
    assert ReadAll(n, r);
    var ms, c := n.delivered, n.at[TrainId] - 1;
    if r in ms {
      var a :| 0 <= a < |ms| && ms[a] == r;
      OneVersion(ms, a, n.at[TrainId] - 1);
      OneVersion(ms, a, n.at[Code] - 1);
      OneVersion(ms, a, n.at[Data0] - 1);
      OneVersion(ms, a, n.at[Data1] - 1);
    }
    if InOneGo(n) {
      assert r == ms[c];
    }
  }

  lemma OneVersion(ms: seq<Slots>, a: nat, b: nat)
    requires AllUnlike(ms) && a < |ms| && b < |ms|
    ensures a == b || Unlike(ms[a], ms[b])
  {
    assert a < b ==> Unlike(ms[a], ms[b]);
    assert b < a ==> Unlike(ms[b], ms[a]);
  }

  /** What a waiter returns: each field as it was in the node when the copy read it. So without a timeout always its
      own identifier, and a waiter without a limit always does so; with one, its own identifier or the marker's code,
      exactly unless the identifier was read before the first message came and the code after it (given that the fresh
      node did not hold the identifier by chance and no message carries the marker's code). Without a timeout a
      message that was delivered, exactly if no message came between the reads of the other four fields (given
      messages that differ in all of them). Read in one go, it is such a message, or the marker after a timeout, in
      any case. */
  lemma ReturnedMessage(ws: seq<World>, es: seq<Event>, k: nat, i: nat)
    requires Run(ws, es) && k < |ws| && i < |ws[k].nodes| && ws[k].nodes[i].pc.Returned?
    ensures var n := ws[k].nodes[i]; var r := n.pc.result;
            && (forall m :: m in n.delivered ==> m.reqId == n.reqId)
            && ReadAll(n, r) && (n.limit == 0 ==> !n.timedOut)
            && (!n.timedOut ==> r.reqId == n.reqId)
            && (n.junk.reqId != n.reqId && (forall m :: m in n.delivered ==> m.code != -1) ==>
                  (r.code == -1 || r.reqId == n.reqId <==> !(n.at[ReqId] == 0 && n.at[Code] > 0)))
            && (!n.timedOut && AllUnlike(n.delivered) ==> (r in n.delivered <==> InOneGo(n)))
            && (InOneGo(n) && (n.timedOut ==> n.at[ReqId] == n.at[Code])
                ==> r in n.delivered || (n.timedOut && Marker(r)))
  {
    RunInv(ws, es, k);
    var n, r := ws[k].nodes[i], ws[k].nodes[i].pc.result;
    assert NodeOk(n) && CopyOk(n, r, {});
    ReturnedCodes(n, r);
    if !n.timedOut && AllUnlike(n.delivered) {
      WholeIff(n, r);
    }
  }

  lemma ReturnedCodes(n: Node, r: Slots)
    requires NodeOk(n) && CopyOk(n, r, {})
    ensures ReadAll(n, r)
    ensures !n.timedOut ==> r.reqId == n.reqId
    ensures n.junk.reqId != n.reqId && (forall m :: m in n.delivered ==> m.code != -1) ==>
              (r.code == -1 || r.reqId == n.reqId <==> !(n.at[ReqId] == 0 && n.at[Code] > 0))
    ensures InOneGo(n) && (n.timedOut ==> n.at[ReqId] == n.at[Code]) ==> r in n.delivered || (n.timedOut && Marker(r))
  {
    assert ReadAll(n, r);
    var c, d := n.at[ReqId], n.at[Code];
    assert c > 0 ==> n.delivered[c - 1] in n.delivered;
    assert d > 0 ==> n.delivered[d - 1] in n.delivered;
    if InOneGo(n) && (n.timedOut ==> c == d) {
      assert r == Version(n, d);
    }
  }

  /** No two waiters ever wait for the same identifier. */
  lemma IdentifiersUnique(ws: seq<World>, es: seq<Event>, k: nat, i: nat, j: nat)
    requires Run(ws, es) && k < |ws| && i < |ws[k].nodes| && j < |ws[k].nodes| && i != j
    ensures ws[k].nodes[i].reqId != ws[k].nodes[j].reqId
  {
    RunInv(ws, es, k);
  }

  // ----- both provisos are needed -----

  ghost predicate Reached(w: World) {
    exists ws, es :: Run(ws, es) && ws[|es|] == w
  }

  lemma ReachedStart()
    ensures Reached(START)
  {
    assert Run([START], []);
  }

  lemma ReachedNext(w: World, e: Event)
    requires Reached(w) && Enabled(w, e)
    ensures Reached(Apply(w, e))
  {
    hide Apply, Enabled;
    var ws, es :| Run(ws, es) && ws[|es|] == w;
    var vs, fs := ws + [Apply(w, e)], es + [e];
    forall k | 0 <= k < |fs| ensures Step(vs[k], fs[k], vs[k + 1]) {
      if k < |es| {
        assert Step(ws[k], es[k], ws[k + 1]);
      }
    }
    assert Run(vs, fs);
  }

  /** One waiter and no search under way. */
  function Solo(n: Node): World {
    World(2, {}, [n], if Registered(n) then [0] else [], None, None)
  }

  lemma SoloStart(junk: Slots)
    ensures Reached(Solo(Fresh(1, 5, junk)))
  {
    ReachedStart();
    ReachedNext(START, Generate);
    assert {} + {1} == {1} && {1} - {1} == {};
    ReachedNext(World(2, {1}, [], [], None, None), Create(1, 5, junk));
  }

  /** A step of the waiter itself. */
  predicate Own(e: Event) {
    match e
    case Push(i) => i == 0
    case Timeout(i) => i == 0
    case Wake(i) => i == 0
    case Read(i, _) => i == 0
    case Unlink(i, at) => i == 0 && at == 0
    case Return(i) => i == 0
    case Generate => false
    case Create(_, _, _) => false
    case Arrive(_) => false
    case Look => false
  }

  lemma SoloStep(n: Node, e: Event)
    requires Reached(Solo(n)) && Own(e) && Enabled(Solo(n), e)
    ensures Reached(Solo(Moved(n, e)))
  {
    hide Reached;
    ReachedNext(Solo(n), e);
    assert Apply(Solo(n), e) == Solo(Moved(n, e));
  }

  lemma SoloGive(n: Node, m: Slots)
    requires Reached(Solo(n)) && Registered(n) && m.reqId == n.reqId
    ensures Reached(Solo(Give(n, m)))
  {
    hide Reached;
    ReachedNext(Solo(n), Arrive(m));
    var v := Apply(Solo(n), Arrive(m));
    ReachedNext(v, Look);
    assert Apply(v, Look) == Solo(Give(n, m));
  }

  /** The rest of a copy, then unlinking and returning. */
  function Read3(n: Node): Node {
    Moved(Moved(Moved(n, Read(0, TrainId)), Read(0, Data0)), Read(0, Data1))
  }

  lemma SoloLeave(n: Node)
    requires Reached(Solo(n)) && n.pc.Copying? && n.pc.todo == {TrainId, Data0, Data1}
    ensures Reached(Solo(Moved(Moved(Read3(n), Unlink(0, 0)), Return(0))))
  {
    hide Reached, Solo;
    SoloOwn(n, Read(0, TrainId));
    var a := Moved(n, Read(0, TrainId));
    SoloOwn(a, Read(0, Data0));
    var b := Moved(a, Read(0, Data0));
    SoloOwn(b, Read(0, Data1));
    var c := Moved(b, Read(0, Data1));
    assert c.pc.todo == {};
    SoloOwn(c, Unlink(0, 0));
    SoloOwn(Moved(c, Unlink(0, 0)), Return(0));
  }

  /** What the waiter itself may do next. */
  predicate Next(n: Node, e: Event) {
    match e
    case Push(i) => i == 0 && n.pc.Created?
    case Timeout(i) => i == 0 && n.pc.Waiting? && n.limit > 0
    case Wake(i) => i == 0 && n.pc.Waiting? && n.ready
    case Read(i, f) => i == 0 && n.pc.Copying? && f in n.pc.todo
    case Unlink(i, at) => i == 0 && at == 0 && n.pc.Copying? && n.pc.todo == {}
    case Return(i) => i == 0 && n.pc.Removed?
    case Generate => false
    case Create(_, _, _) => false
    case Arrive(_) => false
    case Look => false
  }

  lemma SoloOwn(n: Node, e: Event)
    requires Reached(Solo(n)) && Next(n, e)
    ensures Reached(Solo(Moved(n, e)))
  {
    SoloStep(n, e);
  }

  const SCRAP := Slots(7, 0, 0, None, None)
  const OFFER := Slots(1, 2, 202, Some("25"), Some("0"))
  const SECOND := Slots(1, 2, 203, Some("26"), Some("9"))

  /** A timeout, and the answer between the reading of the identifier and of the code. */
  const TORN := Node(1, 5, OFFER, true, Copying(Slots(7, 0, 202, None, None), {TrainId, Data0, Data1}),
                     SCRAP, true, 0, [OFFER], map[ReqId := 0, Code := 1])

  lemma TimedOut() returns (n: Node)
    ensures n == Node(1, 5, SCRAP.(code := -1), true, Copying(NOTHING, ALL), SCRAP, true, 0, [], map[])
    ensures Reached(Solo(n))
  {
    hide Reached, Solo;
    SoloStart(SCRAP);
    SoloOwn(Fresh(1, 5, SCRAP), Push(0));
    var a := Moved(Fresh(1, 5, SCRAP), Push(0));
    SoloOwn(a, Timeout(0));
    n := Moved(a, Timeout(0));
  }

  lemma TornCopy()
    ensures Reached(Solo(TORN))
  {
    hide Reached, Solo;
    var b := TimedOut();
    SoloOwn(b, Read(0, ReqId));
    var c := Moved(b, Read(0, ReqId));
    SoloGive(c, OFFER);
    SoloOwn(Give(c, OFFER), Read(0, Code));
    assert ALL - {ReqId} - {Code} == {TrainId, Data0, Data1} && [] + [OFFER] == [OFFER];
    assert Moved(Give(c, OFFER), Read(0, Code)) == TORN;
  }

  /** A waiter times out, its answer comes between the reading of the identifier and of the code, and what it returns
      has neither its identifier nor the marker's code. */
  lemma TornReturn() returns (ws: seq<World>, es: seq<Event>)
    ensures Run(ws, es) && |ws[|es|].nodes| == 1 && ws[|es|].nodes[0].pc.Returned?
    ensures var n := ws[|es|].nodes[0]; n.timedOut && n.pc.result.code != -1 && n.pc.result.reqId != n.reqId
  {
    hide Reached, Solo;
    TornCopy();
    SoloLeave(TORN);
    ws, es := RunTo(Moved(Moved(Read3(TORN), Unlink(0, 0)), Return(0)));
  }

  lemma RunTo(n: Node) returns (ws: seq<World>, es: seq<Event>)
    requires Reached(Solo(n))
    ensures Run(ws, es) && ws[|es|].nodes == [n]
  {
    ws, es :| Run(ws, es) && ws[|es|] == Solo(n);
  }

  /** No timeout: two answers come, the second between the reading of the code and of the data, and what the waiter
      returns was never sent. */
  lemma MixedReturn() returns (ws: seq<World>, es: seq<Event>)
    ensures Run(ws, es) && |ws[|es|].nodes| == 1 && ws[|es|].nodes[0].pc.Returned?
    ensures var n := ws[|es|].nodes[0]; !n.timedOut && n.delivered == [OFFER, SECOND] && n.pc.result !in n.delivered
  {
    hide Reached, Solo;
    SoloStart(SCRAP);
    var a := Moved(Fresh(1, 5, SCRAP), Push(0));
    SoloOwn(Fresh(1, 5, SCRAP), Push(0));
    SoloGive(a, OFFER);
    var b := Moved(Give(a, OFFER), Wake(0));
    SoloOwn(Give(a, OFFER), Wake(0));
    var c := Moved(b, Read(0, ReqId));
    SoloOwn(b, Read(0, ReqId));
    var d := Moved(c, Read(0, Code));
    SoloOwn(c, Read(0, Code));
    SoloGive(d, SECOND);
    SoloLeave(Give(d, SECOND));
    ws, es := RunTo(Moved(Moved(Read3(Give(d, SECOND)), Unlink(0, 0)), Return(0)));
  }
}
