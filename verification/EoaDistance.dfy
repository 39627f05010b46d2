/** The authority search and the distance function agree: next_eoa returns an objective of least get_distance,
    and exactly when it does not is known. */
module EoaDistance {
  import opened Cyclic
  import opened Tables
  import opened EndOfAuthority
  import opened RouteMap

  /** The i-th objective: the stop of the next request, then the two other trains. */
  function Target(stop: int, p: Place, q: Place, i: nat): Place {
    if i == 0 then Place(stop, 0.0) else if i == 1 then p else q
  }

  /** The objective lies less than the margin behind the train, in the train's own canton. */
  predicate Trails(cur: Place, o: Place) {
    o.bal == cur.bal && 0.0 < cur.posR - o.posR < MARGIN
  }

  /** A train and its objectives as reported in service: offsets within their cantons on this path, and no
      canton shared by all three trains. */
  ghost predicate InService(R: Rail, path: seq<int>, cur: Place, stop: int, p: Place, q: Place) {
    && Complete(R, path) && InCanton(R, path, cur) && stop in path
    && (p.bal in path ==> InCanton(R, path, p)) && (q.bal in path ==> InCanton(R, path, q))
    && 0.0 <= p.posR <= FAR && 0.0 <= q.posR <= FAR
    && !(p.bal == q.bal == cur.bal)
  }

  function Eoa(path: seq<int>, cur: Place, stop: int, p: Place, q: Place): (e: Place)
    requires cur.bal in path && stop in path
    ensures e.bal in path
  {
    MemberAt(path, IndexOf(path, cur.bal) + NextHop(path, cur, stop, p, q).steps);
    Landing(path, IndexOf(path, cur.bal), NextHop(path, cur, stop, p, q))
  }

  lemma MemberAt(path: seq<int>, i: nat)
    requires |path| > 0
    ensures Node(path, i) in path
  {
  }

  /** The returned place minimises get_distance over the objectives that are on the path. */
  ghost predicate Minimises(R: Rail, path: seq<int>, cur: Place, stop: int, p: Place, q: Place)
    requires Complete(R, path) && cur.bal in path && stop in path
  {
    forall i: nat {:trigger Target(stop, p, q, i)} :: Target(stop, p, q, i).bal in path ==>
      Distance(R, path, cur, Eoa(path, cur, stop, p, q)) <= Distance(R, path, cur, Target(stop, p, q, i))
  }

  /** Where next_eoa meets an objective, counted in cantons: in the train's own canton if not behind it, else
      on the first visit of its balise. */
  function Visit(path: seq<int>, cur: Place, o: Place): (k: nat)
    requires cur.bal in path && o.bal in path
    ensures k <= |path|
  {
    var i, j := IndexOf(path, cur.bal), IndexOf(path, o.bal);
    if i == j then (if o.posR >= cur.posR then 0 else |path|) else if j > i then j - i else j + |path| - i
  }

  lemma VisitMeets(path: seq<int>, cur: Place, o: Place)
    requires |path| > 0 && cur.bal in path && o.bal in path
    ensures After(path, IndexOf(path, cur.bal), Visit(path, cur, o)) == o.bal
    ensures Visit(path, cur, o) == 0 ==> o.posR >= cur.posR
  {
    var i, j := IndexOf(path, cur.bal), IndexOf(path, o.bal);
    SameIndex(path, cur.bal, o.bal);
    var n := i + Visit(path, cur, o);
    assert Wrap(n, |path|) == j;
  }

  /** For an objective that does not trail, get_distance measures the way to that visit. */
  lemma DistanceToVisit(R: Rail, path: seq<int>, cur: Place, o: Place)
    requires Complete(R, path) && cur.bal in path && o.bal in path
    ensures var i := IndexOf(path, cur.bal);
      Distance(R, path, cur, o) ==
        if Trails(cur, o) then o.posR - cur.posR
        else Along(R, path, i + Visit(path, cur, o)) - Along(R, path, i) + o.posR - cur.posR
  {
    SameIndex(path, cur.bal, o.bal);
  }

  /** The returned place is visited where next_eoa stops. */
  lemma EoaVisit(R: Rail, path: seq<int>, cur: Place, stop: int, p: Place, q: Place)
    requires InService(R, path, cur, stop, p, q)
    ensures Visit(path, cur, Eoa(path, cur, stop, p, q)) == NextHop(path, cur, stop, p, q).steps
  {
    var h := NextHop(path, cur, stop, p, q);
    var i := IndexOf(path, cur.bal);
    var e := Eoa(path, cur, stop, p, q);
    NextHopLands(path, cur, stop, p, q);
    NearestUnlessShadowed(path, cur, stop, p, q);
    IndexOfNode(path, i + h.steps);
    SameIndex(path, cur.bal, e.bal);
    assert After(path, i, 0) == cur.bal;
    assert e.bal == cur.bal && e.posR >= cur.posR ==> HopLe(h, Hop(0, e.posR));
  }

  /** Every objective on the path is met at or after the returned place. */
  lemma VisitAfter(R: Rail, path: seq<int>, cur: Place, stop: int, p: Place, q: Place, i: nat)
    requires InService(R, path, cur, stop, p, q) && Target(stop, p, q, i).bal in path
    ensures var o := Target(stop, p, q, i); HopLe(NextHop(path, cur, stop, p, q), Hop(Visit(path, cur, o), o.posR))
  {
    var o := Target(stop, p, q, i);
    NearestUnlessShadowed(path, cur, stop, p, q);
    VisitMeets(path, cur, o);
    assert Objective(After(path, IndexOf(path, cur.bal), Visit(path, cur, o)), o.posR, stop, p, q);
  }

  /** The way from the train to the visit of a place. */
  function Way(R: Rail, path: seq<int>, cur: Place, o: Place): real
    requires Complete(R, path) && cur.bal in path && o.bal in path
  {
    var i := IndexOf(path, cur.bal);
    Along(R, path, i + Visit(path, cur, o)) - Along(R, path, i) + o.posR - cur.posR
  }

  lemma WayNotNegative(R: Rail, path: seq<int>, cur: Place, o: Place)
    requires Complete(R, path) && InCanton(R, path, cur) && o.bal in path && o.posR >= 0.0
    ensures Way(R, path, cur, o) >= 0.0
  {
    var i := IndexOf(path, cur.bal);
    if Visit(path, cur, o) > 0 {
      AlongMono(R, path, i + 1, i + Visit(path, cur, o));
    }
  }

  lemma VisitCanton(R: Rail, path: seq<int>, cur: Place, a: Place)
    requires Complete(R, path) && cur.bal in path && InCanton(R, path, a)
    ensures 0.0 <= a.posR <= Canton(R, path, IndexOf(path, cur.bal) + Visit(path, cur, a))
  {
    var n := IndexOf(path, cur.bal) + Visit(path, cur, a);
    VisitMeets(path, cur, a);
    IndexOfNode(path, n);
    CantonWraps(R, path, IndexOf(path, a.bal), n);
  }

  /** Visits in order lie at distances in order. */
  lemma WayMono(R: Rail, path: seq<int>, cur: Place, a: Place, b: Place)
    requires Complete(R, path) && cur.bal in path && InCanton(R, path, a) && InCanton(R, path, b)
    requires HopLe(Hop(Visit(path, cur, a), a.posR), Hop(Visit(path, cur, b), b.posR))
    ensures Way(R, path, cur, a) <= Way(R, path, cur, b)
  {
    hide Visit, Canton, Along;
    VisitCanton(R, path, cur, a);
    AlongOrder(R, path, IndexOf(path, cur.bal), Visit(path, cur, a), a.posR, Visit(path, cur, b), b.posR);
  }

  lemma AlongOrder(R: Rail, path: seq<int>, i: nat, m: nat, a: real, n: nat, b: real)
    requires Complete(R, path) && 0.0 <= a <= Canton(R, path, i + m) && 0.0 <= b && HopLe(Hop(m, a), Hop(n, b))
    ensures Along(R, path, i + m) + a <= Along(R, path, i + n) + b
  {
    if m < n {
      AlongMono(R, path, i + m + 1, i + n);
    }
  }

  lemma EoaIsTarget(R: Rail, path: seq<int>, cur: Place, stop: int, p: Place, q: Place) returns (i: nat)
    requires InService(R, path, cur, stop, p, q)
    ensures Target(stop, p, q, i) == Eoa(path, cur, stop, p, q)
  {
    NextHopLands(path, cur, stop, p, q);
    var e := Eoa(path, cur, stop, p, q);
    i := if e == Place(stop, 0.0) then 0 else if e == p then 1 else 2;
  }

  lemma WayOrder(R: Rail, path: seq<int>, cur: Place, stop: int, p: Place, q: Place, i: nat)
    requires InService(R, path, cur, stop, p, q) && Target(stop, p, q, i).bal in path
    ensures var e, o := Eoa(path, cur, stop, p, q), Target(stop, p, q, i);
            && HopLe(Hop(Visit(path, cur, e), e.posR), Hop(Visit(path, cur, o), o.posR))
            && Way(R, path, cur, e) <= Way(R, path, cur, o)
  {
    var k := EoaIsTarget(R, path, cur, stop, p, q);
    EoaVisit(R, path, cur, stop, p, q);
    VisitAfter(R, path, cur, stop, p, q, i);
    WayMono(R, path, cur, Eoa(path, cur, stop, p, q), Target(stop, p, q, i));
  }

  ghost predicate NoneTrails(path: seq<int>, cur: Place, stop: int, p: Place, q: Place) {
    forall i: nat {:trigger Target(stop, p, q, i)} :: Target(stop, p, q, i).bal in path ==>
        !Trails(cur, Target(stop, p, q, i))
  }

  ghost predicate AllTrail(path: seq<int>, cur: Place, stop: int, p: Place, q: Place) {
    forall i: nat {:trigger Target(stop, p, q, i)} :: Target(stop, p, q, i).bal in path ==>
        Trails(cur, Target(stop, p, q, i))
  }

  /** Of two places that both trail, or neither, the one met first is the nearer. */
  lemma NearerFirst(R: Rail, path: seq<int>, cur: Place, e: Place, o: Place)
    requires Complete(R, path) && cur.bal in path && e.bal in path && o.bal in path
    requires Trails(cur, e) == Trails(cur, o) && Way(R, path, cur, e) <= Way(R, path, cur, o)
    requires HopLe(Hop(Visit(path, cur, e), e.posR), Hop(Visit(path, cur, o), o.posR))
    ensures Distance(R, path, cur, e) <= Distance(R, path, cur, o)
  {
    hide Distance, Along, Canton;
    var de, dO := Distance(R, path, cur, e), Distance(R, path, cur, o);
    assert de == if Trails(cur, e) then e.posR - cur.posR else Way(R, path, cur, e) by {
      DistanceToVisit(R, path, cur, e);
    }
    assert dO == if Trails(cur, o) then o.posR - cur.posR else Way(R, path, cur, o) by {
      DistanceToVisit(R, path, cur, o);
    }
    if Trails(cur, e) {
      LastVisit(path, cur, e);
      LastVisit(path, cur, o);
    }
  }

  /** A place is visited last of all exactly when it lies behind in the train's own canton. */
  lemma LastVisit(path: seq<int>, cur: Place, o: Place)
    requires cur.bal in path && o.bal in path
    ensures Visit(path, cur, o) == |path| <==> o.bal == cur.bal && o.posR < cur.posR
  {
    SameIndex(path, cur.bal, o.bal);
  }

  lemma AgreesIf(R: Rail, path: seq<int>, cur: Place, stop: int, p: Place, q: Place)
    requires InService(R, path, cur, stop, p, q)
    requires NoneTrails(path, cur, stop, p, q) || AllTrail(path, cur, stop, p, q)
    ensures Minimises(R, path, cur, stop, p, q)
  {
    var e := Eoa(path, cur, stop, p, q);
    var k := EoaIsTarget(R, path, cur, stop, p, q);
    forall i: nat {:trigger Target(stop, p, q, i)} | Target(stop, p, q, i).bal in path
      ensures Distance(R, path, cur, e) <= Distance(R, path, cur, Target(stop, p, q, i))
    {
      WayOrder(R, path, cur, stop, p, q, i);
      NearerFirst(R, path, cur, e, Target(stop, p, q, i));
    }
  }

  /** A place nearer than a trailing one trails too, and so does a place met after it in the same canton. */
  lemma NearerTrails(R: Rail, path: seq<int>, cur: Place, e: Place, o: Place, u: Place)
    requires Complete(R, path) && InCanton(R, path, cur) && e.bal in path && o.bal in path && u.bal in path
             && e.posR >= 0.0
    requires Trails(cur, o) && Distance(R, path, cur, e) <= Distance(R, path, cur, o)
    requires HopLe(Hop(Visit(path, cur, e), e.posR), Hop(Visit(path, cur, u), u.posR))
    ensures Trails(cur, u)
  {
    hide Distance, Along, Canton;
    DistanceToVisit(R, path, cur, e);
    DistanceToVisit(R, path, cur, o);
    WayNotNegative(R, path, cur, e);
    assert Trails(cur, e);
    LastVisit(path, cur, e);
    LastVisit(path, cur, u);
  }

  lemma AgreesOnlyIf(R: Rail, path: seq<int>, cur: Place, stop: int, p: Place, q: Place, i: nat, j: nat)
    requires InService(R, path, cur, stop, p, q) && Minimises(R, path, cur, stop, p, q)
    requires Target(stop, p, q, i).bal in path && Trails(cur, Target(stop, p, q, i))
             && Target(stop, p, q, j).bal in path
    ensures Trails(cur, Target(stop, p, q, j))
  {
    var k := EoaIsTarget(R, path, cur, stop, p, q);
    WayOrder(R, path, cur, stop, p, q, j);
    NearerTrails(R, path, cur, Eoa(path, cur, stop, p, q), Target(stop, p, q, i), Target(stop, p, q, j));
  }

  /** next_eoa and get_distance agree exactly when no objective on the path, or every one of them, lies less
      than the margin behind the train in its own canton: get_distance calls such a place near, next_eoa a lap away. */
  lemma AgreesIff(R: Rail, path: seq<int>, cur: Place, stop: int, p: Place, q: Place)
    requires InService(R, path, cur, stop, p, q)
    ensures Minimises(R, path, cur, stop, p, q) <==>
      NoneTrails(path, cur, stop, p, q) || AllTrail(path, cur, stop, p, q)
  {
    if NoneTrails(path, cur, stop, p, q) || AllTrail(path, cur, stop, p, q) {
      AgreesIf(R, path, cur, stop, p, q);
    } else if Minimises(R, path, cur, stop, p, q) {
      var i: nat :| Target(stop, p, q, i).bal in path && Trails(cur, Target(stop, p, q, i));
      var j: nat :| Target(stop, p, q, j).bal in path && !Trails(cur, Target(stop, p, q, j));
      AgreesOnlyIf(R, path, cur, stop, p, q, i, j);
      assert false;
    }
  }
}
