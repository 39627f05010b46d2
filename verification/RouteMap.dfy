/** The map of the railway and the distance between two places of one path. Lengths are exact reals. */
module RouteMap {
  import opened Cyclic
  import opened Tables

  /** The arc tables B1, B2 and D. */
  datatype Rail = Rail(b1: seq<int>, b2: seq<int>, d: seq<real>)

  predicate RailOk(R: Rail) {
    |R.b1| == |R.b2| == |R.d|
  }

  /** Entry j joins u and v, in either direction. */
  predicate Joins(R: Rail, j: nat, u: int, v: int)
    requires RailOk(R) && j < |R.d|
  {
    (R.b1[j] == u && R.b2[j] == v) || (R.b1[j] == v && R.b2[j] == u)
  }

  ghost predicate HasArc(R: Rail, u: int, v: int) {
    RailOk(R) && exists j: nat :: j < |R.d| && Joins(R, j, u, v)
  }

  /** First entry from j on that joins u and v. */
  function ArcFrom(R: Rail, j: nat, u: int, v: int): (a: nat)
    requires RailOk(R) && exists k: nat :: j <= k < |R.d| && Joins(R, k, u, v)
    ensures j <= a < |R.d| && Joins(R, a, u, v)
    ensures forall k: nat :: j <= k < a ==> !Joins(R, k, u, v)
    decreases |R.d| - j
  {
    if Joins(R, j, u, v) then j else ArcFrom(R, j + 1, u, v)
  }

  function Length(R: Rail, u: int, v: int): real
    requires HasArc(R, u, v)
  {
    R.d[ArcFrom(R, 0, u, v)]
  }

  /** Every canton of the path, including the closing one, is an arc of the map, of non-negative length. */
  ghost predicate Complete(R: Rail, path: seq<int>) {
    && |path| > 0 && Distinct(path)
    && forall r: nat :: r < |path| ==> CantonOk(R, path, r)
  }

  ghost predicate CantonOk(R: Rail, path: seq<int>, r: nat)
    requires r < |path|
  {
    HasArc(R, path[r], path[Next(r, |path|)]) && Length(R, path[r], path[Next(r, |path|)]) >= 0.0
  }

  /** Length of the canton after unrolled index i. */
  function Canton(R: Rail, path: seq<int>, i: nat): (l: real)
    requires Complete(R, path)
    ensures l >= 0.0
  {
    assert CantonOk(R, path, Wrap(i, |path|));
    Length(R, path[Wrap(i, |path|)], path[Next(Wrap(i, |path|), |path|)])
  }

  /** Length of the first n cantons of the unrolled path. */
  function Along(R: Rail, path: seq<int>, n: nat): (l: real)
    requires Complete(R, path)
    ensures l >= 0.0
  {
    if n == 0 then 0.0 else Along(R, path, n - 1) + Canton(R, path, n - 1)
  }

  function Lap(R: Rail, path: seq<int>): real
    requires Complete(R, path)
  {
    Along(R, path, |path|)
  }

  /** Tolerance of get_distance for a place just behind, in the same canton. */
  const MARGIN: real := 50.0

  /** get_distance goes once round when the destination lies far enough behind in the same canton. */
  predicate Forced(cur: Place, dest: Place) {
    cur.bal == dest.bal && cur.posR - dest.posR >= MARGIN
  }

  /** Number of cantons that get_distance adds up. */
  function Hops(path: seq<int>, cur: Place, dest: Place): nat
    requires cur.bal in path && dest.bal in path
  {
    var i, j := IndexOf(path, cur.bal), IndexOf(path, dest.bal);
    if Forced(cur, dest) then |path| else if j >= i then j - i else j + |path| - i
  }

  function Distance(R: Rail, path: seq<int>, cur: Place, dest: Place): real
    requires Complete(R, path) && cur.bal in path && dest.bal in path
  {
    var i := IndexOf(path, cur.bal);
    Along(R, path, i + Hops(path, cur, dest)) - Along(R, path, i) + dest.posR - cur.posR
  }

  /** The inner loop of get_distance: the first arc between two balises. */
  method FindArc(R: Rail, u: int, v: int) returns (j: nat)
    requires HasArc(R, u, v)
    ensures j == ArcFrom(R, 0, u, v)
  {
    j := 0;
    while (R.b1[j] != u || R.b2[j] != v) && (R.b1[j] != v || R.b2[j] != u)
      invariant j <= ArcFrom(R, 0, u, v)
      decreases |R.d| - j
    {
      j := j + 1;
    }
    assert Joins(R, j, u, v);
  }

  /** One pass of the outer loop: the length of the canton after entry i, and the next entry. */
  method AddCanton(R: Rail, path: seq<int>, i: nat) returns (length: real, next: nat)
    requires Complete(R, path) && i < |path|
    ensures length == Canton(R, path, i) && next == Next(i, |path|)
  {
    next := if i == |path| - 1 then 0 else i + 1;
    assert CantonOk(R, path, i);
    var j := FindArc(R, path[i], path[next]);
    length := R.d[j];
  }

  /** The index of an entry of a path without repetition. */
  lemma IndexAt(path: seq<int>, i: nat)
    requires Distinct(path) && i < |path|
    ensures IndexOf(path, path[i]) == i
  {
    var k := IndexOf(path, path[i]);
    assert Differ(path, i, k) && Differ(path, k, i);
  }

  /** From a balise to the next one of the path it is as far as the first entry of the tables says that joins the two,
      in whichever direction it is stored. */
  lemma OneCanton(R: Rail, path: seq<int>, i: nat, j: nat)
    requires Complete(R, path) && i < |path| && |path| >= 2 && |R.d| == |R.b1| == |R.b2| && j < |R.d|
    requires var u, v := path[i], path[if i + 1 == |path| then 0 else i + 1];
             && ((R.b1[j] == u && R.b2[j] == v) || (R.b1[j] == v && R.b2[j] == u))
             && forall k :: 0 <= k < j ==> !(R.b1[k] == u && R.b2[k] == v) && !(R.b1[k] == v && R.b2[k] == u)
    ensures Canton(R, path, i) == R.d[j]
    ensures Distance(R, path, Place(path[i], 0.0), Place(path[if i + 1 == |path| then 0 else i + 1], 0.0)) == R.d[j]
  {
    var next := Next(i, |path|);
    IndexAt(path, i);
    IndexAt(path, next);
    assert CantonOk(R, path, i);
    var a := ArcFrom(R, 0, path[i], path[next]);
    assert Joins(R, j, path[i], path[next]) && !(a < j) && !(j < a);
    assert Along(R, path, i + 1) == Along(R, path, i) + Canton(R, path, i);
  }

  /** Cantons are the same on every lap. */
  lemma CantonWraps(R: Rail, path: seq<int>, i: nat, j: nat)
    requires Complete(R, path) && i == Wrap(j, |path|)
    ensures Canton(R, path, i) == Canton(R, path, j)
  {
  }

  /** The destination balise is met after hops cantons and not before, a forced first canton aside. */
  ghost predicate MetAfter(path: seq<int>, start: nat, bal: int, forced: bool, hops: nat)
    requires |path| > 0
  {
    && (forced ==> hops > 0)
    && forall n: nat {:trigger After(path, start, n)} ::
      n <= hops && (n > 0 || !forced) ==> (After(path, start, n) == bal <==> n == hops)
  }

  /** The outer loop of get_distance, from entry start on. */
  method AddCantons(R: Rail, path: seq<int>, start: nat, bal: int, doFirst: bool, distance0: real, ghost hops: nat)
    returns (distance: real)
    requires Complete(R, path) && start < |path| && MetAfter(path, start, bal, doFirst, hops)
    ensures distance == distance0 + Along(R, path, start + hops) - Along(R, path, start)
  {
    distance := distance0;
    var i, first := start, doFirst;
    ghost var n: nat := 0;
    assert After(path, start, 0) == path[i];
    while path[i] != bal || first
      invariant n <= hops && i == Wrap(start + n, |path|) && path[i] == After(path, start, n)
      invariant first <==> doFirst && n == 0
      invariant distance == distance0 + Along(R, path, start + n) - Along(R, path, start)
      decreases hops - n
    {
      assert n < hops;
      first := false;
      CantonWraps(R, path, i, start + n);
      WrapNext(start + n, |path|);
      var length;
      length, i := AddCanton(R, path, i);
      distance := distance + length;
      n := n + 1;
    }
  }

  /** get_distance. */
  method GetDistance(R: Rail, path: seq<int>, cur: Place, dest: Place) returns (distance: real)
    requires Complete(R, path) && cur.bal in path && dest.bal in path
    ensures distance == Distance(R, path, cur, dest)
  {
    distance := dest.posR - cur.posR;
    var i := 0;
    while path[i] != cur.bal
      invariant 0 <= i <= IndexOf(path, cur.bal)
      decreases |path| - i
    {
      i := i + 1;
    }
    var doFirst := cur.bal == dest.bal && cur.posR - dest.posR >= 50.0;
    ghost var hops := Hops(path, cur, dest);
    forall n: nat {:trigger After(path, i, n)} | n <= hops && (n > 0 || !doFirst)
      ensures After(path, i, n) == dest.bal <==> n == hops
    {
      ReachedAt(path, cur, dest, n);
    }
    distance := AddCantons(R, path, i, dest.bal, doFirst, distance, hops);
  }

  /** The destination is first met after exactly Hops cantons. */
  lemma ReachedAt(path: seq<int>, cur: Place, dest: Place, n: nat)
    requires Distinct(path) && cur.bal in path && dest.bal in path && n <= Hops(path, cur, dest)
    ensures n > 0 || !Forced(cur, dest) ==>
      (Node(path, IndexOf(path, cur.bal) + n) == dest.bal <==> n == Hops(path, cur, dest))
  {
    var i, j := IndexOf(path, cur.bal), IndexOf(path, dest.bal);
    IndexOfNode(path, i + n);
    assert Node(path, j) == dest.bal;
    if Node(path, i + n) == dest.bal {
      SameNode(path, i + n, j);
    }
  }

  // ----- circular distance -----

  lemma {:induction false} AlongRound(R: Rail, path: seq<int>, n: nat)
    requires Complete(R, path)
    ensures Along(R, path, n + |path|) == Along(R, path, n) + Lap(R, path)
    decreases n
  {
    if n > 0 {
      AlongRound(R, path, n - 1);
      CantonSame(R, path, n - 1);
    }
  }

  lemma CantonSame(R: Rail, path: seq<int>, i: nat)
    requires Complete(R, path)
    ensures Canton(R, path, i + |path|) == Canton(R, path, i)
  {
    CantonWraps(R, path, Wrap(i, |path|), i);
    CantonWraps(R, path, Wrap(i, |path|), i + |path|);
  }

  lemma {:induction false} AlongMono(R: Rail, path: seq<int>, m: nat, n: nat)
    requires Complete(R, path) && m <= n
    ensures Along(R, path, m) <= Along(R, path, n)
    decreases n - m
  {
    if m < n {
      AlongMono(R, path, m, n - 1);
    }
  }

  /** Position of a place on the path cut open before its first balise. */
  function Unrolled(R: Rail, path: seq<int>, p: Place): real
    requires Complete(R, path) && p.bal in path
  {
    Along(R, path, IndexOf(path, p.bal)) + p.posR
  }

  /** Whether the way from one place to the other goes past the cut. */
  predicate Crosses(path: seq<int>, cur: Place, dest: Place)
    requires cur.bal in path && dest.bal in path
  {
    IndexOf(path, dest.bal) < IndexOf(path, cur.bal) || Forced(cur, dest)
  }

  /** get_distance is the difference of the two positions, plus one lap when the way goes past the cut. */
  lemma DistanceIsDifference(R: Rail, path: seq<int>, cur: Place, dest: Place)
    requires Complete(R, path) && cur.bal in path && dest.bal in path
    ensures Distance(R, path, cur, dest) ==
      Unrolled(R, path, dest) - Unrolled(R, path, cur) + if Crosses(path, cur, dest) then Lap(R, path) else 0.0
  {
    hide Canton;
    var i, j := IndexOf(path, cur.bal), IndexOf(path, dest.bal);
    if Forced(cur, dest) {
      AlongRound(R, path, i);
    } else if j < i {
      AlongRound(R, path, j);
    }
  }

  /** Distances add up along the way, up to a whole lap. */
  lemma DistancesAdd(R: Rail, path: seq<int>, a: Place, b: Place, c: Place)
    requires Complete(R, path) && a.bal in path && b.bal in path && c.bal in path
    ensures var excess := Distance(R, path, a, b) + Distance(R, path, b, c) - Distance(R, path, a, c);
            excess == 0.0 || excess == Lap(R, path) || excess == -Lap(R, path)
  {
    DistanceIsDifference(R, path, a, b);
    DistanceIsDifference(R, path, b, c);
    DistanceIsDifference(R, path, a, c);
    if Crosses(path, a, b) && Crosses(path, b, c) {
      SameIndex(path, a.bal, b.bal);
      SameIndex(path, b.bal, c.bal);
      assert Crosses(path, a, c);
    }
  }

  lemma SameIndex(path: seq<int>, u: int, v: int)
    requires u in path && v in path
    ensures IndexOf(path, u) == IndexOf(path, v) <==> u == v
  {
  }

  /** There and back is one lap, or nothing when both places lie within the margin in one canton. */
  lemma ThereAndBack(R: Rail, path: seq<int>, a: Place, b: Place)
    requires Complete(R, path) && a.bal in path && b.bal in path
    ensures Distance(R, path, a, b) + Distance(R, path, b, a) ==
      if a.bal == b.bal && -MARGIN < a.posR - b.posR < MARGIN then 0.0 else Lap(R, path)
  {
    DistanceIsDifference(R, path, a, b);
    DistanceIsDifference(R, path, b, a);
    SameIndex(path, a.bal, b.bal);
  }

  /** The place lies within the canton it names. */
  predicate InCanton(R: Rail, path: seq<int>, p: Place)
    requires Complete(R, path)
  {
    p.bal in path && 0.0 <= p.posR <= Canton(R, path, IndexOf(path, p.bal))
  }

  /** The distance between two places within their cantons is more than -50 and at most a lap, and it is negative
      exactly when the destination lies less than the margin behind in the same canton. */
  lemma DistanceRange(R: Rail, path: seq<int>, cur: Place, dest: Place)
    requires Complete(R, path) && InCanton(R, path, cur) && InCanton(R, path, dest)
    ensures -MARGIN < Distance(R, path, cur, dest) <= Lap(R, path)
    ensures Distance(R, path, cur, dest) < 0.0 <==> cur.bal == dest.bal && 0.0 < cur.posR - dest.posR < MARGIN
  {
    var i, j := IndexOf(path, cur.bal), IndexOf(path, dest.bal);
    DistanceIsDifference(R, path, cur, dest);
    SameIndex(path, cur.bal, dest.bal);
    AlongMono(R, path, i + 1, |path|);
    AlongMono(R, path, j + 1, |path|);
    if i < j {
      AlongMono(R, path, i + 1, j);
    } else if j < i {
      AlongMono(R, path, j + 1, i);
    }
  }
}
