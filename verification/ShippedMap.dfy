/** The arcs of the repository's map, and the proof that the three paths are closed on it. */
module ShippedMap {
  import opened Cyclic
  import opened Tables
  import opened RouteMap
  import opened EoaDistance
  import opened ShippedTables

  datatype Arc = Arc(b1: int, b2: int, d: real)

  /** Entry j of the tables B1, B2 and D, which have 46 entries. */
  function ArcRow(j: int): Arc {
    match j
    case 0 => Arc(1, 2, 1671.0)
    case 1 => Arc(2, 3, 1898.0)
    case 2 => Arc(3, 4, 2264.0)
    case 3 => Arc(3, 12, 2673.0)
    case 4 => Arc(3, 26, 3895.0)
    case 5 => Arc(4, 5, 1617.0)
    case 6 => Arc(5, 6, 1612.0)
    case 7 => Arc(6, 7, 2134.0)
    case 8 => Arc(7, 8, 1835.0)
    case 9 => Arc(8, 9, 1628.0)
    case 10 => Arc(9, 1, 2785.0)
    case 11 => Arc(10, 11, 2769.0)
    case 12 => Arc(11, 12, 2419.0)
    case 13 => Arc(11, 26, 3500.0)
    case 14 => Arc(12, 13, 2084.0)
    case 15 => Arc(13, 14, 2104.0)
    case 16 => Arc(14, 15, 1489.0)
    case 17 => Arc(15, 16, 1975.0)
    case 18 => Arc(15, 21, 2636.0)
    case 19 => Arc(16, 10, 3754.0)
    case 20 => Arc(17, 11, 2968.0)
    case 21 => Arc(12, 18, 2056.0)
    case 22 => Arc(18, 19, 1447.0)
    case 23 => Arc(19, 20, 2261.0)
    case 24 => Arc(20, 21, 2494.0)
    case 25 => Arc(21, 17, 2608.0)
    case 26 => Arc(21, 22, 3272.0)
    case 27 => Arc(22, 23, 1664.0)
    case 28 => Arc(23, 24, 1716.0)
    case 29 => Arc(24, 25, 1703.0)
    case 30 => Arc(25, 250, 643.0)
    case 31 => Arc(250, 26, 1165.0)
    case 32 => Arc(26, 251, 1025.0)
    case 33 => Arc(251, 27, 2015.0)
    case 34 => Arc(27, 28, 1580.0)
    case 35 => Arc(28, 29, 1903.0)
    case 36 => Arc(29, 11, 3008.0)
    case 37 => Arc(13, 7, 2628.0)
    case 38 => Arc(9, 17, 3416.0)
    case 39 => Arc(9, 22, 4089.0)
    case 40 => Arc(16, 22, 4242.0)
    case 41 => Arc(16, 1, 2943.0)
    case 42 => Arc(16, 17, 3570.0)
    case 43 => Arc(9, 10, 3620.0)
    case 44 => Arc(25, 20, 2543.0)
    case _ => Arc(11, 251, 2534.8)
  }

  const RAIL := Rail(seq(46, j => ArcRow(j).b1), seq(46, j => ArcRow(j).b2), seq(46, j => ArcRow(j).d))

  lemma Positive(j: nat)
    ensures ArcRow(j).d > 0.0
  {
  }

  lemma ArcAt(j: nat)
    requires j < 46
    ensures HasArc(RAIL, ArcRow(j).b1, ArcRow(j).b2) && Length(RAIL, ArcRow(j).b1, ArcRow(j).b2) >= 0.0
    ensures HasArc(RAIL, ArcRow(j).b2, ArcRow(j).b1) && Length(RAIL, ArcRow(j).b2, ArcRow(j).b1) >= 0.0
  {
    var u, v := ArcRow(j).b1, ArcRow(j).b2;
    assert Joins(RAIL, j, u, v) && Joins(RAIL, j, v, u);
    Positive(ArcFrom(RAIL, 0, u, v));
    Positive(ArcFrom(RAIL, 0, v, u));
  }

  /** The arc after each balise of path 1. */
  function Row1(r: nat): nat {
    match r
    case 0 => 0
    case 1 => 1
    case 2 => 3
    case 3 => 14
    case 4 => 37
    case 5 => 8
    case 6 => 9
    case _ => 10
  }

  lemma Cantons1(r: nat)
    requires r < 8
    ensures CantonOk(RAIL, PATH_1, r)
  {
    ArcAt(Row1(r));
  }

  /** The arc after each balise of path 2. */
  function Row2(r: nat): nat {
    match r
    case 0 => 25
    case 1 => 20
    case 2 => 45
    case 3 => 32
    case 4 => 31
    case 5 => 30
    case 6 => 44
    case _ => 24
  }

  lemma Cantons2(r: nat)
    requires r < 8
    ensures CantonOk(RAIL, PATH_2, r)
  {
    ArcAt(Row2(r));
  }

  /** The arc after each balise of path 3. */
  function Row3(r: nat): nat {
    match r
    case 0 => 27
    case 1 => 28
    case 2 => 29
    case 3 => 30
    case 4 => 31
    case 5 => 32
    case 6 => 33
    case 7 => 34
    case 8 => 35
    case 9 => 36
    case 10 => 12
    case 11 => 14
    case 12 => 37
    case 13 => 8
    case 14 => 9
    case _ => 39
  }

  lemma Cantons3(r: nat)
    requires r < 16
    ensures CantonOk(RAIL, PATH_3, r)
  {
    ArcAt(Row3(r));
    Rows3(r);
    hide ArcRow, RAIL;
  }

  lemma Rows3(r: nat)
    requires r < 16
    ensures Row3(r) < 46
    ensures var a := ArcRow(Row3(r));
            (a.b1 == PATH_3[r] && a.b2 == PATH_3[Next(r, 16)]) || (a.b2 == PATH_3[r] && a.b1 == PATH_3[Next(r, 16)])
  {
  }

  /** get_distance terminates on every path of the repository: each is closed and every canton is on the map. */
  lemma ShippedComplete(t: nat)
    requires t < 3
    ensures Complete(RAIL, Shipped(3)[t].path)
  {
    Train1Ok(3);
    Train2Ok(3);
    Train3Ok(3);
    var path := Shipped(3)[t].path;
    forall r: nat | r < |path| ensures CantonOk(RAIL, path, r) {
      if t == 0 {
        Cantons1(r);
      } else if t == 1 {
        Cantons2(r);
      } else {
        Cantons3(r);
      }
    }
  }

  lemma LongArc(j: nat)
    ensures ArcRow(j).d >= 643.0
  {
  }

  lemma Canton8()
    requires Complete(RAIL, PATH_1)
    ensures Canton(RAIL, PATH_1, IndexOf(PATH_1, 8)) >= 643.0
  {
    ArcAt(9);
    LongArc(ArcFrom(RAIL, 0, 8, 9));
  }

  /** Train 1 in canton 8, 30 past the balise, another train 20 behind it there, and the next stop at 9: next_eoa
      returns 9, while get_distance calls the other train nearer. */
  lemma DisagreeIn8()
    ensures InService(RAIL, PATH_1, Place(8, 30.0), 9, Place(8, 10.0), Place(22, 0.0))
    ensures !Minimises(RAIL, PATH_1, Place(8, 30.0), 9, Place(8, 10.0), Place(22, 0.0))
  {
    ShippedComplete(0);
    Canton8();
    hide Complete, Canton, Minimises;
    assert 8 in PATH_1 && 9 in PATH_1 && 22 !in PATH_1;
    assert Trails(Place(8, 30.0), Target(9, Place(8, 10.0), Place(22, 0.0), 1));
    assert !Trails(Place(8, 30.0), Target(9, Place(8, 10.0), Place(22, 0.0), 0));
    AgreesIff(RAIL, PATH_1, Place(8, 30.0), 9, Place(8, 10.0), Place(22, 0.0));
  }

  // ----- lengths in numbers -----

  /** No entry of the table before the j-th joins its two balises. */
  lemma FirstRow(j: nat)
    requires j < 46
    ensures var a := ArcRow(j);
            forall k: nat :: k < j ==>
              && !(ArcRow(k).b1 == a.b1 && ArcRow(k).b2 == a.b2)
              && !(ArcRow(k).b1 == a.b2 && ArcRow(k).b2 == a.b1)
  {
  }

  /** The canton after entry i of a path is as long as entry j of the table, which joins its two ends. */
  lemma CantonIs(path: seq<int>, i: nat, j: nat)
    requires Complete(RAIL, path) && i < |path| && |path| >= 2 && j < 46
    requires var u, v, a := path[i], path[if i + 1 == |path| then 0 else i + 1], ArcRow(j);
             (a.b1 == u && a.b2 == v) || (a.b1 == v && a.b2 == u)
    ensures Canton(RAIL, path, i) == ArcRow(j).d
    ensures var u, v := path[i], path[if i + 1 == |path| then 0 else i + 1];
            Distance(RAIL, path, Place(u, 0.0), Place(v, 0.0)) == ArcRow(j).d
  {
    hide ArcRow, Complete, Canton, Distance;
    FirstRow(j);
    OneCanton(RAIL, path, i, j);
  }

  function Total(ds: seq<real>): real {
    if ds == [] then 0.0 else Total(ds[..|ds| - 1]) + ds[|ds| - 1]
  }

  lemma {:induction false} AlongIs(path: seq<int>, ds: seq<real>, n: nat)
    requires Complete(RAIL, path) && n <= |ds| && forall i :: 0 <= i < n ==> Canton(RAIL, path, i) == ds[i]
    ensures Along(RAIL, path, n) == Total(ds[..n])
    decreases n
  {
    hide Complete, Canton;
    if n > 0 {
      AlongIs(path, ds, n - 1);
      assert ds[..n][..n - 1] == ds[..n - 1];
    }
  }

  const CANTONS_1 := [1671.0, 1898.0, 2673.0, 2084.0, 2628.0, 1835.0, 1628.0, 2785.0]
  const CANTONS_2 := [2608.0, 2968.0, 2534.8, 1025.0, 1165.0, 643.0, 2543.0, 2494.0]
  const CANTONS_3 :=
    [1664.0, 1716.0, 1703.0, 643.0, 1165.0, 1025.0, 2015.0, 1580.0,
     1903.0, 3008.0, 2419.0, 2084.0, 2628.0, 1835.0, 1628.0, 4089.0]

  lemma Four(ds: seq<real>, a: seq<real>, w: real, x: real, y: real, z: real)
    requires ds == a + [w, x, y, z]
    ensures Total(ds) == Total(a) + w + x + y + z
  {
    assert ds[..|ds| - 1] == a + [w, x, y];
    assert (a + [w, x, y])[..|a| + 2] == a + [w, x] && (a + [w, x])[..|a| + 1] == a + [w] && (a + [w])[..|a|] == a;
    assert Total(a + [w]) == Total(a) + w;
    assert Total(a + [w, x]) == Total(a + [w]) + x;
    assert Total(a + [w, x, y]) == Total(a + [w, x]) + y;
  }

  lemma Totals()
    ensures Total(CANTONS_1) == 17202.0 && Total(CANTONS_2) == 15980.8 && Total(CANTONS_3) == 31105.0
  {
    Four(CANTONS_1[..4], [], 1671.0, 1898.0, 2673.0, 2084.0);
    Four(CANTONS_1, CANTONS_1[..4], 2628.0, 1835.0, 1628.0, 2785.0);
    Four(CANTONS_2[..4], [], 2608.0, 2968.0, 2534.8, 1025.0);
    Four(CANTONS_2, CANTONS_2[..4], 1165.0, 643.0, 2543.0, 2494.0);
    Four(CANTONS_3[..4], [], 1664.0, 1716.0, 1703.0, 643.0);
    Four(CANTONS_3[..8], CANTONS_3[..4], 1165.0, 1025.0, 2015.0, 1580.0);
    Four(CANTONS_3[..12], CANTONS_3[..8], 1903.0, 3008.0, 2419.0, 2084.0);
    Four(CANTONS_3, CANTONS_3[..12], 2628.0, 1835.0, 1628.0, 4089.0);
  }

  lemma Length1(i: nat)
    requires i < 8 && Complete(RAIL, PATH_1)
    ensures Canton(RAIL, PATH_1, i) == CANTONS_1[i]
  {
    hide Complete, Canton;
    CantonIs(PATH_1, i, Row1(i));
  }

  lemma Length2(i: nat)
    requires i < 8 && Complete(RAIL, PATH_2)
    ensures Canton(RAIL, PATH_2, i) == CANTONS_2[i]
  {
    hide Complete, Canton;
    CantonIs(PATH_2, i, Row2(i));
  }

  lemma Length3(i: nat)
    requires i < 16 && Complete(RAIL, PATH_3)
    ensures Canton(RAIL, PATH_3, i) == CANTONS_3[i]
  {
    hide Complete, Canton, ArcRow;
    Rows3(i);
    RowLengths3(i);
    CantonIs(PATH_3, i, Row3(i));
  }

  lemma RowLengths3(i: nat)
    requires i < 16
    ensures ArcRow(Row3(i)).d == CANTONS_3[i]
  {
  }

  /** One lap of each path, in millimetres, and one canton that the table stores the other way round. */
  lemma Laps()
    ensures Complete(RAIL, PATH_1) && Lap(RAIL, PATH_1) == 17202.0
    ensures Complete(RAIL, PATH_2) && Lap(RAIL, PATH_2) == 15980.8
    ensures Complete(RAIL, PATH_3) && Lap(RAIL, PATH_3) == 31105.0
    ensures 251 in PATH_2 && 26 in PATH_2 && Distance(RAIL, PATH_2, Place(251, 0.0), Place(26, 0.0)) == 1025.0
  {
    hide Complete, Canton, Distance;
    ShippedComplete(0);
    ShippedComplete(1);
    ShippedComplete(2);
    Totals();
    forall i: nat | i < 8 ensures Canton(RAIL, PATH_1, i) == CANTONS_1[i] && Canton(RAIL, PATH_2, i) == CANTONS_2[i] {
      Length1(i);
      Length2(i);
    }
    forall i: nat | i < 16 ensures Canton(RAIL, PATH_3, i) == CANTONS_3[i] {
      Length3(i);
    }
    AlongIs(PATH_1, CANTONS_1, 8);
    AlongIs(PATH_2, CANTONS_2, 8);
    AlongIs(PATH_3, CANTONS_3, 16);
    assert CANTONS_1[..8] == CANTONS_1 && CANTONS_2[..8] == CANTONS_2 && CANTONS_3[..16] == CANTONS_3;
    assert PATH_2[3] == 251 && PATH_2[4] == 26;
    CantonIs(PATH_2, 3, 32);
  }

  /** The tolerance in numbers: a place 49 behind in canton 8 is 49 behind, one 50 behind is nearly a lap away. */
  lemma FiftyBehind()
    ensures Complete(RAIL, PATH_1) && 8 in PATH_1
    ensures Distance(RAIL, PATH_1, Place(8, 60.0), Place(8, 11.0)) == -49.0
    ensures Distance(RAIL, PATH_1, Place(8, 60.0), Place(8, 10.0)) == 17152.0
  {
    hide Complete, Canton;
    Laps();
    DistanceIsDifference(RAIL, PATH_1, Place(8, 60.0), Place(8, 11.0));
    DistanceIsDifference(RAIL, PATH_1, Place(8, 60.0), Place(8, 10.0));
  }
}
