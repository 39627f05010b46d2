/** The repository's tables satisfy every coherence condition, with the release cursor as coded and as designed. */
module ShippedCoherent {
  import opened Cyclic
  import opened Tables
  import opened ShippedTables

  lemma Balanced(w: nat, t: nat, b: nat)
    requires t < 3 && (w == 3 || w == 4) && TrainOk(Shipped(w)[t])
    ensures LapBalanced(Shipped(w)[t], b)
  {
    Lap1(b);
    Lap2(b);
    Lap3(b);
  }

  /** How often each bit is asked for and given back per lap. */
  lemma Lap1(b: nat)
    ensures Count(REQ_1, 0, b) == 0 && Count(REQ_1, 1, b) == (if b == 3 then 1 else 0)
    ensures Count(REQ_1, 2, b) == (if b == 3 || b == 0 then 1 else 0)
    ensures Count(LIB_1, 0, b) == 0 && Count(LIB_1, 1, b) == (if b == 3 then 1 else 0)
    ensures Count(LIB_1, 2, b) == (if b == 3 || b == 0 then 1 else 0)
  {
  }

  lemma Lap2(b: nat)
    ensures Count(REQ_2, 0, b) == 0 && Count(REQ_2, 1, b) == (if b == 1 then 1 else 0)
    ensures Count(REQ_2, 2, b) == (if b == 1 || b == 2 then 1 else 0)
    ensures Count(REQ_2, 3, b) == (if 1 <= b <= 4 then 1 else 0)
    ensures forall w :: 3 <= w <= 4 ==>
      && Count(Lib2(w), 0, b) == 0 && Count(Lib2(w), 1, b) == (if b == 1 then 1 else 0)
      && Count(Lib2(w), 2, b) == (if b == 1 || b == 2 then 1 else 0)
      && Count(Lib2(w), 3, b) == (if 1 <= b <= 3 then 1 else 0)
    ensures Count(Lib2(4), 4, b) == (if 1 <= b <= 4 then 1 else 0)
  {
    forall w: nat | 3 <= w <= 4
      ensures Count(Lib2(w), 1, b) == (if b == 1 then 1 else 0)
      ensures Count(Lib2(w), 2, b) == (if b == 1 || b == 2 then 1 else 0)
      ensures Count(Lib2(w), 3, b) == (if 1 <= b <= 3 then 1 else 0)
    {
    }
  }

  lemma Lap3(b: nat)
    ensures Count(REQ_3, 0, b) == 0 && Count(REQ_3, 1, b) == (if b == 4 then 1 else 0)
    ensures Count(REQ_3, 2, b) == (if b == 4 || b == 2 then 1 else 0)
    ensures Count(REQ_3, 3, b) == (if 2 <= b <= 4 then 1 else 0)
    ensures Count(REQ_3, 4, b) == (if b <= 4 then 1 else 0)
    ensures Count(LIB_3, 0, b) == 0 && Count(LIB_3, 1, b) == (if b == 4 then 1 else 0)
    ensures Count(LIB_3, 2, b) == (if b == 4 || b == 2 then 1 else 0)
    ensures Count(LIB_3, 3, b) == (if 2 <= b <= 4 then 1 else 0)
    ensures Count(LIB_3, 4, b) == (if b <= 4 then 1 else 0)
  {
  }

  // ----- every release gives back what an earlier request brought -----

  lemma ReleasesOk(w: nat, t: nat)
    requires t < 3 && (w == 3 || w == 4) && TrainOk(Shipped(w)[t])
    ensures ReleasesBacked(Shipped(w)[t])
  {
    var T := Shipped(w)[t];
    forall j: nat, b: nat {:trigger Backed(T, j, b)} | b in StopMask(T.lib, j) ensures Backed(T, j, b) {
      Balanced(w, t, b);
      forall r: nat | r < T.lib.wrap && b in T.lib.mask[r] ensures Backed(T, r, b) {
        FirstLapBacked(w, t, r, b);
      }
      BackedEveryLap(T, j, b);
    }
  }

  /** On the first lap the r-th release is backed by the request that brought its bits. */
  lemma FirstLapBacked(w: nat, t: nat, r: nat, b: nat)
    requires t < 3 && (w == 3 || w == 4) && TrainOk(Shipped(w)[t])
    requires r < Shipped(w)[t].lib.wrap && b in Shipped(w)[t].lib.mask[r]
    ensures Backed(Shipped(w)[t], r, b)
  {
    var T := Shipped(w)[t];
    Lap1(b);
    Lap2(b);
    Lap3(b);
    if t == 0 {
      assert KeptBy(T, b, LibIdx(T, r), LibIdx(T, r), r, r);
    } else if t == 2 {
      assert KeptBy(T, b, LibIdx(T, r), LibIdx(T, r), r, r);
    } else {
      assert KeptBy(T, b, LibIdx(T, r), LibIdx(T, r), if r < 3 then r else 2, r);
    }
  }

  // ----- every meeting point is guarded -----

  /** The bit guarding an entry: R4 where trains 1 and 3 merge, R3 where trains 2 and 3 merge at balise 11,
      R5 on the section that trains 2 and 3 run in opposite directions. */
  function EntryBit(s: nat, t: nat, bal: int): nat {
    if s == 0 || t == 0 then 3 else if bal == 11 then 2 else 4
  }

  /** Places of a path, on its first lap, at which the guard of an entry is kept. */
  lemma Kept(w: nat, t: nat, r: nat, b: nat)
    requires t < 3 && (w == 3 || w == 4) && TrainOk(Shipped(w)[t])
    requires || (t == 0 && r == 3 && b == 3) || (t == 2 && r == 11 && b == 3)
             || (t == 1 && r == 2 && b == 2) || (t == 2 && r == 10 && b == 2)
             || (t == 1 && 3 <= r <= 6 && b == 4) || (t == 2 && 3 <= r <= 6 && b == 4)
    ensures Keeps(Shipped(w)[t], b, r, r)
  {
    var T := Shipped(w)[t];
    Lap1(b);
    Lap2(b);
    Lap3(b);
    var k := if t == 0 then 0 else if t == 1 then (if b == 2 then 1 else 2) else (if b == 4 then 0
        else if b == 2 then 1 else 2);
    var j := if t == 0 then 0 else if t == 1 then (if b == 2 then 1 else 3) else (if b == 4 then 0
        else if b == 2 then 1 else 2);
    assert KeptBy(T, b, r, r, k, j);
  }

  predicate MeetsAt(P: seq<int>, Q: seq<int>, r: nat, s: nat)
    requires r < |P| && s < |Q|
  {
    P[r] == Q[s] && P[Prev(r, |P|)] != Q[Prev(s, |Q|)]
  }

  lemma Meetings12(r: nat, s: nat)
    requires r < 8 && s < 8
    ensures !MeetsAt(PATH_1, PATH_2, r, s)
  {
  }

  lemma Meetings13(r: nat, s: nat)
    requires r < 8 && s < 16 && MeetsAt(PATH_1, PATH_3, r, s)
    ensures r == 3 && s == 11
  {
  }

  lemma Meetings23(r: nat, s: nat)
    requires r < 8 && s < 16 && MeetsAt(PATH_2, PATH_3, r, s)
    ensures (r == 2 && s == 10) || (3 <= r <= 6 && 3 <= s <= 6 && PATH_2[r] != 11)
  {
  }

  lemma EntryOk(w: nat, s: nat, t: nat, i: nat, j: nat)
    requires s < t < 3 && (w == 3 || w == 4) && TrainOk(Shipped(w)[s]) && TrainOk(Shipped(w)[t]) && i > 0 && j > 0
    requires Node(Shipped(w)[s].path, i) == Node(Shipped(w)[t].path, j)
    requires Node(Shipped(w)[s].path, i - 1) != Node(Shipped(w)[t].path, j - 1)
    ensures EntryGuarded(Shipped(w)[s], Shipped(w)[t], i, j)
  {
    var P, Q := Shipped(w)[s].path, Shipped(w)[t].path;
    var b := EntryBit(s, t, Node(P, i));
    NodePrev(P, i);
    NodePrev(Q, j);
    var r, q := Wrap(i, |P|), Wrap(j, |Q|);
    if t == 1 {
      Meetings12(r, q);
    } else if s == 0 {
      Meetings13(r, q);
    } else {
      Meetings23(r, q);
    }
    Kept(w, s, r, b);
    Kept(w, t, q, b);
    Balanced(w, s, b);
    Balanced(w, t, b);
    KeptEntry(Shipped(w)[s], b, i, r);
    KeptEntry(Shipped(w)[t], b, j, q);
  }

  lemma EntriesOk(w: nat, s: nat, t: nat)
    requires s < t < 3 && (w == 3 || w == 4) && TrainOk(Shipped(w)[s]) && TrainOk(Shipped(w)[t])
    ensures EntriesGuarded(Shipped(w)[s], Shipped(w)[t])
    ensures EntriesGuarded(Shipped(w)[t], Shipped(w)[s])
  {
    var A, B := Shipped(w)[s], Shipped(w)[t];
    forall i: nat, j: nat {:trigger EntryGuarded(A, B, i, j)}
      | i > 0 && j > 0 && Node(A.path, i) == Node(B.path, j) && Node(A.path, i - 1) != Node(B.path, j - 1)
      ensures EntryGuarded(A, B, i, j)
    {
      EntryOk(w, s, t, i, j);
    }
    forall i: nat, j: nat {:trigger EntryGuarded(B, A, j, i)}
      | i > 0 && j > 0 && Node(B.path, j) == Node(A.path, i) && Node(B.path, j - 1) != Node(A.path, i - 1)
      ensures EntryGuarded(B, A, j, i)
    {
      EntryOk(w, s, t, i, j);
      assert EntryGuarded(A, B, i, j);
    }
  }

  lemma NoTripleBalise(bal: int)
    ensures !(bal in PATH_1 && bal in PATH_2)
  {
  }

  /** The tables as coded (w = 3) and with the second release cursor wrapping at the length of its own list (w = 4)
      both meet every condition that the safety theorems need. */
  lemma ShippedOk(w: nat)
    requires w == 3 || w == 4
    ensures NetworkOk(Shipped(w))
  {
    var N := Shipped(w);
    Train1Ok(w);
    Train2Ok(w);
    Train3Ok(w);
    ReleasesOk(w, 0);
    ReleasesOk(w, 1);
    ReleasesOk(w, 2);
    EntriesOk(w, 0, 1);
    EntriesOk(w, 0, 2);
    EntriesOk(w, 1, 2);
    forall bal ensures !Triple(N, bal) {
      NoTripleBalise(bal);
    }
  }
}
