/** The static data of the railway: paths, resource tables, switch commands, and what makes them coherent. */
module Tables {
  import opened Cyclic

  /** position_t: a balise and a distance travelled past it. */
  datatype Place = Place(bal: int, posR: real)

  /** commande_aig: a switch and the direction it is set to. */
  datatype Command = Command(name: int, turn: bool)

  /** A list of balises visited in order on a cyclic path, with a set of resource bits for each.
      `at` gives the place of each entry along the unrolled path; it is not part of the program's data. */
  datatype Stops = Stops(bal: seq<int>, mask: seq<set<nat>>, at: seq<nat>, wrap: nat)

  /** The constants of one train: its path, where it asks for resources, where it gives them back,
      and the switches each grant sets. */
  datatype Train = Train(path: seq<int>, req: Stops, lib: Stops, commands: seq<seq<Command>>)

  type Network = seq<Train>

  /** The stops follow one another along one lap, each at the balise it names. */
  ghost predicate StopsOk(path: seq<int>, s: Stops)
    requires |path| > 0
  {
    && 2 <= s.wrap <= |s.bal|
    && |s.mask| == |s.bal| == |s.at|
    && s.at[0] < |path|
    && s.at[s.wrap - 1] < s.at[0] + |path|
    && (forall r: nat, q: nat :: InOrder(s, r, q))
    && (forall r: nat :: AtBalise(path, s, r))
  }

  predicate InOrder(s: Stops, r: nat, q: nat)
    requires s.wrap <= |s.at|
  {
    r < q < s.wrap ==> s.at[r] < s.at[q]
  }

  predicate AtBalise(path: seq<int>, s: Stops, r: nat)
    requires |path| > 0 && s.wrap <= |s.at| == |s.bal|
  {
    r < s.wrap ==> s.bal[r] == Node(path, s.at[r])
  }

  /** No balise is visited twice on one lap. */
  ghost predicate Distinct(path: seq<int>) {
    forall i: nat, j: nat :: Differ(path, i, j)
  }

  predicate Differ(path: seq<int>, i: nat, j: nat) {
    i < j < |path| ==> path[i] != path[j]
  }

  ghost predicate TrainOk(T: Train) {
    && |T.path| >= 2
    && Distinct(T.path)
    && StopsOk(T.path, T.req)
    && StopsOk(T.path, T.lib)
    && |T.commands| == |T.req.bal|
    && (forall r: nat :: Asks(T, r))
  }

  predicate Asks(T: Train, r: nat)
    requires T.req.wrap <= |T.req.mask|
  {
    r < T.req.wrap ==> T.req.mask[r] != {}
  }

  /** The balise at unrolled index i of a cyclic path. */
  function Node(path: seq<int>, i: nat): int
    requires |path| > 0
  {
    path[Wrap(i, |path|)]
  }

  /** The balise k steps after index i. */
  function After(path: seq<int>, i: nat, k: nat): int
    requires |path| > 0
  {
    Node(path, i + k)
  }

  /** The index of a balise on a path. */
  function IndexOf(path: seq<int>, bal: int): (i: nat)
    requires bal in path
    ensures i < |path| && path[i] == bal
    ensures forall k :: 0 <= k < i ==> path[k] != bal
  {
    IndexFrom(path, bal, 0)
  }

  function IndexFrom(path: seq<int>, bal: int, j: nat): (i: nat)
    requires exists k :: j <= k < |path| && path[k] == bal
    ensures j <= i < |path| && path[i] == bal
    ensures forall k :: j <= k < i ==> path[k] != bal
    decreases |path| - j
  {
    if path[j] == bal then j else IndexFrom(path, bal, j + 1)
  }

  /** Unrolled index along the path of the k-th stop ever made. */
  function StopIdx(s: Stops, lap: nat, k: nat): nat
    requires 0 < s.wrap <= |s.at|
  {
    if k < s.wrap then s.at[k] else lap + StopIdx(s, lap, k - s.wrap)
  }

  /** Bits of the k-th stop ever made. */
  function StopMask(s: Stops, k: nat): set<nat>
    requires 0 < s.wrap <= |s.mask|
  {
    s.mask[Wrap(k, s.wrap)]
  }

  /** How many of the first k stops concern bit b. */
  function Count(s: Stops, k: nat, b: nat): nat
    requires 0 < s.wrap <= |s.mask|
  {
    if k == 0 then 0 else Count(s, k - 1, b) + if b in StopMask(s, k - 1) then 1 else 0
  }

  function ReqIdx(T: Train, k: nat): nat
    requires 0 < T.req.wrap <= |T.req.at|
  {
    StopIdx(T.req, |T.path|, k)
  }

  function LibIdx(T: Train, j: nat): nat
    requires 0 < T.lib.wrap <= |T.lib.at|
  {
    StopIdx(T.lib, |T.path|, j)
  }

  // ----- stops along the unrolled path -----

  lemma {:induction false} StopNext(path: seq<int>, s: Stops, k: nat)
    requires |path| > 0 && StopsOk(path, s)
    ensures StopIdx(s, |path|, k) < StopIdx(s, |path|, k + 1) < StopIdx(s, |path|, k) + |path|
    decreases k
  {
    assert InOrder(s, 0, s.wrap - 1);
    if k >= s.wrap {
      StopNext(path, s, k - s.wrap);
    } else if k + 1 == s.wrap {
      assert StopIdx(s, |path|, k + 1) == |path| + s.at[0];
    } else {
      assert InOrder(s, 0, k) && InOrder(s, k, k + 1) && InOrder(s, k + 1, s.wrap - 1);
    }
  }

  /** Stops are met in order. */
  lemma {:induction false} StopMono(path: seq<int>, s: Stops, k: nat, l: nat)
    requires |path| > 0 && StopsOk(path, s) && k <= l
    ensures StopIdx(s, |path|, k) <= StopIdx(s, |path|, l)
    ensures k < l ==> StopIdx(s, |path|, k) < StopIdx(s, |path|, l)
    decreases l - k
  {
    if k < l {
      StopMono(path, s, k, l - 1);
      StopNext(path, s, l - 1);
    }
  }

  /** The k-th stop stands at the balise the code compares with. */
  lemma {:induction false} StopNode(path: seq<int>, s: Stops, k: nat)
    requires |path| > 0 && StopsOk(path, s)
    ensures Node(path, StopIdx(s, |path|, k)) == s.bal[Wrap(k, s.wrap)]
    decreases k
  {
    if k >= s.wrap {
      StopNode(path, s, k - s.wrap);
    } else {
      assert AtBalise(path, s, k);
    }
  }

  lemma {:induction false} CountMono(s: Stops, k: nat, l: nat, b: nat)
    requires 0 < s.wrap <= |s.mask| && k <= l
    ensures Count(s, k, b) <= Count(s, l, b)
    decreases l - k
  {
    if k < l {
      CountMono(s, k, l - 1, b);
    }
  }

  /** One more round of a table adds one round's worth of each bit. */
  lemma {:induction false} CountRound(s: Stops, k: nat, b: nat)
    requires 0 < s.wrap <= |s.mask|
    ensures Count(s, k + s.wrap, b) == Count(s, k, b) + Count(s, s.wrap, b)
    decreases k
  {
    if k > 0 {
      CountRound(s, k - 1, b);
      assert StopMask(s, k - 1 + s.wrap) == StopMask(s, k - 1);
    }
  }

  /** Same balise, same reduced index. */
  lemma SameNode(path: seq<int>, i: nat, j: nat)
    requires |path| > 0 && Distinct(path) && Node(path, i) == Node(path, j)
    ensures Wrap(i, |path|) == Wrap(j, |path|)
  {
    assert Differ(path, Wrap(i, |path|), Wrap(j, |path|)) && Differ(path, Wrap(j, |path|), Wrap(i, |path|));
  }

  lemma IndexOfNode(path: seq<int>, i: nat)
    requires |path| > 0 && Distinct(path)
    ensures Node(path, i) in path && IndexOf(path, Node(path, i)) == Wrap(i, |path|)
  {
    var r, k := Wrap(i, |path|), IndexOf(path, Node(path, i));
    assert Differ(path, r, k) && Differ(path, k, r);
  }

  // ----- what a resource bit protects -----

  /** Bit b is kept all the way from index lo (its request lies strictly before) to index hi (it is not
      given back before): some request k before lo brings b, and at stop hi fewer releases of b were made. */
  ghost predicate Keeps(T: Train, b: nat, lo: nat, hi: nat)
    requires TrainOk(T)
  {
    exists k: nat, j: nat :: KeptBy(T, b, lo, hi, k, j)
  }

  predicate KeptBy(T: Train, b: nat, lo: nat, hi: nat, k: nat, j: nat)
    requires TrainOk(T)
  {
    ReqIdx(T, k) < lo && hi <= LibIdx(T, j) && Count(T.req, k + 1, b) > Count(T.lib, j, b)
  }

  /** Every release gives back bits that an earlier request brought. */
  ghost predicate ReleasesBacked(T: Train)
    requires TrainOk(T)
  {
    forall j: nat, b: nat {:trigger Backed(T, j, b)} :: b in StopMask(T.lib, j) ==> Backed(T, j, b)
  }

  ghost predicate Backed(T: Train, j: nat, b: nat)
    requires TrainOk(T)
  {
    exists k: nat :: KeptBy(T, b, LibIdx(T, j), LibIdx(T, j), k, j)
  }

  /** Wherever two paths meet coming from different balises, one bit guards both entries. */
  ghost predicate EntriesGuarded(A: Train, B: Train)
    requires TrainOk(A) && TrainOk(B)
  {
    forall i: nat, j: nat {:trigger EntryGuarded(A, B, i, j)} ::
      i > 0 && j > 0 && Node(A.path, i) == Node(B.path, j) && Node(A.path, i - 1) != Node(B.path, j - 1)
      ==> EntryGuarded(A, B, i, j)
  }

  ghost predicate EntryGuarded(A: Train, B: Train, i: nat, j: nat)
    requires TrainOk(A) && TrainOk(B)
  {
    exists b: nat :: Keeps(A, b, i, i) && Keeps(B, b, j, j)
  }

  ghost predicate Triple(N: Network, bal: int)
    requires |N| == 3
  {
    bal in N[0].path && bal in N[1].path && bal in N[2].path
  }

  ghost predicate NetworkOk(N: Network) {
    && |N| == 3
    && (forall t :: 0 <= t < 3 ==> TrainOk(N[t]))
    && (forall t :: 0 <= t < 3 ==> ReleasesBacked(N[t]))
    && (forall a, b :: 0 <= a < 3 && 0 <= b < 3 && a != b ==> EntriesGuarded(N[a], N[b]))
    && (forall bal :: !Triple(N, bal))
  }

  // ----- checking one lap is enough -----

  /** No bit is given back more often per lap than it is asked for. */
  ghost predicate LapBalanced(T: Train, b: nat)
    requires TrainOk(T)
  {
    Count(T.req, T.req.wrap, b) >= Count(T.lib, T.lib.wrap, b)
  }

  lemma KeptByShift(T: Train, b: nat, lo: nat, hi: nat, k: nat, j: nat)
    requires TrainOk(T) && LapBalanced(T, b) && KeptBy(T, b, lo, hi, k, j)
    ensures KeptBy(T, b, lo + |T.path|, hi + |T.path|, k + T.req.wrap, j + T.lib.wrap)
  {
    CountRound(T.req, k + 1, b);
    CountRound(T.lib, j, b);
    assert k + T.req.wrap + 1 == k + 1 + T.req.wrap;
  }

  lemma KeepsShift(T: Train, b: nat, lo: nat, hi: nat)
    requires TrainOk(T) && LapBalanced(T, b) && Keeps(T, b, lo, hi)
    ensures Keeps(T, b, lo + |T.path|, hi + |T.path|)
  {
    var k: nat, j: nat :| KeptBy(T, b, lo, hi, k, j);
    KeptByShift(T, b, lo, hi, k, j);
  }

  /** What is kept on the first lap is kept on every lap. */
  lemma {:induction false} KeepsEveryLap(T: Train, b: nat, i: nat, d: nat)
    requires TrainOk(T) && LapBalanced(T, b) && Keeps(T, b, Wrap(i, |T.path|), Wrap(i, |T.path|) + d)
    ensures Keeps(T, b, i, i + d)
    decreases i
  {
    if i >= |T.path| {
      KeepsEveryLap(T, b, i - |T.path|, d);
      KeepsShift(T, b, i - |T.path|, i - |T.path| + d);
    }
  }

  lemma KeptEntry(T: Train, b: nat, i: nat, r: nat)
    requires TrainOk(T) && LapBalanced(T, b) && r == Wrap(i, |T.path|) && Keeps(T, b, r, r)
    ensures Keeps(T, b, i, i)
  {
    KeepsEveryLap(T, b, i, 0);
  }

  /** Releases that are backed on the first lap are backed on every lap. */
  lemma {:induction false} BackedEveryLap(T: Train, j: nat, b: nat)
    requires TrainOk(T) && LapBalanced(T, b) && b in StopMask(T.lib, j)
    requires forall r: nat :: r < T.lib.wrap && b in T.lib.mask[r] ==> Backed(T, r, b)
    ensures Backed(T, j, b)
    decreases j
  {
    if j >= T.lib.wrap {
      var i := j - T.lib.wrap;
      BackedEveryLap(T, i, b);
      var k: nat :| KeptBy(T, b, LibIdx(T, i), LibIdx(T, i), k, i);
      KeptByShift(T, b, LibIdx(T, i), LibIdx(T, i), k, i);
      assert LibIdx(T, i) + |T.path| == LibIdx(T, j);
    }
  }

  /** Meetings of two paths are met again on every lap, with the same predecessors. */
  lemma NodePrev(path: seq<int>, i: nat)
    requires |path| > 0 && i > 0
    ensures Node(path, i) == path[Wrap(i, |path|)] && Node(path, i - 1) == path[Prev(Wrap(i, |path|), |path|)]
  {
    WrapNext(i - 1, |path|);
  }
}
