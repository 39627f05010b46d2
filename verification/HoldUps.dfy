/** The mended tables of the repository: when the holder of a resource can no longer give it back. */
module HoldUps {
  import opened Cyclic
  import opened Tables
  import opened Interlocking
  import opened Deadlock
  import opened Standstill
  import opened ShippedTables
  import opened ShippedLaps

  const N4 := Shipped(4)

  /** After l releases, the j-th is the next one that gives back b. */
  predicate Back(T: Train, l: nat, b: nat, j: nat)
    requires 0 < T.lib.wrap <= |T.lib.mask|
  {
    l <= j && b in StopMask(T.lib, j) && Count(T.lib, j, b) == Count(T.lib, l, b)
  }

  /** Train h holds b and gives it back at its j-th release; train u is reported where the authority of h ends or
      beyond, but before the balise of that release. */
  ghost predicate HeldUpBy(N: Network, w: World, h: nat, b: nat, u: nat, j: nat, n: nat)
    requires NetworkOk(N) && Shape(N, w)
  {
    && h < 3 && u < 3 && h != u && Holds(N[h], w.trk[h], b) && Back(N[h], w.trk[h].lib, b, j)
    && Node(N[h].path, n) == Node(N[u].path, w.trk[u].rep.idx)
    && Le(w.trk[h].auth, Pos(n, w.trk[u].rep.off)) && n < LibIdx(N[h], j)
  }

  ghost predicate HeldUp(N: Network, w: World, h: nat, b: nat)
    requires NetworkOk(N) && Shape(N, w)
  {
    exists u, j, n :: HeldUpBy(N, w, h, b, u, j, n)
  }

  // ----- what is known of one train -----

  /** Its report lies between its last and its next release, not beyond its next request and at most one balise
      before the last request granted. */
  ghost predicate Course(T: Train, k: Track)
    requires TrainOk(T)
  {
    && Le(k.rep, k.auth) && Le(k.auth, Pos(ReqIdx(T, k.req), 0.0)) && k.rep.off >= 0.0
    && k.rep.idx < LibIdx(T, k.lib) && (k.lib > 0 ==> LibIdx(T, k.lib - 1) <= k.rep.idx)
    && (Taken(k) > 0 ==> ReqIdx(T, Taken(k) - 1) <= k.rep.idx + 1)
  }

  lemma CourseOf(N: Network, w: World, t: nat)
    requires Inv(N, w) && LiveInv(N, w) && t < 3
    ensures Course(N[t], w.trk[t])
  {
    assert TrainInv(N, w, t);
    assert Prompt(N[t], w.trk[t]);
  }

  // ----- the way from a request to the release -----

  /** K grants have been made, the last of them at most one balise after n, and b is given back beyond n. */
  ghost predicate OnWay(T: Train, K: nat, b: nat, j: nat, n: nat)
    requires TrainOk(T)
  {
    && K > 0 && Count(T.req, K, b) == Count(T.lib, j, b) + 1 && b in StopMask(T.lib, j)
    && ReqIdx(T, K - 1) <= n + 1 && n < LibIdx(T, j)
  }

  lemma Way1(K: nat, b: nat, j: nat, n: nat) returns (q: nat)
    requires TrainOk(N4[0]) && OnWay(N4[0], K, b, j, n)
    ensures n == 8 * q + 1 || n == 8 * q + 2
            || (b == 0 && (n == 8 * q + 6 || n == 8 * q + 7) && LibIdx(N4[0], j) == 8 * q + 8 && K == 2 * q + 2)
  {
    hide TrainOk, StopMask, Count, ReqIdx, LibIdx;
    q := Req1(K - 1, b);
    var q1 := Req1(K, b);
    var p := Lib1(j, b);
  }

  lemma Way2(K: nat, b: nat, j: nat, n: nat) returns (q: nat)
    requires TrainOk(N4[1]) && OnWay(N4[1], K, b, j, n)
    ensures n + 1 == 8 * q || n == 8 * q || n == 8 * q + 1
            || (n == 8 * q + 2 && K == 3 * q + 3 && ((b == 3 && j == 4 * q + 2) || (b == 4 && j == 4 * q + 3)))
            || (8 * q + 3 <= n <= 8 * q + 6 && b == 4)
  {
    hide TrainOk, StopMask, Count, ReqIdx, LibIdx;
    q := Req2(K - 1, b);
    var q1 := Req2(K, b);
    var p := LibSecond(j, b);
  }

  lemma Way3(K: nat, b: nat, j: nat, n: nat) returns (q: nat)
    requires TrainOk(N4[2]) && OnWay(N4[2], K, b, j, n)
    ensures n == 16 * q + 1 || n == 16 * q + 2 || n == 16 * q + 8 || n == 16 * q + 9
            || (16 * q + 3 <= n <= 16 * q + 6 && b == 4)
            || (n == 16 * q + 10 && b == 3 && j == 4 * q + 2)
            || ((n == 16 * q + 14 || n == 16 * q + 15) && b <= 1 && j == 4 * q + 3 && K == 4 * q + 4)
  {
    hide TrainOk, StopMask, Count, ReqIdx, LibIdx;
    q := Req3(K - 1, b);
    var q1 := Req3(K, b);
    var p := Lib3(j, b);
  }

  // ----- what a train needs where it is reported -----

  /** Between its requests r - 1 and r + 1, and short of its j-th release, which leaves c to give back, a train holds c
      or its next request is the r-th. */
  lemma NeedsNext(T: Train, k: Track, r: nat, j: nat, c: nat)
    requires TrainOk(T) && Course(T, k) && r > 0
    requires ReqIdx(T, r - 1) < k.rep.idx && k.rep.idx + 1 < ReqIdx(T, r + 1) && k.rep.idx < LibIdx(T, j)
    requires Count(T.req, r + 1, c) > Count(T.lib, j, c)
    ensures Holds(T, k, c) || (!k.phase.Commanding? && k.req == r)
  {
    if k.req < r {
      StopMono(T.path, T.req, k.req, r - 1);
    }
    if Taken(k) > r + 1 {
      StopMono(T.path, T.req, r + 1, Taken(k) - 1);
    }
    if k.lib > j {
      StopMono(T.path, T.lib, j, k.lib - 1);
    }
    CountMono(T.lib, k.lib, j, c);
  }

  /** Beyond the balise of its r-th request a train holds what it keeps up to its j-th release. */
  lemma HoldsBeyond(T: Train, k: Track, r: nat, j: nat, c: nat)
    requires TrainOk(T) && Course(T, k)
    requires ReqIdx(T, r) < k.rep.idx < LibIdx(T, j) && Count(T.req, r + 1, c) > Count(T.lib, j, c)
    ensures Holds(T, k, c)
  {
    if k.req <= r {
      StopMono(T.path, T.req, k.req, r);
    }
    if k.lib > j {
      StopMono(T.path, T.lib, j, k.lib - 1);
    }
    CountMono(T.lib, k.lib, j, c);
    CountMono(T.req, r + 1, Taken(k), c);
  }

  /** Train 1 in canton 8 or 9 holds R1 or asks for it next. */
  lemma First8(k: Track, q: nat)
    requires TrainOk(N4[0]) && Course(N4[0], k) && (k.rep.idx == 8 * q + 6 || k.rep.idx == 8 * q + 7)
    ensures Holds(N4[0], k, 0) || (!k.phase.Commanding? && k.req == 2 * q + 1)
  {
    hide TrainOk, Course, StopMask, Count, ReqIdx, LibIdx, Holds;
    var q0 := Req1(2 * q, 0);
    var q1 := Req1(2 * q + 2, 0);
    var q2 := Lib1(2 * q + 1, 0);
    NeedsNext(N4[0], k, 2 * q + 1, 2 * q + 1, 0);
  }

  /** Train 3 in canton 8 or 9 holds R1 or asks for R1 and R2 next. */
  lemma Third8(k: Track, q: nat)
    requires TrainOk(N4[2]) && Course(N4[2], k) && (k.rep.idx == 16 * q + 14 || k.rep.idx == 16 * q + 15)
    ensures Holds(N4[2], k, 0) || (!k.phase.Commanding? && k.req == 4 * q + 3)
  {
    hide TrainOk, Course, StopMask, Count, ReqIdx, LibIdx, Holds;
    var q0 := Req3(4 * q + 2, 0);
    var q1 := Req3(4 * q + 4, 0);
    var q2 := Lib3(4 * q + 3, 0);
    NeedsNext(N4[2], k, 4 * q + 3, 4 * q + 3, 0);
  }

  /** Train 2 in canton 11 holds R4 or asks for R4 and R5 next. */
  lemma Second11(k: Track, q: nat)
    requires TrainOk(N4[1]) && Course(N4[1], k) && k.rep.idx == 8 * q + 2
    ensures Holds(N4[1], k, 3) || (!k.phase.Commanding? && k.req == 3 * q + 2)
  {
    hide TrainOk, Course, StopMask, Count, ReqIdx, LibIdx, Holds;
    var q0 := Req2(3 * q + 1, 3);
    var q1 := Req2(3 * q + 3, 3);
    var q2 := LibSecond(4 * q + 2, 3);
    NeedsNext(N4[1], k, 3 * q + 2, 4 * q + 2, 3);
  }

  /** Train 3 in canton 11 holds R4 or asks for it next. */
  lemma Third11(k: Track, q: nat)
    requires TrainOk(N4[2]) && Course(N4[2], k) && k.rep.idx == 16 * q + 10
    ensures Holds(N4[2], k, 3) || (!k.phase.Commanding? && k.req == 4 * q + 2)
  {
    hide TrainOk, Course, StopMask, Count, ReqIdx, LibIdx, Holds;
    var q0 := Req3(4 * q + 1, 3);
    var q1 := Req3(4 * q + 3, 3);
    var q2 := Lib3(4 * q + 2, 3);
    NeedsNext(N4[2], k, 4 * q + 2, 4 * q + 2, 3);
  }

  /** Trains 2 and 3 between 251 and 25 hold R5. */
  lemma Second25(k: Track, q: nat)
    requires TrainOk(N4[1]) && Course(N4[1], k) && 8 * q + 3 <= k.rep.idx <= 8 * q + 6
    ensures Holds(N4[1], k, 4)
  {
    hide TrainOk, Course, StopMask, Count, ReqIdx, LibIdx, Holds;
    var q0 := Req2(3 * q + 2, 4);
    var q1 := Req2(3 * q + 3, 4);
    var q2 := LibSecond(4 * q + 3, 4);
    HoldsBeyond(N4[1], k, 3 * q + 2, 4 * q + 3, 4);
  }

  lemma Third25(k: Track, q: nat)
    requires TrainOk(N4[2]) && Course(N4[2], k) && 16 * q + 3 <= k.rep.idx <= 16 * q + 6
    ensures Holds(N4[2], k, 4)
  {
    hide TrainOk, Course, StopMask, Count, ReqIdx, LibIdx, Holds;
    var q0 := Req3(4 * q, 4);
    var q1 := Req3(4 * q + 1, 4);
    var q2 := Lib3(4 * q, 4);
    HoldsBeyond(N4[2], k, 4 * q, 4 * q, 4);
  }

  // ----- who can be in the way of whom -----

  lemma HeldOnce(N: Network, w: World, h: nat, u: nat, b: nat)
    requires Inv(N, w) && h < 3 && u < 3 && h != u && Holds(N[h], w.trk[h], b)
    ensures !Holds(N[u], w.trk[u], b)
  {
    assert ConservedBit(N, w, b);
  }

  lemma HeldOnWay(w: World, h: nat, b: nat, u: nat, j: nat, n: nat)
    requires Inv(N4, w) && LiveInv(N4, w) && HeldUpBy(N4, w, h, b, u, j, n)
    ensures Course(N4[h], w.trk[h]) && Course(N4[u], w.trk[u]) && OnWay(N4[h], Taken(w.trk[h]), b, j, n)
  {
    hide EntriesGuarded, ReleasesBacked, Triple, Apart, Conserved;
    CourseOf(N4, w, h);
    CourseOf(N4, w, u);
    assert TrainInv(N4, w, h);
    assert OnceEach(N4[h], w.trk[h], b);
  }

  /** Where an index of a path is that names this balise. */
  lemma Where(path: seq<int>, m: nat) returns (q: nat, y: nat)
    requires |path| > 0
    ensures y < |path| && m == q * |path| + y && Node(path, m) == path[y]
  {
    q := LapOf(m, |path|);
    y := Wrap(m, |path|);
  }

  lemma NodeIn(path: seq<int>, q: nat, x: nat)
    requires x < |path|
    ensures Node(path, q * |path| + x) == path[x]
  {
    InLap(q, |path|, x);
  }

  /** Cantons 8 and 9 are shared by trains 1 and 3 and follow each other on both paths. */
  lemma Shared8(q: nat, x: nat, m: nat) returns (p: nat)
    requires x == 6 || x == 7
    requires Node(PATH_1, 8 * q + x) == Node(PATH_3, m)
    ensures m == 16 * p + x + 8 && Along(N4[0], N4[2], 8 * q + x, m, 16 * p + 15)
  {
    hide Node;
    NodeIn(PATH_1, q, 6);
    NodeIn(PATH_1, q, 7);
    var y;
    p, y := Where(PATH_3, m);
    assert y == x + 8;
    NodeIn(PATH_3, p, 14);
    NodeIn(PATH_3, p, 15);
  }

  /** What is asked for at 9 and at 11. */
  lemma Asks(q: nat)
    ensures ReqIdx(N4[0], 2 * q + 1) == 8 * q + 7 && 0 in StopMask(N4[0].req, 2 * q + 1)
    ensures ReqIdx(N4[1], 3 * q + 2) == 8 * q + 2 && 3 in StopMask(N4[1].req, 3 * q + 2)
    ensures ReqIdx(N4[2], 4 * q + 2) == 16 * q + 10 && 3 in StopMask(N4[2].req, 4 * q + 2)
    ensures ReqIdx(N4[2], 4 * q + 3) == 16 * q + 15 && 0 in StopMask(N4[2].req, 4 * q + 3)
  {
    hide StopMask, ReqIdx;
    var q1 := Req1(2 * q + 1, 0);
    var q2 := Req2(3 * q + 2, 0);
    var q3 := Req3(4 * q + 2, 0);
    var q4 := Req3(4 * q + 3, 0);
  }

  /** A train in the way that asks for a bit next which the holder gives back beyond that request. */
  lemma CorneredHere(w: World, h: nat, u: nat, b: nat, c: nat, j: nat, j': nat, n: nat)
    requires Inv(N4, w) && LiveInv(N4, w) && HeldUpBy(N4, w, h, b, u, j', n)
    requires var k := w.trk[u];
             && !k.phase.Commanding? && c in StopMask(N4[u].req, k.req)
             && Along(N4[h], N4[u], n, k.rep.idx, ReqIdx(N4[u], k.req))
             && n + ReqIdx(N4[u], k.req) < LibIdx(N4[h], j) + k.rep.idx
             && Keeping(N4[h], w.trk[h], c, j)
    requires n + ReqIdx(N4[u], w.trk[u].req) < LibIdx(N4[h], j') + w.trk[u].rep.idx
    ensures Cornered(N4, w, h, u, c, j, n, w.trk[u].rep.idx) && Beyond(N4, w, h, u, n, w.trk[u].rep.idx, j')
  {
    CourseOf(N4, w, u);
  }

  /** The parts of the world that the cases look at. */
  lemma Facts(w: World, h: nat, u: nat, b: nat, j: nat, n: nat)
    requires Inv(N4, w) && LiveInv(N4, w) && HeldUpBy(N4, w, h, b, u, j, n)
    ensures NetworkOk(N4) && Shape(N4, w) && |w.trk| == 3 && TrainOk(N4[0]) && TrainOk(N4[1]) && TrainOk(N4[2])
    ensures Node(N4[h].path, n) == Node(N4[u].path, w.trk[u].rep.idx) && n < LibIdx(N4[h], j)
    ensures w.trk[h].rep.idx <= n && Keeping(N4[h], w.trk[h], b, j)
    ensures h < 3 && u < 3 && u != h && Holds(N4[h], w.trk[h], b) && w.trk[h].lib <= j
  {
    hide EntriesGuarded, ReleasesBacked, Triple, Apart, Conserved;
    RepBounds(N4, w, h);
  }

  lemma WayOf1(u: nat, q: nat, n: nat, m: nat)
    requires u == 1 || u == 2
    requires n == 8 * q + 1 || n == 8 * q + 2 || n == 8 * q + 6 || n == 8 * q + 7
    requires Node(N4[0].path, n) == Node(N4[u].path, m)
    ensures u == 2 && n >= 8 * q + 6
  {
    NodeIn(PATH_1, q, n - 8 * q);
    var p, y := Where(N4[u].path, m);
  }

  lemma Held1(w: World, b: nat, u: nat, j: nat, n: nat)
    requires Inv(N4, w) && LiveInv(N4, w) && HeldUpBy(N4, w, 0, b, u, j, n)
    ensures u == 2 && b == 0 && Cornered(N4, w, 0, 2, 0, j, n, w.trk[2].rep.idx)
    ensures Beyond(N4, w, 0, 2, n, w.trk[2].rep.idx, j)
  {
    hide Inv, LiveInv, NetworkOk, Shape, HeldUpBy, TrainOk, Course, OnWay, Node, Holds, Cornered, Beyond;
    Facts(w, 0, u, b, j, n);
    HeldOnWay(w, 0, b, u, j, n);
    var q := Way1(Taken(w.trk[0]), b, j, n);
    WayOf1(u, q, n, w.trk[u].rep.idx);
    Held1By3(w, q, j, n);
  }

  lemma Held1By3(w: World, q: nat, j: nat, n: nat)
    requires Inv(N4, w) && LiveInv(N4, w) && HeldUpBy(N4, w, 0, 0, 2, j, n)
    requires (n == 8 * q + 6 || n == 8 * q + 7) && LibIdx(N4[0], j) == 8 * q + 8
    requires Course(N4[2], w.trk[2]) && OnWay(N4[0], Taken(w.trk[0]), 0, j, n)
    ensures Cornered(N4, w, 0, 2, 0, j, n, w.trk[2].rep.idx) && Beyond(N4, w, 0, 2, n, w.trk[2].rep.idx, j)
  {
    hide Inv, LiveInv, NetworkOk, Shape, HeldUpBy, TrainOk, Course, OnWay, StopMask, Count, ReqIdx, LibIdx, Node, Along;
    hide Keeping, Cornered, Beyond, Ahead;
    Facts(w, 0, 2, 0, j, n);
    var p := Shared8(q, n - 8 * q, w.trk[2].rep.idx);
    Third8(w.trk[2], p);
    HeldOnce(N4, w, 0, 2, 0);
    Asks(p);
    CorneredHere(w, 0, 2, 0, 0, j, j, n);
  }

  lemma Shared8Back(q: nat, x: nat, m: nat) returns (p: nat)
    requires x == 14 || x == 15
    requires Node(PATH_3, 16 * q + x) == Node(PATH_1, m)
    ensures m == 8 * p + x - 8 && Along(N4[2], N4[0], 16 * q + x, m, 8 * p + 7)
  {
    NodeIn(PATH_3, q, 14);
    NodeIn(PATH_3, q, 15);
    var y;
    p, y := Where(PATH_1, m);
    NodeIn(PATH_1, p, 6);
    NodeIn(PATH_1, p, 7);
    hide Node;
    assert y == x - 8;
  }

  lemma Shared11(q: nat, m: nat) returns (p: nat)
    requires Node(PATH_2, 8 * q + 2) == Node(PATH_3, m)
    ensures m == 16 * p + 10 && Along(N4[1], N4[2], 8 * q + 2, m, 16 * p + 10)
  {
    NodeIn(PATH_2, q, 2);
    var y;
    p, y := Where(PATH_3, m);
  }

  lemma Shared11Back(q: nat, m: nat) returns (p: nat)
    requires Node(PATH_3, 16 * q + 10) == Node(PATH_2, m)
    ensures m == 8 * p + 2 && Along(N4[2], N4[1], 16 * q + 10, m, 8 * p + 2)
  {
    NodeIn(PATH_3, q, 10);
    var y;
    p, y := Where(PATH_2, m);
  }

  lemma WayOf2(u: nat, q: nat, x: nat, m: nat) returns (p: nat)
    requires (u == 0 || u == 2) && x < 8 && Node(N4[1].path, 8 * q + x) == Node(N4[u].path, m)
    ensures u == 2 && 2 <= x <= 6
    ensures x >= 3 ==> 16 * p + 3 <= m <= 16 * p + 6
  {
    NodeIn(PATH_2, q, x);
    var y;
    p, y := Where(N4[u].path, m);
    hide Node;
    SameBalise2(u, x, y);
  }

  lemma SameBalise2(u: nat, x: nat, y: nat)
    requires (u == 0 || u == 2) && x < 8 && y < if u == 0 then 8 else 16
    requires PATH_2[x] == (if u == 0 then PATH_1 else PATH_3)[y]
    ensures u == 2 && ((x == 2 && y == 10) || (3 <= x <= 6 && 3 <= y <= 6))
  {
  }

  lemma Held2(w: World, b: nat, u: nat, j: nat, n: nat) returns (j': nat)
    requires Inv(N4, w) && LiveInv(N4, w) && HeldUpBy(N4, w, 1, b, u, j, n)
    ensures u == 2 && (b == 3 || b == 4)
    ensures Cornered(N4, w, 1, 2, 3, j', n, w.trk[2].rep.idx) && Beyond(N4, w, 1, 2, n, w.trk[2].rep.idx, j)
  {
    hide Inv, LiveInv, NetworkOk, Shape, HeldUpBy, TrainOk, Course, OnWay, Node, Holds, Cornered, Beyond;
    Facts(w, 1, u, b, j, n);
    HeldOnWay(w, 1, b, u, j, n);
    var q := Way2(Taken(w.trk[1]), b, j, n);
    var lap := if n < 8 * q then q - 1 else q;
    var p := WayOf2(u, lap, n - 8 * lap, w.trk[u].rep.idx);
    if n >= 8 * q + 3 {
      Third25(w.trk[2], p);
      HeldOnce(N4, w, 1, 2, 4);
      assert false;
    }
    j' := 4 * q + 2;
    Held2By3(w, q, b, j);
  }

  /** Train 2 up to canton 11 with its third grant of a lap keeps R4. */
  lemma KeepsR4(k: Track, q: nat)
    requires TrainOk(N4[1]) && Course(N4[1], k) && k.rep.idx <= 8 * q + 2 && Taken(k) == 3 * q + 3
    ensures Keeping(N4[1], k, 3, 4 * q + 2) && LibIdx(N4[1], 4 * q + 2) == 8 * q + 3
  {
    hide StopMask, Count, ReqIdx, LibIdx, TrainOk;
    var q0 := Req2(3 * q + 3, 3);
    var q1 := LibSecond(4 * q + 2, 3);
    if k.lib > 4 * q + 2 {
      TrainStops(N4[1]);
      StopMono(PATH_2, Lib2(4), 4 * q + 2, k.lib - 1);
      LibAt(N4[1], 4 * q + 2);
      LibAt(N4[1], k.lib - 1);
    }
  }

  lemma TrainStops(T: Train)
    requires TrainOk(T)
    ensures StopsOk(T.path, T.req) && StopsOk(T.path, T.lib)
  {
  }

  lemma LibAt(T: Train, j: nat)
    requires TrainOk(T)
    ensures LibIdx(T, j) == StopIdx(T.lib, |T.path|, j)
  {
  }

  lemma Held2By3(w: World, q: nat, b: nat, j: nat)
    requires Inv(N4, w) && LiveInv(N4, w) && HeldUpBy(N4, w, 1, b, 2, j, 8 * q + 2)
    requires Course(N4[1], w.trk[1]) && Course(N4[2], w.trk[2]) && Taken(w.trk[1]) == 3 * q + 3
    requires OnWay(N4[1], Taken(w.trk[1]), b, j, 8 * q + 2)
    ensures Cornered(N4, w, 1, 2, 3, 4 * q + 2, 8 * q + 2, w.trk[2].rep.idx)
    ensures Beyond(N4, w, 1, 2, 8 * q + 2, w.trk[2].rep.idx, j)
  {
    hide Inv, LiveInv, NetworkOk, Shape, HeldUpBy, TrainOk, Course, OnWay, StopMask, Count, ReqIdx, LibIdx, Node, Along;
    hide Keeping, Cornered, Beyond, Ahead;
    Facts(w, 1, 2, b, j, 8 * q + 2);
    KeepsR4(w.trk[1], q);
    KeepingHolds(N4[1], w.trk[1], 3, 4 * q + 2);
    var p := Shared11(q, w.trk[2].rep.idx);
    Third11(w.trk[2], p);
    HeldOnce(N4, w, 1, 2, 3);
    Asks(p);
    CorneredHere(w, 1, 2, b, 3, 4 * q + 2, j, 8 * q + 2);
  }

  lemma WayOf3(u: nat, q: nat, x: nat, m: nat) returns (p: nat)
    requires (u == 0 || u == 1) && x < 16 && x in {1, 2, 3, 4, 5, 6, 8, 9, 10, 14, 15}
    requires Node(N4[2].path, 16 * q + x) == Node(N4[u].path, m)
    ensures 3 <= x <= 6 || (x == 10 && u == 1) || (x >= 14 && u == 0)
    ensures 3 <= x <= 6 ==> u == 1 && 8 * p + 3 <= m <= 8 * p + 6
  {
    NodeIn(PATH_3, q, x);
    var y;
    p, y := Where(N4[u].path, m);
    hide Node;
    SameBalise3(u, x, y);
  }

  lemma SameBalise3(u: nat, x: nat, y: nat)
    requires u < 2 && x < 16 && y < 8 && x in {1, 2, 3, 4, 5, 6, 8, 9, 10, 14, 15}
    requires PATH_3[x] == (if u == 0 then PATH_1 else PATH_2)[y]
    ensures (3 <= x <= 6 && u == 1 && 3 <= y <= 6) || (x == 10 && u == 1) || (x >= 14 && u == 0)
  {
  }

  lemma Held3(w: World, b: nat, u: nat, j: nat, n: nat) returns (c: nat)
    requires Inv(N4, w) && LiveInv(N4, w) && HeldUpBy(N4, w, 2, b, u, j, n)
    ensures (u == 0 && b <= 1) || (u == 1 && b == 3)
    ensures Cornered(N4, w, 2, u, c, j, n, w.trk[u].rep.idx) && Beyond(N4, w, 2, u, n, w.trk[u].rep.idx, j)
  {
    hide Inv, LiveInv, NetworkOk, Shape, HeldUpBy, TrainOk, Course, OnWay, Node, Holds, Cornered, Beyond;
    Facts(w, 2, u, b, j, n);
    HeldOnWay(w, 2, b, u, j, n);
    var q := Way3(Taken(w.trk[2]), b, j, n);
    var p := WayOf3(u, q, n - 16 * q, w.trk[u].rep.idx);
    if n <= 16 * q + 6 {
      Second25(w.trk[1], p);
      HeldOnce(N4, w, 2, 1, 4);
      assert false;
    }
    if n == 16 * q + 10 {
      c := 3;
      Held3By2(w, q, j);
    } else {
      c := 0;
      Held3By1(w, q, b, j, n);
    }
  }

  lemma Held3By2(w: World, q: nat, j: nat)
    requires Inv(N4, w) && LiveInv(N4, w) && HeldUpBy(N4, w, 2, 3, 1, j, 16 * q + 10)
    requires Course(N4[1], w.trk[1]) && j == 4 * q + 2
    ensures Cornered(N4, w, 2, 1, 3, j, 16 * q + 10, w.trk[1].rep.idx)
    ensures Beyond(N4, w, 2, 1, 16 * q + 10, w.trk[1].rep.idx, j)
  {
    hide Inv, LiveInv, NetworkOk, Shape, HeldUpBy, TrainOk, Course, OnWay, StopMask, Count, ReqIdx, LibIdx, Node, Along;
    hide Keeping, Cornered, Beyond, Ahead;
    Facts(w, 2, 1, 3, j, 16 * q + 10);
    KeepingHolds(N4[2], w.trk[2], 3, j);
    var p := Shared11Back(q, w.trk[1].rep.idx);
    Second11(w.trk[1], p);
    HeldOnce(N4, w, 2, 1, 3);
    Asks(p);
    CorneredHere(w, 2, 1, 3, 3, j, j, 16 * q + 10);
  }

  /** Train 3 with its last grant of a lap keeps R1 with R2. */
  lemma KeepsR1(k: Track, q: nat)
    requires TrainOk(N4[2]) && k.lib <= 4 * q + 3 && Taken(k) == 4 * q + 4
    ensures Keeping(N4[2], k, 0, 4 * q + 3) && LibIdx(N4[2], 4 * q + 3) == 16 * q + 16
  {
    hide StopMask, Count, ReqIdx, LibIdx, TrainOk;
    var q0 := Req3(4 * q + 4, 0);
    var q1 := Lib3(4 * q + 3, 0);
  }

  lemma Held3By1(w: World, q: nat, b: nat, j: nat, n: nat)
    requires Inv(N4, w) && LiveInv(N4, w) && HeldUpBy(N4, w, 2, b, 0, j, n)
    requires Course(N4[0], w.trk[0]) && j == 4 * q + 3 && Taken(w.trk[2]) == 4 * q + 4
    requires n == 16 * q + 14 || n == 16 * q + 15
    ensures Cornered(N4, w, 2, 0, 0, j, n, w.trk[0].rep.idx) && Beyond(N4, w, 2, 0, n, w.trk[0].rep.idx, j)
  {
    hide Inv, LiveInv, NetworkOk, Shape, HeldUpBy, TrainOk, Course, OnWay, StopMask, Count, ReqIdx, LibIdx, Node, Along;
    hide Keeping, Cornered, Beyond, Ahead;
    Facts(w, 2, 0, b, j, n);
    KeepsR1(w.trk[2], q);
    KeepingHolds(N4[2], w.trk[2], 0, j);
    var p := Shared8Back(q, n - 16 * q, w.trk[0].rep.idx);
    First8(w.trk[0], p);
    HeldOnce(N4, w, 2, 0, 0);
    Asks(p);
    CorneredHere(w, 2, 0, b, 0, j, j, n);
  }

  /** Who can hold up whom, and for which resource. */
  predicate Pair(h: nat, u: nat, b: nat) {
    (h == 0 && u == 2 && b == 0) || (h == 2 && u == 0 && b <= 1) || (h == 1 && u == 2 && (b == 3 || b == 4))
    || (h == 2 && u == 1 && b == 3)
  }

  /** Whoever stands in the way of a holder needs something that the holder has, and cannot move on without it. */
  lemma HeldUpCorners(w: World, h: nat, b: nat, u: nat, j: nat, n: nat) returns (c: nat, j': nat)
    requires Inv(N4, w) && LiveInv(N4, w) && HeldUpBy(N4, w, h, b, u, j, n)
    ensures Pair(h, u, b)
    ensures Cornered(N4, w, h, u, c, j', n, w.trk[u].rep.idx) && Beyond(N4, w, h, u, n, w.trk[u].rep.idx, j)
    ensures Keeping(N4[h], w.trk[h], b, j)
  {
    Facts(w, h, u, b, j, n);
    hide Inv, LiveInv, NetworkOk, Shape, Cornered, Beyond, Keeping;
    if h == 0 {
      Held1(w, b, u, j, n);
      c, j' := 0, j;
    } else if h == 1 {
      c := 3;
      j' := Held2(w, b, u, j, n);
    } else {
      j' := j;
      c := Held3(w, b, u, j, n);
    }
  }
}
