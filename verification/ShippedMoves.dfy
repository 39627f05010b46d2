/** Building runs on the repository's tables, as coded (w = 3) or mended (w = 4), while train 1 does not move. */
module ShippedMoves {
  import opened Tables
  import opened Interlocking
  import opened Manoeuvres
  import opened ShippedTables
  import opened ShippedCoherent
  import C = Control

  /** A train reported on balise `at` with authority up to balise auth. */
  function Standing(at: nat, auth: nat, req: nat, lib: nat): Track {
    Track(Pos(at, 0.0), Pos(at, 0.0), Pos(auth, 0.0), req, lib, Idle)
  }

  /** Train 1 has not moved. */
  function Trains(second: Track, third: Track): (ks: seq<Track>)
    ensures |ks| == 3
  {
    [STANDING, second, third]
  }

  lemma Requests2(w: nat)
    requires w == 3 || w == 4
    ensures var T := Shipped(w)[1];
            ReqIdx(T, 0) == 0 && ReqIdx(T, 1) == 1 && ReqIdx(T, 2) == 2 && LibIdx(T, 0) == 1 && LibIdx(T, 1) == 2
                && LibIdx(T, 2) == 3
    ensures StopMask(REQ_2, 0) == {1} && StopMask(REQ_2, 1) == {2} && StopMask(REQ_2, 2) == {3, 4}
    ensures StopMask(Lib2(w), 0) == {1} && StopMask(Lib2(w), 1) == {2} && StopMask(Lib2(w), 2) == {3}
    ensures Node(PATH_2, 0) == 21 && Node(PATH_2, 1) == 17 && Node(PATH_2, 2) == 11
  {
  }

  lemma Requests3(w: nat)
    ensures var T := Shipped(w)[2];
            ReqIdx(T, 0) == 2 && ReqIdx(T, 1) == 9 && ReqIdx(T, 2) == 10 && LibIdx(T, 0) == 7 && LibIdx(T, 1) == 10
            && LibIdx(T, 2) == 11
    ensures StopMask(REQ_3, 0) == {4} && StopMask(REQ_3, 1) == {2} && StopMask(REQ_3, 2) == {3}
    ensures StopMask(LIB_3, 0) == {4}
    ensures Node(PATH_3, 1) == 23 && Node(PATH_3, 2) == 24 && Node(PATH_3, 8) == 28 && Node(PATH_3, 9) == 29
            && Node(PATH_3, 10) == 11
    ensures Node(PATH_1, 0) == 1 && Node(PATH_3, 0) == 22
  {
  }

  lemma Usable(w: nat)
    requires w == 3 || w == 4
    ensures NetworkOk(Shipped(w)) && C.TablesOk(Shipped(w))
  {
    ShippedOk(w);
    UsableNetwork(Shipped(w));
  }

  /** Balises 1 and 21 are not on the path of train 3, and 1, 22 and 28 not on that of train 2. */
  lemma ClearOfThird(w: nat, ks: seq<Track>)
    requires (w == 3 || w == 4) && NetworkOk(Shipped(w)) && |ks| == 3 && ks[0] == STANDING && ks[1].rep.off == 0.0
    requires var n := Node(PATH_2, ks[1].rep.idx); n == 21 || n == Node(PATH_3, ReqIdx(Shipped(w)[2], ks[2].req))
    ensures Clear2(Shipped(w), ks, 2, 0) && Clear2(Shipped(w), ks, 2, 1)
  {
    hide NetworkOk, Node, ReqIdx;
    Requests3(w);
    assert 1 !in PATH_3 && 21 !in PATH_3;
  }

  lemma ClearOfSecond(w: nat, ks: seq<Track>)
    requires (w == 3 || w == 4) && NetworkOk(Shipped(w)) && |ks| == 3 && ks[0] == STANDING && ks[2].rep.off == 0.0
    requires Node(PATH_3, ks[2].rep.idx) in {22, 28}
    ensures Clear2(Shipped(w), ks, 1, 0) && Clear2(Shipped(w), ks, 1, 2)
  {
    hide NetworkOk, Node, ReqIdx;
    Requests3(w);
    assert 1 !in PATH_2 && 22 !in PATH_2 && 28 !in PATH_2;
  }

  /** Train 2 or 3 is granted what it asks for, and its authority goes up to its next request. */
  lemma Granted(w: nat, t: nat, ks: seq<Track>, R: set<nat>, mask: set<nat>, stop: nat, ks': seq<Track>)
    requires (w == 3 || w == 4) && NetworkOk(Shipped(w)) && C.TablesOk(Shipped(w)) && (t == 1 || t == 2) && |ks| == 3
    requires There(Shipped(w), ks, R) && AtRequest(Shipped(w)[t], ks[t]) && R !! mask
    requires mask == StopMask(Shipped(w)[t].req, ks[t].req) && stop == ReqIdx(Shipped(w)[t], ks[t].req + 1)
    requires ks[t].rep.idx < stop < ks[t].rep.idx + |Shipped(w)[t].path| && ks[t].auth.idx < stop
    requires ks' == ks[t := ks[t].(req := ks[t].req + 1, auth := Pos(stop, 0.0), phase := Idle)]
    requires Clear2(Shipped(w), ks', t, 0) && Clear2(Shipped(w), ks', t, 3 - t)
    ensures There(Shipped(w), ks', R + mask)
  {
    hide NetworkOk, C.TablesOk, There, StopMask, ReqIdx, Clear2, AtRequest;
    var N := Shipped(w);
    var x := ks[t := ks[t].(phase := Commanding(0))];
    AskTake(N, ks, R, t);
    assert x[t := x[t].(req := x[t].req + 1, auth := Pos(stop, 0.0), phase := Idle)] == ks';
    CompleteAnswer(N, x, R + mask, t, ks');
  }
}
