/** A run of the repository's tables as coded in which train 2 comes to wait for itself. */
module SelfBlockRun {
  import opened Cyclic
  import opened Tables
  import opened Interlocking
  import opened Deadlock
  import opened LivePaths
  import opened Manoeuvres
  import opened AsCoded
  import opened ShippedTables
  import opened ShippedMoves
  import C = Control

  /** Trains 1 and 3 have not moved. */
  function Alone(k: Track): (ks: seq<Track>)
    ensures |ks| == 3
  {
    Trains(k, STANDING)
  }

  lemma RequestFacts()
    ensures var T := Shipped(3)[1]; ReqIdx(T, 3) == 8 && ReqIdx(T, 4) == 9 && ReqIdx(T, 5) == 10 && LibIdx(T, 3) == 9
    ensures StopMask(REQ_2, 3) == {1} && StopMask(REQ_2, 4) == {2} && StopMask(Lib2(3), 3) == {1}
    ensures Node(PATH_2, 7) == 20 && Node(PATH_2, 8) == 21 && Node(PATH_2, 9) == 17 && Node(PATH_2, 10) == 11
  {
    assert StopIdx(REQ_2, 8, 0) == 0 && StopIdx(REQ_2, 8, 1) == 1 && StopIdx(REQ_2, 8, 2) == 2;
  }

  /** Train 2 stands at the balise of its next request or at the one before it. */
  lemma Grant(at: nat, auth: nat, req: nat, lib: nat, i: nat, R: set<nat>, mask: set<nat>, next: nat)
    requires NetworkOk(Shipped(3)) && C.TablesOk(Shipped(3))
             && There(Shipped(3), Alone(Standing(at, auth, req, lib)), R)
    requires i < 8 && Node(PATH_2, ReqIdx(Shipped(3)[1], req)) == PATH_2[i]
    requires Node(PATH_2, at) == PATH_2[i] || Node(PATH_2, at) == PATH_2[Prev(i, 8)]
    requires R !! mask && mask == StopMask(REQ_2, req) && next == ReqIdx(Shipped(3)[1], req + 1)
    requires at < next < at + 8 && auth < next
    ensures There(Shipped(3), Alone(Standing(at, next, req + 1, lib)), R + mask)
  {
    hide NetworkOk, C.TablesOk, There, ReqIdx, Node, StopMask, Clear2, AtRequest;
    var ks, ks' := Alone(Standing(at, auth, req, lib)), Alone(Standing(at, next, req + 1, lib));
    MayAsk(Shipped(3)[1], ks[1], i);
    Requests3(3);
    ClearOfSecond(3, ks');
    Granted(3, 1, ks, R, mask, next, ks');
  }

  lemma Go(at: nat, auth: nat, req: nat, lib: nat, to: nat, R: set<nat>, frees: bool, R': set<nat>)
    requires NetworkOk(Shipped(3)) && C.TablesOk(Shipped(3))
             && There(Shipped(3), Alone(Standing(at, auth, req, lib)), R)
    requires at <= to <= auth && to <= LibIdx(Shipped(3)[1], lib) && (frees <==> to == LibIdx(Shipped(3)[1], lib))
    requires R' == if frees then R - StopMask(Lib2(3), lib) else R
    ensures There(Shipped(3), Alone(Standing(to, auth, req, if frees then lib + 1 else lib)), R')
  {
    hide NetworkOk, C.TablesOk, There, LibIdx, StopMask;
    Move(Shipped(3), Alone(Standing(at, auth, req, lib)), R, 1, to, R',
         Alone(Standing(to, auth, req, if frees then lib + 1 else lib)));
  }

  lemma FirstGrants()
    requires NetworkOk(Shipped(3)) && C.TablesOk(Shipped(3))
    ensures There(Shipped(3), Alone(Standing(1, 8, 3, 1)), {2, 3, 4})
  {
    hide NetworkOk, C.TablesOk, There, StopMask, ReqIdx, LibIdx, Node, Standing;
    StartThere(Shipped(3));
    assert Standing(0, 0, 0, 0) == STANDING by {
      StartsStanding();
    }
    Requests2(3);
    RequestFacts();
    assert {} + {1} == {1} && {1} + {2} == {1, 2} && {1, 2} - {1} == {2} && {2} + {3, 4} == {2, 3, 4};
    Grant(0, 0, 0, 0, 0, {}, {1}, 1);
    Grant(0, 1, 1, 0, 1, {1}, {2}, 2);
    Go(0, 2, 2, 0, 1, {1, 2}, true, {2});
    Grant(1, 2, 2, 1, 2, {2}, {3, 4}, 8);
  }

  lemma StartsStanding()
    ensures Standing(0, 0, 0, 0) == STANDING
  {
  }

  lemma FirstLap()
    requires NetworkOk(Shipped(3)) && C.TablesOk(Shipped(3))
    ensures There(Shipped(3), Alone(Standing(7, 8, 3, 3)), {4})
  {
    hide NetworkOk, C.TablesOk, There, StopMask, ReqIdx, LibIdx, Node, Standing;
    FirstGrants();
    Requests2(3);
    RequestFacts();
    assert {2, 3, 4} - {2} == {3, 4} && {3, 4} - {3} == {4};
    Go(1, 8, 3, 1, 2, {2, 3, 4}, true, {3, 4});
    Go(2, 8, 3, 2, 3, {3, 4}, true, {4});
    Go(3, 8, 3, 3, 7, {4}, false, {4});
  }

  lemma SecondLap()
    requires NetworkOk(Shipped(3)) && C.TablesOk(Shipped(3))
    ensures There(Shipped(3), Alone(Standing(9, 10, 5, 4)), {2, 4})
  {
    hide NetworkOk, C.TablesOk, There, StopMask, ReqIdx, LibIdx, Node, Standing;
    FirstLap();
    Requests2(3);
    RequestFacts();
    assert {4} + {1} == {1, 4} && {1, 4} + {2} == {1, 2, 4} && {1, 2, 4} - {1} == {2, 4};
    Grant(7, 8, 3, 3, 0, {4}, {1}, 9);
    Go(7, 9, 4, 3, 8, {1, 4}, false, {1, 4});
    Grant(8, 9, 4, 3, 1, {1, 4}, {2}, 10);
    Go(8, 10, 5, 3, 9, {1, 2, 4}, true, {2, 4});
  }

  const STUCK := Track(Pos(9, 0.0), Pos(9, 0.0), Pos(10, 0.0), 5, 4, Waiting)

  lemma SixthRequest()
    requires NetworkOk(Shipped(3)) && C.TablesOk(Shipped(3))
    ensures There(Shipped(3), Alone(STUCK), {2, 4})
  {
    hide NetworkOk, C.TablesOk, There, ReqIdx, Node, AtRequest;
    SecondLap();
    RequestFacts();
    var k := Standing(9, 10, 5, 4);
    MayAsk(Shipped(3)[1], k, 2);
    Ask(Shipped(3), Alone(k), {2, 4}, 1);
    assert Alone(k)[1 := STUCK] == Alone(STUCK);
  }

  /** The self-block is reached: there is a run in which no release balise is skipped and train 2 ends up waiting at
      its sixth request, blocked by itself. */
  lemma SelfBlockReached() returns (ws: seq<World>, es: seq<Event>)
    ensures NetworkOk(Shipped(3)) && LiveRun(Shipped(3), ws, es) && Shape(Shipped(3), ws[|es|])
    ensures ws[|es|].trk[1].req == 5 && Waits(ws[|es|], 1) && Blocked(Shipped(3), ws[|es|], 1, 1)
  {
    hide NetworkOk, C.TablesOk, There, Blocked, Shape, Inv;
    Usable(3);
    SixthRequest();
    var v := WorldThere(Shipped(3), Alone(STUCK), {2, 4});
    ws, es := StartRun(Shipped(3), v);
    SelfBlockedIff(ws, es, |es|);
  }
}
