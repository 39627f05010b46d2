/** A run of the repository's tables, as coded or mended, in which trains 2 and 3 come to wait for ever. */
module JamRun {
  import opened Tables
  import opened Interlocking
  import opened Deadlock
  import opened Standstill
  import opened LivePaths
  import opened Manoeuvres
  import opened ShippedTables
  import opened ShippedCoherent
  import opened ShippedMoves
  import C = Control

  lemma FirstAnswer(w: nat)
    requires (w == 3 || w == 4) && NetworkOk(Shipped(w)) && C.TablesOk(Shipped(w))
    ensures There(Shipped(w), Trains(STANDING, STANDING.(phase := Answering)), {})
  {
    hide NetworkOk, C.TablesOk, There, ReqIdx, Node;
    Requests3(w);
    StartThere(Shipped(w));
    NotNear24();
    var ks := Trains(STANDING, STANDING);
    AskAway(Shipped(w), ks, {}, 2);
    assert ks[2 := STANDING.(phase := Answering)] == Trains(STANDING, STANDING.(phase := Answering));
  }

  lemma NotNear24()
    ensures !C.NearStop(PATH_3, 22, 24)
  {
  }

  lemma FirstAuthority(w: nat)
    requires (w == 3 || w == 4) && NetworkOk(Shipped(w)) && C.TablesOk(Shipped(w))
    ensures There(Shipped(w), Trains(STANDING, Standing(0, 2, 0, 0)), {})
  {
    hide NetworkOk, C.TablesOk, There, ReqIdx, Node, Clear2;
    FirstAnswer(w);
    Requests2(w);
    Requests3(w);
    var ks := Trains(STANDING, STANDING.(phase := Answering));
    ClearOfThird(w, ks);
    Answer(Shipped(w), ks, {}, 2);
    assert ks[2 := Standing(0, 2, 0, 0)] == Trains(STANDING, Standing(0, 2, 0, 0));
  }

  lemma ThirdAt23(w: nat)
    requires (w == 3 || w == 4) && NetworkOk(Shipped(w)) && C.TablesOk(Shipped(w))
    ensures There(Shipped(w), Trains(STANDING, Standing(1, 2, 0, 0)), {})
  {
    hide NetworkOk, C.TablesOk, There, ReqIdx, LibIdx, Node;
    FirstAuthority(w);
    Requests3(w);
    Move(Shipped(w), Trains(STANDING, Standing(0, 2, 0, 0)), {}, 2, 1, {},
         Trains(STANDING, Standing(1, 2, 0, 0)));
  }

  lemma ThirdTakesR5(w: nat)
    requires (w == 3 || w == 4) && NetworkOk(Shipped(w)) && C.TablesOk(Shipped(w))
    ensures There(Shipped(w), Trains(STANDING, Standing(1, 9, 1, 0)), {4})
  {
    hide NetworkOk, C.TablesOk, There, ReqIdx, Node, StopMask, Clear2, AtRequest;
    ThirdAt23(w);
    Requests2(w);
    Requests3(w);
    var ks, ks' := Trains(STANDING, Standing(1, 2, 0, 0)), Trains(STANDING, Standing(1, 9, 1, 0));
    MayAsk(Shipped(w)[2], ks[2], 2);
    ClearOfThird(w, ks');
    Granted(w, 2, ks, {}, {4}, 9, ks');
    assert {} + {4} == {4};
  }

  lemma ThirdAt28(w: nat)
    requires (w == 3 || w == 4) && NetworkOk(Shipped(w)) && C.TablesOk(Shipped(w))
    ensures There(Shipped(w), Trains(STANDING, Standing(8, 9, 1, 1)), {})
  {
    hide NetworkOk, C.TablesOk, There, ReqIdx, LibIdx, Node, StopMask;
    ThirdTakesR5(w);
    Requests3(w);
    assert {4} - {4} == {};
    Move(Shipped(w), Trains(STANDING, Standing(1, 9, 1, 0)), {4}, 2, 7, {}, Trains(STANDING, Standing(7, 9, 1, 1)));
    Move(Shipped(w), Trains(STANDING, Standing(7, 9, 1, 1)), {}, 2, 8, {}, Trains(STANDING, Standing(8, 9, 1, 1)));
  }

  lemma SecondTakesR2(w: nat)
    requires (w == 3 || w == 4) && NetworkOk(Shipped(w)) && C.TablesOk(Shipped(w))
    ensures There(Shipped(w), Trains(Standing(0, 1, 1, 0), Standing(8, 9, 1, 1)), {1})
  {
    hide NetworkOk, C.TablesOk, There, ReqIdx, Node, StopMask, Clear2, AtRequest;
    ThirdAt28(w);
    Requests2(w);
    Requests3(w);
    var ks, ks' := Trains(STANDING, Standing(8, 9, 1, 1)), Trains(Standing(0, 1, 1, 0), Standing(8, 9, 1, 1));
    MayAsk(Shipped(w)[1], ks[1], 0);
    ClearOfSecond(w, ks');
    Granted(w, 1, ks, {}, {1}, 1, ks');
    assert {} + {1} == {1};
  }

  lemma SecondTakesR3(w: nat)
    requires (w == 3 || w == 4) && NetworkOk(Shipped(w)) && C.TablesOk(Shipped(w))
    ensures There(Shipped(w), Trains(Standing(0, 2, 2, 0), Standing(8, 9, 1, 1)), {1, 2})
  {
    hide NetworkOk, C.TablesOk, There, ReqIdx, Node, StopMask, Clear2, AtRequest;
    SecondTakesR2(w);
    Requests2(w);
    Requests3(w);
    var ks := Trains(Standing(0, 1, 1, 0), Standing(8, 9, 1, 1));
    var ks' := Trains(Standing(0, 2, 2, 0), Standing(8, 9, 1, 1));
    MayAsk(Shipped(w)[1], ks[1], 1);
    ClearOfSecond(w, ks');
    Granted(w, 1, ks, {1}, {2}, 2, ks');
    assert {1} + {2} == {1, 2};
  }

  lemma SecondAt11(w: nat)
    requires (w == 3 || w == 4) && NetworkOk(Shipped(w)) && C.TablesOk(Shipped(w))
    ensures There(Shipped(w), Trains(Standing(2, 2, 2, 2), Standing(8, 9, 1, 1)), {})
  {
    hide NetworkOk, C.TablesOk, There, ReqIdx, LibIdx, Node, StopMask;
    SecondTakesR3(w);
    Requests2(w);
    assert {1, 2} - {1} == {2} && {2} - {2} == {};
    Move(Shipped(w), Trains(Standing(0, 2, 2, 0), Standing(8, 9, 1, 1)), {1, 2}, 1, 1, {2},
         Trains(Standing(1, 2, 2, 1), Standing(8, 9, 1, 1)));
    Move(Shipped(w), Trains(Standing(1, 2, 2, 1), Standing(8, 9, 1, 1)), {2}, 1, 2, {},
         Trains(Standing(2, 2, 2, 2), Standing(8, 9, 1, 1)));
  }

  lemma ThirdTakesR3(w: nat)
    requires (w == 3 || w == 4) && NetworkOk(Shipped(w)) && C.TablesOk(Shipped(w))
    ensures There(Shipped(w), Trains(Standing(2, 2, 2, 2), Standing(8, 10, 2, 1)), {2})
  {
    hide NetworkOk, C.TablesOk, There, ReqIdx, Node, StopMask, Clear2, AtRequest;
    SecondAt11(w);
    Requests2(w);
    Requests3(w);
    var ks := Trains(Standing(2, 2, 2, 2), Standing(8, 9, 1, 1));
    var ks' := Trains(Standing(2, 2, 2, 2), Standing(8, 10, 2, 1));
    MayAsk(Shipped(w)[2], ks[2], 9);
    ClearOfThird(w, ks');
    Granted(w, 2, ks, {}, {2}, 10, ks');
    assert {} + {2} == {2};
  }

  const WAITING2 := Standing(2, 2, 2, 2).(phase := Waiting)
  const GRANTED3 := Standing(9, 10, 2, 1).(phase := Commanding(0))

  lemma ThirdTakesR4(w: nat)
    requires (w == 3 || w == 4) && NetworkOk(Shipped(w)) && C.TablesOk(Shipped(w))
    ensures There(Shipped(w), Trains(WAITING2, GRANTED3), {2, 3})
  {
    hide NetworkOk, C.TablesOk, There, ReqIdx, LibIdx, Node, StopMask, AtRequest;
    ThirdTakesR3(w);
    Requests2(w);
    Requests3(w);
    var k := Standing(2, 2, 2, 2);
    Move(Shipped(w), Trains(k, Standing(8, 10, 2, 1)), {2}, 2, 9, {2}, Trains(k, Standing(9, 10, 2, 1)));
    var ks := Trains(k, Standing(9, 10, 2, 1));
    MayAsk(Shipped(w)[2], ks[2], 10);
    AskTake(Shipped(w), ks, {2}, 2);
    assert {2} + {3} == {2, 3} && ks[2 := GRANTED3] == Trains(k, GRANTED3);
    MayAsk(Shipped(w)[1], k, 2);
    Ask(Shipped(w), Trains(k, GRANTED3), {2, 3}, 1);
    assert Trains(k, GRANTED3)[1 := WAITING2] == Trains(WAITING2, GRANTED3);
  }

  lemma KeepsR4There(w: nat)
    requires w == 3 || w == 4
    ensures Keeping(Shipped(w)[2], GRANTED3, 3, 2)
  {
    hide Count;
    Lap3(3);
  }

  lemma AlongAt11(w: nat)
    requires w == 3 || w == 4
    ensures Along(Shipped(w)[2], Shipped(w)[1], 10, 2, 2)
  {
    Requests2(w);
    Requests3(w);
  }

  /** Train 2 waits at 11 for R4 and R5, train 3 has just been granted R4 behind it. */
  lemma CorneredThere(w: nat, v: World)
    requires (w == 3 || w == 4) && NetworkOk(Shipped(w)) && Shape(Shipped(w), v)
    requires v.trk == Trains(WAITING2, GRANTED3)
    ensures Cornered(Shipped(w), v, 2, 1, 3, 2, 10, 2) && Waits(v, 1)
  {
    hide NetworkOk, Shape, ReqIdx, LibIdx, Node, StopMask, Count, Along, Keeping;
    Requests2(w);
    Requests3(w);
    AlongAt11(w);
    KeepsR4There(w);
  }

  /** A run in which every release is reported leads there, with the tables as coded and with the mended ones. */
  lemma JamReached(w: nat) returns (ws: seq<World>, es: seq<Event>)
    requires w == 3 || w == 4
    ensures NetworkOk(Shipped(w)) && LiveRun(Shipped(w), ws, es) && Shape(Shipped(w), ws[|es|])
    ensures Waits(ws[|es|], 1) && Cornered(Shipped(w), ws[|es|], 2, 1, 3, 2, 10, 2)
  {
    hide NetworkOk, C.TablesOk, Cornered, Waits, There, Shape, Inv;
    Usable(w);
    ThirdTakesR4(w);
    var v := WorldThere(Shipped(w), Trains(WAITING2, GRANTED3), {2, 3});
    CorneredThere(w, v);
    ws, es := StartRun(Shipped(w), v);
  }

  /** And there they stand for ever: train 2 is never granted R4 and R5, train 3 never authorised past canton 11. */
  lemma StandForEver(w: nat, ws: seq<World>, es: seq<Event>, i: nat, k: nat)
    requires (w == 3 || w == 4) && NetworkOk(Shipped(w)) && Run(Shipped(w), ws, es) && i <= k < |ws|
    requires Shape(Shipped(w), ws[i]) && Cornered(Shipped(w), ws[i], 2, 1, 3, 2, 10, 2)
    ensures Shape(Shipped(w), ws[k]) && !Enabled(Shipped(w), ws[k], Lock(1)) && ws[k].trk[1].req == ws[i].trk[1].req
    ensures ws[k].trk[2].auth.idx < 11
  {
    hide NetworkOk, Enabled, LibIdx, Inv;
    Requests3(w);
    NeverGranted(Shipped(w), ws, es, i, k, 2, 1, 3, 2, 10, 2);
    InvShape(Shipped(w), ws[k]);
    ShortOfRelease(Shipped(w), ws[k], 2, 1, 10, 2, 2);
  }
}
