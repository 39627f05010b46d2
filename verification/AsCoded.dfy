/** The repository's tables with the release cursor as coded: which train blocks itself, when, and what follows. */
module AsCoded {
  import opened Tables
  import opened Cyclic
  import opened Interlocking
  import opened Invariance
  import opened ShippedTables
  import opened ShippedCoherent
  import opened Deadlock
  import opened ShippedLiveness

  // ----- R5 is never given back by train 2 -----

  /** A bit that the release table never gives back can be taken once. */
  lemma {:induction false} NeverFreed(s: Stops, j: nat, b: nat)
    requires 0 < s.wrap <= |s.mask| && Count(s, s.wrap, b) == 0
    ensures Count(s, j, b) == 0
    decreases j
  {
    if j >= s.wrap {
      NeverFreed(s, j - s.wrap, b);
      CountRound(s, j - s.wrap, b);
    } else {
      CountMono(s, j, s.wrap, b);
    }
  }

  lemma R5Leaks(T: Train, k: Track)
    requires TrainOk(T) && T == Shipped(3)[1] && OnceEach(T, k, 4)
    ensures Taken(k) <= 5 && (Taken(k) >= 3 <==> Holds(T, k, 4))
  {
    Lap2(4);
    NeverFreed(Lib2(3), k.lib, 4);
    CountRound(REQ_2, 3, 4);
    if Taken(k) >= 3 {
      CountMono(REQ_2, 3, Taken(k), 4);
    } else {
      CountMono(REQ_2, Taken(k), 2, 4);
    }
    if Taken(k) >= 6 {
      CountMono(REQ_2, 6, Taken(k), 4);
    }
  }

  /** Its requests: R2, R3, R4 with R5, and round again. */
  lemma Requests(r: nat)
    requires r <= 5
    ensures StopMask(REQ_2, r) == if r == 0 || r == 3 then R2 else if r == 1 || r == 4 then R3 else R4 + R5
  {
  }

  // ----- the order of the other resources still holds -----

  lemma FirstLapAsCoded(k: nat, j: nat, b: nat, c: nat)
    requires TrainOk(Shipped(3)[1]) && k < 3 && j < 3 && b != 4
    ensures RankedAt(Shipped(3)[1], RANK, k, j, b, c)
  {
    Lap2(b);
  }

  lemma RankedAsCoded(k: nat, j: nat, b: nat, c: nat)
    requires TrainOk(Shipped(3)[1]) && b != 4
    ensures RankedAt(Shipped(3)[1], RANK, k, j, b, c)
  {
    var T := Shipped(3)[1];
    forall r: nat, q: nat {:trigger RankedAt(T, RANK, r, q, b, c)} | r < T.req.wrap && q < T.lib.wrap
      ensures RankedAt(T, RANK, r, q, b, c)
    {
      FirstLapAsCoded(r, q, b, c);
    }
    Lap2(b);
    RankedEveryLap(T, RANK, k, j, b, c);
  }

  lemma LiveAsCoded()
    ensures NetworkOk(Shipped(3)) && Live(Shipped(3))
  {
    ShippedOk(3);
  }

  // ----- which train blocks itself -----

  /** In a world of a live run a waiting train 2 is blocked by itself exactly when it waits at its sixth request. */
  lemma SelfBlockedIn(w: World)
    requires Inv(Shipped(3), w) && LiveInv(Shipped(3), w) && Waits(w, 1)
    ensures Blocked(Shipped(3), w, 1, 1) <==> w.trk[1].req == 5
  {
    var N := Shipped(3);
    var k := w.trk[1];
    assert TrainInv(N, w, 1);
    R5Leaks(N[1], k);
    WaitFacts(N, w, 1);
    Requests(k.req);
    if k.req == 5 {
      assert ConservedBit(N, w, 4);
      assert 4 in Wanted(N, w, 1) * Holding(N, w, 1);
    } else {
      forall b | b in Wanted(N, w, 1) ensures b !in Holding(N, w, 1) {
        if b in Holding(N, w, 1) && b != 4 {
          RankedAsCoded(k.req, k.lib, b, b);
          HoldBelowWait(N, RANK, w, 1, b, b);
        }
      }
    }
  }

  /** Self-blocking, exactly: over every run in which no release balise is skipped, the waiting train 2 is blocked by
      itself if and only if it waits at its sixth request. */
  lemma SelfBlockedIff(ws: seq<World>, es: seq<Event>, n: nat)
    requires NetworkOk(Shipped(3)) && LiveRun(Shipped(3), ws, es) && n < |ws|
    ensures Shape(Shipped(3), ws[n])
    ensures Waits(ws[n], 1) ==> (Blocked(Shipped(3), ws[n], 1, 1) <==> ws[n].trk[1].req == 5)
  {
    LiveAsCoded();
    RunInv(Shipped(3), ws, es, n);
    LiveRunInv(Shipped(3), ws, es, n);
    if Waits(ws[n], 1) {
      SelfBlockedIn(ws[n]);
    }
  }

  // ----- circles of blocked trains -----

  /** Every train of S waits, and for something that a train of S holds. */
  ghost predicate Circle(N: Network, w: World, S: set<nat>)
    requires Shape(N, w)
  {
    S != {} && forall s :: s in S ==> Waits(w, s) && BlockedIn(N, w, s, S)
  }

  ghost predicate BlockedIn(N: Network, w: World, s: nat, S: set<nat>)
    requires Shape(N, w)
  {
    exists t :: t in S && Blocked(N, w, s, t)
  }

  /** At the first request of a lap everything taken before has been given back. */
  lemma {:induction false} NothingKept(T: Train, k: nat, j: nat, b: nat)
    requires TrainOk(T) && Settled(T, b) && Wrap(k, T.req.wrap) == 0 && ReqIdx(T, k) <= LibIdx(T, j)
    ensures Count(T.req, k, b) <= Count(T.lib, j, b)
    decreases k
  {
    if k >= T.req.wrap {
      if j < T.lib.wrap {
        StopMono(T.path, T.lib, j, T.lib.wrap - 1);
        StopMono(T.path, T.req, T.req.wrap, k);
        assert StopIdx(T.req, |T.path|, 0) == T.req.at[0];
        assert false;
      }
      NothingKept(T, k - T.req.wrap, j - T.lib.wrap, b);
      CountRound(T.req, k - T.req.wrap, b);
      CountRound(T.lib, j - T.lib.wrap, b);
    }
  }

  lemma SecondWaitsForR5(w: World)
    requires Inv(Shipped(3), w) && LiveInv(Shipped(3), w) && Waits(w, 1) && w.trk[1].req != 5
    requires 4 in Wanted(Shipped(3), w, 1)
    ensures 4 !in Holding(Shipped(3), w, 1)
  {
    hide EntriesGuarded, ReleasesBacked, Triple, Apart, Conserved;
    var N, k := Shipped(3), w.trk[1];
    WaitFacts(N, w, 1);
    assert TrainInv(N, w, 1);
    R5Leaks(N[1], k);
    Requests(k.req);
  }

  /** Train 3 waits for R5 only at the first request of its lap, holding nothing. */
  lemma ThirdWaitsForR5(w: World)
    requires Inv(Shipped(3), w) && LiveInv(Shipped(3), w) && Waits(w, 2) && 4 in Wanted(Shipped(3), w, 2)
    ensures Holding(Shipped(3), w, 2) == {}
  {
    hide EntriesGuarded, ReleasesBacked, Triple, Apart, Conserved, TrackInv;
    var N, k := Shipped(3), w.trk[2];
    WaitFacts(N, w, 2);
    ThirdFresh(k.req, k.lib);
  }

  lemma ThirdFresh(k: nat, j: nat)
    requires TrainOk(Shipped(3)[2]) && 4 in StopMask(REQ_3, k) && ReqIdx(Shipped(3)[2], k) <= LibIdx(Shipped(3)[2], j)
    ensures forall b: nat :: Count(REQ_3, k, b) <= Count(LIB_3, j, b)
  {
    forall b: nat ensures Count(REQ_3, k, b) <= Count(LIB_3, j, b) {
      Lap3(b);
      NothingKept(Shipped(3)[2], k, j, b);
    }
  }

  /** What the trains want, and what those that wait hold. */
  function Wants(N: Network, w: World): (wants: seq<set<nat>>)
    requires Shape(N, w)
    ensures |wants| == 3 && wants[0] != {} && wants[1] != {} && wants[2] != {}
  {
    [Wanted(N, w, 0), Wanted(N, w, 1), Wanted(N, w, 2)]
  }

  function Holds3(N: Network, w: World): (holds: seq<set<nat>>)
    requires Shape(N, w)
    ensures |holds| == 3
  {
    [WaiterHolds(N, w, 0), WaiterHolds(N, w, 1), WaiterHolds(N, w, 2)]
  }

  function But5(holds: seq<set<nat>>): (but: seq<set<nat>>)
    requires |holds| == 3
    ensures |but| == 3
  {
    holds[1 := holds[1] - {4}]
  }

  lemma OnlyBy5(wants: seq<set<nat>>, holds: seq<set<nat>>, s: nat, t: nat)
    requires |holds| == 3 && Obstructs(wants, holds, s, t) && !Obstructs(wants, But5(holds), s, t)
    ensures t == 1 && 4 in wants[s] && 4 in holds[1]
  {
    var b :| b in wants[s] * holds[t];
    if t != 1 || b != 4 {
      assert b in wants[s] * But5(holds)[t];
    }
  }

  lemma Idle2(wants: seq<set<nat>>, holds: seq<set<nat>>, S: set<nat>, s: nat)
    requires |holds| == 3 && holds[2] == {} && Obstructed(wants, holds, S, s)
    ensures Obstructed(wants, holds, S - {2}, s)
  {
    var t := NextHolder(wants, holds, S, s);
    if t != 2 {
      assert t in S - {2};
    }
  }

  /** If R5 is held by party 1 only, which does not want it, and party 2 wants it only while holding nothing, there is
      no circle. */
  lemma NoCircleBut5(wants: seq<set<nat>>, holds: seq<set<nat>>, S: set<nat>)
    requires |wants| == |holds| == 3 && (forall s :: s in S ==> s < 3) && (forall s :: 0 <= s < 3 ==> wants[s] != {})
    requires Climbing(wants, But5(holds), RANK)
    requires 4 !in wants[0] && (4 in wants[1] ==> 4 !in holds[1]) && (4 in wants[2] ==> holds[2] == {})
    requires S != {}
    ensures exists s :: s in S && !Obstructed(wants, holds, S, s)
  {
    hide Climbing, Obstructed, Obstructs, But5;
    if forall s :: s in S ==> Obstructed(wants, holds, S, s) {
      var Q := if 4 in wants[2] then S - {2} else S;
      forall s | s in S ensures Obstructed(wants, holds, Q, s) {
        if 4 in wants[2] {
          Idle2(wants, holds, S, s);
        }
      }
      var s0 :| s0 in S;
      var t0 := NextHolder(wants, holds, Q, s0);
      NoCircle(wants, But5(holds), RANK, 3, Q);
      var s :| s in Q && !Obstructed(wants, But5(holds), Q, s);
      var t := NextHolder(wants, holds, Q, s);
      NotIn(wants, But5(holds), Q, s, t);
      OnlyBy5(wants, holds, s, t);
      assert false;
    }
  }

  lemma NotIn(wants: seq<set<nat>>, holds: seq<set<nat>>, S: set<nat>, s: nat, t: nat)
    requires t in S && !Obstructed(wants, holds, S, s)
    ensures !Obstructs(wants, holds, s, t)
  {
  }

  lemma ClimbingBut5(w: World)
    requires Inv(Shipped(3), w) && LiveInv(Shipped(3), w)
    ensures Climbing(Wants(Shipped(3), w), But5(Holds3(Shipped(3), w)), RANK)
  {
    var N := Shipped(3);
    var wants, but := Wants(N, w), But5(Holds3(N, w));
    ShippedOrdered();
    forall t: nat, b: nat, c: nat ensures Below(wants, but, RANK, t, b, c) {
      if t < 3 && b in but[t] && c in wants[t] {
        if t == 1 {
          RankedAsCoded(w.trk[1].req, w.trk[1].lib, b, c);
        } else {
          RankedOthers(t, w.trk[t].req, w.trk[t].lib, b, c);
        }
        HoldBelowWait(N, RANK, w, t, b, c);
      }
    }
  }

  /** The other trains have the same tables in both readings. */
  lemma RankedOthers(t: nat, k: nat, j: nat, b: nat, c: nat)
    requires t == 0 || t == 2
    requires NetworkOk(Shipped(4)) && OrderedNetwork(Shipped(4), RANK)
    ensures Shipped(3)[t] == Shipped(4)[t] && RankedAt(Shipped(3)[t], RANK, k, j, b, c)
  {
    assert Ranked(Shipped(4)[t], RANK);
  }

  lemma WhoWantsR5(w: World)
    requires Inv(Shipped(3), w) && LiveInv(Shipped(3), w)
    requires Waits(w, 1) ==> w.trk[1].req != 5
    ensures var wants, holds := Wants(Shipped(3), w), Holds3(Shipped(3), w);
            4 !in wants[0] && (4 in wants[1] ==> 4 !in holds[1]) && (4 in wants[2] ==> holds[2] == {})
  {
    if Waits(w, 1) && 4 in Wanted(Shipped(3), w, 1) {
      SecondWaitsForR5(w);
    }
    if Waits(w, 2) && 4 in Wanted(Shipped(3), w, 2) {
      ThirdWaitsForR5(w);
    }
  }

  lemma BlockedObstructs(N: Network, w: World, s: nat, t: nat)
    requires Shape(N, w) && Blocked(N, w, s, t) && Waits(w, t)
    ensures Obstructs(Wants(N, w), Holds3(N, w), s, t)
  {
    hide Wanted, Holding;
  }

  lemma CircleObstructs(N: Network, w: World, S: set<nat>, s: nat)
    requires Shape(N, w) && Circle(N, w, S) && s in S
    ensures s < 3 && Obstructed(Wants(N, w), Holds3(N, w), S, s)
  {
    hide Wants, Holds3, Blocked, Obstructs, Shape;
    assert BlockedIn(N, w, s, S);
    var t :| t in S && Blocked(N, w, s, t);
    BlockedObstructs(N, w, s, t);
  }

  lemma CircleAbsent(N: Network, w: World, S: set<nat>)
    requires Shape(N, w) && Climbing(Wants(N, w), But5(Holds3(N, w)), RANK)
    requires var wants, holds := Wants(N, w), Holds3(N, w);
             4 !in wants[0] && (4 in wants[1] ==> 4 !in holds[1]) && (4 in wants[2] ==> holds[2] == {})
    ensures !Circle(N, w, S)
  {
    hide Wants, Holds3, But5, Climbing, Obstructed, Shape, BlockedIn, Waits;
    if Circle(N, w, S) {
      var wants, holds := Wants(N, w), Holds3(N, w);
      forall s | s in S ensures s < 3 && Obstructed(wants, holds, S, s) {
        CircleObstructs(N, w, S, s);
      }
      NoCircleBut5(wants, holds, S);
    }
  }

  lemma NoCircleIn(w: World, S: set<nat>)
    requires Inv(Shipped(3), w) && LiveInv(Shipped(3), w)
    requires Waits(w, 1) ==> w.trk[1].req != 5
    ensures !Circle(Shipped(3), w, S)
  {
    ClimbingBut5(w);
    WhoWantsR5(w);
    CircleAbsent(Shipped(3), w, S);
  }

  lemma CircleIn(w: World)
    requires Inv(Shipped(3), w) && LiveInv(Shipped(3), w)
    ensures (exists S :: Circle(Shipped(3), w, S)) <==> Waits(w, 1) && w.trk[1].req == 5
  {
    if Waits(w, 1) && w.trk[1].req == 5 {
      SelfBlockedIn(w);
      AloneCircle(Shipped(3), w);
    } else {
      forall S ensures !Circle(Shipped(3), w, S) {
        NoCircleIn(w, S);
      }
    }
  }

  lemma AloneCircle(N: Network, w: World)
    requires Shape(N, w) && Blocked(N, w, 1, 1)
    ensures Circle(N, w, {1})
  {
    hide Wanted, Holding;
    assert BlockedIn(N, w, 1, {1});
  }

  /** Circular wait as coded, exactly: over every run in which no release balise is skipped, a group of trains blocked
      among themselves exists if and only if train 2 waits at its sixth request. */
  lemma CircleIff(ws: seq<World>, es: seq<Event>, n: nat)
    requires NetworkOk(Shipped(3)) && LiveRun(Shipped(3), ws, es) && n < |ws|
    ensures Shape(Shipped(3), ws[n])
    ensures (exists S :: Circle(Shipped(3), ws[n], S)) <==> Waits(ws[n], 1) && ws[n].trk[1].req == 5
  {
    LiveAsCoded();
    RunInv(Shipped(3), ws, es, n);
    LiveRunInv(Shipped(3), ws, es, n);
    CircleIn(ws[n]);
  }

  // ----- what follows -----

  /** As coded, train 2 never gets more than five grants and never passes the balise of its sixth request: neither
      does its authority, nor the train. */
  lemma ComesToAStand(ws: seq<World>, es: seq<Event>, n: nat)
    requires Run(Shipped(3), ws, es) && n < |ws|
    ensures Shape(Shipped(3), ws[n])
    ensures var k, stand := ws[n].trk[1], Pos(ReqIdx(Shipped(3)[1], 5), 0.0);
            Taken(k) <= 5 && Le(k.auth, stand) && Le(k.pos, stand)
  {
    var N := Shipped(3);
    ShippedOk(3);
    RunInv(N, ws, es, n);
    var k := ws[n].trk[1];
    assert TrainInv(N, ws[n], 1);
    R5Leaks(N[1], k);
    StopMono(N[1].path, N[1].req, k.req, 5);
  }

  lemma TakenGrows(N: Network, w: World, e: Event, t: nat)
    requires Shape(N, w) && Enabled(N, w, e) && t < 3
    ensures Taken(w.trk[t]) <= Taken(Apply(N, w, e).trk[t])
  {
  }

  lemma {:induction false} TakenGrowsAlong(N: Network, ws: seq<World>, es: seq<Event>, n: nat, m: nat, t: nat)
    requires Run(N, ws, es) && n <= m < |ws| && t < 3 && |ws[n].trk| == |ws[m].trk| == 3
    ensures Taken(ws[n].trk[t]) <= Taken(ws[m].trk[t])
    decreases m - n
  {
    if n < m {
      assert Step(N, ws[m - 1], es[m - 1], ws[m]);
      TakenGrowsAlong(N, ws, es, n, m - 1, t);
      TakenGrows(N, ws[m - 1], es[m - 1], t);
    }
  }

  lemma BitFacts(N: Network, w: World, t: nat, b: nat)
    requires Inv(N, w) && t < 3
    ensures TrainOk(N[t]) && OnceEach(N[t], w.trk[t], b) && ConservedBit(N, w, b)
  {
    hide EntriesGuarded, ReleasesBacked, Triple, Apart, ConservedBit, OnceEach;
    assert TrainInv(N, w, t);
  }

  lemma R5Held(w: World)
    requires Inv(Shipped(3), w) && Taken(w.trk[1]) >= 3
    ensures 4 in w.ctl.resources
  {
    BitFacts(Shipped(3), w, 1, 4);
    hide NetworkOk, TrackInv, Apart, TrainOk, OnceEach, Holds, Taken;
    R5Leaks(Shipped(3)[1], w.trk[1]);
  }

  /** Once train 2 has its third grant, R5 is gone: no later request of any train for R5 is ever granted. */
  lemma R5Gone(ws: seq<World>, es: seq<Event>, n: nat, m: nat, t: nat)
    requires Run(Shipped(3), ws, es) && n <= m < |ws| && t < 3 && |ws[n].trk| == 3
    requires Taken(ws[n].trk[1]) >= 3
    ensures Shape(Shipped(3), ws[m]) && 4 in ws[m].ctl.resources
    ensures 4 in Wanted(Shipped(3), ws[m], t) ==> !Enabled(Shipped(3), ws[m], Lock(t))
  {
    hide Inv, NetworkOk, TrackInv, Apart, Taken, Holds;
    var N := Shipped(3);
    ShippedOk(3);
    RunInv(N, ws, es, m);
    InvShape(N, ws[m]);
    TakenGrowsAlong(N, ws, es, n, m, 1);
    R5Held(ws[m]);
  }
}
