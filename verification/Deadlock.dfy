/** No circle of trains blocked on each other's resources, provided every release is eventually made. */
module Deadlock {
  import opened Cyclic
  import opened Tables
  import opened Interlocking
  import opened Invariance
  import C = Control

  // ----- requests are made next to their balise -----

  /** Room between requests: a lap is at least two balises longer than any gap between them. */
  ghost predicate Roomy(T: Train)
    requires TrainOk(T)
  {
    T.req.at[0] + 2 <= T.req.at[T.req.wrap - 1] && T.req.at[T.req.wrap - 1] + 2 <= T.req.at[0] + |T.path|
  }

  lemma {:induction false} Spaced(T: Train, k: nat)
    requires TrainOk(T) && Roomy(T)
    ensures ReqIdx(T, k + 1) + 2 <= ReqIdx(T, k) + |T.path|
    decreases k
  {
    if k >= T.req.wrap {
      Spaced(T, k - T.req.wrap);
    } else if k + 1 == T.req.wrap {
      assert StopIdx(T.req, |T.path|, 0) == T.req.at[0];
    } else {
      assert InOrder(T.req, 0, k) && InOrder(T.req, k, k + 1) && InOrder(T.req, k + 1, T.req.wrap - 1);
    }
  }

  /** The train was reported at most one balise before the last request it has made. */
  ghost predicate Near(T: Train, k: Track)
    requires TrainOk(T)
  {
    && (k.phase.Waiting? || k.phase.Commanding? ==> ReqIdx(T, k.req) <= k.rep.idx + 1)
    && (k.req > 0 ==> ReqIdx(T, k.req - 1) <= k.rep.idx + 1)
  }

  /** ask_resources asks only when the train is reported in the canton before the request or in the one after. */
  lemma DemandNear(T: Train, k: Track, bal: int, stop: int)
    requires TrainOk(T) && Roomy(T) && Near(T, k)
    requires bal == Node(T.path, k.rep.idx) && stop == Node(T.path, ReqIdx(T, k.req)) && C.NearStop(T.path, bal, stop)
    ensures ReqIdx(T, k.req) <= k.rep.idx + 1
  {
    var q := ReqIdx(T, k.req);
    var i :| 0 <= i < |T.path| && C.Before(T.path, bal, stop, i);
    assert Differ(T.path, i, Wrap(q, |T.path|)) && Differ(T.path, Wrap(q, |T.path|), i);
    var r := Wrap(k.rep.idx, |T.path|);
    var p := Prev(i, |T.path|);
    assert Differ(T.path, r, i) && Differ(T.path, i, r) && Differ(T.path, r, p) && Differ(T.path, p, r);
    WrapNext(k.rep.idx, |T.path|);
    if k.req > 0 {
      Spaced(T, k.req - 1);
    }
    if q > k.rep.idx + 1 {
      if bal == T.path[i] {
        WrapGap(k.rep.idx, q, |T.path|);
      } else {
        WrapGap(k.rep.idx + 1, q, |T.path|);
      }
      assert false;
    }
  }

  // ----- runs in which no release balise is skipped -----

  /** The report does not jump over the balise of the next release. */
  ghost predicate Seen(N: Network, w: World, e: Event)
    requires NetworkOk(N) && Shape(N, w)
  {
    e.Report? && e.t < 3 ==> e.at.idx <= LibIdx(N[e.t], w.trk[e.t].lib)
  }

  ghost predicate LiveRun(N: Network, ws: seq<World>, es: seq<Event>)
    requires NetworkOk(N)
  {
    Run(N, ws, es) && forall i {:trigger es[i]} :: 0 <= i < |es| ==> Seen(N, ws[i], es[i])
  }

  /** Every release whose balise has been reported has been made. */
  ghost predicate Prompt(T: Train, k: Track)
    requires TrainOk(T)
  {
    Near(T, k) && k.rep.idx < LibIdx(T, k.lib)
  }

  ghost predicate LiveInv(N: Network, w: World)
    requires NetworkOk(N) && Shape(N, w)
  {
    Prompt(N[0], w.trk[0]) && Prompt(N[1], w.trk[1]) && Prompt(N[2], w.trk[2])
  }

  ghost predicate Live(N: Network)
    requires NetworkOk(N)
  {
    forall t: nat :: t < 3 ==> Roomy(N[t]) && N[t].lib.at[0] > 0
  }

  lemma PromptTrack(T: Train, nr: nat, nl: nat, p: Place, k: Track, at: Pos)
    requires TrainOk(T) && TrackInv(T, nr, nl, p, k) && Prompt(T, k) && Le(k.rep, at) && at.idx <= LibIdx(T, k.lib)
    ensures Node(T.path, at.idx) == T.lib.bal[nl] ==> Prompt(T, k.(rep := at, lib := k.lib + 1))
    ensures Node(T.path, at.idx) != T.lib.bal[nl] ==> Prompt(T, k.(rep := at))
  {
    StopNode(T.path, T.lib, k.lib);
    StopNext(T.path, T.lib, k.lib);
  }

  lemma PromptReport(N: Network, w: World, t: nat, at: Pos)
    requires Inv(N, w) && Enabled(N, w, Report(t, at)) && Prompt(N[t], w.trk[t]) && Seen(N, w, Report(t, at))
    ensures Prompt(N[t], Apply(N, w, Report(t, at)).trk[t])
  {
    assert TrainInv(N, w, t);
    ReportEffect(N, w, t, at);
    PromptTrack(N[t], w.ctl.nextReq[t], w.ctl.nextLib[t], w.ctl.place[t], w.trk[t], at);
  }

  lemma PromptDemand(N: Network, w: World, t: nat)
    requires Inv(N, w) && Enabled(N, w, Demand(t)) && Prompt(N[t], w.trk[t]) && Roomy(N[t])
    ensures Prompt(N[t], Apply(N, w, Demand(t)).trk[t])
  {
    assert TrainInv(N, w, t);
    WantedIsStop(N, w, t);
    if C.Demands(N, w.ctl, t) {
      DemandNear(N[t], w.trk[t], w.ctl.place[t].bal, C.StopBal(N, w.ctl, t));
    }
  }

  lemma PromptKept(T: Train, k: Track, k': Track)
    requires TrainOk(T) && Prompt(T, k) && k'.rep == k.rep && k'.lib == k.lib
    requires k'.req == k.req || (k'.req == k.req + 1 && k.phase.Commanding? && k'.phase == Answering)
    requires k'.req == k.req && (k'.phase.Waiting? || k'.phase.Commanding?) ==> k.phase.Waiting? || k.phase.Commanding?
    ensures Prompt(T, k')
  {
    hide TrainOk;
  }

  /** Every other step moves no report and no release, and a request only onwards. */
  lemma PromptQuiet(N: Network, w: World, e: Event)
    requires Inv(N, w) && Enabled(N, w, e) && Prompt(N[e.t], w.trk[e.t]) && !e.Report? && !e.Demand?
    ensures Prompt(N[e.t], Apply(N, w, e).trk[e.t])
  {
    hide EntriesGuarded, ReleasesBacked, Triple, Apart, Conserved, TrackInv, ConservedBit, Prompt;
    PromptKept(N[e.t], w.trk[e.t], Apply(N, w, e).trk[e.t]);
  }

  lemma PromptStep(N: Network, w: World, e: Event, w': World)
    requires Inv(N, w) && Step(N, w, e, w') && Prompt(N[e.t], w.trk[e.t]) && Seen(N, w, e) && Roomy(N[e.t])
    ensures Prompt(N[e.t], w'.trk[e.t])
  {
    hide EntriesGuarded, ReleasesBacked, Triple, Apart, Conserved, TrackInv, Apply, Prompt;
    match e
    case Report(t, at) => PromptReport(N, w, t, at);
    case Demand(t) => PromptDemand(N, w, t);
    case Drive(_, _) => PromptQuiet(N, w, e);
    case Lock(_) => PromptQuiet(N, w, e);
    case Set(_) => PromptQuiet(N, w, e);
    case Advance(_) => PromptQuiet(N, w, e);
    case Issue(_) => PromptQuiet(N, w, e);
  }

  lemma LiveStep(N: Network, w: World, e: Event, w': World)
    requires Inv(N, w) && Live(N) && LiveInv(N, w) && Step(N, w, e, w') && Seen(N, w, e)
    ensures Shape(N, w') && LiveInv(N, w')
  {
    PromptStep(N, w, e, w');
    assert forall s :: 0 <= s < 3 && s != e.t ==> w'.trk[s] == w.trk[s];
  }

  lemma LiveFirst(N: Network, ws: seq<World>, es: seq<Event>)
    requires NetworkOk(N) && Live(N) && LiveRun(N, ws, es)
    ensures Shape(N, ws[0]) && LiveInv(N, ws[0])
  {
    FirstInv(N, ws, es);
    assert Roomy(N[0]) && Roomy(N[1]) && Roomy(N[2]);
  }

  lemma LiveNext(N: Network, ws: seq<World>, es: seq<Event>, n: nat)
    requires NetworkOk(N) && Live(N) && LiveRun(N, ws, es) && n < |es|
    requires Inv(N, ws[n]) && LiveInv(N, ws[n])
    ensures Shape(N, ws[n + 1]) && LiveInv(N, ws[n + 1])
  {
    RunStep(N, ws, es, n);
    assert Seen(N, ws[n], es[n]);
    LiveStep(N, ws[n], es[n], ws[n + 1]);
  }

  lemma {:induction false} LiveRunInv(N: Network, ws: seq<World>, es: seq<Event>, n: nat)
    requires NetworkOk(N) && Live(N) && LiveRun(N, ws, es) && n < |ws|
    ensures Shape(N, ws[n]) && LiveInv(N, ws[n])
  {
    if n == 0 {
      LiveFirst(N, ws, es);
    } else {
      LiveRunInv(N, ws, es, n - 1);
      RunInv(N, ws, es, n - 1);
      LiveNext(N, ws, es, n - 1);
    }
  }

  // ----- the order of resources -----

  /** A rank for each bit. */
  type Ranking = seq<nat>

  function Rank(rank: Ranking, b: nat): nat {
    if b < |rank| then rank[b] else 0
  }

  /** Whatever a train still holds when it makes its k-th request ranks below everything it asks for. */
  ghost predicate Ranked(T: Train, rank: Ranking)
    requires TrainOk(T)
  {
    forall k: nat, j: nat, b: nat, c: nat {:trigger RankedAt(T, rank, k, j, b, c)} :: RankedAt(T, rank, k, j, b, c)
  }

  predicate RankedAt(T: Train, rank: Ranking, k: nat, j: nat, b: nat, c: nat)
    requires TrainOk(T)
  {
    ReqIdx(T, k) <= LibIdx(T, j) && Count(T.req, k, b) > Count(T.lib, j, b) && c in StopMask(T.req, k) ==>
        Rank(rank, b) < Rank(rank, c)
  }

  ghost predicate OrderedNetwork(N: Network, rank: Ranking)
    requires NetworkOk(N)
  {
    Live(N) && forall t: nat :: t < 3 ==> Ranked(N[t], rank)
  }

  /** Party t holds b and wants c only with b ranking below c. */
  predicate Below(wants: seq<set<nat>>, holds: seq<set<nat>>, rank: Ranking, t: nat, b: nat, c: nat)
    requires |wants| == |holds|
  {
    t < |wants| && b in holds[t] && c in wants[t] ==> Rank(rank, b) < Rank(rank, c)
  }

  /** Party s wants something that party u holds. */
  predicate Obstructs(wants: seq<set<nat>>, holds: seq<set<nat>>, s: nat, u: nat) {
    s < |wants| && u < |holds| && wants[s] * holds[u] != {}
  }

  ghost predicate Obstructed(wants: seq<set<nat>>, holds: seq<set<nat>>, S: set<nat>, s: nat) {
    exists u :: u in S && Obstructs(wants, holds, s, u)
  }

  ghost predicate Climbing(wants: seq<set<nat>>, holds: seq<set<nat>>, rank: Ranking) {
    |wants| == |holds| && forall t: nat, b: nat, c: nat :: Below(wants, holds, rank, t, b, c)
  }

  ghost predicate AtLeast(W: set<nat>, rank: Ranking, n: nat) {
    forall c :: c in W ==> Rank(rank, c) >= n
  }

  lemma Higher(wants: seq<set<nat>>, holds: seq<set<nat>>, rank: Ranking, s: nat, t: nat, n: nat)
    requires Climbing(wants, holds, rank) && Obstructs(wants, holds, s, t) && AtLeast(wants[s], rank, n)
    ensures AtLeast(wants[t], rank, n + 1)
  {
    var b :| b in wants[s] * holds[t];
    forall c | c in wants[t] ensures Rank(rank, c) >= n + 1 {
      assert Below(wants, holds, rank, t, b, c);
    }
  }

  /** If every party of S is obstructed by a party of S, wants of ever higher rank can be found. */
  lemma {:induction false} Climb(wants: seq<set<nat>>, holds: seq<set<nat>>, rank: Ranking, S: set<nat>, n: nat)
    returns (t: nat)
    requires Climbing(wants, holds, rank) && S != {} && (forall s :: s in S ==> s < |wants|)
    requires forall s :: s in S ==> Obstructed(wants, holds, S, s)
    ensures t in S && AtLeast(wants[t], rank, n)
    decreases n
  {
    if n == 0 {
      t :| t in S;
    } else {
      var s := Climb(wants, holds, rank, S, n - 1);
      t := NextHolder(wants, holds, S, s);
      Higher(wants, holds, rank, s, t, n - 1);
    }
  }

  lemma NextHolder(wants: seq<set<nat>>, holds: seq<set<nat>>, S: set<nat>, s: nat) returns (t: nat)
    requires Obstructed(wants, holds, S, s)
    ensures t in S && Obstructs(wants, holds, s, t)
  {
    t :| t in S && Obstructs(wants, holds, s, t);
  }

  lemma OutOfReach(W: set<nat>, rank: Ranking, top: nat)
    requires AtLeast(W, rank, top + 1) && forall b: nat :: Rank(rank, b) <= top
    ensures W == {}
  {
    forall c: nat ensures c !in W {
      assert Rank(rank, c) <= top;
    }
  }

  /** With ranks bounded, some party of S is obstructed by none of S. */
  lemma NoCircle(wants: seq<set<nat>>, holds: seq<set<nat>>, rank: Ranking, top: nat, S: set<nat>)
    requires Climbing(wants, holds, rank) && S != {} && (forall s :: s in S ==> s < |wants| && wants[s] != {})
    requires forall b: nat :: Rank(rank, b) <= top
    ensures exists s :: s in S && !Obstructed(wants, holds, S, s)
  {
    if forall s :: s in S ==> Obstructed(wants, holds, S, s) {
      var t := Climb(wants, holds, rank, S, top + 1);
      OutOfReach(wants[t], rank, top);
      assert false;
    }
  }

  predicate Waits(w: World, t: nat)
    requires |w.trk| == 3
  {
    t < 3 && w.trk[t].phase == Waiting
  }

  /** What train t polls for, and what it holds. */
  function Wanted(N: Network, w: World, t: nat): set<nat>
    requires Shape(N, w) && t < 3
  {
    C.WantedMask(N, w.ctl, t)
  }

  function Holding(N: Network, w: World, t: nat): set<nat>
    requires Shape(N, w) && t < 3
  {
    set b | b in w.ctl.resources && Holds(N[t], w.trk[t], b)
  }

  /** Train s waits in lock_ressources for something that train t holds. */
  predicate Blocked(N: Network, w: World, s: nat, t: nat)
    requires Shape(N, w)
  {
    Waits(w, s) && t < 3 && Wanted(N, w, s) * Holding(N, w, t) != {}
  }

  /** A waiting train has made every release before its request, wants what the request asks for, and holds what it
      has been granted more often than it has given back. */
  lemma WaitFacts(N: Network, w: World, t: nat)
    requires Inv(N, w) && LiveInv(N, w) && Waits(w, t)
    ensures var T, k := N[t], w.trk[t];
            && ReqIdx(T, k.req) <= LibIdx(T, k.lib) && Wanted(N, w, t) == StopMask(T.req, k.req)
            && (forall b :: b in Holding(N, w, t) ==> Count(T.req, k.req, b) > Count(T.lib, k.lib, b))
  {
    WantedIsStop(N, w, t);
    assert Prompt(N[t], w.trk[t]);
  }

  /** Everything a waiting train holds ranks below everything it waits for. */
  lemma HoldBelowWait(N: Network, rank: Ranking, w: World, t: nat, b: nat, c: nat)
    requires Inv(N, w) && LiveInv(N, w) && Waits(w, t)
    requires RankedAt(N[t], rank, w.trk[t].req, w.trk[t].lib, b, c)
    requires b in Holding(N, w, t) && c in Wanted(N, w, t)
    ensures Rank(rank, b) < Rank(rank, c)
  {
    WaitFacts(N, w, t);
  }

  /** What train t holds, if it waits. */
  function WaiterHolds(N: Network, w: World, t: nat): set<nat>
    requires Shape(N, w) && t < 3
  {
    if Waits(w, t) then Holding(N, w, t) else {}
  }

  lemma RankOf(N: Network, rank: Ranking, w: World, t: nat, b: nat, c: nat)
    requires NetworkOk(N) && Shape(N, w) && OrderedNetwork(N, rank) && t < 3
    ensures RankedAt(N[t], rank, w.trk[t].req, w.trk[t].lib, b, c)
  {
    assert Ranked(N[t], rank);
  }

  lemma NoCircularWaitIn(N: Network, rank: Ranking, top: nat, w: World, S: set<nat>) returns (s: nat)
    requires Inv(N, w) && OrderedNetwork(N, rank) && LiveInv(N, w) && (forall b: nat :: Rank(rank, b) <= top)
    requires S != {} && forall t :: t in S ==> Waits(w, t)
    ensures s in S && forall t :: t in S ==> !Blocked(N, w, s, t)
  {
    hide NetworkOk, TrainInv, Conserved, Apart, LiveInv, OrderedNetwork, Rank;
    var wants := [Wanted(N, w, 0), Wanted(N, w, 1), Wanted(N, w, 2)];
    var holds := [WaiterHolds(N, w, 0), WaiterHolds(N, w, 1), WaiterHolds(N, w, 2)];
    forall t: nat, b: nat, c: nat ensures Below(wants, holds, rank, t, b, c) {
      if t < 3 && b in holds[t] && c in wants[t] {
        RankOf(N, rank, w, t, b, c);
        HoldBelowWait(N, rank, w, t, b, c);
      }
    }
    NoCircle(wants, holds, rank, top, S);
    s :| s in S && !Obstructed(wants, holds, S, s);
    forall t | t in S ensures !Blocked(N, w, s, t) {
      assert !Obstructs(wants, holds, s, t);
    }
  }

  /** No circular wait: any group of trains waiting in lock_ressources has a member that no member of the group
      blocks. In particular no train blocks itself. */
  lemma NoCircularWait(N: Network, rank: Ranking, top: nat, ws: seq<World>, es: seq<Event>, n: nat, S: set<nat>)
    returns (s: nat)
    requires NetworkOk(N) && OrderedNetwork(N, rank) && (forall b: nat :: Rank(rank, b) <= top)
    requires LiveRun(N, ws, es) && n < |ws| && |ws[n].trk| == 3
    requires S != {} && forall t :: t in S ==> Waits(ws[n], t)
    ensures Shape(N, ws[n]) && s in S && forall t :: t in S ==> !Blocked(N, ws[n], s, t)
  {
    RunInv(N, ws, es, n);
    LiveRunInv(N, ws, es, n);
    s := NoCircularWaitIn(N, rank, top, ws[n], S);
  }

  /** So if some train waits and only waiting trains hold anything, a waiting train can lock at once. */
  lemma SomeoneProceeds(N: Network, rank: Ranking, top: nat, ws: seq<World>, es: seq<Event>, n: nat) returns (s: nat)
    requires NetworkOk(N) && OrderedNetwork(N, rank) && (forall b: nat :: Rank(rank, b) <= top)
    requires LiveRun(N, ws, es) && n < |ws| && Shape(N, ws[n])
    requires exists t :: Waits(ws[n], t)
    requires forall t: nat :: t < 3 && Holding(N, ws[n], t) != {} ==> Waits(ws[n], t)
    ensures Enabled(N, ws[n], Lock(s))
  {
    var w := ws[n];
    var S := set t: nat | 0 <= t < 3 && Waits(w, t);
    var t0 :| Waits(w, t0);
    assert t0 in S;
    s := NoCircularWait(N, rank, top, ws, es, n, S);
    RunInv(N, ws, es, n);
    forall b | b in w.ctl.resources ensures b !in C.WantedMask(N, w.ctl, s) {
      assert ConservedBit(N, w, b);
      var t := if Holds(N[0], w.trk[0], b) then 0 else if Holds(N[1], w.trk[1], b) then 1 else 2;
      assert b in Holding(N, w, t);
      assert t in S && !Blocked(N, w, s, t);
      assert b !in Wanted(N, w, s) * Holding(N, w, t);
    }
  }
}
