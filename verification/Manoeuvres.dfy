/** Building runs: what one train does while the others keep still. */
module Manoeuvres {
  import opened Cyclic
  import opened Tables
  import opened EndOfAuthority
  import opened Interlocking
  import opened Invariance
  import opened LivePaths
  import C = Control

  /** A run without skipped releases leads to a world with these histories and these resources locked. */
  ghost predicate There(N: Network, ks: seq<Track>, R: set<nat>)
    requires NetworkOk(N) && C.TablesOk(N)
  {
    exists w :: Later(N, Start(N), w) && w.trk == ks && w.ctl.resources == R
  }

  const STANDING := Track(Pos(0, 0.0), Pos(0, 0.0), Pos(0, 0.0), 0, 0, Idle)

  lemma StartThere(N: Network)
    requires NetworkOk(N) && C.TablesOk(N)
    ensures There(N, [STANDING, STANDING, STANDING], {})
  {
    LaterHere(N, Start(N));
  }

  lemma WorldThere(N: Network, ks: seq<Track>, R: set<nat>) returns (w: World)
    requires NetworkOk(N) && C.TablesOk(N) && There(N, ks, R)
    ensures Later(N, Start(N), w) && Inv(N, Start(N)) && Inv(N, w) && Shape(N, w) && w.trk == ks && w.ctl.resources == R
  {
    hide NetworkOk, C.TablesOk, Inv;
    w :| Later(N, Start(N), w) && w.trk == ks && w.ctl.resources == R;
    StartInv(N, Start(N));
    LaterKeeps(N, Start(N), w);
    InvShape(N, w);
  }

  /** A train may ask: it stands on the balise of its next request or on the one before it. */
  predicate AtRequest(T: Train, k: Track)
    requires |T.path| > 0 && 0 < T.req.wrap <= |T.req.at|
  {
    k.phase == Idle && k.rep.off >= 0.0 && C.NearStop(T.path, Node(T.path, k.rep.idx), Node(T.path, ReqIdx(T, k.req)))
  }

  lemma MayAsk(T: Train, k: Track, i: nat)
    requires |T.path| > 0 && 0 < T.req.wrap <= |T.req.at| && i < |T.path| && k.phase == Idle && k.rep.off >= 0.0
    requires C.Before(T.path, Node(T.path, k.rep.idx), Node(T.path, ReqIdx(T, k.req)), i)
    ensures AtRequest(T, k)
  {
  }

  lemma Ask(N: Network, ks: seq<Track>, R: set<nat>, t: nat)
    requires NetworkOk(N) && C.TablesOk(N) && There(N, ks, R) && |ks| == 3 && t < 3 && AtRequest(N[t], ks[t])
    ensures There(N, ks[t := ks[t].(phase := Waiting)], R)
  {
    hide NetworkOk, C.TablesOk, Inv, Later, Apply, Enabled, Shape;
    var w := WorldThere(N, ks, R);
    Due(N, w, t);
    DemandDoes(N, w, t);
    LaterNext(N, Start(N), w, Demand(t));
  }

  lemma Due(N: Network, w: World, t: nat)
    requires Inv(N, w) && t < 3 && AtRequest(N[t], w.trk[t])
    ensures C.Demands(N, w.ctl, t)
  {
    PlaceOf(N, w, t);
    WantedIsStop(N, w, t);
  }

  /** A request made anywhere else is answered without a grant. */
  lemma AskAway(N: Network, ks: seq<Track>, R: set<nat>, t: nat)
    requires NetworkOk(N) && C.TablesOk(N) && There(N, ks, R) && |ks| == 3 && t < 3 && ks[t].phase == Idle
    requires !C.NearStop(N[t].path, Node(N[t].path, ks[t].rep.idx), Node(N[t].path, ReqIdx(N[t], ks[t].req)))
    ensures There(N, ks[t := ks[t].(phase := Answering)], R)
  {
    hide NetworkOk, C.TablesOk, Inv, Later, Apply, Enabled, Shape, C.NearStop;
    var w := WorldThere(N, ks, R);
    Away(N, w, t);
    DemandDoes(N, w, t);
    LaterNext(N, Start(N), w, Demand(t));
  }

  lemma Away(N: Network, w: World, t: nat)
    requires Inv(N, w) && t < 3
    requires !C.NearStop(N[t].path, Node(N[t].path, w.trk[t].rep.idx), Node(N[t].path, ReqIdx(N[t], w.trk[t].req)))
    ensures !C.Demands(N, w.ctl, t)
  {
    PlaceOf(N, w, t);
    WantedIsStop(N, w, t);
  }

  lemma Take(N: Network, ks: seq<Track>, R: set<nat>, t: nat)
    requires NetworkOk(N) && C.TablesOk(N) && There(N, ks, R) && |ks| == 3 && t < 3 && ks[t].phase == Waiting
    requires R !! StopMask(N[t].req, ks[t].req)
    ensures There(N, ks[t := ks[t].(phase := Commanding(0))], R + StopMask(N[t].req, ks[t].req))
  {
    hide NetworkOk, C.TablesOk, Inv, Later, Apply, Enabled, Shape, StopMask;
    var w := WorldThere(N, ks, R);
    LockDoes(N, w, t);
    LaterNext(N, Start(N), w, Lock(t));
  }

  lemma Complete(N: Network, ks: seq<Track>, R: set<nat>, t: nat)
    requires NetworkOk(N) && C.TablesOk(N) && There(N, ks, R) && |ks| == 3 && t < 3 && ks[t].phase == Commanding(0)
    ensures There(N, ks[t := ks[t].(req := ks[t].req + 1, phase := Answering)], R)
  {
    hide NetworkOk, C.TablesOk, Inv, Later, Apply, Enabled, Shape;
    var w := WorldThere(N, ks, R);
    var v := Finish(N, Start(N), w, t);
  }

  /** The other trains are off the path of t, or stand on the balise of its next request. */
  ghost predicate Clear2(N: Network, ks: seq<Track>, t: nat, s: nat)
    requires NetworkOk(N) && |ks| == 3 && t < 3 && s < 3
  {
    && ks[s].rep.off == 0.0
    && (Node(N[s].path, ks[s].rep.idx) !in N[t].path
        || Node(N[s].path, ks[s].rep.idx) == Node(N[t].path, ReqIdx(N[t], ks[t].req)))
  }

  lemma IssuedAtStop(N: Network, w: World, t: nat)
    requires Inv(N, w) && t < 3 && w.trk[t].rep.idx < ReqIdx(N[t], w.trk[t].req) < w.trk[t].rep.idx + |N[t].path|
    requires Clear2(N, w.trk, t, (t + 1) % 3) && Clear2(N, w.trk, t, (t + 2) % 3)
    ensures Issued(N, w, t) == Pos(ReqIdx(N[t], w.trk[t].req), 0.0)
  {
    InvShape(N, w);
    PathOf(N, w, t);
    var stop := ReqIdx(N[t], w.trk[t].req);
    hide Inv, NetworkOk, Clear2, Issued, ReqIdx;
    IssuedAt(N, w, t);
    IssuedByRequest(N, w, t);
    SameNode(N[t].path, Issued(N, w, t).idx, stop);
    if Issued(N, w, t).idx < stop {
      WrapGap(Issued(N, w, t).idx, stop, |N[t].path|);
    }
  }

  lemma PathOf(N: Network, w: World, t: nat)
    requires Inv(N, w) && t < 3
    ensures |N[t].path| > 0 && Distinct(N[t].path)
  {
  }

  lemma ClearPlace(N: Network, w: World, t: nat, s: nat)
    requires Inv(N, w) && t < 3 && s < 3 && Clear2(N, w.trk, t, s)
    ensures var p := w.ctl.place[s]; p.posR == 0.0 && (p.bal !in N[t].path || p.bal == C.StopBal(N, w.ctl, t))
  {
    PlaceOf(N, w, s);
    WantedIsStop(N, w, t);
  }

  lemma IssuedAt(N: Network, w: World, t: nat)
    requires Inv(N, w) && t < 3 && Clear2(N, w.trk, t, (t + 1) % 3) && Clear2(N, w.trk, t, (t + 2) % 3)
    ensures Node(N[t].path, Issued(N, w, t).idx) == Node(N[t].path, ReqIdx(N[t], w.trk[t].req))
    ensures Issued(N, w, t).off == 0.0 && w.trk[t].rep.idx <= Issued(N, w, t).idx
  {
    hide EntriesGuarded, ReleasesBacked, Triple, Apart, Conserved, TrackInv, NextHop, Clear2;
    PlaceOf(N, w, t);
    WantedIsStop(N, w, t);
    ClearPlace(N, w, t, (t + 1) % 3);
    ClearPlace(N, w, t, (t + 2) % 3);
    OnlyObjective(N[t].path, w.trk[t].rep, C.StopBal(N, w.ctl, t), w.ctl.place[(t + 1) % 3], w.ctl.place[(t + 2) % 3]);
  }

  lemma OnlyObjective(path: seq<int>, r: Pos, stop: int, p: Place, q: Place)
    requires |path| > 0 && Distinct(path) && Node(path, r.idx) in path && stop in path
    requires p.posR == q.posR == 0.0 && (p.bal !in path || p.bal == stop) && (q.bal !in path || q.bal == stop)
    ensures var h := NextHop(path, At(path, r), stop, p, q);
            Node(path, r.idx + h.steps) == stop && h.off == 0.0
  {
    var i := IndexOf(path, At(path, r).bal);
    var h := NextHop(path, At(path, r), stop, p, q);
    NextHopLands(path, At(path, r), stop, p, q);
    IndexOfNode(path, r.idx);
    WrapShift(i, r.idx, h.steps, |path|);
    MemberNode(path, i + h.steps);
    assert After(path, i, h.steps) == Node(path, r.idx + h.steps);
  }

  lemma Answer(N: Network, ks: seq<Track>, R: set<nat>, t: nat)
    requires NetworkOk(N) && C.TablesOk(N) && There(N, ks, R) && |ks| == 3 && t < 3 && ks[t].phase == Answering
    requires var stop := ReqIdx(N[t], ks[t].req);
             ks[t].rep.idx < stop < ks[t].rep.idx + |N[t].path| && ks[t].auth.idx < stop
    requires Clear2(N, ks, t, (t + 1) % 3) && Clear2(N, ks, t, (t + 2) % 3)
    ensures There(N, ks[t := ks[t].(auth := Pos(ReqIdx(N[t], ks[t].req), 0.0), phase := Idle)], R)
  {
    hide NetworkOk, C.TablesOk, Inv, Later, Apply, Enabled, Shape, ReqIdx, Clear2;
    var w := WorldThere(N, ks, R);
    IssuedAtStop(N, w, t);
    IssueDoes(N, w, t);
    LaterNext(N, Start(N), w, Issue(t));
  }

  /** A movement authority request whose resources are free, up to the grant. */
  lemma AskTake(N: Network, ks: seq<Track>, R: set<nat>, t: nat)
    requires NetworkOk(N) && C.TablesOk(N) && There(N, ks, R) && |ks| == 3 && t < 3 && AtRequest(N[t], ks[t])
    requires R !! StopMask(N[t].req, ks[t].req)
    ensures There(N, ks[t := ks[t].(phase := Commanding(0))], R + StopMask(N[t].req, ks[t].req))
  {
    hide NetworkOk, C.TablesOk, There, StopMask, AtRequest;
    var k1 := ks[t := ks[t].(phase := Waiting)];
    Ask(N, ks, R, t);
    Take(N, k1, R, t);
    assert k1[t := k1[t].(phase := Commanding(0))] == ks[t := ks[t].(phase := Commanding(0))];
  }

  /** The rest of it. */
  lemma CompleteAnswer(N: Network, ks: seq<Track>, R: set<nat>, t: nat, ks': seq<Track>)
    requires NetworkOk(N) && C.TablesOk(N) && There(N, ks, R) && |ks| == 3 && t < 3 && ks[t].phase == Commanding(0)
    requires var stop := ReqIdx(N[t], ks[t].req + 1);
             && ks[t].rep.idx < stop < ks[t].rep.idx + |N[t].path| && ks[t].auth.idx < stop
             && ks' == ks[t := ks[t].(req := ks[t].req + 1, auth := Pos(stop, 0.0), phase := Idle)]
    requires Clear2(N, ks', t, (t + 1) % 3) && Clear2(N, ks', t, (t + 2) % 3)
    ensures There(N, ks', R)
  {
    var k := ks[t];
    var stop := ReqIdx(N[t], k.req + 1);
    hide NetworkOk, C.TablesOk, There, ReqIdx, Clear2;
    var k3 := ks[t := k.(req := k.req + 1, phase := Answering)];
    Complete(N, ks, R, t);
    SameClear(N, ks', k3, t, (t + 1) % 3);
    SameClear(N, ks', k3, t, (t + 2) % 3);
    Answer(N, k3, R, t);
    assert k3[t := k3[t].(auth := Pos(stop, 0.0), phase := Idle)] == ks';
  }

  lemma SameClear(N: Network, ks: seq<Track>, ks': seq<Track>, t: nat, s: nat)
    requires NetworkOk(N) && |ks| == |ks'| == 3 && t < 3 && s < 3 && Clear2(N, ks, t, s)
    requires ks'[s].rep == ks[s].rep && ks'[t].req == ks[t].req
    ensures Clear2(N, ks', t, s)
  {
  }

  /** Driving to balise i of the unrolled path and reporting there. */
  lemma Move(N: Network, ks: seq<Track>, R: set<nat>, t: nat, i: nat, R': set<nat>, ks': seq<Track>)
    requires NetworkOk(N) && C.TablesOk(N) && There(N, ks, R) && |ks| == 3 && t < 3
    requires ks[t].pos == ks[t].rep && Le(ks[t].pos, Pos(i, 0.0)) && Le(Pos(i, 0.0), ks[t].auth)
             && i <= LibIdx(N[t], ks[t].lib)
    requires var at, frees := Pos(i, 0.0), i == LibIdx(N[t], ks[t].lib);
             && R' == (if frees then R - StopMask(N[t].lib, ks[t].lib) else R)
             && ks' == ks[t := ks[t].(pos := at, rep := at, lib := if frees then ks[t].lib + 1 else ks[t].lib)]
    ensures There(N, ks', R')
  {
    hide NetworkOk, C.TablesOk, Inv, Later, Apply, Enabled, Shape, LibIdx, StopMask;
    var at := Pos(i, 0.0);
    var w := WorldThere(N, ks, R);
    DriveDoes(N, w, t, at);
    LaterNext(N, Start(N), w, Drive(t, at));
    var u := Apply(N, w, Drive(t, at));
    LaterKeeps(N, Start(N), u);
    ReportDoes(N, u, t, at);
    LaterNext(N, Start(N), u, Report(t, at));
  }
}
