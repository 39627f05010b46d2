/** The code of the RBC and the transition system agree: handling one message is a path of events. */
module Handler {
  import opened Options
  import opened Cyclic
  import opened Tables
  import opened EndOfAuthority
  import opened Interlocking
  import opened Invariance
  import C = Control

  /** Executing es from w ends in v. */
  ghost predicate Path(N: Network, w: World, es: seq<Event>, v: World)
    decreases |es|
  {
    if es == [] then v == w
    else Step(N, w, es[0], Apply'(N, w, es[0])) && Path(N, Apply'(N, w, es[0]), es[1..], v)
  }

  ghost function Apply'(N: Network, w: World, e: Event): World {
    if Shape(N, w) && Enabled(N, w, e) then Apply(N, w, e) else w
  }

  lemma {:induction false} PathInv(N: Network, w: World, es: seq<Event>, v: World)
    requires Inv(N, w) && Path(N, w, es, v)
    ensures Inv(N, v)
    decreases |es|
  {
    if es != [] {
      StepInv(N, w, es[0], Apply'(N, w, es[0]));
      PathInv(N, Apply'(N, w, es[0]), es[1..], v);
    }
  }

  lemma {:induction false} PathAppend(N: Network, w: World, es: seq<Event>, v: World, e: Event)
    requires Path(N, w, es, v) && Shape(N, v) && Enabled(N, v, e)
    ensures Path(N, w, es + [e], Apply(N, v, e))
    decreases |es|
  {
    hide Apply, Enabled;
    if es == [] {
      assert (es + [e])[1..] == [];
    } else {
      PathAppend(N, Apply'(N, w, es[0]), es[1..], v, e);
      assert (es + [e])[1..] == es[1..] + [e];
    }
  }

  /** Some sequence of events leads from w to v. */
  ghost predicate Reaches(N: Network, w: World, v: World) {
    exists es :: Path(N, w, es, v)
  }

  lemma ReachHere(N: Network, w: World)
    ensures Reaches(N, w, w)
  {
    assert Path(N, w, [], w);
  }

  lemma ReachNext(N: Network, w: World, v: World, e: Event)
    requires Reaches(N, w, v) && Shape(N, v) && Enabled(N, v, e)
    ensures Reaches(N, w, Apply(N, v, e))
  {
    var es :| Path(N, w, es, v);
    PathAppend(N, w, es, v, e);
  }

  lemma ReachInv(N: Network, w: World, v: World)
    requires Inv(N, w) && Reaches(N, w, v)
    ensures Inv(N, v)
  {
    var es :| Path(N, w, es, v);
    PathInv(N, w, es, v);
  }

  ghost predicate Steps(N: Network, ws: seq<World>, es: seq<Event>) {
    |ws| == |es| + 1 && forall i {:trigger es[i]} :: 0 <= i < |es| ==> Step(N, ws[i], es[i], ws[i + 1])
  }

  lemma {:induction false} PathWorlds(N: Network, w: World, es: seq<Event>, v: World) returns (ws: seq<World>)
    requires Path(N, w, es, v)
    ensures Steps(N, ws, es) && ws[0] == w && ws[|es|] == v
    decreases |es|
  {
    hide Apply, Enabled, Shape;
    ws := [w];
    if es != [] {
      var u := Apply'(N, w, es[0]);
      var us := PathWorlds(N, u, es[1..], v);
      ws := [w] + us;
      forall i {:trigger es[i]} | 0 <= i < |es| ensures Step(N, ws[i], es[i], ws[i + 1]) {
        if i > 0 {
          assert es[1..][i - 1] == es[i];
        }
      }
    }
  }

  /** What the start leads to is a world of a run, so everything proved of runs holds there. */
  lemma ReachedByRun(N: Network, v: World) returns (ws: seq<World>, es: seq<Event>)
    requires C.TablesOk(N) && Reaches(N, Start(N), v)
    ensures Run(N, ws, es) && ws[|es|] == v
  {
    es :| Path(N, Start(N), es, v);
    ws := PathWorlds(N, Start(N), es, v);
  }

  /** The reply's End Of Authority names the point that the transition system issues. */
  lemma IssuedIsReply(N: Network, w: World, t: nat)
    requires Inv(N, w) && t < 3
    ensures At(N[t].path, Issued(N, w, t)) == C.EoaFor(N, w.ctl, t)
  {
    hide EntriesGuarded, ReleasesBacked, Triple, Apart, Conserved;
    PlaceOf(N, w, t);
    IndexOfNode(N[t].path, w.trk[t].rep.idx);
    WrapShift(IndexOf(N[t].path, w.ctl.place[t].bal), w.trk[t].rep.idx, C.HopFor(N, w.ctl, t).steps, |N[t].path|);
  }

  /** A place the train can truthfully report: one it has come past since its last report. */
  ghost predicate TrueReport(N: Network, w: World, t: nat, p: Place)
    requires Shape(N, w)
  {
    exists at :: Enabled(N, w, Report(t, at)) && At(N[t].path, at) == p
  }

  /** A true position report leads to a world of the transition system, with no move and no new authority. */
  lemma ReportIsPath(N: Network, w: World, t: nat, p: Place) returns (v: World)
    requires Inv(N, w) && t < 3 && TrueReport(N, w, t, p)
    ensures Reaches(N, w, v) && Inv(N, v) && v.ctl == C.Free(N, C.Store(N, w.ctl, t, p), t)
    ensures At(N[t].path, v.trk[t].rep) == p && Le(v.trk[t].rep, v.trk[t].pos)
    ensures forall s :: 0 <= s < 3 ==> v.trk[s].pos == w.trk[s].pos && v.trk[s].auth == w.trk[s].auth
  {
    hide EntriesGuarded, ReleasesBacked, Apart, Conserved, TrackInv;
    var at :| Enabled(N, w, Report(t, at)) && At(N[t].path, at) == p;
    ReachHere(N, w);
    ReachNext(N, w, w, Report(t, at));
    v := Apply(N, w, Report(t, at));
    ReachInv(N, w, v);
  }

  /** The world after n commands sent in a row. */
  function AfterSets(N: Network, w: World, t: nat, n: nat): World
    requires Shape(N, w) && t < 3 && n <= |C.Commands(N, w.ctl, t)|
  {
    World(C.SwitchAll(w.ctl, C.Commands(N, w.ctl, t), n), w.trk[t := w.trk[t].(phase := Commanding(n))])
  }

  lemma SetNext(N: Network, w: World, t: nat, n: nat)
    requires Shape(N, w) && t < 3 && n < |C.Commands(N, w.ctl, t)|
    ensures var v := AfterSets(N, w, t, n);
            Shape(N, v) && Enabled(N, v, Set(t)) && Apply(N, v, Set(t)) == AfterSets(N, w, t, n + 1)
  {
    C.SwitchAllFrame(w.ctl, C.Commands(N, w.ctl, t), n);
  }

  lemma AfterNoSets(N: Network, w: World, t: nat)
    requires Shape(N, w) && t < 3 && w.trk[t].phase == Commanding(0)
    ensures AfterSets(N, w, t, 0) == w
  {
    assert w.trk[t := w.trk[t].(phase := Commanding(0))] == w.trk;
  }

  /** n commands sent in a row. */
  lemma {:induction false} Sets(N: Network, w0: World, w: World, t: nat, n: nat)
    requires Reaches(N, w0, w)
    requires Shape(N, w) && t < 3 && w.trk[t].phase == Commanding(0) && n <= |C.Commands(N, w.ctl, t)|
    ensures Reaches(N, w0, AfterSets(N, w, t, n))
    decreases n
  {
    hide Apply, Enabled, Reaches;
    if n == 0 {
      AfterNoSets(N, w, t);
    } else {
      Sets(N, w0, w, t, n - 1);
      SetNext(N, w, t, n - 1);
      ReachNext(N, w0, AfterSets(N, w, t, n - 1), Set(t));
    }
  }

  lemma GrantEffect(N: Network, w: World, t: nat)
    requires Shape(N, w) && Enabled(N, w, Lock(t))
    ensures var v := Apply(N, w, Lock(t));
            var ks := C.Commands(N, w.ctl, t);
            var u := AfterSets(N, v, t, |ks|);
            && v.trk[t].phase == Commanding(0) && C.Commands(N, v.ctl, t) == ks
            && Shape(N, u) && Enabled(N, u, Advance(t)) && Apply(N, u, Advance(t)).ctl == C.Grant(N, w.ctl, t)
            && Apply(N, u, Advance(t)).trk[t].phase == Answering
  {
    C.SwitchAllFrame(Apply(N, w, Lock(t)).ctl, C.Commands(N, w.ctl, t), |C.Commands(N, w.ctl, t)|);
  }

  /** From a free lock, the rest of the handler up to the authority runs to the state the code computes. */
  lemma GrantIsPath(N: Network, w0: World, w: World, t: nat) returns (v: World)
    requires Reaches(N, w0, w) && Shape(N, w) && Enabled(N, w, Lock(t))
    ensures Reaches(N, w0, v) && Shape(N, v)
    ensures v.ctl == C.Grant(N, w.ctl, t) && v.trk[t].phase == Answering
  {
    var w1 := Apply(N, w, Lock(t));
    var n := |C.Commands(N, w.ctl, t)|;
    ReachNext(N, w0, w, Lock(t));
    GrantEffect(N, w, t);
    Sets(N, w0, w1, t, n);
    ReachNext(N, w0, AfterSets(N, w1, t, n), Advance(t));
    v := Apply(N, AfterSets(N, w1, t, n), Advance(t));
  }

  lemma DemandThen(N: Network, w: World, t: nat) returns (u: World)
    requires Inv(N, w) && Enabled(N, w, Demand(t)) && C.Ask(N, w.ctl, t) != C.Blocked
    ensures Reaches(N, w, u) && Inv(N, u) && u.trk[t].phase == Answering
    ensures u.ctl == if C.Ask(N, w.ctl, t) == C.Granted then C.Grant(N, w.ctl, t) else w.ctl
  {
    ReachHere(N, w);
    ReachNext(N, w, w, Demand(t));
    u := Apply(N, w, Demand(t));
    if C.Ask(N, w.ctl, t) == C.Granted {
      u := GrantIsPath(N, w, u, t);
    }
    ReachInv(N, w, u);
  }

  lemma IssueEffect(N: Network, u: World, t: nat)
    requires Inv(N, u) && Enabled(N, u, Issue(t))
    ensures var v := Apply(N, u, Issue(t)); var p := Issued(N, u, t);
            && v.ctl == u.ctl && v.trk[t].phase == Idle && Le(v.trk[t].rep, p) && Le(p, v.trk[t].auth)
  {
    PlaceOf(N, u, t);
    NextHopAhead(N[t].path, u.ctl.place[t], C.StopBal(N, u.ctl, t), u.ctl.place[(t + 1) % 3], u.ctl.place[(t + 2) % 3]);
  }

  /** A movement authority request that finds its resources free, handled without interruption, is a path of
      events: it ends in the state that handle_request computes, and the train's authority reaches the point
      named in the reply. */
  lemma AuthorityIsPath(N: Network, w: World, t: nat) returns (v: World, p: Pos)
    requires Inv(N, w) && Enabled(N, w, Demand(t)) && C.Ask(N, w.ctl, t) != C.Blocked
    ensures Reaches(N, w, v) && Inv(N, v) && v.trk[t].phase == Idle
    ensures v.ctl == if C.Ask(N, w.ctl, t) == C.Granted then C.Grant(N, w.ctl, t) else w.ctl
    ensures At(N[t].path, p) == C.EoaFor(N, v.ctl, t)
    ensures Le(v.trk[t].rep, p) && Le(p, v.trk[t].auth)
  {
    var u := DemandThen(N, w, t);
    v, p := Apply(N, u, Issue(t)), Issued(N, u, t);
    ReachNext(N, w, u, Issue(t));
    IssueInv(N, u, t);
    IssueEffect(N, u, t);
    IssuedIsReply(N, u, t);
  }

  /** A request that finds its resources taken leaves its handler waiting. */
  lemma BlockedIsPath(N: Network, w: World, t: nat) returns (v: World)
    requires Inv(N, w) && Enabled(N, w, Demand(t)) && C.Ask(N, w.ctl, t) == C.Blocked
    ensures Reaches(N, w, v) && Inv(N, v) && v.ctl == w.ctl && v.trk[t].phase == Waiting
  {
    ReachHere(N, w);
    ReachNext(N, w, w, Demand(t));
    v := Apply(N, w, Demand(t));
    ReachInv(N, w, v);
  }

  /** The rest of a blocked request, once its resources are free. */
  lemma ResumeIsPath(N: Network, w: World, t: nat) returns (v: World, p: Pos)
    requires Inv(N, w) && Enabled(N, w, Lock(t))
    ensures Reaches(N, w, v) && Inv(N, v) && v.trk[t].phase == Idle && v.ctl == C.Grant(N, w.ctl, t)
    ensures At(N[t].path, p) == C.EoaFor(N, v.ctl, t) && Le(v.trk[t].rep, p) && Le(p, v.trk[t].auth)
  {
    ReachHere(N, w);
    var u := GrantIsPath(N, w, w, t);
    ReachInv(N, w, u);
    v, p := Apply(N, u, Issue(t)), Issued(N, u, t);
    ReachNext(N, w, u, Issue(t));
    IssueInv(N, u, t);
    IssueEffect(N, u, t);
    IssuedIsReply(N, u, t);
  }

  /** A place ahead of the train's reported position and within its authority. */
  ghost predicate Authorised(N: Network, w: World, t: nat, place: Place)
    requires t < |N| && t < |w.trk| && |N[t].path| > 0
  {
    exists p :: At(N[t].path, p) == place && Le(w.trk[t].rep, p) && Le(p, w.trk[t].auth)
  }

  /** The RBC is in the state of a world that the invariant describes. */
  ghost predicate Tracks(rbc: C.Rbc, w: World)
    reads rbc, rbc.nextReq, rbc.nextLib, rbc.posTrains
  {
    rbc.Valid() && Inv(rbc.net, w) && rbc.State() == w.ctl
  }

  /** What the protocol asks of a request: reports are true, and a train has one authority request open at a time. */
  ghost predicate Orderly(N: Network, w: World, m: C.Request)
    requires Shape(N, w)
  {
    && m.trainId >= 1
    && (m.trainId <= 3 && m.code == 101 && m.bal.Some? && m.posR.Some? ==>
          TrueReport(N, w, m.trainId - 1, Place(m.bal.value, m.posR.value)))
    && (m.trainId <= 3 && m.code == 102 ==> w.trk[m.trainId - 1].phase == Idle)
  }

  /** The world that serving a request leads to. */
  lemma ServeIsPath(N: Network, w: World, m: C.Request) returns (v: World)
    requires Inv(N, w) && Orderly(N, w, m)
    ensures Reaches(N, w, v) && Inv(N, v)
    ensures m.trainId <= 3 && m.code == 101 && m.bal.Some? && m.posR.Some? ==>
      v.ctl == C.Free(N, C.Store(N, w.ctl, m.trainId - 1, Place(m.bal.value, m.posR.value)), m.trainId - 1)
    ensures m.trainId <= 3 && m.code == 102 ==>
      var t := m.trainId - 1; var asked := C.Ask(N, w.ctl, t);
      && v.ctl == (if asked == C.Granted then C.Grant(N, w.ctl, t) else w.ctl)
      && if asked == C.Blocked then v.trk[t].phase == Waiting else Authorised(N, v, t, C.EoaFor(N, v.ctl, t))
    ensures m.trainId > 3 || (m.code != 101 && m.code != 102) ==> v == w
    ensures m.code == 101 && (m.bal.None? || m.posR.None?) ==> v == w
  {
    hide Inv;
    InvShape(N, w);
    v := w;
    ReachHere(N, w);
    if m.trainId <= 3 && m.code == 101 && m.bal.Some? && m.posR.Some? {
      v := ReportIsPath(N, w, m.trainId - 1, Place(m.bal.value, m.posR.value));
    } else if m.trainId <= 3 && m.code == 102 {
      if C.Ask(N, w.ctl, m.trainId - 1) == C.Blocked {
        v := BlockedIsPath(N, w, m.trainId - 1);
      } else {
        var p;
        v, p := AuthorityIsPath(N, w, m.trainId - 1);
      }
    }
  }

  /** The code never leaves the transition system: serving any orderly request takes the RBC from one of its worlds to
      a later one, an authority that is sent out is covered, and a request stays open only with its handler waiting. */
  method Serve(rbc: C.Rbc, m: C.Request, ghost w: World) returns (reply: Option<C.Reply>, ghost v: World)
    requires Tracks(rbc, w) && Orderly(rbc.net, w, m)
    modifies rbc, rbc.nextReq, rbc.nextLib, rbc.posTrains
    ensures Tracks(rbc, v) && Reaches(rbc.net, w, v)
    ensures reply.Some? && reply.value.eoa.Some? ==>
              1 <= m.trainId <= 3 && Authorised(rbc.net, v, m.trainId - 1, reply.value.eoa.value)
    ensures reply.None? ==> 1 <= m.trainId <= 3 && v.trk[m.trainId - 1].phase == Waiting
  {
    hide Inv, Authorised, Reaches;
    v := ServeIsPath(rbc.net, w, m);
    reply := rbc.HandleRequest(m);
  }

  /** The same for a waiting handler that polls again. */
  method Retry(rbc: C.Rbc, t: nat, ghost w: World) returns (reply: Option<C.Reply>, ghost v: World)
    requires Tracks(rbc, w) && t < 3 && w.trk[t].phase == Waiting
    modifies rbc, rbc.nextReq
    ensures Tracks(rbc, v) && Reaches(rbc.net, w, v)
    ensures if reply.None? then v == w
            else reply.value.eoa.Some? && Authorised(rbc.net, v, t, reply.value.eoa.value) && v.trk[t].phase == Idle
  {
    v := w;
    ReachHere(rbc.net, w);
    if w.ctl.resources !! C.WantedMask(rbc.net, w.ctl, t) {
      ghost var p;
      v, p := ResumeIsPath(rbc.net, w, t);
    }
    reply := rbc.Resume(t);
  }
}
