/** Continuing a run: worlds that steps without skipped releases lead to, and whole manoeuvres of one train. */
module LivePaths {
  import opened Tables
  import opened Interlocking
  import opened Invariance
  import opened Deadlock
  import C = Control

  ghost predicate LiveSteps(N: Network, ws: seq<World>, es: seq<Event>)
    requires NetworkOk(N)
  {
    && |ws| == |es| + 1
    && forall i {:trigger es[i]} :: 0 <= i < |es| ==> Step(N, ws[i], es[i], ws[i + 1]) && Seen(N, ws[i], es[i])
  }

  /** Steps that skip no release lead from w to v. */
  ghost predicate Later(N: Network, w: World, v: World)
    requires NetworkOk(N)
  {
    exists ws, es :: LiveSteps(N, ws, es) && ws[0] == w && ws[|es|] == v
  }

  lemma LaterHere(N: Network, w: World)
    requires NetworkOk(N)
    ensures Later(N, w, w)
  {
    assert LiveSteps(N, [w], []);
  }

  lemma LaterNext(N: Network, w0: World, w: World, e: Event)
    requires NetworkOk(N) && Later(N, w0, w) && Shape(N, w) && Enabled(N, w, e) && Seen(N, w, e)
    ensures Later(N, w0, Apply(N, w, e))
  {
    hide Apply, Enabled, Seen, NetworkOk, Shape;
    var ws, es :| LiveSteps(N, ws, es) && ws[0] == w0 && ws[|es|] == w;
    var vs, fs := ws + [Apply(N, w, e)], es + [e];
    forall i {:trigger fs[i]} | 0 <= i < |fs| ensures Step(N, vs[i], fs[i], vs[i + 1]) && Seen(N, vs[i], fs[i]) {
      if i < |es| {
        assert fs[i] == es[i];
      }
    }
    assert LiveSteps(N, vs, fs);
  }

  lemma {:induction false} StepsKeep(N: Network, ws: seq<World>, es: seq<Event>, n: nat)
    requires NetworkOk(N) && LiveSteps(N, ws, es) && n < |ws| && Inv(N, ws[0])
    ensures Inv(N, ws[n])
    ensures Live(N) && LiveInv(N, ws[0]) ==> LiveInv(N, ws[n])
    decreases n
  {
    hide Inv, NetworkOk, LiveInv, Live, Shape;
    if n > 0 {
      StepsKeep(N, ws, es, n - 1);
      assert Step(N, ws[n - 1], es[n - 1], ws[n]) && Seen(N, ws[n - 1], es[n - 1]);
      StepInv(N, ws[n - 1], es[n - 1], ws[n]);
      InvShape(N, ws[0]);
      if Live(N) && LiveInv(N, ws[0]) {
        LiveStep(N, ws[n - 1], es[n - 1], ws[n]);
      }
    }
  }

  /** What holds in every world of a run still holds later. */
  lemma LaterKeeps(N: Network, w: World, v: World)
    requires Inv(N, w) && Later(N, w, v)
    ensures Inv(N, v)
    ensures Live(N) && LiveInv(N, w) ==> LiveInv(N, v)
  {
    hide Inv, LiveInv, Live, NetworkOk, Shape, Seen;
    InvShape(N, w);
    var ws, es :| LiveSteps(N, ws, es) && ws[0] == w && ws[|es|] == v;
    StepsKeep(N, ws, es, |es|);
  }

  /** What the start leads to ends a run. */
  lemma StartRun(N: Network, v: World) returns (ws: seq<World>, es: seq<Event>)
    requires NetworkOk(N) && C.TablesOk(N) && Later(N, Start(N), v)
    ensures LiveRun(N, ws, es) && ws[|es|] == v
  {
    hide NetworkOk, Seen, Step, Start, C.TablesOk;
    ws, es :| LiveSteps(N, ws, es) && ws[0] == Start(N) && ws[|es|] == v;
  }

  /** A run can be continued to whatever its last world leads to. */
  lemma ExtendRun(N: Network, ws: seq<World>, es: seq<Event>, v: World) returns (vs: seq<World>, fs: seq<Event>)
    requires NetworkOk(N) && LiveRun(N, ws, es) && Later(N, ws[|es|], v)
    ensures LiveRun(N, vs, fs) && vs[|fs|] == v && ws <= vs && es <= fs
  {
    hide NetworkOk, Shape, Enabled, Apply, Start, C.TablesOk;
    var us, ds :| LiveSteps(N, us, ds) && us[0] == ws[|es|] && us[|ds|] == v;
    vs, fs := ws + us[1..], es + ds;
    forall i {:trigger fs[i]} | 0 <= i < |fs| ensures Step(N, vs[i], fs[i], vs[i + 1]) && Seen(N, vs[i], fs[i]) {
      if i < |es| {
        assert fs[i] == es[i];
      } else {
        assert fs[i] == ds[i - |es|];
        assert vs[i] == us[i - |es|];
      }
    }
  }

  // ----- what single steps do to the histories and to the resource byte -----

  /** w with the history of train t replaced. */
  predicate OnlyTrack(w: World, v: World, t: nat, k: Track) {
    |w.trk| == 3 && t < 3 && v.trk == w.trk[t := k]
  }

  lemma DemandDoes(N: Network, w: World, t: nat)
    requires Shape(N, w) && t < 3 && w.trk[t].phase == Idle
    ensures Enabled(N, w, Demand(t))
    ensures var v := Apply(N, w, Demand(t));
            && OnlyTrack(w, v, t, w.trk[t].(phase := if C.Demands(N, w.ctl, t) then Waiting else Answering))
            && v.ctl == w.ctl
  {
  }

  lemma SetDoes(N: Network, w: World, t: nat)
    requires Shape(N, w) && t < 3 && w.trk[t].phase.Commanding? && w.trk[t].phase.done < |C.Commands(N, w.ctl, t)|
    ensures Enabled(N, w, Set(t))
    ensures var v := Apply(N, w, Set(t));
            && OnlyTrack(w, v, t, w.trk[t].(phase := Commanding(w.trk[t].phase.done + 1)))
            && v.ctl.resources == w.ctl.resources && C.Commands(N, v.ctl, t) == C.Commands(N, w.ctl, t)
  {
  }

  lemma AdvanceDoes(N: Network, w: World, t: nat)
    requires Shape(N, w) && t < 3 && w.trk[t].phase == Commanding(|C.Commands(N, w.ctl, t)|)
    ensures Enabled(N, w, Advance(t))
    ensures var v := Apply(N, w, Advance(t));
            OnlyTrack(w, v, t, w.trk[t].(req := w.trk[t].req + 1, phase := Answering))
                && v.ctl.resources == w.ctl.resources
  {
  }

  lemma IssueDoes(N: Network, w: World, t: nat)
    requires Shape(N, w) && t < 3 && w.trk[t].phase == Answering
    ensures Enabled(N, w, Issue(t))
    ensures var v := Apply(N, w, Issue(t));
            && OnlyTrack(w, v, t, w.trk[t].(auth := Max(w.trk[t].auth, Issued(N, w, t)), phase := Idle))
            && v.ctl == w.ctl
  {
  }

  lemma DriveDoes(N: Network, w: World, t: nat, to: Pos)
    requires Shape(N, w) && t < 3 && Le(w.trk[t].pos, to) && Le(to, w.trk[t].auth) && to.off >= 0.0
    ensures Enabled(N, w, Drive(t, to))
    ensures var v := Apply(N, w, Drive(t, to)); OnlyTrack(w, v, t, w.trk[t].(pos := to)) && v.ctl == w.ctl
  {
  }

  lemma LockDoes(N: Network, w: World, t: nat)
    requires Inv(N, w) && t < 3 && w.trk[t].phase == Waiting && w.ctl.resources !! StopMask(N[t].req, w.trk[t].req)
    ensures Enabled(N, w, Lock(t))
    ensures var v := Apply(N, w, Lock(t));
            && OnlyTrack(w, v, t, w.trk[t].(phase := Commanding(0)))
            && v.ctl.resources == w.ctl.resources + StopMask(N[t].req, w.trk[t].req)
  {
    WantedIsStop(N, w, t);
  }

  /** The report frees exactly on the balise of the next release. */
  lemma ReportDoes(N: Network, w: World, t: nat, at: Pos)
    requires Inv(N, w) && t < 3 && Le(w.trk[t].rep, at) && Le(at, w.trk[t].pos) && at.off >= 0.0
    requires at.idx <= LibIdx(N[t], w.trk[t].lib)
    ensures Enabled(N, w, Report(t, at))
    ensures var v, k := Apply(N, w, Report(t, at)), w.trk[t];
            if at.idx == LibIdx(N[t], k.lib)
            then OnlyTrack(w, v, t, k.(rep := at, lib := k.lib + 1))
                && v.ctl.resources == w.ctl.resources - StopMask(N[t].lib, k.lib)
            else OnlyTrack(w, v, t, k.(rep := at)) && v.ctl.resources == w.ctl.resources
  {
    hide EntriesGuarded, ReleasesBacked, Triple, Apart, Conserved;
    assert TrainInv(N, w, t);
    var k := w.trk[t];
    StopNode(N[t].path, N[t].lib, k.lib);
    ReportOnly(N, w, t, at);
    if Node(N[t].path, at.idx) == N[t].lib.bal[w.ctl.nextLib[t]] {
      ReleaseReached(N[t], k, at);
    }
  }

  lemma ReportOnly(N: Network, w: World, t: nat, at: Pos)
    requires Shape(N, w) && Enabled(N, w, Report(t, at))
    ensures var v := Apply(N, w, Report(t, at));
            var k := w.trk[t];
            if Node(N[t].path, at.idx) == N[t].lib.bal[w.ctl.nextLib[t]]
            then OnlyTrack(w, v, t, k.(rep := at, lib := k.lib + 1))
                && v.ctl.resources == w.ctl.resources - N[t].lib.mask[w.ctl.nextLib[t]]
            else OnlyTrack(w, v, t, k.(rep := at)) && v.ctl.resources == w.ctl.resources
  {
  }

  // ----- manoeuvres -----

  /** The switch commands of a grant, and the cursor. */
  lemma {:induction false} Finish(N: Network, w0: World, w: World, t: nat) returns (v: World)
    requires Inv(N, w0) && Later(N, w0, w) && t < 3 && Shape(N, w) && w.trk[t].phase.Commanding?
    requires w.trk[t].phase.done <= |C.Commands(N, w.ctl, t)|
    ensures Later(N, w0, v) && OnlyTrack(w, v, t, w.trk[t].(req := w.trk[t].req + 1, phase := Answering))
    ensures v.ctl.resources == w.ctl.resources
    decreases |C.Commands(N, w.ctl, t)| - w.trk[t].phase.done
  {
    hide Inv, NetworkOk, Later, Apply, Enabled;
    InvShape(N, w0);
    if w.trk[t].phase.done == |C.Commands(N, w.ctl, t)| {
      AdvanceDoes(N, w, t);
      LaterNext(N, w0, w, Advance(t));
      v := Apply(N, w, Advance(t));
    } else {
      SetDoes(N, w, t);
      LaterNext(N, w0, w, Set(t));
      v := Finish(N, w0, Apply(N, w, Set(t)), t);
    }
  }

  /** The history of a train after it has moved to a place, if it was not past it, and reported there. */
  predicate MovedTo(T: Train, k: Track, k': Track, at: Pos)
    requires 0 < T.lib.wrap <= |T.lib.at|
  {
    && k' == Track(Max(k.pos, at), at, k.auth, k.req, k'.lib, k.phase)
    && k.lib <= k'.lib && at.idx < LibIdx(T, k'.lib)
  }

  /** Everything but train t is as it was, and t has moved. */
  ghost predicate AfterMove(N: Network, w: World, v: World, t: nat, at: Pos)
    requires NetworkOk(N)
  {
    && |w.trk| == |v.trk| == 3 && t < 3 && OnlyTrack(w, v, t, v.trk[t])
    && MovedTo(N[t], w.trk[t], v.trk[t], at) && v.ctl.resources <= w.ctl.resources
  }

  /** The train is past the place but not reported there, and every release balise reported has been used. */
  ghost predicate Passed(N: Network, w: World, t: nat, at: Pos)
    requires NetworkOk(N)
  {
    && |w.trk| == 3 && t < 3 && Le(w.trk[t].rep, at) && Le(at, w.trk[t].pos) && at.off >= 0.0
    && w.trk[t].rep.idx < LibIdx(N[t], w.trk[t].lib)
  }

  /** One report, on the balise of the next release or short of it. */
  lemma ReportOne(N: Network, w0: World, w: World, t: nat, at: Pos) returns (v: World)
    requires Inv(N, w0) && Later(N, w0, w) && Inv(N, w) && t < 3
    requires Le(w.trk[t].rep, at) && Le(at, w.trk[t].pos) && at.off >= 0.0 && at.idx <= LibIdx(N[t], w.trk[t].lib)
    ensures Later(N, w0, v) && Inv(N, v) && v.ctl.resources <= w.ctl.resources
    ensures var k := w.trk[t];
            OnlyTrack(w, v, t, if at.idx == LibIdx(N[t], k.lib) then k.(rep := at, lib := k.lib + 1) else k.(rep := at))
  {
    InvShape(N, w);
    hide Inv, NetworkOk, Shape, Later, Apply, Enabled, LibIdx;
    ReportDoes(N, w, t, at);
    LaterNext(N, w0, w, Report(t, at));
    v := Apply(N, w, Report(t, at));
    LaterKeeps(N, w0, v);
  }

  lemma AtRelease(N: Network, w: World, u: World, t: nat, at: Pos, i: nat)
    requires NetworkOk(N) && Passed(N, w, t, at) && i == LibIdx(N[t], w.trk[t].lib) <= at.idx
    requires OnlyTrack(w, u, t, w.trk[t].(rep := Pos(i, 0.0), lib := w.trk[t].lib + 1))
    ensures Passed(N, u, t, at)
  {
    StopNext(N[t].path, N[t].lib, w.trk[t].lib);
  }

  lemma MoreMoved(N: Network, w: World, u: World, v: World, t: nat, at: Pos, i: nat)
    requires NetworkOk(N) && |w.trk| == 3 && t < 3
    requires OnlyTrack(w, u, t, w.trk[t].(rep := Pos(i, 0.0), lib := w.trk[t].lib + 1))
    requires u.ctl.resources <= w.ctl.resources && AfterMove(N, u, v, t, at)
    ensures AfterMove(N, w, v, t, at)
  {
    hide NetworkOk;
  }

  lemma HereMoved(N: Network, w: World, v: World, t: nat, at: Pos)
    requires NetworkOk(N) && Passed(N, w, t, at) && at.idx < LibIdx(N[t], w.trk[t].lib)
    requires OnlyTrack(w, v, t, w.trk[t].(rep := at)) && v.ctl.resources <= w.ctl.resources
    ensures AfterMove(N, w, v, t, at)
  {
  }

  lemma PassedFacts(N: Network, w: World, t: nat, at: Pos)
    requires NetworkOk(N) && Passed(N, w, t, at)
    ensures |w.trk| == 3 && t < 3 && Le(w.trk[t].rep, at) && Le(at, w.trk[t].pos) && at.off >= 0.0
    ensures |N| == 3 && 0 < N[t].lib.wrap <= |N[t].lib.at| && w.trk[t].rep.idx < LibIdx(N[t], w.trk[t].lib)
  {
  }

  /** Reports on every release balise up to at. */
  lemma {:induction false} ReportTo(N: Network, w0: World, w: World, t: nat, at: Pos) returns (v: World)
    requires NetworkOk(N) && Inv(N, w0) && Later(N, w0, w) && Inv(N, w) && Passed(N, w, t, at)
    ensures Later(N, w0, v) && AfterMove(N, w, v, t, at)
    decreases at.idx - w.trk[t].rep.idx
  {
    hide Inv, NetworkOk, Shape, Later, LibIdx, TrainOk, AfterMove, Passed, OnlyTrack;
    PassedFacts(N, w, t, at);
    var i := LibIdx(N[t], w.trk[t].lib);
    if i <= at.idx {
      var u := ReportOne(N, w0, w, t, Pos(i, 0.0));
      AtRelease(N, w, u, t, at, i);
      TrackThere(w, u, t, w.trk[t].(rep := Pos(i, 0.0), lib := w.trk[t].lib + 1));
      v := ReportTo(N, w0, u, t, at);
      MoreMoved(N, w, u, v, t, at, i);
    } else {
      v := ReportOne(N, w0, w, t, at);
      HereMoved(N, w, v, t, at);
    }
  }

  lemma TrackThere(w: World, u: World, t: nat, k: Track)
    requires OnlyTrack(w, u, t, k)
    ensures |u.trk| == 3 && t < 3 && u.trk[t] == k
  {
  }

  /** Driving to a place within the authority and reporting on the way. */
  lemma MoveTo(N: Network, w0: World, w: World, t: nat, at: Pos) returns (v: World)
    requires Inv(N, w0) && Later(N, w0, w) && Inv(N, w) && t < 3
    requires Le(w.trk[t].rep, at) && Le(at, w.trk[t].auth) && at.off >= 0.0
    requires w.trk[t].rep.idx < LibIdx(N[t], w.trk[t].lib)
    ensures Later(N, w0, v) && AfterMove(N, w, v, t, at)
  {
    InvShape(N, w);
    if Le(w.trk[t].pos, at) {
      var u := DriveOne(N, w0, w, t, at);
      v := ReportTo(N, w0, u, t, at);
      DroveThere(N, w, u, v, t, at);
    } else {
      v := ReportTo(N, w0, w, t, at);
    }
  }

  lemma DriveOne(N: Network, w0: World, w: World, t: nat, at: Pos) returns (u: World)
    requires Inv(N, w0) && Later(N, w0, w) && Inv(N, w) && t < 3
    requires Le(w.trk[t].pos, at) && Le(at, w.trk[t].auth) && at.off >= 0.0
    ensures Later(N, w0, u) && Inv(N, u) && OnlyTrack(w, u, t, w.trk[t].(pos := at)) && u.ctl == w.ctl
  {
    InvShape(N, w);
    hide Inv, NetworkOk, Shape, Later, Apply, Enabled;
    DriveDoes(N, w, t, at);
    LaterNext(N, w0, w, Drive(t, at));
    u := Apply(N, w, Drive(t, at));
    LaterKeeps(N, w0, u);
  }

  lemma DroveThere(N: Network, w: World, u: World, v: World, t: nat, at: Pos)
    requires NetworkOk(N) && |w.trk| == 3 && t < 3 && Le(w.trk[t].pos, at)
    requires OnlyTrack(w, u, t, w.trk[t].(pos := at)) && u.ctl == w.ctl && AfterMove(N, u, v, t, at)
    ensures AfterMove(N, w, v, t, at)
  {
    hide NetworkOk;
  }
}
