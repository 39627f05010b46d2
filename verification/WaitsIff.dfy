/** The mended tables of the repository: a wait can still end exactly when no holder is held up. */
module WaitsIff {
  import opened Tables
  import opened Interlocking
  import opened Invariance
  import opened Deadlock
  import opened Standstill
  import opened LivePaths
  import opened HoldUps
  import opened Grantable

  // ----- held up once, held up for ever -----

  lemma StillBack(w: World, h: nat, b: nat, j: nat)
    requires Inv(N4, w) && h < 3 && Keeping(N4[h], w.trk[h], b, j) && b in StopMask(N4[h].lib, j)
    ensures Holds(N4[h], w.trk[h], b) && Back(N4[h], w.trk[h].lib, b, j)
  {
    hide EntriesGuarded, ReleasesBacked, Triple, Apart, Conserved;
    KeepingHolds(N4[h], w.trk[h], b, j);
    assert TrainInv(N4, w, h);
    assert OnceEach(N4[h], w.trk[h], b);
    CountMono(N4[h].lib, w.trk[h].lib, j, b);
  }

  lemma StillInWay(w: World, h: nat, u: nat, j: nat, n: nat, m: nat)
    requires Inv(N4, w) && h < 3 && u < 3 && Ahead(N4, w, h, u, n, m) && Beyond(N4, w, h, u, n, m, j)
    ensures m <= w.trk[u].rep.idx && h != u
    ensures var r := w.trk[u].rep;
            var n' := n + (r.idx - m);
            && Node(N4[h].path, n') == Node(N4[u].path, r.idx)
            && Le(w.trk[h].auth, Pos(n', r.off)) && n' < LibIdx(N4[h], j)
  {
    hide Inv, NetworkOk, Node, LibIdx, ReqIdx;
    InvShape(N4, w);
    RepBounds(N4, w, u);
  }

  /** What a cornered train in the way makes of later worlds. */
  lemma StillHeldUp(w: World, h: nat, b: nat, u: nat, j: nat, n: nat, m: nat)
    requires Inv(N4, w) && h < 3 && u < 3 && Ahead(N4, w, h, u, n, m) && Beyond(N4, w, h, u, n, m, j)
    requires Keeping(N4[h], w.trk[h], b, j) && b in StopMask(N4[h].lib, j)
    ensures HeldUp(N4, w, h, b)
  {
    hide Inv, NetworkOk, Ahead, Beyond, Keeping, Holds, Back, Node, LibIdx;
    InvShape(N4, w);
    StillBack(w, h, b, j);
    StillInWay(w, h, u, j, n, m);
    assert HeldUpBy(N4, w, h, b, u, j, n + (w.trk[u].rep.idx - m));
  }

  /** A resource whose holder is held up is never free again, in any continuation of any kind. */
  lemma HeldUpForEver(ws: seq<World>, es: seq<Event>, i: nat, k: nat, h: nat, b: nat)
    requires NetworkOk(N4) && Run(N4, ws, es) && i <= k < |ws|
    requires Inv(N4, ws[i]) && LiveInv(N4, ws[i]) && HeldUp(N4, ws[i], h, b)
    ensures Inv(N4, ws[k]) && HeldUp(N4, ws[k], h, b) && b in ws[k].ctl.resources
  {
    hide Inv, LiveInv, NetworkOk, Run, Shape, HeldUpBy, Keeping, Cornered, Beyond, Ahead, StopMask;
    InvShape(N4, ws[i]);
    var u: nat, j: nat, n: nat :| HeldUpBy(N4, ws[i], h, b, u, j, n);
    var c, j' := HeldUpCorners(ws[i], h, b, u, j, n);
    Facts(ws[i], h, u, b, j, n);
    GivesBack(ws[i], h, b, u, j, n);
    var m := ws[i].trk[u].rep.idx;
    NeverFree(N4, ws, es, i, k, h, u, c, j', n, m, b, j);
    InvShape(N4, ws[k]);
    CorneredIsAhead(ws[k], h, u, c, j', n, m);
    StillHeldUp(ws[k], h, b, u, j, n, m);
  }

  lemma GivesBack(w: World, h: nat, b: nat, u: nat, j: nat, n: nat)
    requires NetworkOk(N4) && Shape(N4, w) && HeldUpBy(N4, w, h, b, u, j, n)
    ensures h < 3 && b in StopMask(N4[h].lib, j)
  {
  }

  lemma CorneredIsAhead(w: World, h: nat, u: nat, c: nat, j: nat, n: nat, m: nat)
    requires NetworkOk(N4) && Shape(N4, w) && h < 3 && u < 3 && Cornered(N4, w, h, u, c, j, n, m)
    ensures Ahead(N4, w, h, u, n, m)
  {
  }

  /** A train that waits for such a resource waits for ever. */
  lemma {:induction false} WaitsForEver(ws: seq<World>, es: seq<Event>, i: nat, k: nat, t: nat, h: nat, b: nat)
    requires NetworkOk(N4) && Run(N4, ws, es) && i <= k < |ws|
    requires Inv(N4, ws[i]) && LiveInv(N4, ws[i]) && HeldUp(N4, ws[i], h, b)
    requires Waits(ws[i], t) && b in StopMask(N4[t].req, ws[i].trk[t].req)
    ensures Inv(N4, ws[k]) && Waits(ws[k], t) && ws[k].trk[t].req == ws[i].trk[t].req && !Enabled(N4, ws[k], Lock(t))
    decreases k - i
  {
    hide Inv, LiveInv, NetworkOk, Shape, HeldUp, StopMask, Apply, Enabled, Step, Start;
    HeldUpForEver(ws, es, i, k, h, b);
    if i < k {
      WaitsForEver(ws, es, i, k - 1, t, h, b);
      RunStep(N4, ws, es, k - 1);
      StaysWaiting(ws[k - 1], es[k - 1], t);
    }
    TakenMask(ws[k], t, b);
  }

  lemma StaysWaiting(w: World, e: Event, t: nat)
    requires Shape(N4, w) && Enabled(N4, w, e) && Waits(w, t) && e != Lock(t)
    ensures var v := Apply(N4, w, e); |v.trk| == 3 && Waits(v, t) && v.trk[t].req == w.trk[t].req
  {
  }

  lemma TakenMask(w: World, t: nat, b: nat)
    requires Inv(N4, w) && t < 3 && b in w.ctl.resources && b in StopMask(N4[t].req, w.trk[t].req)
    ensures !Enabled(N4, w, Lock(t))
  {
    WantedIsStop(N4, w, t);
  }

  // ----- exactly when -----

  /** The run continues, without skipping a release, to a world in which the poll of train t succeeds. */
  ghost predicate CanBeGranted(ws: seq<World>, es: seq<Event>, t: nat)
    requires NetworkOk(N4)
  {
    exists vs, fs :: LiveRun(N4, vs, fs) && ws <= vs && es <= fs && Polls(vs[|fs|], t)
  }

  ghost predicate Polls(w: World, t: nat) {
    Shape(N4, w) && Enabled(N4, w, Lock(t))
  }

  /** Over every run that skips no release: a train that waits in lock_ressources can still be granted what it waits
      for if and only if no holder of a wanted resource is held up, that is, has its authority end at or before a place
      short of its release where another train is reported. */
  lemma CanBeGrantedIff(ws: seq<World>, es: seq<Event>, t: nat)
    requires NetworkOk(N4) && LiveRun(N4, ws, es) && Shape(N4, ws[|es|]) && Waits(ws[|es|], t)
    ensures CanBeGranted(ws, es, t) <==> Open(ws[|es|], t)
  {
    hide NetworkOk, Shape, Open, Polls, Sound, LiveInv, Inv, HeldUp, Later, Start, Step, Seen;
    var w := ws[|es|];
    SoundRun(ws, es, |es|);
    SoundFacts(w);
    if Open(w, t) {
      LaterHere(N4, w);
      var v := GrantLater(w, w, t);
      var vs, fs := ExtendRun(N4, ws, es, v);
      PollsNow(v, t);
    } else if CanBeGranted(ws, es, t) {
      var vs, fs :| LiveRun(N4, vs, fs) && ws <= vs && es <= fs && Polls(vs[|fs|], t);
      var h, b := NotOpen(w, t);
      assert vs[|es|] == w;
      WaitsForEver(vs, fs, |es|, |fs|, t, h, b);
      PollsThen(vs[|fs|], t);
      assert false;
    }
  }

  lemma PollsNow(w: World, t: nat)
    requires Shape(N4, w) && Enabled(N4, w, Lock(t))
    ensures Polls(w, t)
  {
  }

  lemma PollsThen(w: World, t: nat)
    requires Polls(w, t)
    ensures Shape(N4, w) && Enabled(N4, w, Lock(t))
  {
  }

  lemma NotOpen(w: World, t: nat) returns (h: nat, b: nat)
    requires NetworkOk(N4) && Shape(N4, w) && Waits(w, t) && !Open(w, t)
    ensures HeldUp(N4, w, h, b) && b in StopMask(N4[t].req, w.trk[t].req)
  {
    h, b :| h < 3 && b in StopMask(N4[t].req, w.trk[t].req) && Holds(N4[h], w.trk[h], b) && HeldUp(N4, w, h, b);
  }
}
