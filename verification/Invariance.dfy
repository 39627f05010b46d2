/** Every event of the interlocking keeps the invariant. */
module Invariance {
  import opened Cyclic
  import opened Tables
  import opened EndOfAuthority
  import opened Interlocking
  import C = Control

  /** A step of train t leaves what the program knows of the others alone. */
  ghost predicate OthersKept(c: C.Control, d: C.Control, t: nat)
    requires |c.nextReq| == |c.nextLib| == |c.place| == |d.nextReq| == |d.nextLib| == |d.place| == 3
  {
    forall s :: 0 <= s < 3 && s != t ==>
      c.nextReq[s] == d.nextReq[s] && c.nextLib[s] == d.nextLib[s] && c.place[s] == d.place[s]
  }

  lemma ApartSym(A: Train, B: Train, a: Track, b: Track)
    requires |A.path| > 0 && |B.path| > 0 && Apart(A, B, a, b)
    ensures Apart(B, A, b, a)
  {
  }

  lemma Assemble(N: Network, w: World, w': World, t: nat)
    requires Inv(N, w) && Shape(N, w') && t < 3
    requires w'.trk == w.trk[t := w'.trk[t]] && OthersKept(w.ctl, w'.ctl, t)
    requires TrainInv(N, w', t) && Conserved(N, w')
    requires forall s :: 0 <= s < 3 && s != t ==> Apart(N[t], N[s], w'.trk[t], w.trk[s])
    ensures Inv(N, w')
  {
    hide EntriesGuarded, ReleasesBacked, Triple, Conserved, Apart;
    forall s | 0 <= s < 3 ensures TrainInv(N, w', s) {
      assert TrainInv(N, w, s);
    }
    forall r, s | 0 <= r < 3 && 0 <= s < 3 && r != s ensures Apart(N[r], N[s], w'.trk[r], w'.trk[s]) {
      if s == t {
        ApartSym(N[t], N[r], w'.trk[t], w.trk[r]);
      }
    }
  }

  /** A span that shrinks stays apart. */
  lemma ApartShrinks(A: Train, B: Train, a: Track, a': Track, b: Track)
    requires |A.path| > 0 && |B.path| > 0 && Apart(A, B, a, b)
    requires Le(a.rep, a'.rep) && a'.auth == a.auth
    ensures Apart(A, B, a', b)
  {
    forall i: nat, j: nat, q: real
      | q >= 0.0 && On(a', Pos(i, q)) && On(b, Pos(j, q)) && Node(A.path, i) == Node(B.path, j)
      ensures !Inside(a', Pos(i, q)) && !Inside(b, Pos(j, q))
    {
      assert On(a, Pos(i, q));
    }
  }

  /** A step that issues no authority only has to look after its own train and the bits. */
  lemma QuietStep(N: Network, w: World, w': World, t: nat)
    requires Inv(N, w) && Shape(N, w') && t < 3
    requires w'.trk == w.trk[t := w'.trk[t]] && OthersKept(w.ctl, w'.ctl, t)
    requires TrainInv(N, w', t) && Conserved(N, w')
    requires Le(w.trk[t].rep, w'.trk[t].rep) && w'.trk[t].auth == w.trk[t].auth
    ensures Inv(N, w')
  {
    forall s | 0 <= s < 3 && s != t ensures Apart(N[t], N[s], w'.trk[t], w.trk[s]) {
      ApartShrinks(N[t], N[s], w.trk[t], w'.trk[t], w.trk[s]);
    }
    Assemble(N, w, w', t);
  }

  /** Conservation looks only at the resource byte and at the counters. */
  lemma ConservedFrame(N: Network, w: World, w': World, t: nat)
    requires Shape(N, w) && Shape(N, w') && Conserved(N, w) && t < 3
    requires w'.trk == w.trk[t := w'.trk[t]] && w'.ctl.resources == w.ctl.resources
    requires Taken(w'.trk[t]) == Taken(w.trk[t]) && w'.trk[t].lib == w.trk[t].lib
    ensures Conserved(N, w')
  {
    forall b: nat ensures ConservedBit(N, w', b) {
      assert ConservedBit(N, w, b);
    }
  }

  lemma DriveTrack(T: Train, nr: nat, nl: nat, p: Place, k: Track, to: Pos)
    requires TrainOk(T) && TrackInv(T, nr, nl, p, k)
    requires Le(k.pos, to) && Le(to, k.auth) && to.off >= 0.0
    ensures TrackInv(T, nr, nl, p, k.(pos := to))
  {
    forall b: nat ensures OnceEach(T, k.(pos := to), b) {
      assert OnceEach(T, k, b);
    }
  }

  lemma DriveInv(N: Network, w: World, t: nat, to: Pos)
    requires Inv(N, w) && Enabled(N, w, Drive(t, to))
    ensures Inv(N, Apply(N, w, Drive(t, to)))
  {
    var w' := Apply(N, w, Drive(t, to));
    assert TrainInv(N, w, t);
    DriveTrack(N[t], w.ctl.nextReq[t], w.ctl.nextLib[t], w.ctl.place[t], w.trk[t], to);
    ConservedFrame(N, w, w', t);
    QuietStep(N, w, w', t);
  }

  /** Only the phase of train t changes, and not between holding a new mask and not holding it. */
  lemma PhaseTrack(T: Train, nr: nat, nl: nat, p: Place, k: Track, phase: Phase)
    requires TrainOk(T) && TrackInv(T, nr, nl, p, k)
    requires phase.Commanding? <==> k.phase.Commanding?
    requires phase.Commanding? ==> phase.done <= |T.commands[nr]|
    ensures TrackInv(T, nr, nl, p, k.(phase := phase))
  {
    forall b: nat ensures OnceEach(T, k.(phase := phase), b) {
      assert OnceEach(T, k, b);
    }
  }

  lemma DemandInv(N: Network, w: World, t: nat)
    requires Inv(N, w) && Enabled(N, w, Demand(t))
    ensures Inv(N, Apply(N, w, Demand(t)))
  {
    var w' := Apply(N, w, Demand(t));
    assert TrainInv(N, w, t);
    PhaseTrack(N[t], w.ctl.nextReq[t], w.ctl.nextLib[t], w.ctl.place[t], w.trk[t], w'.trk[t].phase);
    ConservedFrame(N, w, w', t);
    QuietStep(N, w, w', t);
  }

  lemma SetInv(N: Network, w: World, t: nat)
    requires Inv(N, w) && Enabled(N, w, Set(t))
    ensures Inv(N, Apply(N, w, Set(t)))
  {
    var w' := Apply(N, w, Set(t));
    assert TrainInv(N, w, t);
    PhaseTrack(N[t], w.ctl.nextReq[t], w.ctl.nextLib[t], w.ctl.place[t], w.trk[t], w'.trk[t].phase);
    ConservedFrame(N, w, w', t);
    QuietStep(N, w, w', t);
  }

  lemma AdvanceTrack(T: Train, nr: nat, nl: nat, p: Place, k: Track)
    requires TrainOk(T) && TrackInv(T, nr, nl, p, k) && k.phase.Commanding?
    ensures TrackInv(T, Next(nr, T.req.wrap), nl, p, k.(req := k.req + 1, phase := Answering))
  {
    var k' := k.(req := k.req + 1, phase := Answering);
    WrapNext(k.req, T.req.wrap);
    StopNext(T.path, T.req, k.req);
    forall b: nat ensures OnceEach(T, k', b) {
      assert OnceEach(T, k, b);
    }
  }

  lemma AdvanceInv(N: Network, w: World, t: nat)
    requires Inv(N, w) && Enabled(N, w, Advance(t))
    ensures Inv(N, Apply(N, w, Advance(t)))
  {
    var w' := Apply(N, w, Advance(t));
    assert TrainInv(N, w, t);
    AdvanceTrack(N[t], w.ctl.nextReq[t], w.ctl.nextLib[t], w.ctl.place[t], w.trk[t]);
    ConservedFrame(N, w, w', t);
    QuietStep(N, w, w', t);
  }

  // ----- locking -----

  /** The mask asked for, and the balise it is asked at, are those of the next request ever made. */
  lemma WantedIsStop(N: Network, w: World, t: nat)
    requires Inv(N, w) && t < 3
    ensures C.WantedMask(N, w.ctl, t) == StopMask(N[t].req, w.trk[t].req)
    ensures C.StopBal(N, w.ctl, t) == Node(N[t].path, ReqIdx(N[t], w.trk[t].req))
  {
    assert TrainInv(N, w, t);
    StopNode(N[t].path, N[t].req, w.trk[t].req);
  }

  /** A free mask has no bit that any train holds. */
  lemma FreeIsUnheld(N: Network, w: World, t: nat, b: nat)
    requires Inv(N, w) && Enabled(N, w, Lock(t))
    requires b in StopMask(N[t].req, w.trk[t].req)
    ensures b !in w.ctl.resources
    ensures !Holds(N[0], w.trk[0], b) && !Holds(N[1], w.trk[1], b) && !Holds(N[2], w.trk[2], b)
  {
    WantedIsStop(N, w, t);
    assert ConservedBit(N, w, b);
  }

  /** What a train holds after taking the mask of its next request. */
  lemma HoldsAfterLock(T: Train, k: Track, b: nat)
    requires TrainOk(T) && k.phase == Waiting && OnceEach(T, k, b)
    requires b in StopMask(T.req, k.req) ==> !Holds(T, k, b)
    ensures var k' := k.(phase := Commanding(0));
            && OnceEach(T, k', b)
            && (Holds(T, k', b) <==> Holds(T, k, b) || b in StopMask(T.req, k.req))
  {
  }

  /** A grant adds to the resource byte, and to the train, exactly the bits of its mask. */
  lemma LockTakesMask(N: Network, w: World, t: nat, b: nat)
    requires Inv(N, w) && Enabled(N, w, Lock(t))
    ensures var w' := Apply(N, w, Lock(t));
            && OnceEach(N[t], w'.trk[t], b)
            && (Holds(N[t], w'.trk[t], b) <==> Holds(N[t], w.trk[t], b) || b in StopMask(N[t].req, w.trk[t].req))
            && (b in w'.ctl.resources <==> b in w.ctl.resources || b in StopMask(N[t].req, w.trk[t].req))
  {
    assert TrainInv(N, w, t);
    WantedIsStop(N, w, t);
    if b in StopMask(N[t].req, w.trk[t].req) {
      FreeIsUnheld(N, w, t, b);
    }
    HoldsAfterLock(N[t], w.trk[t], b);
  }

  lemma LockConserved(N: Network, w: World, t: nat)
    requires Inv(N, w) && Enabled(N, w, Lock(t))
    ensures Conserved(N, Apply(N, w, Lock(t)))
  {
    var w' := Apply(N, w, Lock(t));
    forall b: nat ensures ConservedBit(N, w', b) {
      assert ConservedBit(N, w, b);
      LockTakesMask(N, w, t, b);
      if b in StopMask(N[t].req, w.trk[t].req) {
        FreeIsUnheld(N, w, t, b);
      }
    }
  }

  lemma LockInv(N: Network, w: World, t: nat)
    requires Inv(N, w) && Enabled(N, w, Lock(t))
    ensures Inv(N, Apply(N, w, Lock(t)))
  {
    var w' := Apply(N, w, Lock(t));
    assert TrainInv(N, w, t);
    forall b: nat ensures OnceEach(N[t], w'.trk[t], b) {
      LockTakesMask(N, w, t, b);
    }
    LockConserved(N, w, t);
    QuietStep(N, w, w', t);
  }

  // ----- reporting and releasing -----

  /** A release fires only once the train really is at or past its balise on the current lap. */
  lemma ReleaseReached(T: Train, k: Track, at: Pos)
    requires TrainOk(T) && (k.lib > 0 ==> LibIdx(T, k.lib - 1) <= k.rep.idx)
    requires Le(k.rep, at) && Node(T.path, at.idx) == T.lib.bal[Wrap(k.lib, T.lib.wrap)]
    ensures LibIdx(T, k.lib) <= at.idx
  {
    StopNode(T.path, T.lib, k.lib);
    SameNode(T.path, at.idx, LibIdx(T, k.lib));
    if k.lib > 0 {
      StopNext(T.path, T.lib, k.lib - 1);
    }
    if at.idx < LibIdx(T, k.lib) {
      WrapGap(at.idx, LibIdx(T, k.lib), |T.path|);
      assert false;
    }
  }

  /** A release gives back only bits that the train holds: grants never lag releases. */
  lemma ReleaseOwned(T: Train, nr: nat, nl: nat, p: Place, k: Track, at: Pos, b: nat)
    requires TrainOk(T) && ReleasesBacked(T) && TrackInv(T, nr, nl, p, k)
    requires Le(k.rep, at) && Le(at, k.pos) && at.off >= 0.0
    requires Node(T.path, at.idx) == T.lib.bal[Wrap(k.lib, T.lib.wrap)] && b in StopMask(T.lib, k.lib)
    ensures Holds(T, k, b)
  {
    ReleaseReached(T, k, at);
    assert Backed(T, k.lib, b);
    var r: nat :| KeptBy(T, b, LibIdx(T, k.lib), LibIdx(T, k.lib), r, k.lib);
    Passed(T, k, r, at);
    CountMono(T.req, r + 1, Taken(k), b);
  }

  predicate Frees(N: Network, w: World, t: nat, at: Pos)
    requires Shape(N, w) && t < 3
  {
    Node(N[t].path, at.idx) == N[t].lib.bal[w.ctl.nextLib[t]] && at.off >= 0.0
  }

  lemma ReportTrack(T: Train, nr: nat, nl: nat, p: Place, k: Track, at: Pos)
    requires TrainOk(T) && TrackInv(T, nr, nl, p, k)
    requires Le(k.rep, at) && Le(at, k.pos) && at.off >= 0.0
    ensures TrackInv(T, nr, nl, At(T.path, at), k.(rep := at))
  {
    forall b: nat ensures OnceEach(T, k.(rep := at), b) {
      assert OnceEach(T, k, b);
    }
  }

  lemma ReleaseTrack(T: Train, nr: nat, nl: nat, p: Place, k: Track, at: Pos)
    requires TrainOk(T) && ReleasesBacked(T) && TrackInv(T, nr, nl, p, k)
    requires Le(k.rep, at) && Le(at, k.pos) && at.off >= 0.0 && Node(T.path, at.idx) == T.lib.bal[nl]
    ensures TrackInv(T, nr, Next(nl, T.lib.wrap), At(T.path, at), k.(rep := at, lib := k.lib + 1))
  {
    ReleaseReached(T, k, at);
    WrapNext(k.lib, T.lib.wrap);
    var k' := k.(rep := at, lib := k.lib + 1);
    forall b: nat ensures OnceEach(T, k', b) {
      assert OnceEach(T, k, b);
      if b in StopMask(T.lib, k.lib) {
        ReleaseOwned(T, nr, nl, p, k, at, b);
      }
    }
  }

  /** The world after a report, spelled out. */
  lemma ReportEffect(N: Network, w: World, t: nat, at: Pos)
    requires Shape(N, w) && Enabled(N, w, Report(t, at))
    ensures var w' := Apply(N, w, Report(t, at));
            var free := Frees(N, w, t, at);
            && w'.ctl.nextReq == w.ctl.nextReq
            && w'.ctl.place == w.ctl.place[t := At(N[t].path, at)]
            && w'.ctl.nextLib == (if free then w.ctl.nextLib[t := Next(w.ctl.nextLib[t], N[t].lib.wrap)]
                else w.ctl.nextLib)
            && w'.ctl.resources == (if free then w.ctl.resources - N[t].lib.mask[w.ctl.nextLib[t]] else w.ctl.resources)
            && w'.trk[t] == w.trk[t].(rep := at, lib := if free then w.trk[t].lib + 1 else w.trk[t].lib)
  {
  }

  lemma ReportTrain(N: Network, w: World, t: nat, at: Pos)
    requires Inv(N, w) && Enabled(N, w, Report(t, at))
    ensures TrainInv(N, Apply(N, w, Report(t, at)), t)
  {
    assert TrainInv(N, w, t);
    ReportEffect(N, w, t, at);
    if Frees(N, w, t, at) {
      ReleaseTrack(N[t], w.ctl.nextReq[t], w.ctl.nextLib[t], w.ctl.place[t], w.trk[t], at);
    } else {
      ReportTrack(N[t], w.ctl.nextReq[t], w.ctl.nextLib[t], w.ctl.place[t], w.trk[t], at);
    }
  }

  lemma HoldsAfterRelease(T: Train, k: Track, at: Pos, b: nat)
    requires TrainOk(T) && OnceEach(T, k, b) && (b in StopMask(T.lib, k.lib) ==> Holds(T, k, b))
    ensures Holds(T, k.(rep := at, lib := k.lib + 1), b) <==> Holds(T, k, b) && b !in StopMask(T.lib, k.lib)
  {
  }

  lemma ReleaseHeld(N: Network, w: World, t: nat, at: Pos, b: nat)
    requires Inv(N, w) && Enabled(N, w, Report(t, at)) && Frees(N, w, t, at)
    ensures OnceEach(N[t], w.trk[t], b)
    ensures N[t].lib.mask[w.ctl.nextLib[t]] == StopMask(N[t].lib, w.trk[t].lib)
    ensures b in StopMask(N[t].lib, w.trk[t].lib) ==> Holds(N[t], w.trk[t], b)
  {
    assert TrainInv(N, w, t);
    if b in StopMask(N[t].lib, w.trk[t].lib) {
      ReleaseOwned(N[t], w.ctl.nextReq[t], w.ctl.nextLib[t], w.ctl.place[t], w.trk[t], at, b);
    }
  }

  /** A release removes from the train, and from the resource byte, exactly the bits of its mask, all of them held. */
  lemma ReleaseGivesMask(N: Network, w: World, w': World, t: nat, at: Pos, b: nat)
    requires Inv(N, w) && Enabled(N, w, Report(t, at)) && Frees(N, w, t, at) && |w'.trk| == 3
    requires w'.trk[t] == w.trk[t].(rep := at, lib := w.trk[t].lib + 1)
    requires w'.ctl.resources == w.ctl.resources - N[t].lib.mask[w.ctl.nextLib[t]]
    ensures b in StopMask(N[t].lib, w.trk[t].lib) ==> Holds(N[t], w.trk[t], b)
    ensures Holds(N[t], w'.trk[t], b) <==> Holds(N[t], w.trk[t], b) && b !in StopMask(N[t].lib, w.trk[t].lib)
    ensures b in w'.ctl.resources <==> b in w.ctl.resources && b !in StopMask(N[t].lib, w.trk[t].lib)
  {
    ReleaseHeld(N, w, t, at, b);
    HoldsAfterRelease(N[t], w.trk[t], at, b);
  }

  lemma ReportConserved(N: Network, w: World, t: nat, at: Pos)
    requires Inv(N, w) && Enabled(N, w, Report(t, at))
    ensures Conserved(N, Apply(N, w, Report(t, at)))
  {
    var w' := Apply(N, w, Report(t, at));
    if Frees(N, w, t, at) {
      ReportEffect(N, w, t, at);
      forall b: nat ensures ConservedBit(N, w', b) {
        assert ConservedBit(N, w, b);
        ReleaseGivesMask(N, w, w', t, at, b);
      }
    } else {
      ConservedFrame(N, w, w', t);
    }
  }

  lemma ReportInv(N: Network, w: World, t: nat, at: Pos)
    requires Inv(N, w) && Enabled(N, w, Report(t, at))
    ensures Inv(N, Apply(N, w, Report(t, at)))
  {
    var w' := Apply(N, w, Report(t, at));
    ReportTrain(N, w, t, at);
    ReportConserved(N, w, t, at);
    QuietStep(N, w, w', t);
  }

  // ----- issuing an authority -----

  /** Whatever stands on the train's path at or after its reported position is not passed by the issued authority. */
  lemma IssuedNearest(path: seq<int>, rep: Pos, stop: int, p: Place, q: Place, n: nat, off: real)
    requires |path| > 0 && Distinct(path)
    requires stop in path && p.posR >= 0.0 && q.posR >= 0.0 && !(p.bal == q.bal == Node(path, rep.idx))
    requires Objective(Node(path, n), off, stop, p, q) && Le(rep, Pos(n, off))
    requires Node(path, rep.idx) in path
    ensures var h := NextHop(path, At(path, rep), stop, p, q); Le(Pos(rep.idx + h.steps, h.off), Pos(n, off))
  {
    var cur := At(path, rep);
    IndexOfNode(path, rep.idx);
    var k := n - rep.idx;
    WrapShift(IndexOf(path, cur.bal), rep.idx, k, |path|);
    assert After(path, IndexOf(path, cur.bal), k) == Node(path, n);
    NearestUnlessShadowed(path, cur, stop, p, q);
  }

  /** The two other trains, in the order next_eoa looks at them. */
  lemma Others(t: nat, s: nat)
    requires t < 3 && s < 3 && s != t
    ensures s == (t + 1) % 3 || s == (t + 2) % 3
    ensures (t + 1) % 3 != t && (t + 2) % 3 != t && (t + 1) % 3 != (t + 2) % 3
  {
  }

  lemma NoTriple(N: Network, c: C.Control, t: nat)
    requires |N| == 3 && |c.place| == 3 && t < 3 && forall bal :: !Triple(N, bal)
    requires c.place[0].bal in N[0].path && c.place[1].bal in N[1].path && c.place[2].bal in N[2].path
    ensures !(c.place[(t + 1) % 3].bal == c.place[(t + 2) % 3].bal == c.place[t].bal)
  {
    assert !Triple(N, c.place[0].bal);
  }

  lemma PlaceOf(N: Network, w: World, t: nat)
    requires Inv(N, w) && t < 3
    ensures w.ctl.place[t] == At(N[t].path, w.trk[t].rep) && w.ctl.place[t].posR >= 0.0
    ensures w.ctl.place[t].bal in N[t].path
  {
    assert TrainInv(N, w, t);
  }

  lemma IssuedBefore(N: Network, w: World, t: nat, n: nat, off: real)
    requires Inv(N, w) && t < 3 && Le(w.trk[t].rep, Pos(n, off))
    requires Objective(Node(N[t].path, n), off, C.StopBal(N, w.ctl, t), w.ctl.place[(t + 1) % 3],
             w.ctl.place[(t + 2) % 3])
    ensures Le(Issued(N, w, t), Pos(n, off))
  {
    PlaceOf(N, w, t);
    PlaceOf(N, w, (t + 1) % 3);
    PlaceOf(N, w, (t + 2) % 3);
    NoTriple(N, w.ctl, t);
    IssuedNearest(N[t].path, w.trk[t].rep, C.StopBal(N, w.ctl, t), w.ctl.place[(t + 1) % 3], w.ctl.place[(t + 2) % 3],
        n, off);
  }

  /** An issued authority stops at the next ungranted request, at the latest. */
  lemma IssuedByRequest(N: Network, w: World, t: nat)
    requires Inv(N, w) && t < 3
    ensures Le(Issued(N, w, t), Pos(ReqIdx(N[t], w.trk[t].req), 0.0))
  {
    assert TrainInv(N, w, t);
    WantedIsStop(N, w, t);
    IssuedBefore(N, w, t, ReqIdx(N[t], w.trk[t].req), 0.0);
  }

  /** An issued authority never extends past the reported position of another train on the same path. */
  lemma IssuedByOther(N: Network, w: World, t: nat, s: nat)
    requires Inv(N, w) && t < 3 && s < 3 && s != t
    ensures Clear(N[t], N[s], w.trk[t], w.trk[s], Issued(N, w, t))
  {
    var r := w.trk[s].rep;
    PlaceOf(N, w, s);
    Others(t, s);
    forall n: nat | Node(N[t].path, n) == Node(N[s].path, r.idx) && Le(w.trk[t].rep, Pos(n, r.off))
      ensures Le(Issued(N, w, t), Pos(n, r.off))
    {
      IssuedBefore(N, w, t, n, r.off);
    }
  }

  lemma IssuedOffset(N: Network, w: World, t: nat)
    requires Inv(N, w) && t < 3
    ensures Issued(N, w, t).off >= 0.0
  {
    PlaceOf(N, w, (t + 1) % 3);
    PlaceOf(N, w, (t + 2) % 3);
    NextHopOffset(N[t].path, w.ctl.place[t], C.StopBal(N, w.ctl, t), w.ctl.place[(t + 1) % 3],
        w.ctl.place[(t + 2) % 3]);
  }

  /** Two trains are never authorised into the same guarded entry: one bit would be held twice. */
  lemma EntriesExclusive(N: Network, w: World, s: nat, t: nat, e: Pos)
    requires Inv(N, w) && s < 3 && t < 3 && s != t && Le(e, Pos(ReqIdx(N[s], w.trk[s].req), 0.0))
    ensures Exclusive(N[s], N[t], w.trk[s], w.trk[t], e)
  {
    hide ReleasesBacked, EntriesGuarded, Triple, Apart, Keeps;
    var a, b := w.trk[s], w.trk[t];
    assert TrainInv(N, w, s) && TrainInv(N, w, t);
    forall i: nat, j: nat {:trigger EntryGuarded(N[s], N[t], i, j)}
      | a.rep.idx < i && Le(Pos(i, 0.0), e) && b.rep.idx < j && Le(Pos(j, 0.0), b.auth)
      ensures !EntryGuarded(N[s], N[t], i, j)
    {
      forall x: nat ensures !(Keeps(N[s], x, i, i) && Keeps(N[t], x, j, j)) {
        assert ConservedBit(N, w, x);
        if Keeps(N[s], x, i, i) {
          HeldAtEntry(N[s], a, x, i, e);
          if Keeps(N[t], x, j, j) {
            HeldAtEntry(N[t], b, x, j, b.auth);
            assert false;
          }
        }
      }
    }
  }

  /** The span up to a farther issued authority is apart from every other train's span. */
  lemma IssuedApart(N: Network, w: World, t: nat, s: nat)
    requires Inv(N, w) && t < 3 && s < 3 && s != t && Lt(w.trk[t].auth, Issued(N, w, t))
    ensures Apart(N[t], N[s], w.trk[t].(auth := Issued(N, w, t), phase := Idle), w.trk[s])
  {
    var e := Issued(N, w, t);
    IssuedByRequest(N, w, t);
    IssuedByOther(N, w, t, s);
    EntriesExclusive(N, w, t, s, e);
    assert TrainInv(N, w, t);
    ExtendApart(N[t], N[s], w.trk[t], w.trk[s], e);
    ApartShrinks(N[t], N[s], w.trk[t].(auth := e), w.trk[t].(auth := e, phase := Idle), w.trk[s]);
  }

  lemma IssueTrack(T: Train, nr: nat, nl: nat, p: Place, k: Track, e: Pos)
    requires TrainOk(T) && TrackInv(T, nr, nl, p, k) && !k.phase.Commanding?
    requires e.off >= 0.0 && Le(e, Pos(ReqIdx(T, k.req), 0.0))
    ensures TrackInv(T, nr, nl, p, k.(auth := Max(k.auth, e), phase := Idle))
  {
    var k' := k.(auth := Max(k.auth, e), phase := Idle);
    forall b: nat ensures OnceEach(T, k', b) {
      assert OnceEach(T, k, b);
    }
  }

  lemma IssueInv(N: Network, w: World, t: nat)
    requires Inv(N, w) && Enabled(N, w, Issue(t))
    ensures Inv(N, Apply(N, w, Issue(t)))
  {
    hide EntriesGuarded, ReleasesBacked, Triple, Apart, Conserved, TrackInv;
    var w' := Apply(N, w, Issue(t));
    assert TrainInv(N, w, t);
    IssuedByRequest(N, w, t);
    IssuedOffset(N, w, t);
    IssueTrack(N[t], w.ctl.nextReq[t], w.ctl.nextLib[t], w.ctl.place[t], w.trk[t], Issued(N, w, t));
    ConservedFrame(N, w, w', t);
    if Lt(w.trk[t].auth, Issued(N, w, t)) {
      forall s | 0 <= s < 3 && s != t ensures Apart(N[t], N[s], w'.trk[t], w.trk[s]) {
        IssuedApart(N, w, t, s);
      }
      Assemble(N, w, w', t);
    } else {
      QuietStep(N, w, w', t);
    }
  }

  /** Every step keeps the invariant. */
  lemma StepInv(N: Network, w: World, e: Event, w': World)
    requires Inv(N, w) && Step(N, w, e, w')
    ensures Inv(N, w')
  {
    match e
    case Drive(t, to) => DriveInv(N, w, t, to);
    case Report(t, at) => ReportInv(N, w, t, at);
    case Demand(t) => DemandInv(N, w, t);
    case Lock(t) => LockInv(N, w, t);
    case Set(t) => SetInv(N, w, t);
    case Advance(t) => AdvanceInv(N, w, t);
    case Issue(t) => IssueInv(N, w, t);
  }

  lemma RunStep(N: Network, ws: seq<World>, es: seq<Event>, i: nat)
    requires Run(N, ws, es) && i < |es|
    ensures Step(N, ws[i], es[i], ws[i + 1])
  {
  }

  lemma FirstInv(N: Network, ws: seq<World>, es: seq<Event>)
    requires NetworkOk(N) && Run(N, ws, es)
    ensures Inv(N, ws[0])
  {
    StartInv(N, ws[0]);
  }

  lemma NextInv(N: Network, ws: seq<World>, es: seq<Event>, i: nat)
    requires Run(N, ws, es) && i < |es| && Inv(N, ws[i])
    ensures Inv(N, ws[i + 1])
  {
    RunStep(N, ws, es, i);
    StepInv(N, ws[i], es[i], ws[i + 1]);
  }

  /** Every world of every run satisfies the invariant. */
  lemma {:induction false} RunInv(N: Network, ws: seq<World>, es: seq<Event>, i: nat)
    requires NetworkOk(N) && Run(N, ws, es) && i < |ws|
    ensures Inv(N, ws[i])
  {
    if i == 0 {
      FirstInv(N, ws, es);
    } else {
      RunInv(N, ws, es, i - 1);
      NextInv(N, ws, es, i - 1);
    }
  }
}
