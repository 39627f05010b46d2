/** Trains that wait for ever: a train that stands in the way of the train that holds what it needs. */
module Standstill {
  import opened Tables
  import opened Interlocking
  import opened Invariance

  /** From index m up to index e the path of B runs along the path of A from index n on. */
  ghost predicate Along(A: Train, B: Train, n: nat, m: nat, e: nat)
    requires |A.path| > 0 && |B.path| > 0
  {
    forall i: nat {:trigger Node(B.path, i)} :: m <= i <= e ==> Node(A.path, n + (i - m)) == Node(B.path, i)
  }

  /** Short of its j-th release the train does not give b back. */
  predicate Keeping(T: Train, k: Track, b: nat, j: nat)
    requires 0 < T.req.wrap <= |T.req.mask| && 0 < T.lib.wrap <= |T.lib.mask|
  {
    k.lib <= j && Count(T.req, Taken(k), b) > Count(T.lib, j, b)
  }

  /** Train u is reported where the authority of train h ends, or beyond, on track that both use up to the next request
      of u; index m of u's path is index n of h's. */
  ghost predicate Ahead(N: Network, w: World, h: nat, u: nat, n: nat, m: nat)
    requires NetworkOk(N) && Shape(N, w) && h < 3 && u < 3
  {
    var a, k := w.trk[h], w.trk[u];
    && h != u && m <= k.rep.idx && !k.phase.Commanding?
    && Along(N[h], N[u], n, m, ReqIdx(N[u], k.req))
    && Le(a.auth, Pos(n + (k.rep.idx - m), k.rep.off))
  }

  /** The j-th release of h lies beyond the next request of u. */
  ghost predicate Beyond(N: Network, w: World, h: nat, u: nat, n: nat, m: nat, j: nat)
    requires NetworkOk(N) && Shape(N, w) && h < 3 && u < 3 && m <= w.trk[u].rep.idx
  {
    var e := ReqIdx(N[u], w.trk[u].req);
    m <= e && n + (e - m) < LibIdx(N[h], j)
  }

  /** Train u needs bit c next; h holds it, and gives it back only beyond the place where u has to stop without it. */
  ghost predicate Cornered(N: Network, w: World, h: nat, u: nat, c: nat, j: nat, n: nat, m: nat)
    requires NetworkOk(N) && Shape(N, w) && h < 3 && u < 3
  {
    && Ahead(N, w, h, u, n, m) && Beyond(N, w, h, u, n, m, j)
    && c in StopMask(N[u].req, w.trk[u].req) && Keeping(N[h], w.trk[h], c, j)
  }

  lemma KeepingHolds(T: Train, k: Track, b: nat, j: nat)
    requires TrainOk(T) && Keeping(T, k, b, j)
    ensures Holds(T, k, b)
  {
    CountMono(T.lib, k.lib, j, b);
  }

  lemma KeptLocked(N: Network, w: World, h: nat, b: nat, j: nat)
    requires Inv(N, w) && h < 3 && Keeping(N[h], w.trk[h], b, j)
    ensures b in w.ctl.resources
  {
    KeepingHolds(N[h], w.trk[h], b, j);
    assert ConservedBit(N, w, b);
  }

  /** No poll for a mask with such a bit succeeds. */
  lemma NoLock(N: Network, w: World, h: nat, b: nat, j: nat, t: nat)
    requires Inv(N, w) && h < 3 && t < 3 && Keeping(N[h], w.trk[h], b, j) && b in StopMask(N[t].req, w.trk[t].req)
    ensures !Enabled(N, w, Lock(t))
  {
    KeptLocked(N, w, h, b, j);
    WantedIsStop(N, w, t);
  }

  // ----- what a step changes -----

  /** A report that gives back release j has been made at that release's balise or beyond. */
  lemma KeepingReport(T: Train, nr: nat, nl: nat, p: Place, k: Track, at: Pos, b: nat, j: nat)
    requires TrainOk(T) && TrackInv(T, nr, nl, p, k) && Keeping(T, k, b, j)
    requires Le(k.rep, at) && at.idx < LibIdx(T, j)
    ensures Keeping(T, k.(rep := at), b, j)
    ensures Node(T.path, at.idx) == T.lib.bal[nl] ==> Keeping(T, k.(rep := at, lib := k.lib + 1), b, j)
  {
    if Node(T.path, at.idx) == T.lib.bal[nl] {
      ReleaseReached(T, k, at);
    }
  }

  lemma KeepingGrows(T: Train, k: Track, k': Track, b: nat, j: nat)
    requires TrainOk(T) && Keeping(T, k, b, j) && k'.lib == k.lib && Taken(k) <= Taken(k')
    ensures Keeping(T, k', b, j)
  {
    CountMono(T.req, Taken(k), Taken(k'), b);
  }

  /** Every step but a report leaves releases alone and takes grants only forward. */
  lemma TakenOnly(N: Network, w: World, e: Event, t: nat)
    requires Shape(N, w) && Enabled(N, w, e) && t < 3 && !(e.Report? && e.t == t)
    ensures var k, k' := w.trk[t], Apply(N, w, e).trk[t];
            k'.rep == k.rep && k'.lib == k.lib && Taken(k) <= Taken(k')
  {
  }

  lemma TrackOf(N: Network, w: World, t: nat)
    requires Inv(N, w) && t < 3
    ensures TrainOk(N[t]) && TrackInv(N[t], w.ctl.nextReq[t], w.ctl.nextLib[t], w.ctl.place[t], w.trk[t])
  {
    assert TrainInv(N, w, t);
  }

  lemma KeepingReported(N: Network, w: World, h: nat, at: Pos, b: nat, j: nat)
    requires Inv(N, w) && Enabled(N, w, Report(h, at)) && h < 3 && Keeping(N[h], w.trk[h], b, j)
    requires w.trk[h].auth.idx < LibIdx(N[h], j)
    ensures Keeping(N[h], Apply(N, w, Report(h, at)).trk[h], b, j)
  {
    InvShape(N, w);
    hide Inv, NetworkOk, TrackInv, Keeping, Apply, LibIdx;
    TrackOf(N, w, h);
    ReportBounds(N, w, h, at);
    ReportEffect(N, w, h, at);
    KeepingReport(N[h], w.ctl.nextReq[h], w.ctl.nextLib[h], w.ctl.place[h], w.trk[h], at, b, j);
  }

  lemma KeepingStep(N: Network, w: World, e: Event, h: nat, b: nat, j: nat)
    requires Inv(N, w) && Enabled(N, w, e) && h < 3 && Keeping(N[h], w.trk[h], b, j)
    requires w.trk[h].auth.idx < LibIdx(N[h], j)
    ensures Keeping(N[h], Apply(N, w, e).trk[h], b, j)
  {
    hide Inv, NetworkOk, Keeping, Apply, LibIdx, Enabled;
    if e.Report? && e.t == h {
      KeepingReported(N, w, h, e.at, b, j);
    } else {
      InvShape(N, w);
      TrackOf(N, w, h);
      TakenOnly(N, w, e, h);
      KeepingGrows(N[h], w.trk[h], Apply(N, w, e).trk[h], b, j);
    }
  }

  /** Reports stay within the authority, and the authority within the next request. */
  lemma ReportBounds(N: Network, w: World, t: nat, at: Pos)
    requires Inv(N, w) && Enabled(N, w, Report(t, at))
    ensures Le(at, w.trk[t].auth) && Le(w.trk[t].auth, Pos(ReqIdx(N[t], w.trk[t].req), 0.0))
  {
    assert TrainInv(N, w, t);
  }

  lemma RepBounds(N: Network, w: World, t: nat)
    requires Inv(N, w) && t < 3
    ensures var k := w.trk[t];
            Le(k.rep, k.auth) && Le(k.auth, Pos(ReqIdx(N[t], k.req), 0.0))
  {
    assert TrainInv(N, w, t);
  }

  /** No authority of h passes the place where u is reported. */
  lemma IssuedBehind(N: Network, w: World, h: nat, u: nat, n: nat, m: nat)
    requires Inv(N, w) && h < 3 && u < 3 && Ahead(N, w, h, u, n, m)
    ensures var k := w.trk[u]; Le(Issued(N, w, h), Pos(n + (k.rep.idx - m), k.rep.off))
  {
    var r := w.trk[u].rep;
    RepBounds(N, w, h);
    RepBounds(N, w, u);
    IssuedByOther(N, w, h, u);
    assert Node(N[h].path, n + (r.idx - m)) == Node(N[u].path, r.idx);
  }

  /** Whatever u does short of a grant, it stays ahead. */
  lemma AheadOwn(N: Network, w: World, e: Event, h: nat, u: nat, n: nat, m: nat)
    requires Inv(N, w) && Enabled(N, w, e) && h < 3 && u < 3 && Ahead(N, w, h, u, n, m) && e.t == u && !e.Lock?
    ensures Apply(N, w, e).trk[u].req == w.trk[u].req && Ahead(N, Apply(N, w, e), h, u, n, m)
  {
    hide EntriesGuarded, ReleasesBacked, Triple, Apart, Conserved, TrackInv, Along;
    if e.Report? {
      ReportEffect(N, w, u, e.at);
    }
  }

  lemma AheadBehind(N: Network, w: World, e: Event, h: nat, u: nat, n: nat, m: nat)
    requires Inv(N, w) && Enabled(N, w, e) && h < 3 && u < 3 && Ahead(N, w, h, u, n, m) && e.t == h
    ensures Ahead(N, Apply(N, w, e), h, u, n, m)
  {
    hide EntriesGuarded, ReleasesBacked, Triple, Apart, Conserved, TrackInv, Along;
    if e.Issue? {
      IssuedBehind(N, w, h, u, n, m);
    }
  }

  lemma OthersKeep(N: Network, w: World, e: Event, s: nat)
    requires Shape(N, w) && Enabled(N, w, e) && s < 3 && s != e.t
    ensures Apply(N, w, e).trk[s] == w.trk[s]
  {
  }

  lemma AheadStep(N: Network, w: World, e: Event, h: nat, u: nat, n: nat, m: nat)
    requires Inv(N, w) && Enabled(N, w, e) && h < 3 && u < 3 && Ahead(N, w, h, u, n, m) && e != Lock(u)
    ensures Ahead(N, Apply(N, w, e), h, u, n, m) && Apply(N, w, e).trk[u].req == w.trk[u].req
    ensures m <= Apply(N, w, e).trk[u].rep.idx
  {
    hide EntriesGuarded, ReleasesBacked, Triple, Apart, Conserved, TrackInv, Along, Apply, Enabled;
    if e.t == u {
      AheadOwn(N, w, e, h, u, n, m);
      OthersKeep(N, w, e, h);
    } else if e.t == h {
      AheadBehind(N, w, e, h, u, n, m);
      OthersKeep(N, w, e, u);
    } else {
      OthersKeep(N, w, e, h);
      OthersKeep(N, w, e, u);
    }
  }

  /** While u is ahead, h has no authority to any release beyond. */
  lemma ShortOfRelease(N: Network, w: World, h: nat, u: nat, n: nat, m: nat, j: nat)
    requires Inv(N, w) && h < 3 && u < 3 && Ahead(N, w, h, u, n, m) && Beyond(N, w, h, u, n, m, j)
    ensures w.trk[h].auth.idx < LibIdx(N[h], j)
  {
    RepBounds(N, w, u);
  }

  /** One step later everything is as before. */
  lemma CorneredStep(N: Network, w: World, e: Event, h: nat, u: nat, c: nat, j: nat, n: nat, m: nat)
    requires Inv(N, w) && Enabled(N, w, e) && h < 3 && u < 3 && Cornered(N, w, h, u, c, j, n, m)
    ensures Cornered(N, Apply(N, w, e), h, u, c, j, n, m) && Apply(N, w, e).trk[u].req == w.trk[u].req
  {
    hide Inv, NetworkOk, Ahead, Keeping, Apply, Enabled;
    InvShape(N, w);
    NoLock(N, w, h, c, j, u);
    AheadStep(N, w, e, h, u, n, m);
    ShortOfRelease(N, w, h, u, n, m, j);
    KeepingStep(N, w, e, h, c, j);
  }

  // ----- for ever -----

  /** A cornered train is never granted its next request again, over any continuation of any run on any network. */
  lemma {:induction false} NeverGranted(N: Network, ws: seq<World>, es: seq<Event>, i: nat, k: nat,
                                        h: nat, u: nat, c: nat, j: nat, n: nat, m: nat)
    requires NetworkOk(N) && Run(N, ws, es) && i <= k < |ws| && h < 3 && u < 3
    requires Shape(N, ws[i]) && Cornered(N, ws[i], h, u, c, j, n, m)
    ensures Inv(N, ws[k]) && Cornered(N, ws[k], h, u, c, j, n, m)
    ensures ws[k].trk[u].req == ws[i].trk[u].req && c in ws[k].ctl.resources && !Enabled(N, ws[k], Lock(u))
    decreases k - i
  {
    hide Inv, NetworkOk, Cornered, Enabled;
    RunInv(N, ws, es, k);
    if i < k {
      NeverGranted(N, ws, es, i, k - 1, h, u, c, j, n, m);
      RunStep(N, ws, es, k - 1);
      CorneredStep(N, ws[k - 1], es[k - 1], h, u, c, j, n, m);
    }
    CorneredStays(N, ws[k], h, u, c, j, n, m);
  }

  lemma CorneredStays(N: Network, w: World, h: nat, u: nat, c: nat, j: nat, n: nat, m: nat)
    requires Inv(N, w) && h < 3 && u < 3 && Cornered(N, w, h, u, c, j, n, m)
    ensures c in w.ctl.resources && !Enabled(N, w, Lock(u))
  {
    KeptLocked(N, w, h, c, j);
    NoLock(N, w, h, c, j, u);
  }

  /** Whatever else h holds and gives back only beyond the cornered train is never free again either. */
  lemma {:induction false} NeverFree(N: Network, ws: seq<World>, es: seq<Event>, i: nat, k: nat,
                                     h: nat, u: nat, c: nat, j: nat, n: nat, m: nat, b: nat, j': nat)
    requires NetworkOk(N) && Run(N, ws, es) && i <= k < |ws| && h < 3 && u < 3
    requires Shape(N, ws[i]) && Cornered(N, ws[i], h, u, c, j, n, m)
    requires Keeping(N[h], ws[i].trk[h], b, j') && Beyond(N, ws[i], h, u, n, m, j')
    ensures Inv(N, ws[k]) && Cornered(N, ws[k], h, u, c, j, n, m)
    ensures Keeping(N[h], ws[k].trk[h], b, j') && Beyond(N, ws[k], h, u, n, m, j') && b in ws[k].ctl.resources
    decreases k - i
  {
    hide Inv, NetworkOk, Ahead, Keeping, Enabled;
    NeverGranted(N, ws, es, i, k, h, u, c, j, n, m);
    if i < k {
      NeverFree(N, ws, es, i, k - 1, h, u, c, j, n, m, b, j');
      NeverGranted(N, ws, es, i, k - 1, h, u, c, j, n, m);
      RunStep(N, ws, es, k - 1);
      ShortOfRelease(N, ws[k - 1], h, u, n, m, j');
      KeepingStep(N, ws[k - 1], es[k - 1], h, b, j');
    }
    KeptLocked(N, ws[k], h, b, j');
  }

  /** For trains reported at different places the reports decide who is ahead: the authority of a train ends at or
      before any place ahead of it where another train is reported. */
  lemma BehindByReports(N: Network, w: World, h: nat, u: nat, n: nat)
    requires Inv(N, w) && h < 3 && u < 3 && h != u && Node(N[h].path, n) == Node(N[u].path, w.trk[u].rep.idx)
    requires Lt(w.trk[h].rep, Pos(n, w.trk[u].rep.off))
    ensures Le(w.trk[h].auth, Pos(n, w.trk[u].rep.off))
  {
    var a, k := w.trk[h], w.trk[u];
    assert TrainInv(N, w, h) && TrainInv(N, w, u);
    assert Apart(N[h], N[u], a, k);
    if Lt(Pos(n, k.rep.off), a.auth) {
      assert On(a, Pos(n, k.rep.off)) && On(k, Pos(k.rep.idx, k.rep.off));
      assert false;
    }
  }
}
