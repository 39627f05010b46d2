/** When a train is due for its next resources, told by balises and by the way it has come. */
module Requests {
  import opened Cyclic
  import opened Tables
  import opened Interlocking
  import opened Invariance
  import opened Deadlock
  import opened ShippedTables
  import C = Control

  // ----- by the reported balise -----

  /** The balise that comes before bal on a cyclic path. */
  ghost predicate Precedes(path: seq<int>, a: int, bal: int) {
    exists i: nat {:trigger path[i]} :: i < |path| && path[i] == bal && a == path[if i == 0 then |path| - 1 else i - 1]
  }

  /** A request is due exactly when the train is reported on the request balise or on the one that comes before it on
      its path, and not behind it. */
  lemma DueByBalise(N: Network, c: C.Control, t: nat)
    requires C.TablesOk(N) && C.ControlOk(N, c) && t < 3
    ensures var bal, stop := c.place[t].bal, N[t].req.bal[c.nextReq[t]];
            C.Demands(N, c, t) <==> c.place[t].posR >= 0.0 && (bal == stop || Precedes(N[t].path, bal, stop))
  {
    var path, bal, stop := N[t].path, c.place[t].bal, N[t].req.bal[c.nextReq[t]];
    assert stop in path;
    var k :| 0 <= k < |path| && path[k] == stop;
    if bal == stop {
      assert C.Before(path, bal, stop, k);
    }
    if Precedes(path, bal, stop) {
      var i: nat :| i < |path| && path[i] == stop && bal == path[if i == 0 then |path| - 1 else i - 1];
      assert C.Before(path, bal, stop, i);
    }
    if C.NearStop(path, bal, stop) && bal != stop {
      var i :| 0 <= i < |path| && C.Before(path, bal, stop, i);
      assert path[i] == stop;
    }
  }

  // ----- by the way it has come -----

  /** On or one balise before its next request a train is due. */
  lemma DueNear(N: Network, w: World, t: nat)
    requires Inv(N, w) && t < 3
    requires var q, r := ReqIdx(N[t], w.trk[t].req), w.trk[t].rep.idx; r == q || r + 1 == q
    ensures C.Demands(N, w.ctl, t)
  {
    hide EntriesGuarded, ReleasesBacked, Triple, Apart, Conserved, TrackInv;
    var path, q, r := N[t].path, ReqIdx(N[t], w.trk[t].req), w.trk[t].rep.idx;
    PlaceOf(N, w, t);
    WantedIsStop(N, w, t);
    var i := Wrap(q, |path|);
    if r + 1 == q {
      NodePrev(path, q);
    }
    assert C.Before(path, w.ctl.place[t].bal, C.StopBal(N, w.ctl, t), i);
  }

  /** And in a run that skips no release, nowhere else. */
  lemma DueIff(N: Network, w: World, t: nat)
    requires Inv(N, w) && Live(N) && LiveInv(N, w) && t < 3
    ensures C.Demands(N, w.ctl, t) <==>
              var q, r := ReqIdx(N[t], w.trk[t].req), w.trk[t].rep.idx; r == q || r + 1 == q
  {
    hide EntriesGuarded, ReleasesBacked, Triple, Apart, Conserved;
    var q, r := ReqIdx(N[t], w.trk[t].req), w.trk[t].rep.idx;
    if C.Demands(N, w.ctl, t) {
      assert TrainInv(N, w, t);
      assert Prompt(N[t], w.trk[t]) && Roomy(N[t]);
      PlaceOf(N, w, t);
      WantedIsStop(N, w, t);
      DemandNear(N[t], w.trk[t], w.ctl.place[t].bal, C.StopBal(N, w.ctl, t));
    } else if r == q || r + 1 == q {
      DueNear(N, w, t);
    }
  }

  // ----- on the repository's tables -----

  /** The two balises on which the r-th request of train t is due: the one it names last. */
  function DueAt(t: nat, r: nat): (int, int) {
    match (t, r)
    case (0, 0) => (2, 3)
    case (0, _) => (8, 9)
    case (1, 0) => (20, 21)
    case (1, 1) => (21, 17)
    case (1, _) => (17, 11)
    case (_, 0) => (23, 24)
    case (_, 1) => (28, 29)
    case (_, 2) => (29, 11)
    case (_, _) => (8, 9)
  }

  lemma OnlyBefore(path: seq<int>, i: nat, a: int)
    requires Distinct(path) && i < |path|
    ensures Precedes(path, a, path[i]) <==> a == path[if i == 0 then |path| - 1 else i - 1]
  {
    forall k: nat | k < |path| && path[k] == path[i] ensures k == i {
      assert Differ(path, i, k) && Differ(path, k, i);
    }
  }

  lemma ShippedStops(w: nat, t: nat, r: nat)
    requires (w == 3 || w == 4) && t < 3 && r < Shipped(w)[t].req.wrap
    ensures |Shipped(w)[t].req.bal| >= Shipped(w)[t].req.wrap && Shipped(w)[t].req.bal[r] == DueAt(t, r).1
    ensures forall a :: Precedes(Shipped(w)[t].path, a, DueAt(t, r).1) <==> a == DueAt(t, r).0
  {
    var path := Shipped(w)[t].path;
    var i := if t == 0 then [2, 7][r] else if t == 1 then r else [2, 9, 10, 15][r];
    assert path[i] == DueAt(t, r).1;
    if t == 0 {
      Train1Ok(w);
    } else if t == 1 {
      Train2Ok(w);
    } else {
      Train3Ok(w);
    }
    forall a ensures Precedes(path, a, path[i]) <==> a == path[if i == 0 then |path| - 1 else i - 1] {
      OnlyBefore(path, i, a);
    }
  }

  /** Each request of the repository's tables, by the cursor and the reported balise. */
  lemma ShippedDue(w: nat, c: C.Control, t: nat)
    requires (w == 3 || w == 4) && C.TablesOk(Shipped(w)) && C.ControlOk(Shipped(w), c) && t < 3
    ensures C.Demands(Shipped(w), c, t) <==>
              && c.place[t].posR >= 0.0
              && (c.place[t].bal == DueAt(t, c.nextReq[t]).0 || c.place[t].bal == DueAt(t, c.nextReq[t]).1)
  {
    hide Precedes, C.Demands, DueAt;
    DueByBalise(Shipped(w), c, t);
    ShippedStops(w, t, c.nextReq[t]);
  }
}
