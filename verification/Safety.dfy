/** What the interlocking guarantees in every world of every run. */
module Safety {
  import opened Cyclic
  import opened Tables
  import opened Interlocking
  import opened Invariance
  import opened ShippedTables
  import opened ShippedCoherent

  // ----- resources -----

  /** Mutual exclusion and conservation: a bit of the resource byte is set exactly when one single train holds it. */
  lemma Conservation(N: Network, ws: seq<World>, es: seq<Event>, i: nat, b: nat)
    requires NetworkOk(N) && Run(N, ws, es) && i < |ws|
    ensures Shape(N, ws[i])
    ensures b in ws[i].ctl.resources <==> exists t: nat :: t < 3 && Holds(N[t], ws[i].trk[t], b)
    ensures forall s: nat, t: nat ::
              s < 3 && t < 3 && Holds(N[s], ws[i].trk[s], b) && Holds(N[t], ws[i].trk[t], b) ==> s == t
  {
    RunInv(N, ws, es, i);
    var w := ws[i];
    assert ConservedBit(N, w, b);
    if b in w.ctl.resources {
      assert Holds(N[0], w.trk[0], b) || Holds(N[1], w.trk[1], b) || Holds(N[2], w.trk[2], b);
    }
  }

  /** The true position of the train is strictly between the balise of its r-th request, which brings bit b,
      and the balise of its j-th release, before which that b has not been given back. */
  ghost predicate InZone(T: Train, k: Track, b: nat, r: nat, j: nat)
    requires TrainOk(T)
  {
    && b in StopMask(T.req, r) && Count(T.lib, j, b) <= Count(T.req, r, b)
    && Lt(Pos(ReqIdx(T, r), 0.0), k.pos) && Lt(k.pos, Pos(LibIdx(T, j), 0.0))
  }

  /** The part of the invariant that orders a train's releases, report, position, authority and next request. */
  ghost predicate OnCourse(T: Train, k: Track)
    requires TrainOk(T)
  {
    && (k.lib > 0 ==> LibIdx(T, k.lib - 1) <= k.rep.idx)
    && Le(k.rep, k.pos) && Le(k.pos, k.auth) && Le(k.auth, Pos(ReqIdx(T, k.req), 0.0)) && k.pos.off >= 0.0
  }

  lemma ZoneTrack(T: Train, k: Track, b: nat, r: nat, j: nat)
    requires TrainOk(T) && OnCourse(T, k)
    requires InZone(T, k, b, r, j)
    ensures Holds(T, k, b)
  {
    Passed(T, k, r, k.auth);
    HeldBetween(T, k, b, r, j);
  }

  /** Zone safety: a train inside the zone of a resource holds the resource. */
  lemma ZoneHeld(N: Network, ws: seq<World>, es: seq<Event>, i: nat, t: nat, b: nat, r: nat, j: nat)
    requires NetworkOk(N) && Run(N, ws, es) && i < |ws| && t < 3
    requires |ws[i].trk| == 3 && InZone(N[t], ws[i].trk[t], b, r, j)
    ensures Holds(N[t], ws[i].trk[t], b) && b in ws[i].ctl.resources
  {
    RunInv(N, ws, es, i);
    assert TrainInv(N, ws[i], t);
    ZoneTrack(N[t], ws[i].trk[t], b, r, j);
    assert ConservedBit(N, ws[i], b);
  }

  /** Two trains are never inside zones of the same resource. */
  lemma ZonesExclusive(N: Network, ws: seq<World>, es: seq<Event>, i: nat, b: nat,
                       s: nat, r: nat, j: nat, t: nat, r': nat, j': nat)
    requires NetworkOk(N) && Run(N, ws, es) && i < |ws| && s < 3 && t < 3 && |ws[i].trk| == 3
    requires InZone(N[s], ws[i].trk[s], b, r, j) && InZone(N[t], ws[i].trk[t], b, r', j')
    ensures s == t
  {
    ZoneHeld(N, ws, es, i, s, b, r, j);
    ZoneHeld(N, ws, es, i, t, b, r', j');
    Conservation(N, ws, es, i, b);
  }

  // ----- authority -----

  lemma NotBetween(A: Train, B: Train, a: Track, b: Track, n: nat)
    requires |A.path| > 0 && |B.path| > 0 && Apart(A, B, a, b)
    requires Le(a.rep, a.pos) && Le(b.rep, b.pos) && Le(b.pos, b.auth) && b.pos.off >= 0.0
    requires Node(A.path, n) == Node(B.path, b.pos.idx)
    ensures !(Lt(a.pos, Pos(n, b.pos.off)) && Lt(Pos(n, b.pos.off), a.auth))
  {
    var y := Pos(b.pos.idx, b.pos.off);
    assert On(b, y);
    if Lt(a.pos, Pos(n, b.pos.off)) && Lt(Pos(n, b.pos.off), a.auth) {
      assert On(a, Pos(n, b.pos.off));
    }
  }

  /** Authority soundness: no train is ever strictly between another train and the farthest point that one has
      been authorised to, wherever the two paths share a balise. */
  lemma AuthoritySound(N: Network, ws: seq<World>, es: seq<Event>, i: nat, s: nat, t: nat, n: nat)
    requires NetworkOk(N) && Run(N, ws, es) && i < |ws| && s < 3 && t < 3 && s != t && |ws[i].trk| == 3
    requires Node(N[s].path, n) == Node(N[t].path, ws[i].trk[t].pos.idx)
    ensures var a, p := ws[i].trk[s], ws[i].trk[t].pos; !(Lt(a.pos, Pos(n, p.off)) && Lt(Pos(n, p.off), a.auth))
  {
    RunInv(N, ws, es, i);
    assert TrainInv(N, ws[i], s) && TrainInv(N, ws[i], t);
    NotBetween(N[s], N[t], ws[i].trk[s], ws[i].trk[t], n);
  }

  /** At the moment it is issued, an End Of Authority passes neither the next ungranted request nor any train
      reported ahead on the same path. */
  lemma IssuedSound(N: Network, ws: seq<World>, es: seq<Event>, i: nat, t: nat)
    requires NetworkOk(N) && Run(N, ws, es) && i < |es| && es[i] == Issue(t) && t < 3
    ensures Shape(N, ws[i])
    ensures Le(Issued(N, ws[i], t), Pos(ReqIdx(N[t], ws[i].trk[t].req), 0.0))
    ensures forall s :: 0 <= s < 3 && s != t ==> Clear(N[t], N[s], ws[i].trk[t], ws[i].trk[s], Issued(N, ws[i], t))
  {
    RunInv(N, ws, es, i);
    IssuedByRequest(N, ws[i], t);
    forall s | 0 <= s < 3 && s != t
      ensures Clear(N[t], N[s], ws[i].trk[t], ws[i].trk[s], Issued(N, ws[i], t))
    {
      IssuedByOther(N, ws[i], t, s);
    }
  }

  // ----- opposing directions -----

  /** Whatever length of track two paths run in opposite directions, one bit is kept by both along it. */
  ghost predicate OppositionGuarded(A: Train, B: Train)
    requires TrainOk(A) && TrainOk(B)
  {
    forall i: nat, j: nat {:trigger StretchGuarded(A, B, i, j)} ::
      Facing(A.path, B.path, i, j) ==> StretchGuarded(A, B, i, j)
  }

  /** Canton i of the first path is canton j of the second, run the other way. */
  predicate Facing(P: seq<int>, Q: seq<int>, i: nat, j: nat)
    requires |P| > 0 && |Q| > 0
  {
    Node(P, i) == Node(Q, j + 1) && Node(P, i + 1) == Node(Q, j)
  }

  ghost predicate StretchGuarded(A: Train, B: Train, i: nat, j: nat)
    requires TrainOk(A) && TrainOk(B)
  {
    exists b: nat :: KeptAlong(A, b, i) && KeptAlong(B, b, j)
  }

  ghost predicate KeptAlong(T: Train, b: nat, i: nat)
    requires TrainOk(T)
  {
    Keeps(T, b, i, i + 1)
  }

  /** A train that truly stands in canton i holds every bit kept along it. */
  lemma HeldInCanton(T: Train, k: Track, b: nat, i: nat)
    requires TrainOk(T) && OnCourse(T, k)
    requires k.pos.idx == i && KeptAlong(T, b, i)
    ensures Holds(T, k, b)
  {
    var r: nat, j: nat :| KeptBy(T, b, i, i + 1, r, j);
    Passed(T, k, r, k.auth);
    HeldBetween(T, k, b, r, j);
  }

  /** Standing on opposite runs of one stretch, both trains would hold the bit that guards it. */
  lemma NotOpposed(A: Train, B: Train, a: Track, b: Track)
    requires TrainOk(A) && TrainOk(B) && OppositionGuarded(A, B)
    requires OnCourse(A, a) && OnCourse(B, b)
    requires forall x: nat :: !(Holds(A, a, x) && Holds(B, b, x))
    ensures !Facing(A.path, B.path, a.pos.idx, b.pos.idx)
  {
    var i, j := a.pos.idx, b.pos.idx;
    assert StretchGuarded(A, B, i, j) || !StretchGuarded(A, B, i, j);
    if StretchGuarded(A, B, i, j) {
      var x: nat :| KeptAlong(A, x, i) && KeptAlong(B, x, j);
      HeldInCanton(A, a, x, i);
      HeldInCanton(B, b, x, j);
      assert false;
    }
  }

  lemma TrainFacts(N: Network, w: World, s: nat, t: nat)
    requires Inv(N, w) && s < 3 && t < 3 && s != t
    ensures OnCourse(N[s], w.trk[s]) && OnCourse(N[t], w.trk[t])
    ensures forall x: nat :: !(Holds(N[s], w.trk[s], x) && Holds(N[t], w.trk[t], x))
  {
    assert TrainInv(N, w, s) && TrainInv(N, w, t);
    forall x: nat ensures !(Holds(N[s], w.trk[s], x) && Holds(N[t], w.trk[t], x)) {
      assert ConservedBit(N, w, x);
    }
  }

  /** No head-on meeting: two trains are never on the same stretch of track in opposite directions. */
  lemma NoHeadOn(N: Network, ws: seq<World>, es: seq<Event>, n: nat, s: nat, t: nat)
    requires NetworkOk(N) && Run(N, ws, es) && n < |ws| && s < 3 && t < 3 && s != t && |ws[n].trk| == 3
    requires OppositionGuarded(N[s], N[t])
    ensures !Facing(N[s].path, N[t].path, ws[n].trk[s].pos.idx, ws[n].trk[t].pos.idx)
  {
    RunInv(N, ws, es, n);
    TrainFacts(N, ws[n], s, t);
    NotOpposed(N[s], N[t], ws[n].trk[s], ws[n].trk[t]);
  }

  // ----- the repository's tables -----

  /** On the first lap, R5 is kept by trains 2 and 3 along the cantons between balises 25 and 251. */
  lemma SectionBase(w: nat, t: nat, r: nat)
    requires (t == 1 || t == 2) && (w == 3 || w == 4) && TrainOk(Shipped(w)[t]) && 3 <= r <= 5
    ensures Keeps(Shipped(w)[t], 4, r, r + 1)
  {
    Lap2(4);
    Lap3(4);
    if t == 1 {
      assert KeptBy(Shipped(w)[1], 4, r, r + 1, 2, 3);
    } else {
      assert KeptBy(Shipped(w)[2], 4, r, r + 1, 0, 0);
    }
  }

  lemma SectionKept(w: nat, t: nat, i: nat)
    requires (t == 1 || t == 2) && (w == 3 || w == 4) && TrainOk(Shipped(w)[t])
    requires 3 <= Wrap(i, |Shipped(w)[t].path|) <= 5
    ensures KeptAlong(Shipped(w)[t], 4, i)
  {
    SectionBase(w, t, Wrap(i, |Shipped(w)[t].path|));
    Balanced(w, t, 4);
    KeepsEveryLap(Shipped(w)[t], 4, i, 1);
  }

  predicate OpposedAt(P: seq<int>, Q: seq<int>, r: nat, s: nat)
    requires r < |P| && s < |Q|
  {
    P[r] == Q[Next(s, |Q|)] && P[Next(r, |P|)] == Q[s]
  }

  lemma Opposed12(r: nat, s: nat)
    requires r < 8 && s < 8
    ensures !OpposedAt(PATH_1, PATH_2, r, s)
  {
  }

  lemma Opposed13(r: nat, s: nat)
    requires r < 8 && s < 16
    ensures !OpposedAt(PATH_1, PATH_3, r, s)
  {
  }

  lemma Opposed23(r: nat, s: nat)
    requires r < 8 && s < 16 && OpposedAt(PATH_2, PATH_3, r, s)
    ensures 3 <= r <= 5 && 3 <= s <= 5
  {
  }

  lemma OppositionOk(w: nat, s: nat, t: nat)
    requires s < t < 3 && (w == 3 || w == 4) && TrainOk(Shipped(w)[s]) && TrainOk(Shipped(w)[t])
    ensures OppositionGuarded(Shipped(w)[s], Shipped(w)[t])
  {
    var A, B := Shipped(w)[s], Shipped(w)[t];
    forall i: nat, j: nat {:trigger StretchGuarded(A, B, i, j)}
      | Facing(A.path, B.path, i, j)
      ensures StretchGuarded(A, B, i, j)
    {
      WrapNext(i, |A.path|);
      WrapNext(j, |B.path|);
      var r, q := Wrap(i, |A.path|), Wrap(j, |B.path|);
      if t == 1 {
        Opposed12(r, q);
      } else if s == 0 {
        Opposed13(r, q);
      } else {
        Opposed23(r, q);
        SectionKept(w, s, i);
        SectionKept(w, t, j);
      }
    }
  }

  /** On the repository's network, whether or not the release cursor of train 2 is mended, no two trains ever
      run towards each other on one stretch of track; the section 25-250-26-251 is where they could. */
  lemma ShippedNoHeadOn(w: nat, ws: seq<World>, es: seq<Event>, n: nat, s: nat, t: nat)
    requires (w == 3 || w == 4) && Run(Shipped(w), ws, es) && n < |ws| && s < t < 3 && |ws[n].trk| == 3
    ensures !Facing(Shipped(w)[s].path, Shipped(w)[t].path, ws[n].trk[s].pos.idx, ws[n].trk[t].pos.idx)
  {
    ShippedOk(w);
    OppositionOk(w, s, t);
    NoHeadOn(Shipped(w), ws, es, n, s, t);
  }

  /** Trains 2 and 3 are never both between balises 25 and 251, in whichever cantons. */
  lemma ShippedSection(w: nat, ws: seq<World>, es: seq<Event>, n: nat)
    requires (w == 3 || w == 4) && Run(Shipped(w), ws, es) && n < |ws| && |ws[n].trk| == 3
    ensures !(3 <= Wrap(ws[n].trk[1].pos.idx, 8) <= 5 && 3 <= Wrap(ws[n].trk[2].pos.idx, 16) <= 5)
  {
    var N := Shipped(w);
    ShippedOk(w);
    RunInv(N, ws, es, n);
    TrainFacts(N, ws[n], 1, 2);
    var i, j := ws[n].trk[1].pos.idx, ws[n].trk[2].pos.idx;
    if 3 <= Wrap(i, 8) <= 5 && 3 <= Wrap(j, 16) <= 5 {
      SectionKept(w, 1, i);
      SectionKept(w, 2, j);
      HeldInCanton(N[1], ws[n].trk[1], 4, i);
      HeldInCanton(N[2], ws[n].trk[2], 4, j);
      assert false;
    }
  }
}
