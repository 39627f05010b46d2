/** The mended tables of the repository: which steps put a train in the way, and what grants must look at. */
module GrantGuard {
  import opened Tables
  import opened Interlocking
  import opened Invariance
  import opened Deadlock
  import opened Standstill
  import opened LivePaths
  import opened HoldUps
  import opened Grantable
  import opened WaitsIff

  // ----- trains on one track do not pass each other -----

  /** The reports of both trains lie on one balise index of each path: the one of h is not passed by the one of u. */
  lemma NotThrough(N: Network, w: World, h: nat, u: nat, at: Pos, i: nat, j: nat)
    requires Inv(N, w) && h < 3 && u < 3 && h != u && Enabled(N, w, Report(u, at))
    requires Node(N[h].path, i) == Node(N[u].path, j) && i == w.trk[h].rep.idx
    requires Lt(w.trk[u].rep, Pos(j, w.trk[h].rep.off)) && Le(Pos(j, w.trk[h].rep.off), at)
    ensures at == w.trk[u].auth == Pos(j, w.trk[h].rep.off)
  {
    var a, k := w.trk[h], w.trk[u];
    RepBounds(N, w, h);
    ReportBounds(N, w, u, at);
    Spans(N, w, h, u);
    assert On(a, Pos(i, a.rep.off)) && On(k, Pos(j, a.rep.off));
  }

  lemma Spans(N: Network, w: World, h: nat, u: nat)
    requires Inv(N, w) && h < 3 && u < 3 && h != u
    ensures Apart(N[h], N[u], w.trk[h], w.trk[u]) && w.trk[h].rep.off >= 0.0 && w.trk[u].rep.off >= 0.0
  {
    assert TrainInv(N, w, h) && TrainInv(N, w, u);
  }

  /** Nor is the span of h entered from its reported place. */
  lemma NotInside(N: Network, w: World, h: nat, u: nat, at: Pos, i: nat)
    requires Inv(N, w) && h < 3 && u < 3 && h != u && Enabled(N, w, Report(u, at))
    requires Node(N[h].path, i) == Node(N[u].path, w.trk[u].rep.idx) && Le(w.trk[h].rep, Pos(i, w.trk[u].rep.off))
    requires var n := i + (at.idx - w.trk[u].rep.idx); Le(w.trk[h].auth, Pos(n, at.off))
    ensures Le(w.trk[h].auth, Pos(i, w.trk[u].rep.off))
  {
    var a, k := w.trk[h], w.trk[u];
    RepBounds(N, w, h);
    ReportBounds(N, w, u, at);
    Spans(N, w, h, u);
    if Lt(Pos(i, k.rep.off), a.auth) {
      var off := if i < a.auth.idx then k.rep.off + 1.0 else (k.rep.off + a.auth.off) / 2.0;
      assert Inside(a, Pos(i, off)) && On(a, Pos(i, off));
      if Lt(a.rep, Pos(i, k.rep.off)) {
        assert On(a, Pos(i, k.rep.off)) && On(k, Pos(k.rep.idx, k.rep.off));
      } else {
        assert On(k, Pos(k.rep.idx, off));
      }
      assert false;
    }
  }

  /** Train u reports exactly the place where h is reported and where the authority of h ends. */
  predicate Tie(N: Network, w: World, h: nat, u: nat, at: Pos)
    requires |N| == |w.trk| == 3 && h < 3 && u < 3 && |N[h].path| > 0 && |N[u].path| > 0
  {
    w.trk[h].rep == w.trk[h].auth && At(N[h].path, w.trk[h].auth) == At(N[u].path, at)
  }

  lemma TieAtFront(N: Network, w: World, h: nat, u: nat, at: Pos, n: nat, j: nat)
    requires Inv(N, w) && h < 3 && u < 3 && h != u && Enabled(N, w, Report(u, at))
    requires w.trk[h].rep.idx <= n && at.idx == j + (n - w.trk[h].rep.idx)
    requires Node(N[h].path, w.trk[h].rep.idx) == Node(N[u].path, j) && Lt(w.trk[u].rep, Pos(j, w.trk[h].rep.off))
    requires Le(w.trk[h].auth, Pos(n, at.off))
    ensures Tie(N, w, h, u, at)
  {
    RepBounds(N, w, h);
    NotThrough(N, w, h, u, at, w.trk[h].rep.idx, j);
  }

  lemma GuardHeld(N: Network, w: World, h: nat, b: nat, i: nat)
    requires Inv(N, w) && h < 3 && w.trk[h].rep.idx < i < ReqIdx(N[h], Taken(w.trk[h])) && Keeps(N[h], b, i, i)
    ensures Holds(N[h], w.trk[h], b)
  {
    var T, k := N[h], w.trk[h];
    assert TrainInv(N, w, h);
    var r: nat, j: nat :| KeptBy(T, b, i, i, r, j);
    if r >= Taken(k) {
      StopMono(T.path, T.req, Taken(k), r);
    }
    HeldBetween(T, k, b, r, j);
  }

  lemma GuardHeldBy(N: Network, w: World, u: nat, b: nat, j: nat)
    requires Inv(N, w) && u < 3 && w.trk[u].rep.idx < j <= w.trk[u].auth.idx && w.trk[u].auth.off >= 0.0
             && Keeps(N[u], b, j, j)
    ensures Holds(N[u], w.trk[u], b)
  {
    assert TrainInv(N, w, u);
    HeldAtEntry(N[u], w.trk[u], b, j, w.trk[u].auth);
  }

  /** The two trains have come to index i of the one path and j of the other from the same balise. */
  lemma SameWay(N: Network, w: World, h: nat, u: nat, i: nat, j: nat)
    requires Inv(N, w) && h < 3 && u < 3 && h != u && Node(N[h].path, i) == Node(N[u].path, j)
    requires w.trk[h].rep.idx < i < ReqIdx(N[h], Taken(w.trk[h])) && w.trk[u].rep.idx < j <= w.trk[u].auth.idx
    requires w.trk[u].auth.off >= 0.0
    ensures Node(N[h].path, i - 1) == Node(N[u].path, j - 1)
  {
    hide ReleasesBacked, Triple, Apart, Conserved, Keeps;
    assert 0 < i && 0 < j;
    if Node(N[h].path, i - 1) != Node(N[u].path, j - 1) {
      assert EntryGuarded(N[h], N[u], i, j);
      var b: nat :| Keeps(N[h], b, i, i) && Keeps(N[u], b, j, j);
      GuardHeld(N, w, h, b, i);
      GuardHeldBy(N, w, u, b, j);
      HeldOnce(N, w, h, u, b);
      assert false;
    }
  }

  /** Walking back from a newly reported place ahead of h: train u was ahead already, or reports a tie. */
  lemma {:induction false} WalkDown(N: Network, w: World, h: nat, u: nat, at: Pos, n: nat, i: nat, j: nat)
    returns (tie: bool, n0: nat)
    requires Inv(N, w) && h < 3 && u < 3 && h != u && Enabled(N, w, Report(u, at))
    requires Node(N[h].path, i) == Node(N[u].path, j) && w.trk[h].rep.idx <= i <= n && w.trk[u].rep.idx <= j
    requires at.idx == j + (n - i) && Le(w.trk[h].auth, Pos(n, at.off)) && n < ReqIdx(N[h], Taken(w.trk[h]))
    ensures tie ==> Tie(N, w, h, u, at)
    ensures !tie ==>
              && n0 <= n && Node(N[h].path, n0) == Node(N[u].path, w.trk[u].rep.idx)
              && Le(w.trk[h].auth, Pos(n0, w.trk[u].rep.off))
    decreases i
  {
    InvShape(N, w);
    hide Inv, NetworkOk, Tie, ReqIdx, Node, Enabled;
    var a, k := w.trk[h], w.trk[u];
    tie, n0 := false, i;
    if j == k.rep.idx && Le(a.rep, Pos(i, k.rep.off)) {
      NotInside(N, w, h, u, at, i);
    } else if j == k.rep.idx || i == a.rep.idx {
      tie := true;
      TieAtFront(N, w, h, u, at, n, j);
    } else {
      ReportSpan(N, w, u, at);
      SameWay(N, w, h, u, i, j);
      tie, n0 := WalkDown(N, w, h, u, at, n, i - 1, j - 1);
    }
  }

  lemma ReportSpan(N: Network, w: World, u: nat, at: Pos)
    requires Inv(N, w) && u < 3 && Enabled(N, w, Report(u, at))
    ensures Le(w.trk[u].rep, at) && Le(at, w.trk[u].auth) && w.trk[u].auth.off >= 0.0
  {
    assert TrainInv(N, w, u);
  }

  // ----- which steps put a train in the way -----

  /** Train u is reported at the end of the authority of h or beyond, short of the j-th release of h. */
  ghost predicate InWay(N: Network, w: World, h: nat, u: nat, j: nat, n: nat)
    requires NetworkOk(N) && Shape(N, w)
  {
    && h < 3 && u < 3 && h != u && Node(N[h].path, n) == Node(N[u].path, w.trk[u].rep.idx)
    && Le(w.trk[h].auth, Pos(n, w.trk[u].rep.off)) && n < LibIdx(N[h], j)
  }

  /** The guard of a grant: nobody is in the way to the release of any bit of the mask. */
  ghost predicate Guarded(w: World, h: nat)
    requires NetworkOk(N4) && Shape(N4, w) && h < 3
  {
    forall b: nat, u: nat, j: nat, n: nat {:trigger Back(N4[h], w.trk[h].lib, b, j), InWay(N4, w, h, u, j, n)} ::
      b in StopMask(N4[h].req, w.trk[h].req) && Back(N4[h], w.trk[h].lib, b, j) ==> !InWay(N4, w, h, u, j, n)
  }

  /** A grant against the guard, or a report at the very place where another train, which holds something, is reported
      and has its authority end. */
  ghost predicate Careless(w: World, e: Event)
    requires NetworkOk(N4) && Shape(N4, w)
  {
    match e
    case Lock(h) => h < 3 && !Guarded(w, h)
    case Report(u, at) => u < 3 && exists h: nat, b: nat :: TieHolding(w, h, u, at, b)
    case Drive(_, _) => false
    case Demand(_) => false
    case Set(_) => false
    case Advance(_) => false
    case Issue(_) => false
  }

  ghost predicate TieHolding(w: World, h: nat, u: nat, at: Pos, b: nat)
    requires NetworkOk(N4) && Shape(N4, w)
  {
    h < 3 && u < 3 && h != u && Tie(N4, w, h, u, at) && Holds(N4[h], w.trk[h], b)
  }

  /** Some holder is held up. */
  ghost predicate Jammed(w: World)
    requires NetworkOk(N4) && Shape(N4, w)
  {
    exists h: nat, b: nat :: HeldUp(N4, w, h, b)
  }

  lemma JammedBy(w: World, h: nat, b: nat, u: nat, j: nat, n: nat)
    requires NetworkOk(N4) && Shape(N4, w) && HeldUpBy(N4, w, h, b, u, j, n)
    ensures Jammed(w)
  {
    assert HeldUp(N4, w, h, b);
  }

  /** A step of neither train, or of u without a report, brings nothing new. */
  lemma QuietHold(w: World, e: Event, h: nat, b: nat, u: nat, j: nat, n: nat)
    requires Sound(w) && NetworkOk(N4) && Shape(N4, w) && Enabled(N4, w, e)
    requires HeldUpBy(N4, Apply(N4, w, e), h, b, u, j, n) && e.t != h && !(e.Report? && e.t == u)
    ensures HeldUpBy(N4, w, h, b, u, j, n)
  {
    hide Sound, NetworkOk;
    OthersKeep(N4, w, e, h);
    if e.t != u {
      OthersKeep(N4, w, e, u);
    } else {
      TakenOnly(N4, w, e, u);
    }
  }

  lemma OwnOnward(w: World, e: Event)
    requires Shape(N4, w) && Enabled(N4, w, e) && !e.Lock?
    ensures e.t < 3 && Onward(w, Apply(N4, w, e), e.t)
  {
    if e.Report? {
      ReportEffect(N4, w, e.t, e.at);
    }
  }

  /** The holder's own steps bring nothing new, but for a grant. */
  lemma OwnHold(w: World, e: Event, h: nat, b: nat, u: nat, j: nat, n: nat)
    requires Sound(w) && NetworkOk(N4) && Shape(N4, w) && Enabled(N4, w, e) && Sound(Apply(N4, w, e))
    requires HeldUpBy(N4, Apply(N4, w, e), h, b, u, j, n) && e.t == h && !e.Lock?
    ensures HeldUpBy(N4, w, h, b, u, j, n)
  {
    hide Sound, NetworkOk, Inv, LiveInv, Live, Apply, Enabled, Onward, Shape;
    SoundFacts(w);
    SoundFacts(Apply(N4, w, e));
    OwnOnward(w, e);
    HeldUpBefore(w, Apply(N4, w, e), h, h, b, u, j, n);
  }

  /** A grant brings a hold-up exactly against its guard. */
  lemma LockHold(w: World, h: nat, b: nat, u: nat, j: nat, n: nat)
    requires Sound(w) && NetworkOk(N4) && Shape(N4, w) && Enabled(N4, w, Lock(h))
    requires HeldUpBy(N4, Apply(N4, w, Lock(h)), h, b, u, j, n)
    ensures HeldUpBy(N4, w, h, b, u, j, n) || !Guarded(w, h)
  {
    SoundFacts(w);
    LockTakesMask(N4, w, h, b);
    hide Sound, NetworkOk, Inv, LiveInv, Live;
    LockDoesTrack(w, h);
    if !Holds(N4[h], w.trk[h], b) {
      assert Back(N4[h], w.trk[h].lib, b, j) && InWay(N4, w, h, u, j, n);
    }
  }

  lemma LockDoesTrack(w: World, h: nat)
    requires Shape(N4, w) && Enabled(N4, w, Lock(h))
    ensures h < 3 && OnlyTrack(w, Apply(N4, w, Lock(h)), h, w.trk[h].(phase := Commanding(0)))
  {
  }

  lemma UnguardedJams(w: World, h: nat)
    requires Sound(w) && NetworkOk(N4) && Shape(N4, w) && Enabled(N4, w, Lock(h)) && !Guarded(w, h)
    ensures Jammed(Apply(N4, w, Lock(h)))
  {
    hide Sound, NetworkOk, Guarded, Shape, Enabled, Apply, HeldUpBy, Jammed, InWay, Back;
    LockDoesTrack(w, h);
    var b, u, j, n := NotGuarded(w, h);
    SoundFacts(w);
    LockTakesMask(N4, w, h, b);
    GrantHold(w, Apply(N4, w, Lock(h)), h, b, u, j, n);
    JammedBy(Apply(N4, w, Lock(h)), h, b, u, j, n);
  }

  lemma NotGuarded(w: World, h: nat) returns (b: nat, u: nat, j: nat, n: nat)
    requires NetworkOk(N4) && Shape(N4, w) && h < 3 && !Guarded(w, h)
    ensures b in StopMask(N4[h].req, w.trk[h].req) && Back(N4[h], w.trk[h].lib, b, j) && InWay(N4, w, h, u, j, n)
  {
    b, u, j, n :| b in StopMask(N4[h].req, w.trk[h].req) && Back(N4[h], w.trk[h].lib, b, j) && InWay(N4, w, h, u, j, n);
  }

  lemma GrantHold(w: World, v: World, h: nat, b: nat, u: nat, j: nat, n: nat)
    requires NetworkOk(N4) && Shape(N4, w) && Shape(N4, v) && h < 3
    requires OnlyTrack(w, v, h, w.trk[h].(phase := Commanding(0))) && Holds(N4[h], v.trk[h], b)
    requires Back(N4[h], w.trk[h].lib, b, j) && InWay(N4, w, h, u, j, n)
    ensures HeldUpBy(N4, v, h, b, u, j, n)
  {
  }

  // ----- reports -----

  /** A report by another train brings a hold-up only as a tie. */
  lemma ReportHold(w: World, u: nat, at: Pos, h: nat, b: nat, j: nat, n: nat)
    requires Sound(w) && NetworkOk(N4) && Shape(N4, w) && Enabled(N4, w, Report(u, at))
    requires HeldUpBy(N4, Apply(N4, w, Report(u, at)), h, b, u, j, n)
    ensures Jammed(w) || TieHolding(w, h, u, at, b)
  {
    ReportFacts(w, u, at, h, b, j, n);
    hide Sound, NetworkOk, Inv, LiveInv, Live, Apply, Enabled, Shape, HeldUpBy, Holds, Node, Jammed;
    SoundFacts(w);
    HeldReach(w, h, b, j);
    var tie, n0 := WalkDown(N4, w, h, u, at, n, n, at.idx);
    if !tie {
      WasHeldUp(w, h, b, u, j, n0);
      JammedBy(w, h, b, u, j, n0);
    }
  }

  lemma ReportFacts(w: World, u: nat, at: Pos, h: nat, b: nat, j: nat, n: nat)
    requires Sound(w) && NetworkOk(N4) && Shape(N4, w) && Enabled(N4, w, Report(u, at))
    requires HeldUpBy(N4, Apply(N4, w, Report(u, at)), h, b, u, j, n)
    ensures h < 3 && u < 3 && h != u && Holds(N4[h], w.trk[h], b) && Back(N4[h], w.trk[h].lib, b, j)
    ensures Node(N4[h].path, n) == Node(N4[u].path, at.idx) && Le(w.trk[h].auth, Pos(n, at.off)) && n < LibIdx(N4[h], j)
    ensures w.trk[h].rep.idx <= n && w.trk[u].rep.idx <= at.idx
  {
    hide Sound;
    SoundFacts(w);
    OthersKeep(N4, w, Report(u, at), h);
    ReportEffect(N4, w, u, at);
    RepBounds(N4, w, h);
  }

  lemma HeldReach(w: World, h: nat, b: nat, j: nat)
    requires Sound(w) && NetworkOk(N4) && h < 3 && |w.trk| == 3 && Holds(N4[h], w.trk[h], b)
             && Back(N4[h], w.trk[h].lib, b, j)
    ensures LibIdx(N4[h], j) <= ReqIdx(N4[h], Taken(w.trk[h]))
  {
    SoundFacts(w);
    hide Sound, NetworkOk, EntriesGuarded, ReleasesBacked, Triple, Apart, Conserved;
    assert TrainInv(N4, w, h);
    assert OnceEach(N4[h], w.trk[h], b);
    ReleaseFirst(h, Taken(w.trk[h]), b, j);
  }

  lemma WasHeldUp(w: World, h: nat, b: nat, u: nat, j: nat, n: nat)
    requires NetworkOk(N4) && Shape(N4, w) && h < 3 && u < 3 && h != u
    requires Holds(N4[h], w.trk[h], b) && Back(N4[h], w.trk[h].lib, b, j)
    requires Node(N4[h].path, n) == Node(N4[u].path, w.trk[u].rep.idx) && Le(w.trk[h].auth, Pos(n, w.trk[u].rep.off))
    requires n < LibIdx(N4[h], j)
    ensures HeldUpBy(N4, w, h, b, u, j, n)
  {
  }

  lemma TieJams(w: World, h: nat, u: nat, at: Pos, b: nat)
    requires Sound(w) && NetworkOk(N4) && Shape(N4, w) && Enabled(N4, w, Report(u, at)) && TieHolding(w, h, u, at, b)
    ensures Jammed(Apply(N4, w, Report(u, at)))
  {
    hide Sound, Jammed, HeldUpBy;
    SoundFacts(w);
    var j := ReleaseOf(w, h, b);
    CourseOf(N4, w, h);
    StopMono(N4[h].path, N4[h].lib, w.trk[h].lib, j);
    TieHold(w, h, u, at, b, j);
    JammedBy(Apply(N4, w, Report(u, at)), h, b, u, j, w.trk[h].auth.idx);
  }

  lemma TieHold(w: World, h: nat, u: nat, at: Pos, b: nat, j: nat)
    requires NetworkOk(N4) && Shape(N4, w) && Enabled(N4, w, Report(u, at)) && TieHolding(w, h, u, at, b)
    requires Back(N4[h], w.trk[h].lib, b, j) && w.trk[h].rep.idx < LibIdx(N4[h], j)
    ensures HeldUpBy(N4, Apply(N4, w, Report(u, at)), h, b, u, j, w.trk[h].auth.idx)
  {
    OthersKeep(N4, w, Report(u, at), h);
    ReportEffect(N4, w, u, at);
  }

  lemma CarelessJams(w: World, e: Event)
    requires Sound(w) && NetworkOk(N4) && Shape(N4, w) && Enabled(N4, w, e) && Careless(w, e)
    ensures Jammed(Apply(N4, w, e))
  {
    hide Sound, NetworkOk, Shape, Enabled, Apply, Jammed, Guarded, TieHolding;
    if e.Lock? {
      UnguardedJams(w, e.t);
    } else {
      var h: nat, b: nat :| TieHolding(w, h, e.t, e.at, b);
      TieJams(w, h, e.t, e.at, b);
    }
  }

  lemma NewJam(w: World, e: Event)
    requires Sound(w) && NetworkOk(N4) && Shape(N4, w) && Enabled(N4, w, e) && Sound(Apply(N4, w, e))
    requires !Jammed(w) && Jammed(Apply(N4, w, e))
    ensures Careless(w, e)
  {
    var h: nat, b: nat :| HeldUp(N4, Apply(N4, w, e), h, b);
    var u: nat, j: nat, n: nat :| HeldUpBy(N4, Apply(N4, w, e), h, b, u, j, n);
    NewHold(w, e, h, b, u, j, n);
  }

  lemma NewHold(w: World, e: Event, h: nat, b: nat, u: nat, j: nat, n: nat)
    requires Sound(w) && NetworkOk(N4) && Shape(N4, w) && Enabled(N4, w, e) && Sound(Apply(N4, w, e))
    requires !Jammed(w) && HeldUpBy(N4, Apply(N4, w, e), h, b, u, j, n)
    ensures Careless(w, e)
  {
    hide Sound, NetworkOk, Shape, Apply, Jammed, Guarded, TieHolding, HeldUpBy;
    if e.t == h && e.Lock? {
      LockHold(w, h, b, u, j, n);
    } else if e.t == h {
      OwnHold(w, e, h, b, u, j, n);
    } else if e.t == u && e.Report? {
      ReportHold(w, u, e.at, h, b, j, n);
    } else {
      QuietHold(w, e, h, b, u, j, n);
    }
    if HeldUpBy(N4, w, h, b, u, j, n) {
      JammedBy(w, h, b, u, j, n);
    }
  }

  // ----- over runs -----

  ghost predicate CarelessAt(ws: seq<World>, es: seq<Event>, i: nat)
    requires NetworkOk(N4) && i < |es| && |ws| == |es| + 1
  {
    Shape(N4, ws[i]) && Careless(ws[i], es[i])
  }

  lemma JamsNext(ws: seq<World>, es: seq<Event>, i: nat)
    requires NetworkOk(N4) && LiveRun(N4, ws, es) && i < |es|
    ensures Shape(N4, ws[i]) && Shape(N4, ws[i + 1])
    ensures CarelessAt(ws, es, i) ==> Jammed(ws[i + 1])
    ensures Jammed(ws[i + 1]) ==> Jammed(ws[i]) || CarelessAt(ws, es, i)
  {
    hide NetworkOk, Shape, Sound, Careless, Jammed, Enabled, Apply, Start, Seen;
    SoundRun(ws, es, i);
    SoundRun(ws, es, i + 1);
    SoundFacts(ws[i]);
    SoundFacts(ws[i + 1]);
    RunStep(N4, ws, es, i);
    if CarelessAt(ws, es, i) {
      CarelessJams(ws[i], es[i]);
    }
    if Jammed(ws[i + 1]) && !Jammed(ws[i]) {
      NewJam(ws[i], es[i]);
    }
  }

  lemma JamStays(ws: seq<World>, es: seq<Event>, i: nat, k: nat)
    requires NetworkOk(N4) && LiveRun(N4, ws, es) && i <= k < |ws| && Shape(N4, ws[i]) && Jammed(ws[i])
    ensures Shape(N4, ws[k]) && Jammed(ws[k])
  {
    hide NetworkOk, Shape, Sound, HeldUp, Inv, LiveInv, Start, Seen, Step;
    SoundRun(ws, es, i);
    SoundRun(ws, es, k);
    SoundFacts(ws[i]);
    SoundFacts(ws[k]);
    var h: nat, b: nat :| HeldUp(N4, ws[i], h, b);
    HeldUpForEver(ws, es, i, k, h, b);
  }

  /** Over every run that skips no release: some holder is held up, for ever, if and only if some grant was made against
      its guard or some report was a tie with a holder. */
  lemma {:induction false} JammedIff(ws: seq<World>, es: seq<Event>, n: nat)
    requires NetworkOk(N4) && LiveRun(N4, ws, es) && n < |ws|
    ensures Shape(N4, ws[n])
    ensures Jammed(ws[n]) <==> exists i: nat :: i < n && CarelessAt(ws, es, i)
    decreases n
  {
    hide NetworkOk, Shape, Sound, Jammed, CarelessAt, LiveRun;
    SoundRun(ws, es, n);
    SoundFacts(ws[n]);
    if n == 0 {
      NoJamAtStart(ws, es);
    } else {
      RunSizes(ws, es);
      JammedIff(ws, es, n - 1);
      JamsNext(ws, es, n - 1);
      if Jammed(ws[n - 1]) {
        JamStays(ws, es, n - 1, n);
      }
    }
  }

  lemma RunSizes(ws: seq<World>, es: seq<Event>)
    requires NetworkOk(N4) && LiveRun(N4, ws, es)
    ensures |ws| == |es| + 1
  {
  }

  lemma NoJamAtStart(ws: seq<World>, es: seq<Event>)
    requires NetworkOk(N4) && LiveRun(N4, ws, es)
    ensures Shape(N4, ws[0]) && !Jammed(ws[0])
  {
    SoundRun(ws, es, 0);
    SoundFacts(ws[0]);
    forall h: nat, b: nat ensures !HeldUp(N4, ws[0], h, b) {
    }
  }

  /** So while grants keep their guard and reports do not tie, whatever train waits can still be granted what it waits
      for. */
  lemma CarefulRunsGrant(ws: seq<World>, es: seq<Event>, t: nat)
    requires NetworkOk(N4) && LiveRun(N4, ws, es) && |ws| == |es| + 1
    requires forall i: nat :: i < |es| ==> !CarelessAt(ws, es, i)
    requires Shape(N4, ws[|es|]) && Waits(ws[|es|], t)
    ensures CanBeGranted(ws, es, t)
  {
    hide NetworkOk, LiveRun, CarelessAt, CanBeGranted, Shape;
    JammedIff(ws, es, |es|);
    CanBeGrantedIff(ws, es, t);
  }
}
