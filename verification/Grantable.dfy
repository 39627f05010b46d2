/** The mended tables of the repository: when a train that waits for resources can still be granted them. */
module Grantable {
  import opened Cyclic
  import opened Tables
  import opened EndOfAuthority
  import opened Interlocking
  import opened Invariance
  import opened Deadlock
  import opened Standstill
  import opened LivePaths
  import opened ShippedTables
  import opened ShippedLaps
  import opened ShippedLiveness
  import opened HoldUps
  import C = Control

  // ----- where an authority ends -----

  /** Train u is reported on index n of the path of t, not behind t. */
  ghost predicate Meets(N: Network, w: World, t: nat, u: nat, n: nat)
    requires NetworkOk(N) && Shape(N, w) && t < 3
  {
    && u < 3 && u != t && Node(N[t].path, n) == Node(N[u].path, w.trk[u].rep.idx)
    && Le(w.trk[t].rep, Pos(n, w.trk[u].rep.off))
  }

  lemma HopNode(path: seq<int>, r: Pos, stop: int, p: Place, q: Place)
    requires |path| > 0 && Distinct(path) && Node(path, r.idx) in path && stop in path
    ensures var h := NextHop(path, At(path, r), stop, p, q);
            var n := Node(path, r.idx + h.steps);
            n == stop || (n == p.bal && Le(r, Pos(r.idx + h.steps, p.posR)))
                      || (n == q.bal && Le(r, Pos(r.idx + h.steps, q.posR)))
  {
    var i := IndexOf(path, At(path, r).bal);
    var h := NextHop(path, At(path, r), stop, p, q);
    NextHopMeets(path, At(path, r), stop, p, q);
    IndexOfNode(path, r.idx);
    WrapShift(i, r.idx, h.steps, |path|);
    assert After(path, i, h.steps) == Node(path, r.idx + h.steps);
  }

  lemma IssuedMeets(N: Network, w: World, t: nat)
    requires Inv(N, w) && t < 3
    ensures var n := Issued(N, w, t).idx;
            && w.trk[t].rep.idx <= n <= ReqIdx(N[t], w.trk[t].req)
            && (Node(N[t].path, n) == Node(N[t].path, ReqIdx(N[t], w.trk[t].req))
                || Meets(N, w, t, (t + 1) % 3, n) || Meets(N, w, t, (t + 2) % 3, n))
  {
    hide EntriesGuarded, ReleasesBacked, Triple, Apart, Conserved, TrackInv, NextHop, StopsOk;
    var p, q := (t + 1) % 3, (t + 2) % 3;
    PlaceOf(N, w, t);
    PlaceOf(N, w, p);
    PlaceOf(N, w, q);
    Others(t, p);
    WantedIsStop(N, w, t);
    IssuedByRequest(N, w, t);
    HopNode(N[t].path, w.trk[t].rep, C.StopBal(N, w.ctl, t), w.ctl.place[p], w.ctl.place[q]);
  }

  /** Nearer than one lap a balise is met once. */
  lemma OnlyStop(T: Train, k: Track, n: nat)
    requires TrainOk(T) && Roomy(T) && Course(T, k) && Taken(k) == k.req
    requires k.rep.idx <= n <= ReqIdx(T, k.req) && Node(T.path, n) == Node(T.path, ReqIdx(T, k.req))
    ensures n == ReqIdx(T, k.req)
  {
    if k.req > 0 {
      Spaced(T, k.req - 1);
    }
    SameNode(T.path, n, ReqIdx(T, k.req));
    if n < ReqIdx(T, k.req) {
      WrapGap(n, ReqIdx(T, k.req), |T.path|);
      assert false;
    }
  }

  // ----- short ways -----

  /** The request is one canton on from the one before. */
  predicate Short(T: Train, k: nat)
    requires 0 < T.req.wrap <= |T.req.at|
  {
    k > 0 && ReqIdx(T, k) == ReqIdx(T, k - 1) + 1
  }

  lemma Short2(k: nat, n: nat)
    requires Short(N4[1], k) && n < ReqIdx(N4[1], k) <= n + 2
    ensures Node(PATH_2, n) in {20, 21, 17}
  {
    hide StopMask, ReqIdx, Node;
    var q := Req2(k, 0);
    var q1 := Req2(k - 1, 0);
    if n < 8 * q {
      NodeIn(PATH_2, q - 1, 7);
    } else {
      NodeIn(PATH_2, q, n - 8 * q);
    }
  }

  lemma Short3(k: nat, n: nat)
    requires Short(N4[2], k) && n < ReqIdx(N4[2], k) <= n + 2
    ensures Node(PATH_3, n) in {28, 29}
  {
    hide StopMask, ReqIdx, Node;
    var q := Req3(k, 0);
    var q1 := Req3(k - 1, 0);
    NodeIn(PATH_3, q, n - 16 * q);
  }

  lemma Short1(k: nat)
    ensures !Short(N4[0], k)
  {
    if k > 0 {
      hide ReqIdx;
      var q := Req1(k, 0);
      var q1 := Req1(k - 1, 0);
    }
  }

  /** The cantons before such a request are on no other path. */
  lemma ShortIsOwn(t: nat, k: nat, n: nat, u: nat, m: nat)
    requires t < 3 && u < 3 && t != u && Short(N4[t], k) && n < ReqIdx(N4[t], k) <= n + 2
    ensures Node(N4[t].path, n) != Node(N4[u].path, m)
  {
    hide Node, Short, ReqIdx;
    assert Node(N4[u].path, m) in N4[u].path by {
      MemberNode(N4[u].path, m);
    }
    if t == 0 {
      Short1(k);
    } else if t == 1 {
      Short2(k, n);
    } else {
      Short3(k, n);
    }
  }

  lemma ReleaseFirst1(K: nat, b: nat, j: nat)
    requires K > 0
    requires Count(REQ_1, K, b) == Count(LIB_1, j, b) + 1 && b in StopMask(LIB_1, j)
    ensures LibIdx(N4[0], j) < ReqIdx(N4[0], K)
  {
    hide StopMask, Count, ReqIdx, LibIdx;
    var q := Req1(K, b);
    var p := Lib1(j, b);
  }

  lemma ReleaseFirst2(K: nat, b: nat, j: nat)
    requires K > 0
    requires Count(REQ_2, K, b) == Count(Lib2(4), j, b) + 1 && b in StopMask(Lib2(4), j)
    ensures LibIdx(N4[1], j) <= ReqIdx(N4[1], K)
    ensures LibIdx(N4[1], j) == ReqIdx(N4[1], K) ==> ReqIdx(N4[1], K) == ReqIdx(N4[1], K - 1) + 1
  {
    hide StopMask, Count, ReqIdx, LibIdx;
    var q := Req2(K, b);
    var q1 := Req2(K - 1, b);
    var p := LibSecond(j, b);
  }

  lemma ReleaseFirst3(K: nat, b: nat, j: nat)
    requires K > 0
    requires Count(REQ_3, K, b) == Count(LIB_3, j, b) + 1 && b in StopMask(LIB_3, j)
    ensures LibIdx(N4[2], j) <= ReqIdx(N4[2], K)
    ensures LibIdx(N4[2], j) == ReqIdx(N4[2], K) ==> ReqIdx(N4[2], K) == ReqIdx(N4[2], K - 1) + 1
  {
    hide StopMask, Count, ReqIdx, LibIdx;
    var q := Req3(K, b);
    var q1 := Req3(K - 1, b);
    var p := Lib3(j, b);
  }

  /** A bit is given back at the latest where the next request stands, and there only if that is one canton on. */
  lemma ReleaseFirst(t: nat, K: nat, b: nat, j: nat)
    requires t < 3 && TrainOk(N4[t]) && K > 0
    requires Count(N4[t].req, K, b) == Count(N4[t].lib, j, b) + 1 && b in StopMask(N4[t].lib, j)
    ensures LibIdx(N4[t], j) <= ReqIdx(N4[t], K)
    ensures LibIdx(N4[t], j) == ReqIdx(N4[t], K) ==> Short(N4[t], K)
  {
    hide TrainOk, StopMask, Count, ReqIdx, LibIdx;
    if t == 0 {
      ReleaseFirst1(K, b, j);
    } else if t == 1 {
      ReleaseFirst2(K, b, j);
    } else {
      ReleaseFirst3(K, b, j);
    }
  }

  /** Once a train has its answer, or waits for the next one, its authority reaches a request one canton on. */
  ghost predicate Served(T: Train, k: Track)
    requires 0 < T.req.wrap <= |T.req.at|
  {
    (k.phase.Idle? || k.phase.Waiting?) && Short(T, k.req) ==> ReqIdx(T, k.req) <= k.auth.idx
  }

  /** What holds in every world of a run that skips no release. */
  ghost predicate Sound(w: World) {
    && Inv(N4, w) && LiveInv(N4, w) && Live(N4)
    && Served(N4[0], w.trk[0]) && Served(N4[1], w.trk[1]) && Served(N4[2], w.trk[2])
  }

  lemma IssueServes(w: World, t: nat)
    requires Inv(N4, w) && LiveInv(N4, w) && Live(N4) && t < 3 && w.trk[t].phase == Answering
             && Short(N4[t], w.trk[t].req)
    ensures ReqIdx(N4[t], w.trk[t].req) <= Issued(N4, w, t).idx
  {
    InvShape(N4, w);
    hide Inv, LiveInv, NetworkOk, Short, ReqIdx, Node, Issued;
    var n := Issued(N4, w, t).idx;
    IssuedMeets(N4, w, t);
    CourseOf(N4, w, t);
    ShortStart(w, t);
    if n < ReqIdx(N4[t], w.trk[t].req) {
      if Meets(N4, w, t, (t + 1) % 3, n) {
        ShortIsOwn(t, w.trk[t].req, n, (t + 1) % 3, w.trk[(t + 1) % 3].rep.idx);
      } else if Meets(N4, w, t, (t + 2) % 3, n) {
        ShortIsOwn(t, w.trk[t].req, n, (t + 2) % 3, w.trk[(t + 2) % 3].rep.idx);
      } else {
        OnlyStop(N4[t], w.trk[t], n);
      }
      assert false;
    }
  }

  lemma ShortStart(w: World, t: nat)
    requires Inv(N4, w) && LiveInv(N4, w) && Live(N4) && t < 3 && !w.trk[t].phase.Commanding?
             && Short(N4[t], w.trk[t].req)
    ensures TrainOk(N4[t]) && Roomy(N4[t]) && ReqIdx(N4[t], w.trk[t].req) <= w.trk[t].rep.idx + 2
  {
    CourseOf(N4, w, t);
  }

  lemma ServedStep(w: World, e: Event)
    requires Sound(w) && Enabled(N4, w, e)
    ensures Served(N4[e.t], Apply(N4, w, e).trk[e.t])
  {
    if e.Issue? {
      if Short(N4[e.t], w.trk[e.t].req) {
        IssueServes(w, e.t);
      }
      IssueDoes(N4, w, e.t);
    }
  }

  lemma SoundStep(w: World, e: Event)
    requires Sound(w) && Enabled(N4, w, e) && Seen(N4, w, e)
    ensures Sound(Apply(N4, w, e))
  {
    hide Inv, NetworkOk, Shape, LiveInv, Served, Enabled, Apply, Live;
    InvShape(N4, w);
    StepInv(N4, w, e, Apply(N4, w, e));
    LiveStep(N4, w, e, Apply(N4, w, e));
    ServedStep(w, e);
    SoundOthers(w, e);
  }

  lemma SoundOthers(w: World, e: Event)
    requires Sound(w) && Enabled(N4, w, e)
    ensures e.t < 3 && forall s :: 0 <= s < 3 && s != e.t ==> Served(N4[s], Apply(N4, w, e).trk[s])
  {
    hide Served;
    forall s | 0 <= s < 3 && s != e.t ensures Served(N4[s], Apply(N4, w, e).trk[s]) {
      OthersKeep(N4, w, e, s);
    }
  }

  lemma {:induction false} SoundSteps(ws: seq<World>, es: seq<Event>, n: nat)
    requires NetworkOk(N4) && LiveSteps(N4, ws, es) && n < |ws| && Sound(ws[0])
    ensures Sound(ws[n])
    decreases n
  {
    hide Sound, NetworkOk, Shape, Enabled, Apply, Seen;
    if n > 0 {
      SoundSteps(ws, es, n - 1);
      assert Step(N4, ws[n - 1], es[n - 1], ws[n]) && Seen(N4, ws[n - 1], es[n - 1]);
      SoundStep(ws[n - 1], es[n - 1]);
    }
  }

  lemma SoundLater(w: World, v: World)
    requires Sound(w) && NetworkOk(N4) && Later(N4, w, v)
    ensures Sound(v)
  {
    hide Sound, NetworkOk;
    var ws, es :| LiveSteps(N4, ws, es) && ws[0] == w && ws[|es|] == v;
    SoundSteps(ws, es, |es|);
  }

  lemma SoundStart(w: World)
    requires NetworkOk(N4) && C.TablesOk(N4) && w == Start(N4)
    ensures Sound(w)
  {
    ShippedOrdered();
    StartInv(N4, w);
  }

  lemma SoundRun(ws: seq<World>, es: seq<Event>, n: nat)
    requires NetworkOk(N4) && LiveRun(N4, ws, es) && n < |ws|
    ensures Sound(ws[n])
  {
    hide Sound, NetworkOk, Shape, Seen, Start;
    SoundStart(ws[0]);
    SoundSteps(ws, es, n);
  }

  // ----- a holder that is not held up gives back -----

  /** The histories of w and v differ at train h only, which has gone on without a new grant. */
  ghost predicate Onward(w: World, v: World, h: nat) {
    && |w.trk| == |v.trk| == 3 && h < 3 && OnlyTrack(w, v, h, v.trk[h])
    && Taken(v.trk[h]) == Taken(w.trk[h]) && w.trk[h].lib <= v.trk[h].lib && Le(w.trk[h].auth, v.trk[h].auth)
    && v.ctl.resources <= w.ctl.resources
  }

  lemma OnwardTrans(u: World, w: World, v: World, h: nat)
    requires Onward(u, w, h) && Onward(w, v, h)
    ensures Onward(u, v, h)
  {
  }

  /** Its answer is sent. */
  lemma Answered(w0: World, w: World, h: nat) returns (v: World)
    requires Sound(w0) && Later(N4, w0, w) && Sound(w) && h < 3 && w.trk[h].phase == Answering
    ensures Later(N4, w0, v) && Onward(w, v, h) && v.trk[h].phase == Idle
    ensures v.trk[h].auth == Max(w.trk[h].auth, Issued(N4, w, h))
    ensures v.trk[h].rep == w.trk[h].rep && v.trk[h].lib == w.trk[h].lib
  {
    InvShape(N4, w);
    hide Inv, LiveInv, NetworkOk, Shape, Later, Apply, Enabled;
    IssueDoes(N4, w, h);
    LaterNext(N4, w0, w, Issue(h));
    v := Apply(N4, w, Issue(h));
  }

  lemma CommandsFit(w: World, h: nat)
    requires Sound(w) && h < 3 && w.trk[h].phase.Commanding?
    ensures Shape(N4, w) && w.trk[h].phase.done <= |C.Commands(N4, w.ctl, h)|
  {
    assert TrainInv(N4, w, h);
  }

  lemma SoundFacts(w: World)
    requires Sound(w)
    ensures Inv(N4, w) && NetworkOk(N4) && Shape(N4, w) && LiveInv(N4, w) && Live(N4)
    ensures |w.trk| == 3 && TrainOk(N4[0]) && TrainOk(N4[1]) && TrainOk(N4[2])
  {
  }

  lemma Commanded(w0: World, w: World, h: nat) returns (v: World)
    requires Sound(w0) && NetworkOk(N4) && Later(N4, w0, w) && Sound(w) && h < 3 && w.trk[h].phase.Commanding?
    ensures Later(N4, w0, v) && Sound(v) && Onward(w, v, h) && v.trk[h].phase == Answering
    ensures v.trk[h].rep == w.trk[h].rep && v.trk[h].lib == w.trk[h].lib
  {
    SoundFacts(w0);
    CommandsFit(w, h);
    hide Sound, NetworkOk, Later, Inv, Shape, LiveInv, Live;
    v := Finish(N4, w0, w, h);
    SoundLater(w0, v);
  }

  lemma Whole(w: World, h: nat)
    requires Sound(w) && h < 3
    ensures Onward(w, w, h)
  {
    assert w.trk[h := w.trk[h]] == w.trk;
  }

  /** A grant under way is completed and answered. */
  lemma Settle(w0: World, w: World, h: nat) returns (v: World)
    requires Sound(w0) && NetworkOk(N4) && Later(N4, w0, w) && Sound(w) && h < 3
    ensures Later(N4, w0, v) && Sound(v) && Onward(w, v, h) && (v.trk[h].phase == Idle || v.trk[h].phase == Waiting)
    ensures v.trk[h].rep == w.trk[h].rep && v.trk[h].lib == w.trk[h].lib
  {
    hide Sound, NetworkOk, Later, Onward;
    SoundFacts(w);
    Whole(w, h);
    v := w;
    if w.trk[h].phase.Commanding? {
      v := Commanded(w0, w, h);
      SoundFacts(v);
    }
    if v.trk[h].phase == Answering {
      var u := v;
      v := Answered(w0, u, h);
      SoundLater(w0, v);
      SoundFacts(v);
      OnwardTrans(w, u, v, h);
    }
  }

  // ----- the way is clear -----

  /** Train h holds b up to its j-th release, and nobody stands in the way. */
  ghost predicate Clearway(w: World, h: nat, b: nat, j: nat)
    requires NetworkOk(N4) && Shape(N4, w)
  {
    && h < 3 && Holds(N4[h], w.trk[h], b) && Back(N4[h], w.trk[h].lib, b, j)
    && forall u: nat, n: nat {:trigger HeldUpBy(N4, w, h, b, u, j, n)} :: !HeldUpBy(N4, w, h, b, u, j, n)
  }

  /** And nobody comes to stand there while h moves on short of that release. */
  lemma StillClear(w: World, v: World, h: nat, b: nat, j: nat)
    requires NetworkOk(N4) && Shape(N4, w) && Shape(N4, v) && Clearway(w, h, b, j) && Onward(w, v, h)
    requires v.trk[h].lib <= j
    ensures Clearway(v, h, b, j)
  {
    CountMono(N4[h].lib, w.trk[h].lib, v.trk[h].lib, b);
    CountMono(N4[h].lib, v.trk[h].lib, j, b);
    forall u: nat, n: nat ensures !HeldUpBy(N4, v, h, b, u, j, n) {
      assert !HeldUpBy(N4, w, h, b, u, j, n);
    }
  }

  /** A holder whose authority ends short of the release has no request open, and its next one lies beyond. */
  lemma ShortAuthority(w: World, h: nat, b: nat, j: nat)
    requires Sound(w) && NetworkOk(N4) && Shape(N4, w) && Clearway(w, h, b, j)
    requires w.trk[h].phase == Idle || w.trk[h].phase == Waiting
    requires w.trk[h].auth.idx < LibIdx(N4[h], j)
    ensures w.trk[h].phase == Idle && LibIdx(N4[h], j) < ReqIdx(N4[h], w.trk[h].req)
  {
    ServedOf(w, h);
    hide NetworkOk, Shape, Sound, LiveInv, Live, Inv, Short, ReqIdx, LibIdx, Count, StopMask, TrainOk, HeldUpBy;
    var k := w.trk[h];
    SoundFacts(w);
    CourseOf(N4, w, h);
    HeldCount(w, h, b, j);
    ReleaseFirst(h, Taken(k), b, j);
    if k.phase == Waiting {
      Near1(w, h);
    }
  }

  lemma ServedOf(w: World, h: nat)
    requires Sound(w) && h < 3
    ensures Served(N4[h], w.trk[h])
  {
  }

  lemma Near1(w: World, h: nat)
    requires Sound(w) && h < 3 && w.trk[h].phase == Waiting
    ensures ReqIdx(N4[h], w.trk[h].req) <= w.trk[h].rep.idx + 1
  {
    assert Prompt(N4[h], w.trk[h]);
  }

  lemma HeldCount(w: World, h: nat, b: nat, j: nat)
    requires Inv(N4, w) && Clearway(w, h, b, j)
    ensures var k := w.trk[h];
            Taken(k) > 0 && Count(N4[h].req, Taken(k), b) == Count(N4[h].lib, j, b) + 1 && b in StopMask(N4[h].lib, j)
  {
    hide EntriesGuarded, ReleasesBacked, Triple, Apart, Conserved;
    assert TrainInv(N4, w, h);
    assert OnceEach(N4[h], w.trk[h], b);
  }

  /** Reported short of a release, a train has not made it. */
  lemma NotYet(w: World, h: nat, j: nat)
    requires Sound(w) && h < 3 && TrainOk(N4[h]) && w.trk[h].rep.idx < LibIdx(N4[h], j)
    ensures w.trk[h].lib <= j && w.trk[h].rep.idx < LibIdx(N4[h], w.trk[h].lib)
  {
    CourseOf(N4, w, h);
    if w.trk[h].lib > j {
      StopMono(N4[h].path, N4[h].lib, j, w.trk[h].lib - 1);
    }
  }

  /** The train goes up to the end of its authority. */
  lemma GoToEnd(w0: World, w: World, h: nat, b: nat, j: nat) returns (v: World)
    requires Sound(w0) && NetworkOk(N4) && Later(N4, w0, w) && Sound(w) && Shape(N4, w) && Clearway(w, h, b, j)
    requires w.trk[h].auth.idx < LibIdx(N4[h], j)
    ensures Later(N4, w0, v) && Sound(v) && Shape(N4, v) && Clearway(v, h, b, j) && Onward(w, v, h)
    ensures var k, k' := w.trk[h], v.trk[h];
            k'.rep == k'.auth == k.auth && k'.phase == k.phase && k'.req == k.req
  {
    hide Sound, Later, Clearway, Shape, NetworkOk, LibIdx;
    SoundFacts(w0);
    SoundFacts(w);
    ClearHolder(w, h, b, j);
    AuthFacts(w, h);
    NotYet(w, h, j);
    v := MoveTo(N4, w0, w, h, w.trk[h].auth);
    SoundLater(w0, v);
    SoundFacts(v);
    NotYet(v, h, j);
    StillClear(w, v, h, b, j);
  }

  lemma ClearHolder(w: World, h: nat, b: nat, j: nat)
    requires NetworkOk(N4) && Shape(N4, w) && Clearway(w, h, b, j)
    ensures h < 3
  {
  }

  lemma AuthFacts(w: World, h: nat)
    requires Inv(N4, w) && h < 3
    ensures Le(w.trk[h].rep, w.trk[h].auth) && Le(w.trk[h].pos, w.trk[h].auth) && w.trk[h].auth.off >= 0.0
  {
    assert TrainInv(N4, w, h);
  }

  /** It asks there, gets no grant but an answer at once. */
  lemma NotDue(w0: World, w: World, h: nat) returns (v: World)
    requires Sound(w0) && NetworkOk(N4) && Later(N4, w0, w) && Sound(w) && h < 3
    requires w.trk[h].phase == Idle && w.trk[h].rep.idx + 1 < ReqIdx(N4[h], w.trk[h].req)
    ensures Later(N4, w0, v) && Sound(v) && Onward(w, v, h) && v.trk[h] == w.trk[h].(phase := Answering)
  {
    SoundFacts(w);
    hide Sound, Later, Inv, LiveInv, Live, NetworkOk, Shape;
    NotDemanded(w, h);
    DemandDoes(N4, w, h);
    LaterNext(N4, w0, w, Demand(h));
    v := Apply(N4, w, Demand(h));
    SoundLater(w0, v);
  }

  lemma NotDemanded(w: World, h: nat)
    requires Sound(w) && h < 3 && !w.trk[h].phase.Commanding?
    requires w.trk[h].rep.idx + 1 < ReqIdx(N4[h], w.trk[h].req)
    ensures !C.Demands(N4, w.ctl, h)
  {
    PlaceOf(N4, w, h);
    WantedIsStop(N4, w, h);
    assert Prompt(N4[h], w.trk[h]);
    if C.Demands(N4, w.ctl, h) {
      DemandNear(N4[h], w.trk[h], w.ctl.place[h].bal, C.StopBal(N4, w.ctl, h));
    }
  }

  /** At the end of its authority the way is clear up to the release. */
  lemma IssuedClear(w: World, h: nat, b: nat, j: nat)
    requires Sound(w) && NetworkOk(N4) && Shape(N4, w) && Clearway(w, h, b, j)
    requires !w.trk[h].phase.Commanding? && w.trk[h].rep == w.trk[h].auth
    requires LibIdx(N4[h], j) < ReqIdx(N4[h], w.trk[h].req)
    ensures LibIdx(N4[h], j) <= Issued(N4, w, h).idx
  {
    hide Shape, LiveInv, Live, Inv, Issued, LibIdx, ReqIdx, Node, NetworkOk;
    SoundFacts(w);
    CourseOf(N4, w, h);
    IssuedMeets(N4, w, h);
    Roomy4(w, h);
    var n := Issued(N4, w, h).idx;
    if n < LibIdx(N4[h], j) {
      assert !HeldUpBy(N4, w, h, b, (h + 1) % 3, j, n) && !HeldUpBy(N4, w, h, b, (h + 2) % 3, j, n);
      OnlyStop(N4[h], w.trk[h], n);
      assert false;
    }
  }

  lemma Roomy4(w: World, h: nat)
    requires Sound(w) && h < 3
    ensures TrainOk(N4[h]) && Roomy(N4[h])
  {
  }

  /** The holder gets an authority up to the release. */
  lemma Authorise(w0: World, w: World, h: nat, b: nat, j: nat) returns (v: World)
    requires Sound(w0) && NetworkOk(N4) && Later(N4, w0, w) && Sound(w) && Shape(N4, w) && Clearway(w, h, b, j)
    requires w.trk[h].phase == Idle || w.trk[h].phase == Waiting
    ensures Later(N4, w0, v) && Sound(v) && Shape(N4, v) && Clearway(v, h, b, j) && Onward(w, v, h)
    ensures LibIdx(N4[h], j) <= v.trk[h].auth.idx
  {
    hide Sound, Later, Clearway, Shape, NetworkOk, LibIdx, ReqIdx, Onward;
    SoundFacts(w);
    ClearHolder(w, h, b, j);
    Whole(w, h);
    v := w;
    if w.trk[h].auth.idx < LibIdx(N4[h], j) {
      ShortAuthority(w, h, b, j);
      var u := GoToEnd(w0, w, h, b, j);
      v := AuthoriseAtEnd(w0, u, h, b, j);
      OnwardTrans(w, u, v, h);
    }
  }

  lemma AuthoriseAtEnd(w0: World, w: World, h: nat, b: nat, j: nat) returns (v: World)
    requires Sound(w0) && NetworkOk(N4) && Later(N4, w0, w) && Sound(w) && Shape(N4, w) && Clearway(w, h, b, j)
    requires w.trk[h].phase == Idle && w.trk[h].rep == w.trk[h].auth && w.trk[h].auth.idx < LibIdx(N4[h], j)
    requires LibIdx(N4[h], j) < ReqIdx(N4[h], w.trk[h].req)
    ensures Later(N4, w0, v) && Sound(v) && Shape(N4, v) && Clearway(v, h, b, j) && Onward(w, v, h)
    ensures LibIdx(N4[h], j) <= v.trk[h].auth.idx
  {
    hide Sound, Later, Clearway, Shape, NetworkOk, LibIdx, ReqIdx, Onward;
    SoundFacts(w);
    ClearHolder(w, h, b, j);
    NotYet(w, h, j);
    var x := NotDue(w0, w, h);
    SoundFacts(x);
    StillClear(w, x, h, b, j);
    IssuedClear(x, h, b, j);
    v := Answered(w0, x, h);
    SoundLater(w0, v);
    SoundFacts(v);
    StillClear(x, v, h, b, j);
    OnwardTrans(w, x, v, h);
  }

  /** It goes there, and the bit is free. */
  lemma GiveBack(w0: World, w: World, h: nat, b: nat, j: nat) returns (v: World)
    requires Sound(w0) && NetworkOk(N4) && Later(N4, w0, w) && Sound(w) && Shape(N4, w) && Clearway(w, h, b, j)
    requires LibIdx(N4[h], j) <= w.trk[h].auth.idx
    ensures Later(N4, w0, v) && Sound(v) && Shape(N4, v) && Onward(w, v, h) && b !in v.ctl.resources
  {
    hide Sound, Later, Clearway, Shape, NetworkOk, LibIdx;
    SoundFacts(w0);
    SoundFacts(w);
    ClearHolder(w, h, b, j);
    var at := Pos(LibIdx(N4[h], j), 0.0);
    AuthFacts(w, h);
    ReachableRelease(w, h, b, j);
    v := MoveTo(N4, w0, w, h, at);
    SoundLater(w0, v);
    SoundFacts(v);
    Freed(w, v, h, b, j);
  }

  lemma ReachableRelease(w: World, h: nat, b: nat, j: nat)
    requires Sound(w) && NetworkOk(N4) && Shape(N4, w) && Clearway(w, h, b, j)
    ensures w.trk[h].rep.idx < LibIdx(N4[h], w.trk[h].lib) <= LibIdx(N4[h], j)
  {
    CourseOf(N4, w, h);
    StopMono(N4[h].path, N4[h].lib, w.trk[h].lib, j);
  }

  /** Past that release the train does not hold the bit. */
  lemma PastRelease(T: Train, k: Track, b: nat, j: nat)
    requires TrainOk(T) && Count(T.req, Taken(k), b) == Count(T.lib, j, b) + 1 && b in StopMask(T.lib, j)
    requires LibIdx(T, j) < LibIdx(T, k.lib)
    ensures !Holds(T, k, b)
  {
    if k.lib <= j {
      StopMono(T.path, T.lib, k.lib, j);
    }
    CountMono(T.lib, j + 1, k.lib, b);
  }

  lemma OthersLack(w: World, h: nat, b: nat)
    requires Inv(N4, w) && h < 3 && Holds(N4[h], w.trk[h], b)
    ensures forall t :: 0 <= t < 3 && t != h ==> !Holds(N4[t], w.trk[t], b)
  {
    forall t | 0 <= t < 3 && t != h ensures !Holds(N4[t], w.trk[t], b) {
      HeldOnce(N4, w, h, t, b);
    }
  }

  /** Past the release of the one holder, nobody holds the bit. */
  lemma Freed(w: World, v: World, h: nat, b: nat, j: nat)
    requires Sound(w) && NetworkOk(N4) && Shape(N4, w) && Clearway(w, h, b, j)
    requires Sound(v) && Onward(w, v, h) && LibIdx(N4[h], j) < LibIdx(N4[h], v.trk[h].lib)
    ensures b !in v.ctl.resources
  {
    SoundFacts(w);
    SoundFacts(v);
    HeldCount(w, h, b, j);
    hide Sound, Inv, LiveInv, Live, NetworkOk, Shape, HeldUpBy, Holds, LibIdx, Count, StopMask, TrainOk;
    OthersLack(w, h, b);
    PastRelease(N4[h], v.trk[h], b, j);
    OneHolder(v, h, b);
  }

  lemma OneHolder(v: World, h: nat, b: nat)
    requires Inv(N4, v) && h < 3
    requires forall t :: 0 <= t < 3 ==> !Holds(N4[t], v.trk[t], b)
    ensures b !in v.ctl.resources
  {
    assert ConservedBit(N4, v, b);
  }

  /** The release by which a held bit is given back. */
  lemma {:induction false} NextBack(s: Stops, l: nat, m: nat, b: nat) returns (j: nat)
    requires 0 < s.wrap <= |s.mask| && l <= m && Count(s, m, b) > Count(s, l, b)
    ensures l <= j && b in StopMask(s, j) && Count(s, j, b) == Count(s, l, b)
    decreases m
  {
    if Count(s, m - 1, b) > Count(s, l, b) {
      j := NextBack(s, l, m - 1, b);
    } else {
      CountMono(s, l, m - 1, b);
      j := m - 1;
    }
  }

  lemma {:induction false} Asked(s: Stops, k: nat, b: nat)
    requires 0 < s.wrap <= |s.mask| && Count(s, s.wrap, b) == 0
    ensures Count(s, k, b) == 0
    decreases k
  {
    if k >= s.wrap {
      Asked(s, k - s.wrap, b);
      CountRound(s, k - s.wrap, b);
    } else {
      CountMono(s, k, s.wrap, b);
    }
  }

  lemma ReleaseOf(w: World, h: nat, b: nat) returns (j: nat)
    requires Sound(w) && h < 3 && Holds(N4[h], w.trk[h], b)
    ensures Back(N4[h], w.trk[h].lib, b, j)
  {
    SoundFacts(w);
    hide Sound, Inv, LiveInv, Live, NetworkOk, Shape, Count, StopMask;
    var s, l := N4[h].lib, w.trk[h].lib;
    AllSettled(h, b);
    if Count(s, s.wrap, b) == 0 {
      Asked(N4[h].req, Taken(w.trk[h]), b);
    }
    CountRound(s, l, b);
    j := NextBack(s, l, l + s.wrap, b);
  }

  // ----- a waiting train gets what it waits for -----

  /** No holder of a resource that train t needs next is held up. */
  ghost predicate Open(w: World, t: nat)
    requires NetworkOk(N4) && Shape(N4, w) && t < 3
  {
    forall h: nat, b: nat {:trigger HeldUp(N4, w, h, b)} ::
      h < 3 && b in StopMask(N4[t].req, w.trk[t].req) && Holds(N4[h], w.trk[h], b) ==> !HeldUp(N4, w, h, b)
  }

  /** A waiting train holds nothing of what it waits for. */
  lemma NotOwn(w: World, t: nat, b: nat)
    requires Sound(w) && NetworkOk(N4) && Shape(N4, w) && Waits(w, t) && b in StopMask(N4[t].req, w.trk[t].req)
    ensures !Holds(N4[t], w.trk[t], b)
  {
    SoundFacts(w);
    ShippedOrdered();
    RankOf(N4, RANK, w, t, b, b);
    WantedIsStop(N4, w, t);
    hide Sound, LiveInv, Live, NetworkOk, Shape, OrderedNetwork, StopMask;
    if Holds(N4[t], w.trk[t], b) {
      assert b in w.ctl.resources by {
        assert ConservedBit(N4, w, b);
      }
      HoldBelowWait(N4, RANK, w, t, b, b);
      assert false;
    }
  }

  lemma Holder(w: World, b: nat) returns (h: nat)
    requires Inv(N4, w) && b in w.ctl.resources
    ensures h < 3 && Holds(N4[h], w.trk[h], b)
  {
    assert ConservedBit(N4, w, b);
    h := if Holds(N4[0], w.trk[0], b) then 0 else if Holds(N4[1], w.trk[1], b) then 1 else 2;
  }

  /** What is held up after h has moved on was held up before, but for what h itself may now stand in the way of. */
  lemma HeldUpBefore(w: World, v: World, h: nat, h': nat, b: nat, u: nat, j: nat, n: nat)
    requires Inv(N4, w) && Inv(N4, v) && NetworkOk(N4) && Shape(N4, w) && Shape(N4, v) && Onward(w, v, h)
    requires HeldUpBy(N4, v, h', b, u, j, n) && u != h
    ensures HeldUpBy(N4, w, h', b, u, j, n)
  {
    hide EntriesGuarded, ReleasesBacked, Triple, Apart, Conserved;
    if h' == h {
      var l, l' := w.trk[h].lib, v.trk[h].lib;
      CountMono(N4[h].lib, l, l', b);
      SameCount(w, v, h, b);
    }
  }

  lemma SameCount(w: World, v: World, h: nat, b: nat)
    requires Inv(N4, w) && Inv(N4, v) && h < 3 && Onward(w, v, h) && Holds(N4[h], v.trk[h], b)
    ensures Count(N4[h].lib, w.trk[h].lib, b) == Count(N4[h].lib, v.trk[h].lib, b) && Holds(N4[h], w.trk[h], b)
  {
    assert TrainInv(N4, w, h) && TrainInv(N4, v, h);
    assert OnceEach(N4[h], w.trk[h], b) && OnceEach(N4[h], v.trk[h], b);
    CountMono(N4[h].lib, w.trk[h].lib, v.trk[h].lib, b);
  }

  /** The masks of the trains: one bit each, but for R4 with R5 and R1 with R2. */
  lemma Masks(t: nat, k: nat, b: nat, b': nat)
    requires t < 3 && b in StopMask(N4[t].req, k) && b' in StopMask(N4[t].req, k)
    ensures t == 0 ==> b == b'
    ensures t == 1 && b' <= 1 ==> b == b'
  {
    hide StopMask;
    if t == 0 {
      var q := Req1(k, b);
    } else if t == 1 {
      var q := Req2(k, b);
    }
  }

  /** Nobody who moves away to free a resource gets in the way of another that t needs. */
  lemma StillOpen(w: World, v: World, h: nat, t: nat, b: nat)
    requires Sound(w) && Sound(v) && NetworkOk(N4) && Shape(N4, w) && Shape(N4, v) && Onward(w, v, h)
    requires Waits(w, t) && t != h && Open(w, t) && b in StopMask(N4[t].req, w.trk[t].req) && b !in v.ctl.resources
    ensures Open(v, t)
  {
    hide Sound, NetworkOk, Shape, StopMask, HeldUpBy, Inv, LiveInv, Live, Holds, Count;
    SoundFacts(w);
    SoundFacts(v);
    forall h': nat, b': nat
      | h' < 3 && b' in StopMask(N4[t].req, v.trk[t].req) && Holds(N4[h'], v.trk[h'], b')
      ensures !HeldUp(N4, v, h', b')
    {
      if HeldUp(N4, v, h', b') {
        var u, j, n :| HeldUpBy(N4, v, h', b', u, j, n);
        Masks(t, w.trk[t].req, b, b');
        NotOwn(v, t, b');
        KeptBits(v, h', b');
        var c, j' := HeldUpCorners(v, h', b', u, j, n);
        HeldUpBefore(w, v, h, h', b', u, j, n);
        HeldBefore(w, h', b', u, j, n);
        assert false;
      }
    }
  }

  lemma KeptBits(w: World, h: nat, b: nat)
    requires Inv(N4, w) && h < 3 && Holds(N4[h], w.trk[h], b)
    ensures b in w.ctl.resources
  {
    assert ConservedBit(N4, w, b);
  }

  lemma HeldBefore(w: World, h: nat, b: nat, u: nat, j: nat, n: nat)
    requires NetworkOk(N4) && Shape(N4, w) && HeldUpBy(N4, w, h, b, u, j, n)
    ensures h < 3 && Holds(N4[h], w.trk[h], b) && HeldUp(N4, w, h, b)
  {
  }

  /** One resource that t waits for is freed. */
  lemma FreeOne(w0: World, w: World, t: nat, b: nat) returns (v: World)
    requires Sound(w0) && NetworkOk(N4) && Later(N4, w0, w) && Sound(w) && Shape(N4, w) && Waits(w, t) && Open(w, t)
    requires b in w.ctl.resources && b in StopMask(N4[t].req, w.trk[t].req)
    ensures Later(N4, w0, v) && Sound(v) && Shape(N4, v) && Waits(v, t) && Open(v, t)
    ensures v.trk[t] == w.trk[t] && v.ctl.resources <= w.ctl.resources - {b}
  {
    hide Sound, Later, Shape, NetworkOk, StopMask, Clearway, HeldUpBy, Holds, LibIdx;
    SoundFacts(w);
    var h := Holder(w, b);
    NotOwn(w, t, b);
    var j := ReleaseOf(w, h, b);
    IsClear(w, h, b, j);
    var x := Settle(w0, w, h);
    SoundFacts(x);
    CanRelease(w, h, b, j);
    StillClear(w, x, h, b, j);
    var y := Authorise(w0, x, h, b, j);
    v := GiveBack(w0, y, h, b, j);
    OnwardTrans(w, x, y, h);
    OnwardTrans(w, y, v, h);
    StillOpen(w, v, h, t, b);
  }

  lemma IsClear(w: World, h: nat, b: nat, j: nat)
    requires NetworkOk(N4) && Shape(N4, w) && h < 3 && Holds(N4[h], w.trk[h], b) && Back(N4[h], w.trk[h].lib, b, j)
    requires !HeldUp(N4, w, h, b)
    ensures Clearway(w, h, b, j)
  {
  }

  lemma CanRelease(w: World, h: nat, b: nat, j: nat)
    requires NetworkOk(N4) && Shape(N4, w) && Clearway(w, h, b, j)
    ensures w.trk[h].lib <= j
  {
  }

  /** All of them are, one after the other. */
  lemma {:induction false} GrantLater(w0: World, w: World, t: nat) returns (v: World)
    requires Sound(w0) && NetworkOk(N4) && Later(N4, w0, w) && Sound(w) && Shape(N4, w) && Waits(w, t) && Open(w, t)
    ensures Later(N4, w0, v) && Shape(N4, v) && Enabled(N4, v, Lock(t)) && v.trk[t] == w.trk[t]
    decreases w.ctl.resources * StopMask(N4[t].req, w.trk[t].req)
  {
    hide Sound, Later, Shape, NetworkOk, StopMask, Enabled, Open;
    SoundFacts(w);
    var todo := w.ctl.resources * StopMask(N4[t].req, w.trk[t].req);
    if todo == {} {
      assert forall b :: b in w.ctl.resources && b in StopMask(N4[t].req, w.trk[t].req) ==> b in todo;
      LockDoes(N4, w, t);
      v := w;
    } else {
      var b :| b in todo;
      var x := FreeOne(w0, w, t, b);
      assert b !in x.ctl.resources * StopMask(N4[t].req, w.trk[t].req);
      v := GrantLater(w0, x, t);
    }
  }
}
