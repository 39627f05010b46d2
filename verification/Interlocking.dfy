/** The interlocking as a transition system: three trains, the RBC's critical sections, in any interleaving. */
module Interlocking {
  import opened Cyclic
  import opened Tables
  import C = Control

  /** A point of a train's unrolled path: balise index counted over all laps, then distance past the balise. */
  datatype Pos = Pos(idx: nat, off: real)

  predicate Lt(a: Pos, b: Pos) {
    a.idx < b.idx || (a.idx == b.idx && a.off < b.off)
  }

  predicate Le(a: Pos, b: Pos) {
    a.idx < b.idx || (a.idx == b.idx && a.off <= b.off)
  }

  function Max(a: Pos, b: Pos): Pos {
    if Le(a, b) then b else a
  }

  /** What the program calls this point. */
  function At(path: seq<int>, p: Pos): Place
    requires |path| > 0
  {
    Place(Node(path, p.idx), p.off)
  }

  /** Where the handler of a train's movement authority request has got to. */
  datatype Phase = Idle | Waiting | Commanding(done: nat) | Answering

  /** One train as an observer sees it: true position, last reported position, farthest authority ever issued,
      grants and releases ever made. None of this is visible to the program. */
  datatype Track = Track(pos: Pos, rep: Pos, auth: Pos, req: nat, lib: nat, phase: Phase)

  datatype World = World(ctl: C.Control, trk: seq<Track>)

  datatype Event =
    | Drive(t: nat, to: Pos)     // the train moves, within its authority
    | Report(t: nat, at: Pos)    // message 101: position stored, release attempted
    | Demand(t: nat)             // message 102: position test of ask_resources
    | Lock(t: nat)               // the poll of lock_ressources that succeeds
    | Set(t: nat)                // one command of set_all_switch
    | Advance(t: nat)            // request cursor advanced
    | Issue(t: nat)              // next_eoa and the reply

  function Start(N: Network): World
    requires C.TablesOk(N)
  {
    var k := Track(Pos(0, 0.0), Pos(0, 0.0), Pos(0, 0.0), 0, 0, Idle);
    World(C.Initial(N), [k, k, k])
  }

  ghost predicate Shape(N: Network, w: World) {
    && C.TablesOk(N) && C.ControlOk(N, w.ctl) && |w.trk| == 3
    && forall t :: 0 <= t < 3 ==> w.ctl.place[t].bal in N[t].path
  }

  ghost predicate Enabled(N: Network, w: World, e: Event)
    requires Shape(N, w)
  {
    e.t < 3 &&
    var k := w.trk[e.t];
    match e
    case Drive(_, to) => Le(k.pos, to) && Le(to, k.auth) && to.off >= 0.0
    case Report(_, at) => Le(k.rep, at) && Le(at, k.pos) && at.off >= 0.0
    case Demand(_) => k.phase == Idle
    case Lock(_) => k.phase == Waiting && w.ctl.resources !! C.WantedMask(N, w.ctl, e.t)
    case Set(_) => k.phase.Commanding? && k.phase.done < |C.Commands(N, w.ctl, e.t)|
    case Advance(_) => k.phase.Commanding? && k.phase.done == |C.Commands(N, w.ctl, e.t)|
    case Issue(_) => k.phase == Answering
  }

  function Apply(N: Network, w: World, e: Event): (w': World)
    requires Shape(N, w) && Enabled(N, w, e)
    ensures Shape(N, w')
  {
    var k := w.trk[e.t];
    match e
    case Drive(t, to) => World(w.ctl, w.trk[t := k.(pos := to)])
    case Report(t, at) =>
      MemberNode(N[t].path, at.idx);
      var c := C.Store(N, w.ctl, t, At(N[t].path, at));
      World(C.Free(N, c, t), w.trk[t := k.(rep := at, lib := if C.FreesAt(N, c, t) then k.lib + 1 else k.lib)])
    case Demand(t) => World(w.ctl, w.trk[t := k.(phase := if C.Demands(N, w.ctl, t) then Waiting else Answering)])
    case Lock(t) => World(C.Take(N, w.ctl, t), w.trk[t := k.(phase := Commanding(0))])
    case Set(t) =>
      World(C.Switch(w.ctl, C.Commands(N, w.ctl, t)[k.phase.done]),
          w.trk[t := k.(phase := Commanding(k.phase.done + 1))])
    case Advance(t) => World(C.Advance(N, w.ctl, t), w.trk[t := k.(req := k.req + 1, phase := Answering)])
    case Issue(t) => World(w.ctl, w.trk[t := k.(auth := Max(k.auth, Issued(N, w, t)), phase := Idle)])
  }

  /** The End Of Authority issued to train t, as a point of its unrolled path. */
  function Issued(N: Network, w: World, t: nat): Pos
    requires Shape(N, w) && t < 3
  {
    var h := C.HopFor(N, w.ctl, t);
    Pos(w.trk[t].rep.idx + h.steps, h.off)
  }

  ghost predicate Step(N: Network, w: World, e: Event, w': World) {
    Shape(N, w) && Enabled(N, w, e) && w' == Apply(N, w, e)
  }

  /** ws is the sequence of worlds of a run that executes es from the start. */
  ghost predicate Run(N: Network, ws: seq<World>, es: seq<Event>) {
    && C.TablesOk(N)
    && |ws| == |es| + 1
    && ws[0] == Start(N)
    && forall i {:trigger es[i]} :: 0 <= i < |es| ==> Step(N, ws[i], es[i], ws[i + 1])
  }

  lemma MemberNode(path: seq<int>, i: nat)
    requires |path| > 0
    ensures Node(path, i) in path
  {
  }

  // ----- the invariant -----

  /** Grants whose bits have been taken: those completed and the one being set up. */
  function Taken(k: Track): nat {
    k.req + if k.phase.Commanding? then 1 else 0
  }

  /** Train k has taken bit b and not given it back. */
  predicate Holds(T: Train, k: Track, b: nat)
    requires 0 < T.req.wrap <= |T.req.mask| && 0 < T.lib.wrap <= |T.lib.mask|
  {
    Count(T.req, Taken(k), b) > Count(T.lib, k.lib, b)
  }

  /** A train's history matches what the program knows of it: its two cursors and its last position. */
  ghost predicate TrackInv(T: Train, nextReq: nat, nextLib: nat, place: Place, k: Track)
    requires TrainOk(T)
  {
    && k.rep.off >= 0.0 && k.pos.off >= 0.0 && k.auth.off >= 0.0
    && Le(k.rep, k.pos) && Le(k.pos, k.auth) && Le(k.auth, Pos(ReqIdx(T, k.req), 0.0))
    && (k.lib > 0 ==> LibIdx(T, k.lib - 1) <= k.rep.idx)
    && nextReq == Wrap(k.req, T.req.wrap)
    && nextLib == Wrap(k.lib, T.lib.wrap)
    && place == At(T.path, k.rep)
    && (k.phase.Commanding? ==> k.phase.done <= |T.commands[nextReq]|)
    && (forall b: nat :: OnceEach(T, k, b))
  }

  /** A bit is never taken twice without a release, nor released twice without a grant. */
  predicate OnceEach(T: Train, k: Track, b: nat)
    requires 0 < T.req.wrap <= |T.req.mask| && 0 < T.lib.wrap <= |T.lib.mask|
  {
    Count(T.lib, k.lib, b) <= Count(T.req, Taken(k), b) <= Count(T.lib, k.lib, b) + 1
  }

  ghost predicate TrainInv(N: Network, w: World, t: nat)
    requires Shape(N, w) && t < 3 && TrainOk(N[t])
  {
    TrackInv(N[t], w.ctl.nextReq[t], w.ctl.nextLib[t], w.ctl.place[t], w.trk[t])
  }

  /** Bit b of the resource byte is set exactly when one train holds it, and never two do. */
  ghost predicate ConservedBit(N: Network, w: World, b: nat)
    requires Shape(N, w)
  {
    var h0, h1, h2 := Holds(N[0], w.trk[0], b), Holds(N[1], w.trk[1], b), Holds(N[2], w.trk[2], b);
    && (b in w.ctl.resources <==> h0 || h1 || h2)
    && !(h0 && h1) && !(h0 && h2) && !(h1 && h2)
  }

  /** The resource byte is the disjoint union of what the trains hold. */
  ghost predicate Conserved(N: Network, w: World)
    requires Shape(N, w)
  {
    forall b: nat :: ConservedBit(N, w, b)
  }

  /** p lies on the span from the train's reported position to its authority. */
  predicate On(k: Track, p: Pos) {
    Le(k.rep, p) && Le(p, k.auth)
  }

  predicate Inside(k: Track, p: Pos) {
    Lt(k.rep, p) && Lt(p, k.auth)
  }

  /** Two spans share no point of track, except possibly an end of the one with an end of the other. */
  ghost predicate Apart(A: Train, B: Train, a: Track, b: Track)
    requires |A.path| > 0 && |B.path| > 0
  {
    forall i: nat, j: nat, q: real {:trigger On(a, Pos(i, q)), On(b, Pos(j, q))} ::
      q >= 0.0 && On(a, Pos(i, q)) && On(b, Pos(j, q)) && Node(A.path, i) == Node(B.path, j)
      ==> !Inside(a, Pos(i, q)) && !Inside(b, Pos(j, q))
  }

  ghost predicate Inv(N: Network, w: World) {
    && NetworkOk(N) && Shape(N, w)
    && (forall t :: 0 <= t < 3 ==> TrainInv(N, w, t))
    && Conserved(N, w)
    && (forall s, t :: 0 <= s < 3 && 0 <= t < 3 && s != t ==> Apart(N[s], N[t], w.trk[s], w.trk[t]))
  }

  lemma InvShape(N: Network, w: World)
    requires Inv(N, w)
    ensures NetworkOk(N) && Shape(N, w)
  {
  }

  lemma UsableNetwork(N: Network)
    requires NetworkOk(N)
    ensures C.TablesOk(N)
  {
    C.CoherentIsUsable(N[0]);
    C.CoherentIsUsable(N[1]);
    C.CoherentIsUsable(N[2]);
  }

  lemma StartTrack(T: Train, k: Track)
    requires TrainOk(T)
    requires k == Track(Pos(0, 0.0), Pos(0, 0.0), Pos(0, 0.0), 0, 0, Idle)
    ensures TrackInv(T, 0, 0, Place(T.path[0], 0.0), k) && forall b: nat :: !Holds(T, k, b)
  {
  }

  lemma StandingApart(A: Train, B: Train, a: Track, b: Track)
    requires |A.path| > 0 && |B.path| > 0 && a.rep == a.auth && b.rep == b.auth
    ensures Apart(A, B, a, b)
  {
  }

  lemma StartInv(N: Network, w: World)
    requires NetworkOk(N) && C.TablesOk(N) && w == Start(N)
    ensures Inv(N, w)
  {
    StartTrack(N[0], w.trk[0]);
    StartTrack(N[1], w.trk[1]);
    StartTrack(N[2], w.trk[2]);
    StandingApart(N[0], N[1], w.trk[0], w.trk[1]);
    StandingApart(N[0], N[2], w.trk[0], w.trk[2]);
    StandingApart(N[1], N[2], w.trk[1], w.trk[2]);
    StandingApart(N[1], N[0], w.trk[1], w.trk[0]);
    StandingApart(N[2], N[0], w.trk[2], w.trk[0]);
    StandingApart(N[2], N[1], w.trk[2], w.trk[1]);
  }

  // ----- bits held along the way -----

  /** Past request k and short of release j, the bits k brought in excess of the releases before j are held. */
  lemma HeldBetween(T: Train, k: Track, b: nat, r: nat, j: nat)
    requires TrainOk(T) && (k.lib > 0 ==> LibIdx(T, k.lib - 1) <= k.rep.idx)
    requires r < Taken(k) && k.rep.idx < LibIdx(T, j) && Count(T.req, r + 1, b) > Count(T.lib, j, b)
    ensures Holds(T, k, b)
  {
    CountMono(T.req, r + 1, Taken(k), b);
    if k.lib > j {
      StopMono(T.path, T.lib, j, k.lib - 1);
    }
    CountMono(T.lib, k.lib, j, b);
  }

  /** A request stop strictly behind a point the train may reach has been granted. */
  lemma Passed(T: Train, k: Track, r: nat, e: Pos)
    requires TrainOk(T) && Le(e, Pos(ReqIdx(T, k.req), 0.0))
    requires Lt(Pos(ReqIdx(T, r), 0.0), e)
    ensures r < k.req
  {
    if r >= k.req {
      StopMono(T.path, T.req, k.req, r);
    }
  }

  /** A train that is reported before index i and authorised up to it holds every bit kept around i. */
  lemma HeldAtEntry(T: Train, k: Track, b: nat, i: nat, e: Pos)
    requires TrainOk(T) && (k.lib > 0 ==> LibIdx(T, k.lib - 1) <= k.rep.idx)
    requires Keeps(T, b, i, i) && k.rep.idx < i && Le(Pos(i, 0.0), e) && Le(e, Pos(ReqIdx(T, k.req), 0.0))
    ensures Holds(T, k, b)
  {
    var r: nat, j: nat :| KeptBy(T, b, i, i, r, j);
    Passed(T, k, r, e);
    HeldBetween(T, k, b, r, j);
  }

  // ----- authority: the walk back from a clash -----

  /** No point at which the other train is reported lies between the train and e. */
  ghost predicate Clear(A: Train, B: Train, a: Track, b: Track, e: Pos)
    requires |A.path| > 0 && |B.path| > 0
  {
    forall n: nat {:trigger Node(A.path, n)} ::
      Node(A.path, n) == Node(B.path, b.rep.idx) && Le(a.rep, Pos(n, b.rep.off)) ==> Le(e, Pos(n, b.rep.off))
  }

  /** Two trains cannot be authorised into the same entry. */
  ghost predicate Exclusive(A: Train, B: Train, a: Track, b: Track, e: Pos)
    requires TrainOk(A) && TrainOk(B)
  {
    forall i: nat, j: nat {:trigger EntryGuarded(A, B, i, j)} ::
      a.rep.idx < i && Le(Pos(i, 0.0), e) && b.rep.idx < j && Le(Pos(j, 0.0), b.auth) ==> !EntryGuarded(A, B, i, j)
  }

  lemma SamePredecessor(A: Train, B: Train, a: Track, b: Track, e: Pos, i: nat, j: nat)
    requires TrainOk(A) && TrainOk(B) && EntriesGuarded(A, B) && Exclusive(A, B, a, b, e)
    requires a.rep.idx < i && Le(Pos(i, 0.0), e) && b.rep.idx < j && Le(Pos(j, 0.0), b.auth)
    requires Node(A.path, i) == Node(B.path, j)
    ensures Node(A.path, i - 1) == Node(B.path, j - 1)
  {
    assert EntryGuarded(A, B, i, j) || !EntryGuarded(A, B, i, j);
  }

  /** Walking back from a common point of an authority and another train's span leads to one of the two trains,
      or to an entry where both need the same bit. */
  lemma {:induction false} WalkBack(A: Train, B: Train, a: Track, b: Track, e: Pos, q: real, i: nat, j: nat, d: nat)
    requires TrainOk(A) && TrainOk(B)
    requires EntriesGuarded(A, B) && Exclusive(A, B, a, b, e) && Apart(A, B, a, b) && Clear(A, B, a, b, e)
    requires Le(a.rep, a.auth) && a.rep.off >= 0.0 && Le(a.rep, Pos(i + d, q)) && Le(Pos(i + d, q), e)
             && On(b, Pos(j + d, q)) && q >= 0.0
    requires a.rep.idx <= i && b.rep.idx <= j && Node(A.path, i) == Node(B.path, j)
    ensures Pos(i + d, q) == a.rep || Pos(i + d, q) == e
    ensures Pos(j + d, q) == b.rep || Pos(j + d, q) == b.auth
    decreases i
  {
    if j == b.rep.idx && Le(a.rep, Pos(i, b.rep.off)) {
      assert Le(e, Pos(i, b.rep.off));
    } else if j == b.rep.idx || i == a.rep.idx {
      assert i == a.rep.idx;
      assert On(a, Pos(i, a.rep.off));
      assert On(b, Pos(j, a.rep.off));
    } else {
      SamePredecessor(A, B, a, b, e, i, j);
      WalkBack(A, B, a, b, e, q, i - 1, j - 1, d + 1);
    }
  }

  /** Extending an authority up to e keeps the two spans apart. */
  lemma ExtendApart(A: Train, B: Train, a: Track, b: Track, e: Pos)
    requires TrainOk(A) && TrainOk(B)
    requires EntriesGuarded(A, B) && Exclusive(A, B, a, b, e) && Apart(A, B, a, b) && Clear(A, B, a, b, e)
    requires Le(a.rep, a.auth) && a.rep.off >= 0.0
    ensures Apart(A, B, a.(auth := e), b)
  {
    var a' := a.(auth := e);
    forall i: nat, j: nat, q: real
      | q >= 0.0 && On(a', Pos(i, q)) && On(b, Pos(j, q)) && Node(A.path, i) == Node(B.path, j)
      ensures !Inside(a', Pos(i, q)) && !Inside(b, Pos(j, q))
    {
      WalkBack(A, B, a, b, e, q, i, j, 0);
    }
  }
}
