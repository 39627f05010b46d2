/** The switches of a granted route keep the commanded direction while the train holds the bit that guards them. */
module RouteLocking {
  import opened Cyclic
  import opened Tables
  import opened Interlocking
  import opened Invariance
  import opened ShippedTables
  import opened ShippedCoherent

  /** One bit is chosen for each switch. */
  type Guards = map<int, nat>

  /** The i-th command of the r-th grant ever made. */
  function Cmd(T: Train, r: nat, i: nat): Command
    requires 0 < T.req.wrap <= |T.commands| && i < |T.commands[Wrap(r, T.req.wrap)]|
  {
    T.commands[Wrap(r, T.req.wrap)][i]
  }

  function CmdCount(T: Train, r: nat): nat
    requires 0 < T.req.wrap <= |T.commands|
  {
    |T.commands[Wrap(r, T.req.wrap)]|
  }

  /** A grant sets only switches whose guard it has just been given, and each of them once. */
  ghost predicate GrantGuarded(T: Train, g: Guards, r: nat, i: nat)
    requires 0 < T.req.wrap <= |T.commands| && T.req.wrap <= |T.req.mask|
  {
    i < CmdCount(T, r) ==>
      && Cmd(T, r, i).name in g && g[Cmd(T, r, i).name] in StopMask(T.req, r)
      && (forall j: nat :: j < CmdCount(T, r) && j != i ==> Cmd(T, r, j).name != Cmd(T, r, i).name)
  }

  ghost predicate RoutesOk(N: Network, g: Guards)
    requires NetworkOk(N)
  {
    forall t: nat, r: nat, i: nat {:trigger GrantGuarded(N[t], g, r, i)} :: t < 3 ==> GrantGuarded(N[t], g, r, i)
  }

  /** How many commands of grant r train k has sent. */
  function Sent(T: Train, k: Track, r: nat): nat
    requires 0 < T.req.wrap <= |T.commands|
  {
    if r < k.req then CmdCount(T, r) else if r == k.req && k.phase.Commanding? then k.phase.done else 0
  }

  /** Grant r is where train k got the bit b that it holds. */
  predicate Source(T: Train, k: Track, r: nat, b: nat)
    requires 0 < T.req.wrap <= |T.req.mask| && 0 < T.lib.wrap <= |T.lib.mask|
  {
    r < Taken(k) && b in StopMask(T.req, r) && Count(T.req, r + 1, b) == Count(T.req, Taken(k), b) && Holds(T, k, b)
  }

  /** The i-th switch of grant r lies as that grant commanded, once the command is sent and while the guard it
      brought is held. */
  ghost predicate LaidFor(T: Train, g: Guards, k: Track, dir: map<int, bool>, r: nat, i: nat)
    requires TrainOk(T)
  {
    i < Sent(T, k, r) && i < CmdCount(T, r) && Cmd(T, r, i).name in g && Source(T, k, r, g[Cmd(T, r, i).name]) ==>
      Cmd(T, r, i).name in dir && dir[Cmd(T, r, i).name] == Cmd(T, r, i).turn
  }

  ghost predicate Laid(N: Network, g: Guards, w: World, t: nat, r: nat, i: nat)
    requires NetworkOk(N) && Shape(N, w) && t < 3
  {
    LaidFor(N[t], g, w.trk[t], w.ctl.dir, r, i)
  }

  /** While its switches are being set, a train still holds everything the grant brought. */
  ghost predicate FreshHeld(T: Train, k: Track, b: nat)
    requires TrainOk(T)
  {
    k.phase.Commanding? && b in StopMask(T.req, k.req) ==> Holds(T, k, b)
  }

  ghost predicate RouteInv(N: Network, g: Guards, w: World)
    requires NetworkOk(N) && Shape(N, w)
  {
    && (forall t: nat, b: nat :: t < 3 ==> FreshHeld(N[t], w.trk[t], b))
    && (forall t: nat, r: nat, i: nat :: t < 3 ==> Laid(N, g, w, t, r, i))
  }

  /** The bits just granted cannot be given back before the grant is complete: the train has not passed its request. */
  lemma NoEarlyRelease(T: Train, nr: nat, nl: nat, p: Place, k: Track, at: Pos, b: nat)
    requires TrainOk(T) && ReleasesBacked(T) && TrackInv(T, nr, nl, p, k) && k.phase.Commanding?
    requires Le(k.rep, at) && Le(at, k.pos) && at.off >= 0.0 && Node(T.path, at.idx) == T.lib.bal[nl]
    requires b in StopMask(T.req, k.req) && Holds(T, k, b)
    ensures b !in StopMask(T.lib, k.lib)
  {
    if b in StopMask(T.lib, k.lib) {
      ReleaseReached(T, k, at);
      assert Backed(T, k.lib, b);
      var r: nat :| KeptBy(T, b, LibIdx(T, k.lib), LibIdx(T, k.lib), r, k.lib);
      assert OnceEach(T, k, b);
      if r < k.req {
        CountMono(T.req, r + 1, k.req, b);
      } else {
        StopMono(T.path, T.req, k.req, r);
      }
      assert false;
    }
  }

  lemma FreshReport(N: Network, g: Guards, w: World, t: nat, at: Pos, b: nat)
    requires Inv(N, w) && RouteInv(N, g, w) && Enabled(N, w, Report(t, at))
    ensures FreshHeld(N[t], Apply(N, w, Report(t, at)).trk[t], b)
  {
    hide EntriesGuarded, ReleasesBacked, Triple, Apart, Conserved, Laid;
    var T, k := N[t], w.trk[t];
    assert FreshHeld(T, k, b);
    assert TrainInv(N, w, t);
    ReportEffect(N, w, t, at);
    if Frees(N, w, t, at) && k.phase.Commanding? && b in StopMask(T.req, k.req) {
      NoEarlyRelease(T, w.ctl.nextReq[t], w.ctl.nextLib[t], w.ctl.place[t], k, at, b);
    }
  }

  lemma FreshStep(N: Network, g: Guards, w: World, e: Event, b: nat)
    requires Inv(N, w) && RouteInv(N, g, w) && Enabled(N, w, e)
    ensures FreshHeld(N[e.t], Apply(N, w, e).trk[e.t], b)
  {
    hide EntriesGuarded, ReleasesBacked, Triple, Apart, Conserved, Laid;
    assert FreshHeld(N[e.t], w.trk[e.t], b);
    match e {
      case Report(t, at) => FreshReport(N, g, w, t, at, b);
      case Lock(t) => LockTakesMask(N, w, t, b);
      case _ =>
    }
  }

  /** A source stays a source when the train's history grows without touching the bit. */
  lemma SourceBefore(T: Train, k: Track, k': Track, r: nat, b: nat)
    requires TrainOk(T) && k.phase == Waiting && k' == k.(phase := Commanding(0))
    requires Source(T, k', r, b) && r < k.req && OnceEach(T, k, b)
    ensures Source(T, k, r, b)
  {
    CountMono(T.req, r + 1, k.req, b);
  }

  /** A train whose phase changes without sending a command or taking a mask keeps its sources. */
  lemma LaidFrame(N: Network, g: Guards, w: World, w': World, t: nat, r: nat, i: nat)
    requires NetworkOk(N) && Shape(N, w) && Shape(N, w') && t < 3 && Laid(N, g, w, t, r, i)
    requires w'.ctl.dir == w.ctl.dir
    requires w'.trk[t].req == w.trk[t].req && w'.trk[t].lib == w.trk[t].lib
    requires w'.trk[t].phase == w.trk[t].phase || (!w'.trk[t].phase.Commanding? && !w.trk[t].phase.Commanding?)
    ensures Laid(N, g, w', t, r, i)
  {
    assert Sent(N[t], w'.trk[t], r) == Sent(N[t], w.trk[t], r);
  }

  lemma LaidOwn(N: Network, g: Guards, w: World, e: Event, r: nat, i: nat)
    requires Inv(N, w) && Enabled(N, w, e) && !e.Set? && Laid(N, g, w, e.t, r, i)
    ensures Laid(N, g, Apply(N, w, e), e.t, r, i)
  {
    match e {
      case Report(t, at) => LaidReport(N, g, w, t, at, r, i);
      case Lock(t) => LaidLock(N, g, w, t, r, i);
      case Advance(t) => LaidAdvance(N, g, w, t, r, i);
      case Drive(t, _) => LaidFrame(N, g, w, Apply(N, w, e), t, r, i);
      case Demand(t) => LaidFrame(N, g, w, Apply(N, w, e), t, r, i);
      case Issue(t) => LaidFrame(N, g, w, Apply(N, w, e), t, r, i);
    }
  }

  /** Steps that set no switch leave every laid switch laid. */
  lemma LaidQuiet(N: Network, g: Guards, w: World, e: Event, t: nat, r: nat, i: nat)
    requires Inv(N, w) && Enabled(N, w, e) && !e.Set? && t < 3 && Laid(N, g, w, t, r, i)
    ensures Laid(N, g, Apply(N, w, e), t, r, i)
  {
    hide EntriesGuarded, ReleasesBacked, Triple, Apart, Conserved, Laid;
    if t == e.t {
      LaidOwn(N, g, w, e, r, i);
    } else {
      LaidFrame(N, g, w, Apply(N, w, e), t, r, i);
    }
  }

  /** A release only loses sources. */
  lemma LaidAfterRelease(T: Train, g: Guards, k: Track, k': Track, dir: map<int, bool>, r: nat, i: nat)
    requires TrainOk(T) && LaidFor(T, g, k, dir, r, i)
    requires k'.req == k.req && k'.phase == k.phase && k'.lib >= k.lib
    ensures LaidFor(T, g, k', dir, r, i)
  {
    if i < CmdCount(T, r) && Cmd(T, r, i).name in g {
      CountMono(T.lib, k.lib, k'.lib, g[Cmd(T, r, i).name]);
    }
  }

  lemma LaidReport(N: Network, g: Guards, w: World, t: nat, at: Pos, r: nat, i: nat)
    requires Inv(N, w) && Enabled(N, w, Report(t, at)) && Laid(N, g, w, t, r, i)
    ensures Laid(N, g, Apply(N, w, Report(t, at)), t, r, i)
  {
    hide EntriesGuarded, ReleasesBacked, Triple, Apart, Conserved, TrackInv, LaidFor;
    var w' := Apply(N, w, Report(t, at));
    ReportEffect(N, w, t, at);
    assert w'.ctl.dir == w.ctl.dir;
    LaidAfterRelease(N[t], g, w.trk[t], w'.trk[t], w.ctl.dir, r, i);
  }

  lemma LaidLock(N: Network, g: Guards, w: World, t: nat, r: nat, i: nat)
    requires Inv(N, w) && Enabled(N, w, Lock(t)) && Laid(N, g, w, t, r, i)
    ensures Laid(N, g, Apply(N, w, Lock(t)), t, r, i)
  {
    assert TrainInv(N, w, t);
    var k := w.trk[t];
    if r < k.req && i < CmdCount(N[t], r) && Cmd(N[t], r, i).name in g {
      var b := g[Cmd(N[t], r, i).name];
      assert OnceEach(N[t], k, b);
      if Source(N[t], k.(phase := Commanding(0)), r, b) {
        SourceBefore(N[t], k, k.(phase := Commanding(0)), r, b);
      }
    }
  }

  lemma LaidAdvance(N: Network, g: Guards, w: World, t: nat, r: nat, i: nat)
    requires Inv(N, w) && Enabled(N, w, Advance(t)) && Laid(N, g, w, t, r, i)
    ensures Laid(N, g, Apply(N, w, Advance(t)), t, r, i)
  {
    assert TrainInv(N, w, t);
    var k := w.trk[t];
    assert Sent(N[t], k.(req := k.req + 1, phase := Answering), r) == Sent(N[t], k, r);
  }

  /** The command being sent names a switch guarded by a bit that the sender holds; any other laid switch of that
      name would need the same bit from another grant. */
  lemma SameSwitch(N: Network, g: Guards, w: World, u: nat, t: nat, r: nat, i: nat)
    requires Inv(N, w) && RouteInv(N, g, w) && RoutesOk(N, g) && Enabled(N, w, Set(u)) && t < 3
    requires var T, k := N[t], w.trk[t];
             && i < Sent(T, k, r) && i < CmdCount(T, r) && Cmd(T, r, i).name in g
                 && Source(T, k, r, g[Cmd(T, r, i).name])
    requires w.trk[u].phase.done < CmdCount(N[u], w.trk[u].req)
    ensures Cmd(N[t], r, i).name != Cmd(N[u], w.trk[u].req, w.trk[u].phase.done).name
  {
    hide EntriesGuarded, ReleasesBacked, Triple, Apart, TrackInv, Laid;
    var U, k := N[u], w.trk[u];
    var d := k.phase.done;
    var name := Cmd(U, k.req, d).name;
    assert GrantGuarded(U, g, k.req, d);
    var b := g[name];
    if Cmd(N[t], r, i).name == name {
      assert FreshHeld(U, k, b);
      assert ConservedBit(N, w, b);
      assert t == u;
      if r < k.req {
        CountMono(U.req, r + 1, k.req, b);
      }
      assert false;
    }
  }

  lemma LaidSet(N: Network, g: Guards, w: World, u: nat, t: nat, r: nat, i: nat)
    requires Inv(N, w) && RouteInv(N, g, w) && RoutesOk(N, g) && Enabled(N, w, Set(u)) && t < 3
    ensures Laid(N, g, Apply(N, w, Set(u)), t, r, i)
  {
    hide EntriesGuarded, ReleasesBacked, Triple, Apart, Conserved, GrantGuarded, FreshHeld;
    var w' := Apply(N, w, Set(u));
    var T, k, k' := N[t], w.trk[t], w'.trk[t];
    assert TrainInv(N, w, u);
    assert Laid(N, g, w, t, r, i);
    if i < Sent(T, k', r) && i < CmdCount(T, r) && Cmd(T, r, i).name in g && Source(T, k', r, g[Cmd(T, r, i).name]) {
      if i < Sent(T, k, r) {
        SameSwitch(N, g, w, u, t, r, i);
      }
    }
  }

  lemma RouteStep(N: Network, g: Guards, w: World, e: Event, w': World)
    requires Inv(N, w) && RouteInv(N, g, w) && RoutesOk(N, g) && Step(N, w, e, w')
    ensures RouteInv(N, g, w')
  {
    forall t: nat, b: nat | t < 3 ensures FreshHeld(N[t], w'.trk[t], b) {
      assert FreshHeld(N[t], w.trk[t], b);
      if t == e.t {
        FreshStep(N, g, w, e, b);
      }
    }
    forall t: nat, r: nat, i: nat | t < 3 ensures Laid(N, g, w', t, r, i) {
      if e.Set? {
        LaidSet(N, g, w, e.t, t, r, i);
      } else {
        assert Laid(N, g, w, t, r, i);
        LaidQuiet(N, g, w, e, t, r, i);
      }
    }
  }

  lemma RouteFirst(N: Network, g: Guards, ws: seq<World>, es: seq<Event>)
    requires NetworkOk(N) && Run(N, ws, es)
    ensures Shape(N, ws[0]) && RouteInv(N, g, ws[0])
  {
    FirstInv(N, ws, es);
  }

  lemma RouteNext(N: Network, g: Guards, ws: seq<World>, es: seq<Event>, n: nat)
    requires NetworkOk(N) && RoutesOk(N, g) && Run(N, ws, es) && n < |es|
    requires Inv(N, ws[n]) && RouteInv(N, g, ws[n])
    ensures Shape(N, ws[n + 1]) && RouteInv(N, g, ws[n + 1])
  {
    RunStep(N, ws, es, n);
    RouteStep(N, g, ws[n], es[n], ws[n + 1]);
  }

  lemma {:induction false} RouteRun(N: Network, g: Guards, ws: seq<World>, es: seq<Event>, n: nat)
    requires NetworkOk(N) && RoutesOk(N, g) && Run(N, ws, es) && n < |ws|
    ensures Shape(N, ws[n]) && RouteInv(N, g, ws[n])
  {
    hide Inv, RouteInv, RoutesOk;
    if n == 0 {
      RouteFirst(N, g, ws, es);
    } else {
      RouteRun(N, g, ws, es, n - 1);
      RunInv(N, ws, es, n - 1);
      RouteNext(N, g, ws, es, n - 1);
    }
  }

  /** Route locking: in every world of every run, a switch commanded by a completed grant still lies the way that
      grant commanded it, as long as the train holds the guard that the grant brought. */
  lemma RouteLocked(N: Network, g: Guards, ws: seq<World>, es: seq<Event>, n: nat, t: nat, r: nat, i: nat)
    requires NetworkOk(N) && RoutesOk(N, g) && Run(N, ws, es) && n < |ws| && t < 3 && |ws[n].trk| == 3
    requires r < ws[n].trk[t].req && i < CmdCount(N[t], r)
    requires Cmd(N[t], r, i).name in g && Source(N[t], ws[n].trk[t], r, g[Cmd(N[t], r, i).name])
    ensures var c := Cmd(N[t], r, i); c.name in ws[n].ctl.dir && ws[n].ctl.dir[c.name] == c.turn
  {
    RouteRun(N, g, ws, es, n);
    assert Laid(N, g, ws[n], t, r, i);
  }

  // ----- the repository's tables -----

  /** A guard for each switch: R1 for 0x102, 0x112 and 0x122, R2 for 0x132 and 0x142, R3 for 0x152 and 0x162,
      R5 for 0x182, 0x1B2 and 0x1F2, R4 for the others. */
  const GUARDS: Guards := map[
    0x102 := 0, 0x112 := 0, 0x122 := 0, 0x132 := 1, 0x142 := 1, 0x152 := 2, 0x162 := 2, 0x182 := 4,
    0x1B2 := 4, 0x1F2 := 4, 0x192 := 3, 0x1A2 := 3, 0x1D2 := 3, 0x1E2 := 3, 0x202 := 3, 0x212 := 3]

  lemma GrantOk(w: nat, t: nat, r: nat, i: nat)
    requires t < 3
    ensures GrantGuarded(Shipped(w)[t], GUARDS, r, i)
  {
    if t == 0 {
    } else if t == 1 {
    } else {
    }
  }

  /** Every switch command of the repository is covered by that choice of guards. */
  lemma ShippedRoutes(w: nat)
    requires w == 3 || w == 4
    ensures NetworkOk(Shipped(w)) && RoutesOk(Shipped(w), GUARDS)
  {
    ShippedOk(w);
    var N := Shipped(w);
    forall t: nat, r: nat, i: nat {:trigger GrantGuarded(N[t], GUARDS, r, i)} | t < 3
      ensures GrantGuarded(N[t], GUARDS, r, i)
    {
      GrantOk(w, t, r, i);
    }
  }
}
