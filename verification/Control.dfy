/** The radio block centre: its global state, the effect of each critical section on it, and the code. */
module Control {
  import opened Options
  import opened ResourceBits
  import opened Cyclic
  import opened Tables
  import opened EndOfAuthority

  /** The globals of the RBC, the resource byte as the set of its bits, and the directions last commanded. */
  datatype Control = Control(resources: set<nat>, nextReq: seq<nat>, nextLib: seq<nat>, place: seq<Place>,
      dir: map<int, bool>)

  /** What the code needs of its tables: entries for every cursor value, requests made on the path. */
  ghost predicate Usable(T: Train) {
    && |T.path| > 0
    && 0 < T.req.wrap <= |T.req.bal| && |T.req.bal| == |T.req.mask| == |T.commands|
    && 0 < T.lib.wrap <= |T.lib.bal| && |T.lib.bal| == |T.lib.mask|
    && (forall r :: 0 <= r < T.req.wrap ==> T.req.bal[r] in T.path && T.req.mask[r] != {})
  }

  ghost predicate TablesOk(N: Network) {
    |N| == 3 && Usable(N[0]) && Usable(N[1]) && Usable(N[2])
  }

  lemma CoherentIsUsable(T: Train)
    requires TrainOk(T)
    ensures Usable(T)
  {
    forall r: nat | r < T.req.wrap ensures T.req.bal[r] in T.path && T.req.mask[r] != {} {
      assert AtBalise(T.path, T.req, r) && Asks(T, r);
    }
  }

  ghost predicate ControlOk(N: Network, c: Control)
    requires TablesOk(N)
  {
    && |c.nextReq| == |c.nextLib| == |c.place| == 3
    && (forall t :: 0 <= t < 3 ==> c.nextReq[t] < N[t].req.wrap && c.nextLib[t] < N[t].lib.wrap)
  }

  /** The stored position names a balise of the train's own path, as the search for an authority needs. */
  predicate OnPath(N: Network, c: Control, t: nat) {
    t < |N| && t < |c.place| && c.place[t].bal in N[t].path
  }

  // ----- effect of each critical section -----

  function Initial(N: Network): (c: Control)
    requires TablesOk(N)
    ensures ControlOk(N, c) && OnPath(N, c, 0) && OnPath(N, c, 1) && OnPath(N, c, 2)
  {
    Control({}, [0, 0, 0], [0, 0, 0],
            [Place(N[0].path[0], 0.0), Place(N[1].path[0], 0.0), Place(N[2].path[0], 0.0)], map[])
  }

  /** The balise at which the next ungranted request of train t stands. */
  function StopBal(N: Network, c: Control, t: nat): (bal: int)
    requires TablesOk(N) && ControlOk(N, c) && t < 3
    ensures bal in N[t].path
  {
    N[t].req.bal[c.nextReq[t]]
  }

  function WantedMask(N: Network, c: Control, t: nat): (m: set<nat>)
    requires TablesOk(N) && ControlOk(N, c) && t < 3
    ensures m != {}
  {
    N[t].req.mask[c.nextReq[t]]
  }

  function Commands(N: Network, c: Control, t: nat): seq<Command>
    requires TablesOk(N) && ControlOk(N, c) && t < 3
  {
    N[t].commands[c.nextReq[t]]
  }

  /** free_resources: a release happens on the expected balise only. */
  predicate FreesAt(N: Network, c: Control, t: nat)
    requires TablesOk(N) && ControlOk(N, c) && t < 3
  {
    c.place[t].bal == N[t].lib.bal[c.nextLib[t]] && c.place[t].posR >= 0.0
  }

  function Free(N: Network, c: Control, t: nat): (c': Control)
    requires TablesOk(N) && ControlOk(N, c) && t < 3
    ensures ControlOk(N, c')
  {
    if FreesAt(N, c, t) then
      c.(resources := c.resources - N[t].lib.mask[c.nextLib[t]],
         nextLib := c.nextLib[t := Next(c.nextLib[t], N[t].lib.wrap)])
    else c
  }

  /** A position report: the position is stored, then a release may follow. */
  function Store(N: Network, c: Control, t: nat, p: Place): (c': Control)
    requires TablesOk(N) && ControlOk(N, c) && t < 3
    ensures ControlOk(N, c')
  {
    c.(place := c.place[t := p])
  }

  /** Request balise r is on entry i of the path and the train stands on it or on the balise before it. */
  predicate Before(path: seq<int>, bal: int, r: int, i: nat)
    requires i < |path|
  {
    (bal == path[Prev(i, |path|)] || bal == path[i]) && r == path[i]
  }

  predicate NearStop(path: seq<int>, bal: int, r: int) {
    exists i :: 0 <= i < |path| && Before(path, bal, r, i)
  }

  predicate Demands(N: Network, c: Control, t: nat)
    requires TablesOk(N) && ControlOk(N, c) && t < 3
  {
    NearStop(N[t].path, c.place[t].bal, StopBal(N, c, t)) && c.place[t].posR >= 0.0
  }

  function Take(N: Network, c: Control, t: nat): (c': Control)
    requires TablesOk(N) && ControlOk(N, c) && t < 3
    ensures ControlOk(N, c')
  {
    c.(resources := c.resources + WantedMask(N, c, t))
  }

  function Switch(c: Control, k: Command): Control {
    c.(dir := c.dir[k.name := k.turn])
  }

  function SwitchAll(c: Control, ks: seq<Command>, n: nat): Control
    requires n <= |ks|
  {
    if n == 0 then c else Switch(SwitchAll(c, ks, n - 1), ks[n - 1])
  }

  function Advance(N: Network, c: Control, t: nat): (c': Control)
    requires TablesOk(N) && ControlOk(N, c) && t < 3
    ensures ControlOk(N, c')
  {
    c.(nextReq := c.nextReq[t := Next(c.nextReq[t], N[t].req.wrap)])
  }

  /** The authority computed for train t, relative to its reported position. */
  function HopFor(N: Network, c: Control, t: nat): Hop
    requires TablesOk(N) && ControlOk(N, c) && t < 3 && OnPath(N, c, t)
  {
    NextHop(N[t].path, c.place[t], StopBal(N, c, t), c.place[(t + 1) % 3], c.place[(t + 2) % 3])
  }

  /** The End Of Authority sent in the reply. */
  function EoaFor(N: Network, c: Control, t: nat): Place
    requires TablesOk(N) && ControlOk(N, c) && t < 3 && OnPath(N, c, t)
  {
    Landing(N[t].path, IndexOf(N[t].path, c.place[t].bal), HopFor(N, c, t))
  }

  /** The rest of ask_resources once the mask is taken: switches set, cursor advanced. */
  function Finish(N: Network, c: Control, t: nat): (c': Control)
    requires TablesOk(N) && ControlOk(N, c) && t < 3
    ensures ControlOk(N, c')
  {
    var ks := Commands(N, c, t);
    SwitchAllFrame(c, ks, |ks|);
    Advance(N, SwitchAll(c, ks, |ks|), t)
  }

  /** A completed ask_resources whose mask was free. */
  function Grant(N: Network, c: Control, t: nat): (c': Control)
    requires TablesOk(N) && ControlOk(N, c) && t < 3
    ensures ControlOk(N, c')
  {
    Finish(N, Take(N, c, t), t)
  }

  datatype Asked = NotDue | Blocked | Granted

  function Ask(N: Network, c: Control, t: nat): Asked
    requires TablesOk(N) && ControlOk(N, c) && t < 3
  {
    if !Demands(N, c, t) then NotDue else if c.resources !! WantedMask(N, c, t) then Granted else Blocked
  }

  lemma {:induction false} SwitchAllFrame(c: Control, ks: seq<Command>, n: nat)
    requires n <= |ks|
    ensures SwitchAll(c, ks, n) == c.(dir := SwitchAll(c, ks, n).dir)
  {
    if n > 0 {
      SwitchAllFrame(c, ks, n - 1);
    }
  }

  // ----- the code -----

  /** The request codes with their decoded fields; None stands for text that strtol or strtod rejects. */
  datatype Request = Request(trainId: int, code: int, bal: Option<int>, posR: Option<real>)
  datatype Reply = Reply(trainId: int, code: int, eoa: Option<Place>)

  /** The mask tables L_mask_req and L_mask_lib, as the bytes the code works with. */
  datatype Masks = Masks(req: seq<seq<bv8>>, lib: seq<seq<bv8>>)

  ghost predicate Packs(bytes: seq<bv8>, masks: seq<set<nat>>) {
    |bytes| == |masks| && forall r :: 0 <= r < |bytes| ==> Bits(bytes[r]) == masks[r]
  }

  ghost predicate MasksOk(N: Network, m: Masks) {
    && |m.req| == |m.lib| == |N| == 3
    && forall t :: 0 <= t < 3 ==> Packs(m.req[t], N[t].req.mask) && Packs(m.lib[t], N[t].lib.mask)
  }

  class Rbc {
    const net: Network
    const masks: Masks
    const nextReq: array<nat>
    const nextLib: array<nat>
    const posTrains: array<Place>
    var resources: bv8
    var dir: map<int, bool>

    ghost predicate Valid()
      reads this, nextReq, nextLib, posTrains
    {
      && nextReq != nextLib
      && nextReq.Length == nextLib.Length == posTrains.Length == 3
      && TablesOk(net)
      && MasksOk(net, masks)
      && ControlOk(net, State())
    }

    ghost function State(): Control
      reads this, nextReq, nextLib, posTrains
    {
      Control(Bits(resources), nextReq[..], nextLib[..], posTrains[..], dir)
    }

    /** init_trains and the initial values of the globals: every train stands on the first balise of its path. */
    constructor (net: Network, masks: Masks)
      requires TablesOk(net) && MasksOk(net, masks)
      ensures Valid() && fresh(nextReq) && fresh(nextLib) && fresh(posTrains)
      ensures this.net == net && this.masks == masks
      ensures State() == Initial(net)
    {
      this.net, this.masks := net, masks;
      nextReq := new nat[] [0, 0, 0];
      nextLib := new nat[] [0, 0, 0];
      posTrains := new Place[] [Place(net[0].path[0], 0.0), Place(net[1].path[0], 0.0), Place(net[2].path[0], 0.0)];
      resources, dir := 0, map[];
      new;
      assert nextReq[..] == [0, 0, 0] && nextLib[..] == [0, 0, 0];
      assert posTrains[..] == [Place(net[0].path[0], 0.0), Place(net[1].path[0], 0.0), Place(net[2].path[0], 0.0)];
    }

    /** One pass of the polling loop of lock_ressources. */
    method TryLock(mask: bv8) returns (taken: bool)
      modifies this`resources
      ensures taken <==> Bits(old(resources)) !! Bits(mask)
      ensures Bits(resources) == if taken then Bits(old(resources)) + Bits(mask) else Bits(old(resources))
    {
      FreeBits(resources, mask);
      MaskSets(resources, mask);
      taken := resources & mask == 0;
      if taken {
        resources := resources | mask;
      }
    }

    method UnlockRessources(mask: bv8)
      modifies this`resources
      ensures Bits(resources) == Bits(old(resources)) - Bits(mask)
    {
      MaskSets(resources, mask);
      resources := resources & !mask;
    }

    /** The table scan of ask_resources. */
    method RequestDue(t: nat) returns (due: bool)
      requires Valid() && t < 3
      ensures due <==> Demands(net, State(), t)
    {
      var path := net[t].path;
      var n := |path|;
      var found := false;
      var i := 0;
      while i < n && !found
        invariant 0 <= i <= n
        invariant found ==> exists k :: 0 <= k < n && Before(path, posTrains[t].bal, StopBal(net, State(), t), k)
        invariant !found ==> forall k :: 0 <= k < i ==> !Before(path, posTrains[t].bal, StopBal(net, State(), t), k)
        decreases n - i, !found
      {
        ByRemainder(i, n);
        if (posTrains[t].bal == path[(i - 1 + n) % n] || posTrains[t].bal == path[i])
           && net[t].req.bal[nextReq[t]] == path[i] {
          assert Before(path, posTrains[t].bal, StopBal(net, State(), t), i);
          found := true;
        } else {
          i := i + 1;
        }
      }
      due := found && posTrains[t].posR >= 0.0;
    }

    /** set_all_switch with every CAN frame sent successfully. */
    method SetAllSwitch(t: nat)
      requires Valid() && t < 3
      modifies this`dir
      ensures Valid()
      ensures var ks := old(Commands(net, State(), t)); State() == SwitchAll(old(State()), ks, |ks|)
    {
      var ks := net[t].commands[nextReq[t]];
      for i := 0 to |ks|
        invariant Valid()
        invariant State() == SwitchAll(old(State()), ks, i)
      {
        dir := dir[ks[i].name := ks[i].turn];
      }
    }

    /** ask_resources up to its first failed poll, or in full when the mask is free. */
    method AskResources(t: nat) returns (asked: Asked)
      requires Valid() && t < 3
      modifies this`resources, this`dir, nextReq
      ensures Valid()
      ensures asked == Ask(net, old(State()), t)
      ensures State() == if asked == Granted then Grant(net, old(State()), t) else old(State())
    {
      var due := RequestDue(t);
      asked := NotDue;
      if due {
        var granted := Obtain(t);
        asked := if granted then Granted else Blocked;
      }
    }

    /** The part of ask_resources that follows the position test, with a single poll. */
    method Obtain(t: nat) returns (granted: bool)
      requires Valid() && t < 3
      modifies this`resources, this`dir, nextReq
      ensures Valid()
      ensures granted <==> old(State().resources) !! old(WantedMask(net, State(), t))
      ensures State() == if granted then Grant(net, old(State()), t) else old(State())
    {
      granted := PollFor(t);
      if granted {
        CompleteGrant(t);
      }
    }

    /** One poll for the mask of the train's next request. */
    method PollFor(t: nat) returns (taken: bool)
      requires Valid() && t < 3
      modifies this`resources
      ensures Valid()
      ensures taken <==> old(State().resources) !! old(WantedMask(net, State(), t))
      ensures State() == if taken then Take(net, old(State()), t) else old(State())
    {
      taken := TryLock(masks.req[t][nextReq[t]]);
    }

    /** The rest of ask_resources once the mask is taken. */
    method CompleteGrant(t: nat)
      requires Valid() && t < 3
      modifies this`dir, nextReq
      ensures Valid()
      ensures State() == Finish(net, old(State()), t)
    {
      SetAllSwitch(t);
      AdvanceCursor(t);
    }

    method AdvanceCursor(t: nat)
      requires Valid() && t < 3
      modifies nextReq
      ensures Valid() && State() == Advance(net, old(State()), t)
    {
      ByRemainder(nextReq[t], net[t].req.wrap);
      nextReq[t] := (nextReq[t] + 1) % net[t].req.wrap;
    }

    method StorePosition(t: nat, p: Place)
      requires Valid() && t < 3
      modifies posTrains
      ensures Valid() && State() == Store(net, old(State()), t, p)
    {
      posTrains[t] := p;
    }

    /** free_resources. */
    method FreeResources(t: nat)
      requires Valid() && t < 3
      modifies this`resources, nextLib
      ensures Valid() && State() == Free(net, old(State()), t)
    {
      if posTrains[t].bal == net[t].lib.bal[nextLib[t]] && posTrains[t].posR >= 0.0 {
        UnlockRessources(masks.lib[t][nextLib[t]]);
        ByRemainder(nextLib[t], net[t].lib.wrap);
        nextLib[t] := (nextLib[t] + 1) % net[t].lib.wrap;
      }
    }

    /** handle_request. A movement authority request whose resources are taken gets no reply yet. */
    method HandleRequest(m: Request) returns (reply: Option<Reply>)
      requires Valid()
      requires m.trainId >= 1  // not checked by the source, which would index before its arrays
      requires m.trainId <= 3 && m.code == 102 ==> OnPath(net, State(), m.trainId - 1)
      // else next_eoa leaves its table
      modifies this, nextReq, nextLib, posTrains
      ensures Valid()
      ensures m.trainId > 3 ==> reply == Some(Reply(m.trainId, 404, None)) && State() == old(State())
      ensures m.trainId <= 3 && m.code == 101 ==>
        if m.bal.Some? && m.posR.Some?
        then && reply == Some(Reply(m.trainId, 201, None))
             && State() == Free(net, Store(net, old(State()), m.trainId - 1, Place(m.bal.value, m.posR.value)),
                 m.trainId - 1)
        else reply == Some(Reply(m.trainId, 401, None)) && State() == old(State())
      ensures m.trainId <= 3 && m.code == 102 ==>
        var t := m.trainId - 1;
        var asked := Ask(net, old(State()), t);
        && State() == (if asked == Granted then Grant(net, old(State()), t) else old(State()))
            && OnPath(net, State(), t)
        && reply == if asked == Blocked then None else Some(Reply(m.trainId, 202, Some(EoaFor(net, State(), t))))
      ensures m.trainId <= 3 && m.code == 100 ==> reply == Some(Reply(m.trainId, 200, None)) && State() == old(State())
      ensures m.trainId <= 3 && m.code != 100 && m.code != 101 && m.code != 102 ==>
        reply == Some(Reply(m.trainId, 400, None)) && State() == old(State())
    {
      if m.trainId - 1 >= 3 {
        return Some(Reply(m.trainId, 404, None));
      }
      var t := m.trainId - 1;
      match m.code {
        case 101 =>
          if m.bal.None? || m.posR.None? {
            return Some(Reply(m.trainId, 401, None));
          }
          StorePosition(t, Place(m.bal.value, m.posR.value));
          FreeResources(t);
          return Some(Reply(m.trainId, 201, None));
        case 102 =>
          var asked := AskResources(t);
          if asked == Blocked {
            return None;
          }
          var eoa := NextEoa(t, posTrains[..], net[t].req.bal[nextReq[t]], [net[0].path, net[1].path, net[2].path]);
          return Some(Reply(m.trainId, 202, Some(eoa)));
        case 100 =>
          return Some(Reply(m.trainId, 200, None));
        case _ =>
          return Some(Reply(m.trainId, 400, None));
      }
    }

    /** A handler whose request was blocked polls once more; when it succeeds, the rest of handle_request follows. */
    method Resume(t: nat) returns (reply: Option<Reply>)
      requires Valid() && t < 3 && OnPath(net, State(), t)
      modifies this`resources, this`dir, nextReq
      ensures Valid() && OnPath(net, State(), t)
      ensures var free := old(State().resources) !! old(WantedMask(net, State(), t));
              && State() == (if free then Grant(net, old(State()), t) else old(State()))
              && reply == if free then Some(Reply(t + 1, 202, Some(EoaFor(net, State(), t)))) else None
    {
      var granted := Obtain(t);
      if !granted {
        return None;
      }
      var eoa := NextEoa(t, posTrains[..], net[t].req.bal[nextReq[t]], [net[0].path, net[1].path, net[2].path]);
      return Some(Reply(t + 1, 202, Some(eoa)));
    }
  }
}
