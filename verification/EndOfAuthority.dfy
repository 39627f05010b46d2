/** The search for the End Of Authority: the first obstacle met going forward along the train's cyclic path. */
module EndOfAuthority {
  import opened Cyclic
  import opened Tables

  /** A point ahead of the train: whole balises to go, then a distance past the last one. */
  datatype Hop = Hop(steps: nat, off: real)

  predicate HopLe(a: Hop, b: Hop) {
    a.steps < b.steps || (a.steps == b.steps && a.off <= b.off)
  }

  /** The starting value of the running minimum in next_eoa. */
  const FAR: real := 1000000000.0

  function Least(min: real, on: bool, posR: real): real {
    if on && posR <= min then posR else min
  }

  /** Minimum over the objectives standing on balise n. */
  function LeastOn(n: int, stop: int, p: Place, q: Place): real {
    Least(Least(Least(FAR, stop == n, 0.0), p.bal == n, p.posR), q.bal == n, q.posR)
  }

  ghost predicate MeetsStop(path: seq<int>, i: nat, s: nat, stop: int)
    requires |path| > 0
  {
    exists k: nat :: s <= k <= |path| && After(path, i, k) == stop
  }

  /** First balise from step s on that carries an objective. */
  function Scan(path: seq<int>, i: nat, s: nat, stop: int, p: Place, q: Place): (h: Hop)
    requires |path| > 0 && MeetsStop(path, i, s, stop)
    ensures s <= h.steps <= |path|
    decreases |path| - s
  {
    var n := After(path, i, s);
    if stop == n || p.bal == n || q.bal == n then Hop(s, LeastOn(n, stop, p, q)) else Scan(path, i, s + 1, stop, p, q)
  }

  /** next_eoa for a train at cur whose next ungranted request stands at balise stop, the others being at p and q. */
  function NextHop(path: seq<int>, cur: Place, stop: int, p: Place, q: Place): (h: Hop)
    requires cur.bal in path && stop in path
    ensures h.steps <= |path|
  {
    if stop == cur.bal && cur.posR <= 0.0 then Hop(0, 0.0)
    else if p.bal == cur.bal && p.posR >= cur.posR then Hop(0, p.posR)
    else if q.bal == cur.bal && q.posR >= cur.posR then Hop(0, q.posR)
    else
      StopMet(path, IndexOf(path, cur.bal), stop);
      Scan(path, IndexOf(path, cur.bal), 1, stop, p, q)
  }

  lemma StopMet(path: seq<int>, i: nat, stop: int)
    requires stop in path
    ensures MeetsStop(path, i, 1, stop)
  {
    var s := WrapMeets(i, IndexOf(path, stop), |path|);
    assert After(path, i, s) == stop;
  }

  /** The place reached from balise index i by a hop. */
  function Landing(path: seq<int>, i: nat, h: Hop): Place
    requires |path| > 0
  {
    Place(After(path, i, h.steps), h.off)
  }

  ghost predicate Objective(bal: int, off: real, stop: int, p: Place, q: Place) {
    Place(bal, off) == Place(stop, 0.0) || Place(bal, off) == p || Place(bal, off) == q
  }

  lemma {:induction false} ScanNearest(path: seq<int>, i: nat, s: nat, stop: int, p: Place, q: Place, k: nat, off: real)
    requires |path| > 0 && MeetsStop(path, i, s, stop) && s <= k
    requires Objective(After(path, i, k), off, stop, p, q)
    ensures HopLe(Scan(path, i, s, stop, p, q), Hop(k, off))
    decreases |path| - s
  {
    var n := After(path, i, s);
    if !(stop == n || p.bal == n || q.bal == n) {
      ScanNearest(path, i, s + 1, stop, p, q, k, off);
    }
  }

  /** No objective lies strictly between the train and the returned point: every objective met at a point
      (k, off) not behind the train is at or beyond it. */
  ghost predicate Nearest(path: seq<int>, cur: Place, stop: int, p: Place, q: Place)
    requires cur.bal in path && stop in path
  {
    forall k: nat, off: real ::
      Objective(After(path, IndexOf(path, cur.bal), k), off, stop, p, q) && (k == 0 ==> off >= cur.posR)
      ==> HopLe(NextHop(path, cur, stop, p, q), Hop(k, off))
  }

  /** Both other trains stand ahead in the train's own canton and the one tested first is the farther. */
  predicate Shadowed(cur: Place, stop: int, p: Place, q: Place) {
    && p.bal == q.bal == cur.bal
    && cur.posR <= q.posR < p.posR
    && !(stop == cur.bal && cur.posR <= 0.0)
  }

  /** next_eoa finds the nearest objective except when one train ahead hides a nearer one in the same canton. */
  lemma NearestUnlessShadowed(path: seq<int>, cur: Place, stop: int, p: Place, q: Place)
    requires cur.bal in path && stop in path && p.posR >= 0.0 && q.posR >= 0.0
    ensures Nearest(path, cur, stop, p, q) <==> !Shadowed(cur, stop, p, q)
  {
    var i := IndexOf(path, cur.bal);
    StopMet(path, i, stop);
    if Shadowed(cur, stop, p, q) {
      assert After(path, i, 0) == q.bal;
      assert !HopLe(NextHop(path, cur, stop, p, q), Hop(0, q.posR));
    } else {
      forall k: nat, off: real
        | Objective(After(path, i, k), off, stop, p, q) && (k == 0 ==> off >= cur.posR)
        ensures HopLe(NextHop(path, cur, stop, p, q), Hop(k, off))
      {
        if k > 0 {
          ScanNearest(path, i, 1, stop, p, q, k, off);
        }
      }
    }
  }

  lemma {:induction false} ScanLands(path: seq<int>, i: nat, s: nat, stop: int, p: Place, q: Place)
    requires |path| > 0 && MeetsStop(path, i, s, stop) && p.posR <= FAR && q.posR <= FAR
    ensures var h := Scan(path, i, s, stop, p, q); Objective(After(path, i, h.steps), h.off, stop, p, q)
    decreases |path| - s
  {
    var n := After(path, i, s);
    if !(stop == n || p.bal == n || q.bal == n) {
      ScanLands(path, i, s + 1, stop, p, q);
    }
  }

  /** The returned point is itself an objective, and is not behind the train. */
  lemma NextHopLands(path: seq<int>, cur: Place, stop: int, p: Place, q: Place)
    requires cur.bal in path && stop in path && p.posR <= FAR && q.posR <= FAR
    ensures var h := NextHop(path, cur, stop, p, q);
            && Objective(After(path, IndexOf(path, cur.bal), h.steps), h.off, stop, p, q)
            && (h.steps == 0 ==> h.off >= cur.posR)
  {
    var i := IndexOf(path, cur.bal);
    StopMet(path, i, stop);
    if NextHop(path, cur, stop, p, q).steps > 0 {
      ScanLands(path, i, 1, stop, p, q);
    }
  }

  lemma {:induction false} ScanMeets(path: seq<int>, i: nat, s: nat, stop: int, p: Place, q: Place)
    requires |path| > 0 && MeetsStop(path, i, s, stop)
    ensures After(path, i, Scan(path, i, s, stop, p, q).steps) in {stop, p.bal, q.bal}
    decreases |path| - s
  {
    var n := After(path, i, s);
    if !(stop == n || p.bal == n || q.bal == n) {
      ScanMeets(path, i, s + 1, stop, p, q);
    }
  }

  /** Whatever the offsets, the returned point is on the balise of an objective that is not behind the train. */
  lemma NextHopMeets(path: seq<int>, cur: Place, stop: int, p: Place, q: Place)
    requires cur.bal in path && stop in path
    ensures var h := NextHop(path, cur, stop, p, q);
            var n := After(path, IndexOf(path, cur.bal), h.steps);
            n == stop || (n == p.bal && (h.steps == 0 ==> cur.posR <= p.posR))
                      || (n == q.bal && (h.steps == 0 ==> cur.posR <= q.posR))
  {
    var i := IndexOf(path, cur.bal);
    StopMet(path, i, stop);
    if NextHop(path, cur, stop, p, q).steps > 0 {
      ScanMeets(path, i, 1, stop, p, q);
    }
  }

  /** The returned point is never behind the train. */
  lemma NextHopAhead(path: seq<int>, cur: Place, stop: int, p: Place, q: Place)
    requires cur.bal in path && stop in path
    ensures var h := NextHop(path, cur, stop, p, q); h.steps == 0 ==> h.off >= cur.posR
  {
    StopMet(path, IndexOf(path, cur.bal), stop);
  }

  /** Offsets of objectives are never negative, and neither is the returned one. */
  lemma {:induction false} ScanOffset(path: seq<int>, i: nat, s: nat, stop: int, p: Place, q: Place)
    requires |path| > 0 && MeetsStop(path, i, s, stop) && p.posR >= 0.0 && q.posR >= 0.0
    ensures Scan(path, i, s, stop, p, q).off >= 0.0
    decreases |path| - s
  {
    var n := After(path, i, s);
    if !(stop == n || p.bal == n || q.bal == n) {
      ScanOffset(path, i, s + 1, stop, p, q);
    }
  }

  lemma NextHopOffset(path: seq<int>, cur: Place, stop: int, p: Place, q: Place)
    requires cur.bal in path && stop in path && p.posR >= 0.0 && q.posR >= 0.0
    ensures NextHop(path, cur, stop, p, q).off >= 0.0
  {
    StopMet(path, IndexOf(path, cur.bal), stop);
    ScanOffset(path, IndexOf(path, cur.bal), 1, stop, p, q);
  }

  /** The running minimum of next_eoa over the three objectives of one balise. */
  method MinOnBalise(on: seq<bool>, posR: seq<real>) returns (min: real)
    requires |on| == |posR| == 3
    ensures min == Least(Least(Least(FAR, on[0], posR[0]), on[1], posR[1]), on[2], posR[2])
  {
    min := FAR;
    for j := 0 to 3
      invariant j == 0 ==> min == FAR
      invariant j == 1 ==> min == Least(FAR, on[0], posR[0])
      invariant j == 2 ==> min == Least(Least(FAR, on[0], posR[0]), on[1], posR[1])
      invariant j == 3 ==> min == Least(Least(Least(FAR, on[0], posR[0]), on[1], posR[1]), on[2], posR[2])
    {
      if on[j] && posR[j] <= min {
        min := posR[j];
      }
    }
  }

  lemma StepOn(check: nat, m: nat, n: nat)
    requires n > 0 && check == Wrap(m, n)
    ensures (check + 1) % n == Wrap(m + 1, n)
  {
    WrapNext(m, n);
    ByRemainder(check, n);
  }

  lemma ScanAt(path: seq<int>, i: nat, s: nat, stop: int, p: Place, q: Place)
    requires |path| > 0 && MeetsStop(path, i, s, stop)
    ensures s <= |path|
    ensures var n := path[Wrap(i + s, |path|)];
            if stop == n || p.bal == n || q.bal == n then Scan(path, i, s, stop, p, q) == Hop(s, LeastOn(n, stop, p, q))
            else MeetsStop(path, i, s + 1, stop) && Scan(path, i, s, stop, p, q) == Scan(path, i, s + 1, stop, p, q)
  {
  }

  /** The main loop of next_eoa: from the balise after index i on, the first one carrying an objective.
      It ends within one turn because the request balise is on the path. */
  method Search(path: seq<int>, i: nat, stop: int, one: Place, two: Place) returns (eoa: Place)
    requires i < |path| && MeetsStop(path, i, 1, stop)
    ensures eoa == Landing(path, i, Scan(path, i, 1, stop, one, two))
  {
    var check := i;
    hide Scan, MeetsStop, Wrap;
    ghost var s: nat := 0;
    while true
      invariant s <= |path| && check == Wrap(i + s, |path|)
      invariant MeetsStop(path, i, s + 1, stop)
      invariant Scan(path, i, s + 1, stop, one, two) == Scan(path, i, 1, stop, one, two)
      decreases |path| - s
    {
      StepOn(check, i + s, |path|);
      check := (check + 1) % |path|;
      s := s + 1;
      ScanAt(path, i, s, stop, one, two);
      var on, posR := [false, false, false], [0.0, 0.0, 0.0];
      if stop == path[check] {
        on, posR := on[0 := true], posR[0 := 0.0];
      }
      if one.bal == path[check] {
        on, posR := on[1 := true], posR[1 := one.posR];
      }
      if two.bal == path[check] {
        on, posR := on[2 := true], posR[2 := two.posR];
      }
      if on[0] || on[1] || on[2] {
        var min := MinOnBalise(on, posR);
        return Place(path[check], min);
      }
    }
  }

  /** next_eoa. The three positions are read in one go. */
  method NextEoa(numTrain: nat, posTrains: seq<Place>, stop: int, paths: seq<seq<int>>) returns (eoa: Place)
    requires |posTrains| == |paths| == 3 && numTrain < 3
    requires posTrains[numTrain].bal in paths[numTrain] && stop in paths[numTrain]
    ensures var path := paths[numTrain];
            var cur := posTrains[numTrain];
            eoa == Landing(path, IndexOf(path, cur.bal),
                           NextHop(path, cur, stop, posTrains[(numTrain + 1) % 3], posTrains[(numTrain + 2) % 3]))
  {
    var cur := posTrains[numTrain];
    var path := paths[numTrain];
    var one, two := posTrains[(numTrain + 1) % 3], posTrains[(numTrain + 2) % 3];
    var i := 0;
    while path[i] != cur.bal
      invariant 0 <= i <= IndexOf(path, cur.bal)
      decreases |path| - i
    {
      i := i + 1;
    }
    if stop == path[i] && cur.posR <= 0.0 {
      return Place(stop, 0.0);
    }
    if one.bal == path[i] && one.posR >= cur.posR {
      return one;
    }
    if two.bal == path[i] && two.posR >= cur.posR {
      return two;
    }
    StopMet(path, i, stop);
    eoa := Search(path, i, stop, one, two);
  }
}
