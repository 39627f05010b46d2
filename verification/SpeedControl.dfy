/** Braking and speed limits of a train. Speeds are integers in cm/s, distances in mm, arithmetic is exact. */
module SpeedControl {
  import opened Cyclic
  import opened Options
  import opened Tables
  import opened RouteMap

  const MAX_ACCELERATION: real := 10.0
  const MAX_DEACCELERATION: real := -10.0

  // ----- the source's casts to int -----

  /** (int) of a double: truncation towards zero. */
  function Trunc(x: real): int {
    if x >= 0.0 then x.Floor else -(-x).Floor
  }

  lemma TruncIff(x: real, k: int)
    ensures Trunc(x) == k <==>
              if k == 0 then -1.0 < x < 1.0
              else if k > 0 then k as real <= x < (k + 1) as real
              else (k - 1) as real < x <= k as real
  {
  }

  function Square(r: int): int {
    r * r
  }

  function RootFrom(y: real, r: nat): (s: nat)
    requires Square(r) as real <= y
    ensures Square(s) as real <= y < Square(s + 1) as real
    decreases y.Floor - r
  {
    if Square(r + 1) as real <= y then
      assert r + 1 <= Square(r + 1);
      RootFrom(y, r + 1)
    else r
  }

  /** (int) sqrtf(y), for y >= 0: the whole part of the square root. */
  function Root(y: real): (s: nat)
    requires y >= 0.0
    ensures Square(s) as real <= y < Square(s + 1) as real
  {
    RootFrom(y, 0)
  }

  lemma SquareMono(a: nat, b: nat)
    requires a <= b
    ensures Square(a) <= Square(b)
  {
  }

  lemma RootMono(x: real, y: real)
    requires 0.0 <= x <= y
    ensures Root(x) <= Root(y)
  {
    if Root(x) > Root(y) {
      SquareMono(Root(y) + 1, Root(x));
      assert false;
    }
  }

  lemma RootOfSquare(v: nat)
    ensures Root(Square(v) as real) == v
  {
    var s := Root(Square(v) as real);
    if s < v {
      SquareMono(s + 1, v);
    } else if v < s {
      SquareMono(v + 1, s);
    }
  }

  // ----- compute_new_speed -----

  function BrakingDistance(v: int): real {
    -(10 * (v * v)) as real / (2.0 * MAX_DEACCELERATION)
  }

  predicate Brakes(v: int, d: int) {
    d as real <= BrakingDistance(v)
  }

  /** compute_new_speed for a train at speed v with d to go. The accumulated command is passed in and handed back.
      Past the goal the code converts the root of a negative number; the command is then None. */
  method ComputeNewSpeed(v: int, d: int, elapsed: real, held0: real) returns (speed: Option<int>, held: real)
    ensures Brakes(v, d) ==> held == v as real && speed == if d >= 0 then Some(Root(2.0 * d as real)) else None
    ensures !Brakes(v, d) ==> held == held0 + MAX_ACCELERATION * elapsed && speed == Some(Trunc(held))
    ensures 0 <= 2 * d <= v * v ==> held == v as real && speed == Some(Root(2.0 * d as real))
    ensures 2 * d > v * v ==> held == held0 + 10.0 * elapsed && speed == Some(Trunc(held))
    ensures d < 0 ==> held == v as real && speed == None
  {
    var braking := -(10 * (v * v)) as real / (2.0 * MAX_DEACCELERATION);
    if d as real <= braking {
      held := v as real;
      var y := (v * v) as real + 0.2 * MAX_DEACCELERATION * (braking - d as real);
      assert y == 2.0 * d as real;
      speed := if y >= 0.0 then Some(Root(y)) else None;
      return;
    }
    held := held0 + MAX_ACCELERATION * elapsed;
    speed := Some(Trunc(held));
  }

  /** The train brakes exactly when half the square of its speed reaches the way that is left. */
  lemma BrakesIff(v: int, d: int)
    ensures Brakes(v, d) <==> 2 * d <= v * v
  {
  }

  /** Standing at the end of its authority a train is told to stand, whatever has been accumulated. */
  method StandsAtEnd(elapsed: real, held0: real) returns (speed: Option<int>, held: real)
    ensures speed == Some(0) && held == 0.0
  {
    speed, held := ComputeNewSpeed(0, 0, elapsed, held0);
    RootOfSquare(0);
  }

  lemma DoubleSquare(r: nat)
    requires r >= 2
    ensures Square(r) >= 2 * r
  {
  }

  /** The root of twice a whole distance is at most that distance, and vanishes only with it. */
  lemma RootOfTwice(d: nat)
    ensures var r := Root(2.0 * d as real); r <= d && (r == 0 <==> d == 0)
  {
    var r := Root(2.0 * d as real);
    if r >= 2 {
      DoubleSquare(r);
    }
    assert Square(0) == 0 && Square(1) == 1;
  }

  lemma HalfSquare(v: int)
    ensures BrakingDistance(v) == Square(v) as real / 2.0
    ensures Square(v) == Square(if v >= 0 then v else -v)
  {
  }

  /** The braking command never exceeds the measured speed, and is zero only when nothing is left to travel. */
  lemma BrakingCommand(v: int, d: nat)
    requires Brakes(v, d)
    ensures var r := Root(2.0 * d as real);
            && r <= (if v >= 0 then v else -v) && r <= d && (r == 0 <==> d == 0)
  {
    HalfSquare(v);
    RootOfTwice(d);
    var a: nat := if v >= 0 then v else -v;
    assert 2.0 * d as real <= Square(a) as real;
    RootMono(2.0 * d as real, Square(a) as real);
    RootOfSquare(a);
  }

  /** One braking tick as the control loop sees it: distance to go before and after, measured speed, command. */
  datatype Tick = Tick(before: real, v: int, command: nat, after: real)

  /** The command is that of the braking branch, and the train then covers at most 10 * command * dt. */
  predicate BrakingTick(t: Tick, dt: real) {
    && t.before >= 0.0
    && Brakes(t.v, Trunc(t.before))
    && t.command == Root(2.0 * Trunc(t.before) as real)
    && t.before - 10.0 * t.command as real * dt <= t.after <= t.before
  }

  /** No tick of length dt overshoots. */
  ghost predicate NeverOvershoots(dt: real) {
    forall t: Tick :: BrakingTick(t, dt) ==> t.after >= 0.0
  }

  lemma MoveIsShort(before: real, command: nat, dt: real)
    requires 0.0 <= dt <= 0.1 && before >= 0.0 && command <= Trunc(before)
    ensures 10.0 * command as real * dt <= before
  {
    Shrinks(command as real, dt);
  }

  lemma Shrinks(c: real, dt: real)
    requires c >= 0.0 && dt <= 0.1
    ensures c * dt <= 0.1 * c
  {
  }

  lemma TickStaysShort(t: Tick, dt: real)
    requires BrakingTick(t, dt) && 0.0 <= dt <= 0.1
    ensures t.after >= 0.0
  {
    hide Root, Brakes;
    RootOfTwice(Trunc(t.before));
    MoveIsShort(t.before, t.command, dt);
  }

  /** Braking never overshoots exactly when ticks last at most a tenth of a second. */
  lemma OvershootIff(dt: real)
    requires dt >= 0.0
    ensures NeverOvershoots(dt) <==> dt <= 0.1
  {
    if dt <= 0.1 {
      forall t: Tick | BrakingTick(t, dt) ensures t.after >= 0.0 {
        TickStaysShort(t, dt);
      }
    } else {
      var t := Tick(1.0, 2, 1, 1.0 - 10.0 * dt);
      RootBetween(2.0, 1);
      assert BrakingTick(t, dt);
    }
  }

  lemma RootBetween(y: real, r: nat)
    requires Square(r) as real <= y < Square(r + 1) as real
    ensures Root(y) == r
  {
    if Root(y) < r {
      SquareMono(Root(y) + 1, r);
    } else if r < Root(y) {
      SquareMono(r + 1, Root(y));
    }
  }

  /** Consecutive braking ticks, each starting where the one before it ended. */
  ghost predicate BrakingRun(ts: seq<Tick>, dt: real) {
    && (forall i :: 0 <= i < |ts| ==> BrakingTick(ts[i], dt))
    && (forall i :: 0 <= i < |ts| - 1 ==> ts[i + 1].before == ts[i].after)
  }

  /** Over any run of braking ticks the distance to go stays non-negative and shrinks, and commands never rise. */
  lemma {:induction false} BrakingRunSafe(ts: seq<Tick>, dt: real, i: nat, j: nat)
    requires BrakingRun(ts, dt) && 0.0 <= dt <= 0.1 && i <= j < |ts|
    ensures 0.0 <= ts[j].after <= ts[i].after
    ensures ts[j].command <= ts[i].command
    decreases j - i
  {
    TickStaysShort(ts[j], dt);
    if i < j {
      BrakingRunSafe(ts, dt, i, j - 1);
      assert ts[j - 1 + 1].before == ts[j - 1].after;
      FloorMono(ts[j].before, ts[j - 1].before);
      RootMono(2.0 * Trunc(ts[j].before) as real, 2.0 * Trunc(ts[j - 1].before) as real);
    }
  }

  lemma FloorMono(x: real, y: real)
    requires 0.0 <= x <= y
    ensures 0 <= Trunc(x) <= Trunc(y)
  {
  }

  // ----- leaving the braking branch -----

  lemma TruncAbove(x: real, k: nat)
    ensures Trunc(x) > k <==> x >= (k + 1) as real
  {
  }

  /** Leaving the braking branch, the command jumps up: the accumulator was left at the speed v measured while
      braking, so a next tick that does not brake, after e seconds, commands more than the braking tick did exactly
      when v, with what e adds to it, reaches the next whole speed; for a train that does not roll back, that is
      when it was faster than the braking curve, or the tick lasts a tenth of a second. */
  lemma JumpBackIff(v: int, d: nat, e: real)
    requires Brakes(v, d) && e >= 0.0
    ensures var first := Root(2.0 * d as real);
            && (Trunc(v as real + MAX_ACCELERATION * e) > first <==>
                v as real + MAX_ACCELERATION * e >= (first + 1) as real)
            && (v >= 0 ==> (v as real + MAX_ACCELERATION * e >= (first + 1) as real <==> e >= 0.1 || 2 * d < Square(v)))
  {
    var first := Root(2.0 * d as real);
    TruncAbove(v as real + MAX_ACCELERATION * e, first);
    if v >= 0 {
      HalfSquare(v);
      RootOfSquare(v);
      if 2 * d < Square(v) && first >= v {
        SquareMono(v, first);
      }
    }
  }

  /** One tick of the control loop: the command, held down to the speed limit together with the accumulator. */
  method ControlTick(v: int, d: int, elapsed: real, held0: real, limit: int) returns (command: Option<int>, held: real)
    ensures var raw := if Brakes(v, d) then (if d >= 0 then Some(Root(2.0 * d as real)) else None)
                       else Some(Trunc(held0 + MAX_ACCELERATION * elapsed));
            var kept := if Brakes(v, d) then v as real else held0 + MAX_ACCELERATION * elapsed;
            if raw.Some? && raw.value > limit then command == Some(limit) && held == limit as real
            else command == raw && held == kept
  {
    command, held := ComputeNewSpeed(v, d, elapsed, held0);
    if command.Some? && command.value > limit {
      command, held := Some(limit), limit as real;
    }
  }

  /** A braking tick and a next one that does not brake, in the control loop: the command rises exactly when the limit
      of the second tick lies above the first command and the accumulator, left at the speed measured or at the first
      tick's limit if that was in force, reaches the next whole speed. */
  method BrakeThenDrive(v: int, d: nat, limit: nat, v': int, d': int, limit': int, e: real, held0: real)
    returns (first: int, second: int)
    requires Brakes(v, d) && !Brakes(v', d') && e >= 0.0
    ensures var root := Root(2.0 * d as real);
            && first == (if root > limit then limit else root)
            && (second > first <==>
                  first < limit' && if root > limit then e >= 0.1
                      else v as real + MAX_ACCELERATION * e >= (root + 1) as real)
    ensures v >= 0 && Root(2.0 * d as real) <= limit && first < limit' ==>
              (second > first <==> e >= 0.1 || 2 * d < Square(v))
  {
    var command, held := ControlTick(v, d, e, held0, limit);
    first := command.value;
    command, held := ControlTick(v', d', e, held, limit');
    second := command.value;
    JumpBackIff(v, d, e);
    TruncAbove(limit as real + MAX_ACCELERATION * e, limit);
  }

  /** Two ticks of 1/20 s: braking at 40 cm/s with 750 mm to go commands 38; after the 19 mm that this allows, at
      38 cm/s with 731 mm to go, the train does not brake and 40 is commanded. */
  lemma JumpBack()
    ensures BrakingTick(Tick(750.0, 40, 38, 731.0), 0.05) && !Brakes(38, 731)
    ensures Trunc(40.0 + MAX_ACCELERATION * 0.05) == 40
  {
    RootBetween(1500.0, 38);
  }

  // ----- get_limit_speed -----

  /** Initial value of both ramp limits. */
  const NO_LIMIT: int := 100000000

  /** Limit while slowing down towards a slower next canton, at pos in a canton of length d. */
  function EndLimit(v1: nat, next: nat, d: real, pos: real): int {
    if pos < d - (Square(v1) - Square(next)) as real / 2.0 then v1
    else if pos > d then next
    else Root(Square(next) as real + 2.0 * (d - pos))
  }

  /** Position at which the limit of the canton is reached after a slower one. */
  function RampEnd(v1: nat, last: nat): real {
    (Square(v1) - Square(last)) as real / 2.0
  }

  /** Limit after a slower previous canton. */
  function StartLimit(v1: nat, last: nat, pos: real): int {
    if pos > RampEnd(v1, last) then v1 else Root(Square(last) as real + 2.0 * (RampEnd(v1, last) - pos))
  }

  function Limit(last: nat, v1: nat, next: nat, d: real, pos: real): int {
    if v1 <= next && v1 <= last then v1
    else
      var end := if v1 > next then EndLimit(v1, next, d, pos) else NO_LIMIT;
      var start := if v1 > last then StartLimit(v1, last, pos) else NO_LIMIT;
      if start > end then end else start
  }

  /** get_limit_speed on a path whose canton limits are given. */
  method GetLimitSpeed(R: Rail, path: seq<int>, limits: seq<nat>, cur: Place) returns (v: int)
    requires Complete(R, path) && |limits| == |path| && cur.bal in path
    ensures var i := IndexOf(path, cur.bal);
            v == Limit(limits[Prev(i, |path|)], limits[i], limits[Next(i, |path|)], Canton(R, path, i), cur.posR)
  {
    var n := |path|;
    var i := 0;
    while path[i] != cur.bal
      invariant 0 <= i <= IndexOf(path, cur.bal)
      decreases n - i
    {
      i := i + 1;
    }
    ByRemainder(i, n);
    var last, v1, next := limits[(i - 1 + n) % n], limits[i], limits[(i + 1) % n];
    var slopeNext, slopeLast := NO_LIMIT, NO_LIMIT;
    if v1 <= next && v1 <= last {
      return v1;
    }
    if v1 > next {
      assert CantonOk(R, path, i);
      var j := FindArc(R, path[i], path[(i + 1) % n]);
      slopeNext := SlopeToNext(v1, next, R.d[j], cur.posR);
    }
    if v1 > last {
      slopeLast := SlopeFromLast(v1, last, cur.posR);
    }
    v := if slopeLast > slopeNext then slopeNext else slopeLast;
  }

  /** The branch of get_limit_speed for a slower next canton. */
  method SlopeToNext(v1: nat, next: nat, d: real, pos: real) returns (v: int)
    ensures v == EndLimit(v1, next, d, pos)
  {
    var a := MAX_DEACCELERATION;
    var start := d - (10 * (next * next - v1 * v1)) as real / (2.0 * a);
    assert start == d - (Square(v1) - Square(next)) as real / 2.0;
    if pos < start {
      v := v1;
    } else if pos > d {
      v := next;
    } else {
      var y := (v1 * v1) as real + 0.2 * a * (pos - start);
      assert y == Square(next) as real + 2.0 * (d - pos);
      v := Root(y);
    }
  }

  /** The branch of get_limit_speed for a slower previous canton. */
  method SlopeFromLast(v1: nat, last: nat, pos: real) returns (v: int)
    ensures v == StartLimit(v1, last, pos)
  {
    var a := MAX_ACCELERATION;
    var end := (10 * (v1 * v1 - last * last)) as real / (2.0 * a);
    assert end == RampEnd(v1, last);
    if pos > end {
      v := v1;
    } else {
      var y := (last * last) as real + 0.2 * a * (end - pos);
      assert y == Square(last) as real + 2.0 * (end - pos);
      v := Root(y);
    }
  }

  lemma RootAbove(y: real, a: nat)
    requires Square(a) as real <= y
    ensures y >= 0.0 && Root(y) >= a
  {
    RootMono(Square(a) as real, y);
    RootOfSquare(a);
  }

  lemma RootBelow(y: real, b: nat)
    requires 0.0 <= y <= Square(b) as real
    ensures Root(y) <= b
  {
    RootMono(y, Square(b) as real);
    RootOfSquare(b);
  }

  /** The limit before a slower canton is the highest whole speed, up to the canton's own, from which a train that slows
      down at 10 cm/s2 is at the next limit by the canton's end; so it is the canton's own as long as that can be braked
      off. */
  lemma EndLimitIsHighest(v1: nat, next: nat, d: real, pos: real, s: nat)
    requires v1 > next && pos <= d
    ensures EndLimit(v1, next, d, pos) >= 0
    ensures s <= EndLimit(v1, next, d, pos) <==> s <= v1 && (s * s) as real <= (next * next) as real + 2.0 * (d - pos)
    ensures EndLimit(v1, next, d, pos) == v1 <==> (v1 * v1) as real <= (next * next) as real + 2.0 * (d - pos)
  {
    var y := Square(next) as real + 2.0 * (d - pos);
    SquareMono(next, v1);
    if pos < d - (Square(v1) - Square(next)) as real / 2.0 {
      if s <= v1 {
        SquareMono(s, v1);
      }
    } else {
      RootBelow(y, v1);
      RootAtLeast(y, s);
      RootAtLeast(y, v1);
    }
  }

  /** Past the end of the canton it is the next limit. */
  lemma EndLimitBeyond(v1: nat, next: nat, d: real, pos: real)
    requires v1 > next && pos > d
    ensures EndLimit(v1, next, d, pos) == next
  {
    SquareMono(next, v1);
  }

  lemma RootAtLeast(y: real, s: nat)
    requires y >= 0.0
    ensures s <= Root(y) <==> Square(s) as real <= y
  {
    if s <= Root(y) {
      SquareMono(s, Root(y));
    } else {
      SquareMono(Root(y) + 1, s);
    }
  }

  /** The limit after a slower canton, exactly: up to the point at which the full limit could have been reached, the
      highest whole speed whose square exceeds the slower one's by at most twice the way left to that point. */
  lemma StartLimitIs(v1: nat, last: nat, pos: real, s: nat)
    requires v1 > last && pos >= 0.0
    ensures var left := ((v1 * v1 - last * last) as real / 2.0) - pos;
            && (left < 0.0 ==> StartLimit(v1, last, pos) == v1)
            && (left >= 0.0 ==> (s <= StartLimit(v1, last, pos) <==>
                (s * s) as real <= (last * last) as real + 2.0 * left))
  {
    if pos <= RampEnd(v1, last) {
      RootAtLeast(Square(last) as real + 2.0 * (RampEnd(v1, last) - pos), s);
    }
  }

  /** The limit is the least of the canton's own and those that apply of the two ramps. */
  lemma LimitIsLeast(last: nat, v1: nat, next: nat, d: real, pos: real, s: int)
    requires 0.0 <= pos <= d && v1 <= 100000000
    ensures s <= Limit(last, v1, next, d, pos) <==>
              && s <= v1
              && (v1 > next ==> s <= EndLimit(v1, next, d, pos))
              && (v1 > last ==> s <= StartLimit(v1, last, pos))
  {
    if v1 > next {
      EndEnvelope(v1, next, d, pos);
    }
    if v1 > last {
      StartEnvelope(v1, last, pos);
    }
  }

  lemma EndEnvelope(v1: nat, next: nat, d: real, pos: real)
    requires v1 > next && pos <= d
    ensures var v := EndLimit(v1, next, d, pos);
            next <= v <= v1 && Square(v) as real <= Square(next) as real + 2.0 * (d - pos)
  {
    SquareMono(next, v1);
    if pos >= d - (Square(v1) - Square(next)) as real / 2.0 {
      RootAbove(Square(next) as real + 2.0 * (d - pos), next);
      RootBelow(Square(next) as real + 2.0 * (d - pos), v1);
    }
  }

  lemma StartEnvelope(v1: nat, last: nat, pos: real)
    requires v1 > last && pos >= 0.0
    ensures last <= StartLimit(v1, last, pos) <= v1
  {
    SquareMono(last, v1);
    if pos <= RampEnd(v1, last) {
      RootAbove(Square(last) as real + 2.0 * (RampEnd(v1, last) - pos), last);
      RootBelow(Square(last) as real + 2.0 * (RampEnd(v1, last) - pos), v1);
    }
  }

  /** Speed envelope: within its canton a train is never allowed more than the canton's limit nor held below the
      least of the three limits around it, and before a slower canton it can still brake at 10 cm/s2 down to the
      next limit by the canton's end. */
  lemma LimitEnvelope(last: nat, v1: nat, next: nat, d: real, pos: real)
    requires 0.0 <= pos <= d && v1 <= NO_LIMIT
    ensures var v := Limit(last, v1, next, d, pos);
            && v <= v1 && (v >= last || v >= v1 || v >= next)
            && (v1 > next ==> v >= 0 && Square(v) as real <= Square(next) as real + 2.0 * (d - pos))
  {
    if v1 > next {
      EndEnvelope(v1, next, d, pos);
    }
    if v1 > last {
      StartEnvelope(v1, last, pos);
      if v1 > next && StartLimit(v1, last, pos) <= EndLimit(v1, next, d, pos) {
        SquareMono(StartLimit(v1, last, pos), EndLimit(v1, next, d, pos));
      }
    }
  }

  /** The ramp after a slower canton runs the wrong way: it allows the full limit at once, then falls to the
      previous canton's limit at the point where the full limit applies again. */
  lemma AccelerationRampFalls(v1: nat, last: nat, p: real, q: real)
    requires v1 > last && 0.0 <= p <= q <= RampEnd(v1, last)
    ensures StartLimit(v1, last, 0.0) == v1
    ensures StartLimit(v1, last, q) <= StartLimit(v1, last, p)
    ensures StartLimit(v1, last, RampEnd(v1, last)) == last
  {
    RootOfSquare(v1);
    RootOfSquare(last);
    assert Square(last) as real + 2.0 * (RampEnd(v1, last) - 0.0) == Square(v1) as real;
    StartEnvelope(v1, last, q);
    RootMono(Square(last) as real + 2.0 * (RampEnd(v1, last) - q),
             Square(last) as real + 2.0 * (RampEnd(v1, last) - p));
  }
}
