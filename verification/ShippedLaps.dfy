/** The repository's request and release tables lap by lap. */
module ShippedLaps {
  import opened Cyclic
  import opened Tables
  import opened ShippedTables
  import opened ShippedCoherent

  lemma OneLapMore(q: nat, n: nat)
    ensures (q + 1) * n == q * n + n
  {
  }

  /** Which lap an index belongs to. */
  lemma {:induction false} LapOf(i: nat, n: nat) returns (q: nat)
    requires n > 0
    ensures i == q * n + Wrap(i, n)
    decreases i
  {
    if i < n {
      q := 0;
    } else {
      var p := LapOf(i - n, n);
      q := p + 1;
      OneLapMore(p, n);
    }
  }

  lemma {:induction false} InLap(q: nat, n: nat, x: nat)
    requires x < n
    ensures Wrap(q * n + x, n) == x
    decreases q
  {
    if q > 0 {
      InLap(q - 1, n, x);
      OneLapMore(q - 1, n);
    }
  }

  lemma {:induction false} IdxLap(s: Stops, lap: nat, q: nat, r: nat)
    requires 0 < s.wrap <= |s.at| && r < s.wrap
    ensures StopIdx(s, lap, q * s.wrap + r) == q * lap + s.at[r]
    decreases q
  {
    if q > 0 {
      IdxLap(s, lap, q - 1, r);
      OneLapMore(q - 1, s.wrap);
      OneLapMore(q - 1, lap);
    }
  }

  lemma {:induction false} CountLap(s: Stops, q: nat, r: nat, b: nat)
    requires 0 < s.wrap <= |s.mask| && r < s.wrap
    ensures Count(s, q * s.wrap + r, b) == q * Count(s, s.wrap, b) + Count(s, r, b)
    decreases q
  {
    if q > 0 {
      CountLap(s, q - 1, r, b);
      OneLapMore(q - 1, s.wrap);
      OneLapMore(q - 1, Count(s, s.wrap, b));
      CountRound(s, (q - 1) * s.wrap + r, b);
    }
  }

  /** Place and count of the k-th stop ever made, by lap. */
  lemma StopLap(s: Stops, lap: nat, k: nat, b: nat) returns (q: nat)
    requires 0 < s.wrap <= |s.at| && s.wrap <= |s.mask|
    ensures k == q * s.wrap + Wrap(k, s.wrap) && StopIdx(s, lap, k) == q * lap + s.at[Wrap(k, s.wrap)]
    ensures Count(s, k, b) == q * Count(s, s.wrap, b) + Count(s, Wrap(k, s.wrap), b)
  {
    q := LapOf(k, s.wrap);
    IdxLap(s, lap, q, Wrap(k, s.wrap));
    CountLap(s, q, Wrap(k, s.wrap), b);
  }

  /** Counts one for the bits of a set. */
  function One(b: nat, S: set<nat>): nat {
    if b in S then 1 else 0
  }

  lemma Req1(k: nat, b: nat) returns (q: nat)
    ensures 2 * q <= k < 2 * q + 2
    ensures ReqIdx(Shipped(4)[0], k) == 8 * q + (if k == 2 * q then 2 else 7)
    ensures StopMask(REQ_1, k) == if k == 2 * q then {3} else {0}
    ensures Count(REQ_1, k, b) == (if b in {0, 3} then q else 0) + if k == 2 * q then 0 else One(b, {3})
  {
    hide Wrap, Count;
    q := StopLap(REQ_1, 8, k, b);
    Lap1(b);
  }

  lemma Lib1(k: nat, b: nat) returns (q: nat)
    ensures 2 * q <= k < 2 * q + 2
    ensures LibIdx(Shipped(4)[0], k) == 8 * q + (if k == 2 * q then 3 else 8)
    ensures StopMask(LIB_1, k) == if k == 2 * q then {3} else {0}
    ensures Count(LIB_1, k, b) == (if b in {0, 3} then q else 0) + if k == 2 * q then 0 else One(b, {3})
  {
    hide Wrap, Count;
    q := StopLap(LIB_1, 8, k, b);
    Lap1(b);
  }

  lemma Req2(k: nat, b: nat) returns (q: nat)
    ensures 3 * q <= k < 3 * q + 3
    ensures ReqIdx(Shipped(4)[1], k) == 8 * q + (k - 3 * q)
    ensures StopMask(REQ_2, k) == if k == 3 * q then {1} else if k == 3 * q + 1 then {2} else {3, 4}
    ensures Count(REQ_2, k, b) == (if 1 <= b <= 4 then q else 0)
                                  + if k == 3 * q then 0 else if k == 3 * q + 1 then One(b, {1}) else One(b, {1, 2})
  {
    hide Wrap, Count;
    q := StopLap(REQ_2, 8, k, b);
    Lap2(b);
  }

  lemma LibSecond(k: nat, b: nat) returns (q: nat)
    ensures 4 * q <= k < 4 * q + 4
    ensures LibIdx(Shipped(4)[1], k) == 8 * q + if k == 4 * q + 3 then 7 else k - 4 * q + 1
    ensures StopMask(Lib2(4), k) == {k - 4 * q + 1}
    ensures Count(Lib2(4), k, b) == (if 1 <= b <= 4 then q else 0) + if 1 <= b <= k - 4 * q then 1 else 0
  {
    hide Wrap, Count;
    q := StopLap(Lib2(4), 8, k, b);
    Lap2(b);
  }

  lemma Req3(k: nat, b: nat) returns (q: nat)
    ensures 4 * q <= k < 4 * q + 4
    ensures ReqIdx(Shipped(4)[2], k) == 16 * q + [2, 9, 10, 15][k - 4 * q]
    ensures StopMask(REQ_3, k) == [{4}, {2}, {3}, {0, 1}][k - 4 * q]
    ensures Count(REQ_3, k, b) == (if b <= 4 then q else 0) + One(b, [{}, {4}, {2, 4}, {2, 3, 4}][k - 4 * q])
  {
    hide Wrap, Count;
    q := StopLap(REQ_3, 16, k, b);
    Lap3(b);
  }

  lemma Lib3(k: nat, b: nat) returns (q: nat)
    ensures 4 * q <= k < 4 * q + 4
    ensures LibIdx(Shipped(4)[2], k) == 16 * q + [7, 10, 11, 16][k - 4 * q]
    ensures StopMask(LIB_3, k) == [{4}, {2}, {3}, {0, 1}][k - 4 * q]
    ensures Count(LIB_3, k, b) == (if b <= 4 then q else 0) + One(b, [{}, {4}, {2, 4}, {2, 3, 4}][k - 4 * q])
  {
    hide Wrap, Count;
    q := StopLap(LIB_3, 16, k, b);
    Lap3(b);
  }
}
