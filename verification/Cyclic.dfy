/** Cyclic indices: every table of the system is walked round and round with a wrapping index. */
module Cyclic {

  /** i reduced to the range of a table of n entries. */
  function Wrap(i: nat, n: nat): (r: nat)
    requires n > 0
    ensures r < n
    ensures i < n ==> r == i
    decreases i
  {
    if i < n then i else Wrap(i - n, n)
  }

  /** The next and the previous entry of a table of n entries. */
  function Next(i: nat, n: nat): (r: nat)
    requires i < n
    ensures r < n
  {
    if i + 1 == n then 0 else i + 1
  }

  function Prev(i: nat, n: nat): (r: nat)
    requires i < n
    ensures r < n && Next(r, n) == i
  {
    if i == 0 then n - 1 else i - 1
  }

  /** The code moves cursors with the remainder operator. */
  lemma ByRemainder(i: nat, n: nat)
    requires i < n
    ensures (i + 1) % n == Next(i, n)
    ensures (i - 1 + n) % n == Prev(i, n)
  {
    if i + 1 < n {
      SmallMod(i + 1, n);
    }
    if i == 0 {
      SmallMod(n - 1, n);
    } else {
      assert i - 1 + n == n + (i - 1);
      SmallMod(i - 1, n);
    }
  }

  lemma SmallMod(x: nat, n: nat)
    requires x < n
    ensures x % n == x && (n + x) % n == x
  {
  }

  /** Advancing a wrapped cursor is advancing the unrolled index. */
  lemma {:induction false} WrapNext(i: nat, n: nat)
    requires n > 0
    ensures Next(Wrap(i, n), n) == Wrap(i + 1, n)
    decreases i
  {
    if i >= n {
      WrapNext(i - n, n);
    }
  }

  /** Distinct indices with the same reduction lie at least one full turn apart. */
  lemma {:induction false} WrapGap(a: nat, b: nat, n: nat)
    requires n > 0 && a < b && Wrap(a, n) == Wrap(b, n)
    ensures b >= a + n
    decreases b
  {
    if a >= n {
      WrapGap(a - n, b - n, n);
    }
  }

  /** Equal reductions stay equal after equal steps. */
  lemma {:induction false} WrapShift(a: nat, b: nat, s: nat, n: nat)
    requires n > 0 && Wrap(a, n) == Wrap(b, n)
    ensures Wrap(a + s, n) == Wrap(b + s, n)
    decreases s
  {
    if s > 0 {
      WrapShift(a, b, s - 1, n);
      WrapNext(a + s - 1, n);
      WrapNext(b + s - 1, n);
    }
  }

  /** From any index, every residue is met within one turn, at a step from 1 to n. */
  lemma WrapMeets(i: nat, r: nat, n: nat) returns (s: nat)
    requires n > 0 && r < n
    ensures 1 <= s <= n && Wrap(i + s, n) == r
  {
    var w := Wrap(i, n);
    s := if r > w then r - w else r + n - w;
    WrapShift(i, w, s, n);
  }
}
