/** The interlocking packs its shared resources into one byte: bit b set means resource R(b+1) is taken.
    Reasoning is done on the set of bits; here the byte operations of the code are shown to act on that set. */
module ResourceBits {

  /** The mask holding bit b alone, and no bit at all beyond the byte. */
  function Single(b: nat): (m: bv8)
    ensures m == 0 <==> b >= 8
    ensures m & (m - 1) == 0
  {
    match b
    case 0 => 1
    case 1 => 2
    case 2 => 4
    case 3 => 8
    case 4 => 16
    case 5 => 32
    case 6 => 64
    case 7 => 128
    case _ => 0
  }

  predicate Bit(m: bv8, b: nat) {
    m & Single(b) != 0
  }

  /** The bits of a mask. */
  function Bits(m: bv8): set<nat> {
    set b: nat | 0 <= b < 8 && Bit(m, b)
  }

  lemma SingleOps(r: bv8, m: bv8, s: bv8)
    requires s & (s - 1) == 0
    ensures (r | m) & s != 0 <==> r & s != 0 || m & s != 0
    ensures (r & !m) & s != 0 <==> r & s != 0 && m & s == 0
    ensures (r & m) & s != 0 <==> r & s != 0 && m & s != 0
  {
  }

  lemma SomeBit(m: bv8) returns (b: nat)
    requires m != 0
    ensures b < 8 && Bit(m, b)
  {
    b := if m & 1 != 0 then 0 else if m & 2 != 0 then 1 else if m & 4 != 0 then 2 else if m & 8 != 0 then 3
         else if m & 16 != 0 then 4 else if m & 32 != 0 then 5 else if m & 64 != 0 then 6 else 7;
    assert m & 1 != 0 || m & 2 != 0 || m & 4 != 0 || m & 8 != 0 || m & 16 != 0 || m & 32 != 0 || m & 64 != 0
        || m & 128 != 0;
  }

  lemma BitOps(r: bv8, m: bv8, b: nat)
    ensures Bit(r | m, b) <==> Bit(r, b) || Bit(m, b)
    ensures Bit(r & !m, b) <==> Bit(r, b) && !Bit(m, b)
  {
    var s := Single(b);
    SingleOps(r, m, s);
  }

  lemma MemberOps(r: bv8, m: bv8, b: nat)
    ensures b in Bits(r | m) <==> b in Bits(r) || b in Bits(m)
    ensures b in Bits(r & !m) <==> b in Bits(r) && b !in Bits(m)
  {
    BitOps(r, m, b);
  }

  /** Taking a mask is union, giving it back is difference. */
  lemma MaskSets(r: bv8, m: bv8)
    ensures Bits(r | m) == Bits(r) + Bits(m)
    ensures Bits(r & !m) == Bits(r) - Bits(m)
  {
    forall b: nat
      ensures (b in Bits(r | m) <==> b in Bits(r) + Bits(m)) && (b in Bits(r & !m) <==> b in Bits(r) - Bits(m))
    {
      MemberOps(r, m, b);
    }
  }

  lemma BothBits(r: bv8, m: bv8, b: nat)
    ensures Bit(r & m, b) <==> Bit(r, b) && Bit(m, b)
    ensures !Bit(0, b)
  {
    SingleOps(r, m, Single(b));
  }

  /** The polling test succeeds exactly when no wanted bit is taken. */
  lemma FreeBits(r: bv8, m: bv8)
    ensures r & m == 0 <==> Bits(r) !! Bits(m)
  {
    hide Bit;
    if r & m != 0 {
      var b := SomeBit(r & m);
      BothBits(r, m, b);
      assert b in Bits(r) && b in Bits(m);
    } else {
      forall b: nat | b in Bits(r) ensures b !in Bits(m) {
        BothBits(r, m, b);
      }
    }
  }
}
