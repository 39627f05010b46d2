/** The CRC as a remainder: division of polynomials over GF(2), a polynomial being the set of its exponents. */
module CrcPolynomial {
  import opened ModbusCrc

  type Poly = set<nat>

  /** Sum and difference: terms that both have cancel. */
  function Add(p: Poly, q: Poly): Poly {
    (p - q) + (q - p)
  }

  /** Multiplication by x to the k. */
  function Up(p: Poly, k: nat): Poly {
    set e: nat | e in p :: e + k
  }

  /** The generator x^16 + x^15 + x^2 + 1. */
  const G: Poly := {16, 15, 2, 0}

  /** The polynomial with these coefficients, the highest first. */
  function Value(bits: seq<bool>): Poly {
    if bits == [] then {} else Add(Up(Value(bits[..|bits| - 1]), 1), if bits[|bits| - 1] then {0} else {})
  }

  /** The product of such a polynomial and p, term by term. */
  function Times(bits: seq<bool>, p: Poly): Poly {
    if bits == [] then {} else Add(Up(Times(bits[..|bits| - 1], p), 1), if bits[|bits| - 1] then p else {})
  }

  /** The mask of bit k of a byte, and of the coefficient of x^e in the register, which is kept mirrored. */
  function BitMask(k: nat): bv8 {
    match k
    case 0 => 1
    case 1 => 2
    case 2 => 4
    case 3 => 8
    case 4 => 16
    case 5 => 32
    case 6 => 64
    case 7 => 128
    case _ => 0
  }

  function Mask(e: nat): bv16 {
    match e
    case 0 => 0x8000
    case 1 => 0x4000
    case 2 => 0x2000
    case 3 => 0x1000
    case 4 => 0x0800
    case 5 => 0x0400
    case 6 => 0x0200
    case 7 => 0x0100
    case 8 => 0x0080
    case 9 => 0x0040
    case 10 => 0x0020
    case 11 => 0x0010
    case 12 => 0x0008
    case 13 => 0x0004
    case 14 => 0x0002
    case 15 => 0x0001
    case _ => 0
  }

  predicate Coef(c: bv16, e: nat) {
    c & Mask(e) != 0
  }

  /** The polynomial that a register stands for. */
  function Reg(c: bv16): Poly {
    set e: nat | 0 <= e < 16 && Coef(c, e)
  }

  /** A byte as it is sent, the lowest bit first. */
  function ByteBits(b: bv8): (bits: seq<bool>)
    ensures |bits| == 8
  {
    [b & 1 != 0, b & 2 != 0, b & 4 != 0, b & 8 != 0, b & 16 != 0, b & 32 != 0, b & 64 != 0, b & 128 != 0]
  }

  function Bits(m: seq<bv8>): (bits: seq<bool>)
    ensures |bits| == 8 * |m|
  {
    if m == [] then [] else Bits(m[..|m| - 1]) + ByteBits(m[|m| - 1])
  }

  const ONES: Poly := {0, 1, 2, 3, 4, 5, 6, 7, 8, 9, 10, 11, 12, 13, 14, 15}

  /** The message shifted by the 16 places of the remainder, its first 16 coefficients inverted. */
  function Dividend(bits: seq<bool>): Poly {
    Add(Up(Value(bits), 16), Up(ONES, |bits|))
  }

  /** r is what division of the dividend by the generator leaves. */
  ghost predicate IsRemainder(bits: seq<bool>, r: Poly) {
    (forall e :: e in r ==> e < 16)
    && exists q: seq<bool> :: |q| == |bits| && Dividend(bits) == Add(Times(q, G), r)
  }

  // ----- arithmetic -----

  lemma AddTerm(p: Poly, q: Poly, e: nat)
    ensures e in Add(p, q) <==> (e in p) != (e in q)
  {
  }

  lemma UpTerm(p: Poly, k: nat, e: nat)
    ensures e in Up(p, k) <==> e >= k && e - k in p
  {
    if e >= k && e - k in p {
      assert (e - k) + k == e;
    }
  }

  lemma UpAdd(p: Poly, q: Poly, k: nat)
    ensures Up(Add(p, q), k) == Add(Up(p, k), Up(q, k))
  {
    forall e: nat ensures e in Up(Add(p, q), k) <==> e in Add(Up(p, k), Up(q, k)) {
      UpTerm(Add(p, q), k, e);
      UpTerm(p, k, e);
      UpTerm(q, k, e);
    }
  }

  lemma UpUp(p: Poly, j: nat, k: nat)
    ensures Up(Up(p, j), k) == Up(p, j + k)
  {
    forall e: nat ensures e in Up(Up(p, j), k) <==> e in Up(p, j + k) {
      UpTerm(Up(p, j), k, e);
      if e >= k {
        UpTerm(p, j, e - k);
      }
      UpTerm(p, j + k, e);
    }
  }

  // ----- one bit -----

  /** The register after one more bit. */
  function FeedBit(c: bv16, b: bool): bv16 {
    Shift(if b then c ^ 1 else c)
  }

  /** Whether the generator is subtracted: the quotient's next coefficient. */
  function Quotient(c: bv16, b: bool): bool {
    (c & 1 != 0) != b
  }

  lemma ShiftedMask(t: bv16, m: bv16)
    requires m & (m - 1) == 0 && m & 0x8000 == 0
    ensures (t >> 1) & m != 0 <==> t & (m << 1) != 0
    ensures ((t >> 1) ^ 0xA001) & m != 0 <==> (t & (m << 1) != 0) != (0xA001 & m != 0)
  {
  }

  lemma TopMask(t: bv16)
    ensures (t >> 1) & 0x8000 == 0 && ((t >> 1) ^ 0xA001) & 0x8000 != 0
  {
  }

  lemma MaskFacts(e: nat)
    requires 0 < e < 16
    ensures Mask(e) << 1 == Mask(e - 1) && Mask(e) & (Mask(e) - 1) == 0 && Mask(e) & 0x8000 == 0
    ensures Mask(e - 1) & 1 == 0 && (0xA001 & Mask(e) != 0 <==> e == 2 || e == 15)
  {
  }

  predicate Meets(x: bv16, m: bv16) {
    x & m != 0
  }

  lemma ShiftMeets(t: bv16, m: bv16, up: bv16)
    requires up == m << 1 && m & (m - 1) == 0 && m & 0x8000 == 0
    ensures Meets(Shift(t), m) <==> Meets(t, up) != (Meets(t, 1) && Meets(0xA001, m))
  {
    ShiftedMask(t, m);
  }

  lemma FlipMeets(c: bv16, up: bv16)
    requires up & 1 == 0
    ensures Meets(c ^ 1, up) <==> Meets(c, up)
    ensures Meets(c ^ 1, 1) <==> !Meets(c, 1)
  {
  }

  lemma FeedMeets(c: bv16, b: bool, m: bv16, up: bv16)
    requires up == m << 1 && m & (m - 1) == 0 && m & 0x8000 == 0 && up & 1 == 0
    ensures Meets(FeedBit(c, b), m) <==> Meets(c, up) != ((Meets(c, 1) != b) && Meets(0xA001, m))
  {
    hide Shift, Meets;
    ShiftMeets(if b then c ^ 1 else c, m, up);
    FlipMeets(c, up);
  }

  lemma FeedMask(c: bv16, b: bool, m: bv16, up: bv16)
    requires up == m << 1 && m & (m - 1) == 0 && m & 0x8000 == 0 && up & 1 == 0
    ensures FeedBit(c, b) & m != 0 <==> (c & up != 0) != (Quotient(c, b) && 0xA001 & m != 0)
  {
    hide FeedBit;
    FeedMeets(c, b, m, up);
  }

  lemma FlipLow(c: bv16)
    ensures (c ^ 1) & 1 != 0 <==> c & 1 == 0
  {
  }

  lemma FeedTop(c: bv16, b: bool)
    ensures FeedBit(c, b) & 0x8000 != 0 <==> Quotient(c, b)
  {
    FlipLow(c);
    TopMask(c);
    TopMask(c ^ 1);
  }

  lemma FeedMaskAt(c: bv16, b: bool, e: nat)
    requires 0 < e < 16
    ensures FeedBit(c, b) & Mask(e) != 0 <==> (c & Mask(e - 1) != 0) != (Quotient(c, b) && e in G)
  {
    hide FeedBit, Quotient;
    MaskFacts(e);
    hide Mask;
    FeedMask(c, b, Mask(e), Mask(e - 1));
  }

  /** Each coefficient of the next register. */
  lemma FeedTerm(c: bv16, b: bool, e: nat)
    requires e < 16
    ensures Coef(FeedBit(c, b), e) <==> (e > 0 && Coef(c, e - 1)) != (Quotient(c, b) && e in G)
  {
    if e == 0 {
      hide Quotient, FeedBit;
      FeedTop(c, b);
    } else {
      hide Quotient, FeedBit, Mask;
      FeedMaskAt(c, b, e);
    }
  }

  lemma RegTerm(c: bv16, e: nat)
    ensures e in Reg(c) <==> e < 16 && Coef(c, e)
  {
  }

  /** The lowest bit is the coefficient of x^15. */
  lemma TopTerm(c: bv16)
    ensures 15 in Reg(c) <==> c & 1 != 0
  {
  }

  lemma FeedLow(c: bv16, b: bool, e: nat)
    requires e < 16
    ensures e in Reg(FeedBit(c, b)) <==> (e > 0 && e - 1 in Reg(c)) != (Quotient(c, b) && e in G)
  {
    hide FeedBit, Quotient, Reg, Coef;
    RegTerm(FeedBit(c, b), e);
    if e > 0 {
      RegTerm(c, e - 1);
    }
    FeedTerm(c, b, e);
  }

  lemma FeedHigh(c: bv16, b: bool, e: nat)
    requires e >= 16
    ensures e !in Reg(FeedBit(c, b))
    ensures (e - 1 in Reg(c)) != (b && e == 16) <==> Quotient(c, b) && e in G
  {
    TopTerm(c);
    hide FeedBit, Reg, Coef;
    RegTerm(FeedBit(c, b), e);
    RegTerm(c, e - 1);
  }

  /** Feeding a bit multiplies by x, adds the bit 16 places up and takes the generator off when x^16 came up. */
  lemma FeedReg(c: bv16, b: bool)
    ensures Reg(FeedBit(c, b)) ==
              Add(Add(Up(Reg(c), 1), if b then {16} else {}), if Quotient(c, b) then G else {})
  {
    hide FeedBit, Quotient, Reg, Up, Add;
    var bit: Poly, sub := if b then {16} else {}, if Quotient(c, b) then G else {};
    forall e: nat ensures e in Reg(FeedBit(c, b)) <==> e in Add(Add(Up(Reg(c), 1), bit), sub) {
      UpTerm(Reg(c), 1, e);
      AddTerm(Up(Reg(c), 1), bit, e);
      AddTerm(Add(Up(Reg(c), 1), bit), sub, e);
      if e < 16 {
        FeedLow(c, b, e);
      } else {
        FeedHigh(c, b, e);
      }
    }
  }

  // ----- bytes -----

  function FeedBits(c: bv16, bits: seq<bool>): bv16 {
    if bits == [] then c else FeedBit(FeedBits(c, bits[..|bits| - 1]), bits[|bits| - 1])
  }

  function Xor(a: bv16, b: bv16): bv16 {
    a ^ b
  }

  function Half(a: bv16): bv16 {
    a >> 1
  }

  predicate Odd(a: bv16) {
    a & 1 != 0
  }

  lemma ShiftForm(c: bv16)
    ensures Shift(c) == if Odd(c) then Xor(Half(c), 0xA001) else Half(c)
  {
  }

  lemma FeedForm(c: bv16, b: bool)
    ensures FeedBit(c, b) == Shift(if b then Xor(c, 1) else c)
  {
    hide Shift;
  }

  lemma XorHalf(c: bv16, y: bv16)
    ensures Half(Xor(c, y)) == Xor(Half(c), Half(y)) && Half(Xor(c, 1)) == Half(c)
  {
  }

  lemma XorOdd(c: bv16, y: bv16)
    ensures Odd(Xor(c, y)) <==> Odd(c) != Odd(y)
    ensures Odd(Xor(c, 1)) <==> !Odd(c)
  {
  }

  lemma XorSwap(a: bv16, b: bv16, g: bv16)
    ensures Xor(Xor(a, b), g) == Xor(Xor(a, g), b)
  {
  }

  /** A bit that waits to be added may be added when its turn comes. */
  lemma ShiftStep(c: bv16, y: bv16)
    ensures Shift(Xor(c, y)) == Xor(FeedBit(c, Odd(y)), Half(y))
  {
    hide Shift, FeedBit, Xor, Half, Odd;
    ShiftForm(Xor(c, y));
    ShiftForm(Xor(c, 1));
    ShiftForm(c);
    FeedForm(c, Odd(y));
    XorHalf(c, y);
    XorOdd(c, y);
    XorSwap(Half(c), Half(y), 0xA001);
  }

  /** What is left of a byte after n of its bits. */
  function Down(y: bv16, n: nat): bv16 {
    if n == 0 then y else Half(Down(y, n - 1))
  }

  function FeedLowBits(c: bv16, y: bv16, n: nat): bv16 {
    if n == 0 then c else FeedBit(FeedLowBits(c, y, n - 1), Odd(Down(y, n - 1)))
  }

  lemma {:induction false} ShiftsAreFeeds(c: bv16, y: bv16, n: nat)
    ensures Shifts(Xor(c, y), n) == Xor(FeedLowBits(c, y, n), Down(y, n))
    decreases n
  {
    hide Shift, FeedBit, Xor, Half, Odd;
    if n > 0 {
      ShiftsAreFeeds(c, y, n - 1);
      ShiftStep(FeedLowBits(c, y, n - 1), Down(y, n - 1));
    }
  }

  /** The same with the mask of each bit of a byte. */
  lemma HalfMask(y: bv16, m: bv16)
    requires m <= 0x40 && m & (m - 1) == 0
    ensures Half(y) & m != 0 <==> y & (m << 1) != 0
  {
  }

  /** The mask of bit k. */
  function Low(k: nat): bv16 {
    match k
    case 0 => 1
    case 1 => 2
    case 2 => 4
    case 3 => 8
    case 4 => 16
    case 5 => 32
    case 6 => 64
    case 7 => 128
    case _ => 0
  }

  predicate Has(y: bv16, k: nat) {
    y & Low(k) != 0
  }

  lemma HalfHas(y: bv16, k: nat)
    requires k < 7
    ensures Has(Half(y), k) <==> Has(y, k + 1)
  {
    var m := Low(k);
    assert m <= 0x40 && m & (m - 1) == 0 && Low(k + 1) == m << 1;
    HalfMask(y, m);
  }

  lemma {:induction false} DownShift(y: bv16, k: nat, i: nat)
    requires i + k <= 7
    ensures Has(Down(y, k), i) <==> Has(y, i + k)
    decreases k
  {
    hide Has, Half;
    if k > 0 {
      HalfHas(Down(y, k - 1), i);
      DownShift(y, k - 1, i + 1);
    }
  }

  lemma WideMask(b: bv8, m: bv8)
    ensures (b as bv16) & (m as bv16) != 0 <==> b & m != 0
  {
  }

  lemma ByteHas(b: bv8, k: nat)
    requires k < 8
    ensures Has(b as bv16, k) <==> ByteBits(b)[k]
  {
    WideMask(b, BitMask(k));
    assert Low(k) == BitMask(k) as bv16 && ByteBits(b)[k] == (b & BitMask(k) != 0);
  }

  lemma OddHas(y: bv16)
    ensures Odd(y) <==> Has(y, 0)
  {
  }

  lemma ByteDown(b: bv8, k: nat)
    requires k < 8
    ensures Odd(Down(b as bv16, k)) <==> ByteBits(b)[k]
  {
    hide Odd, Has, Down, ByteBits;
    OddHas(Down(b as bv16, k));
    DownShift(b as bv16, k, 0);
    ByteHas(b, k);
  }

  lemma ByteGone(b: bv8)
    ensures Half(Half(Half(Half(Half(Half(Half(Half(b as bv16)))))))) == 0
  {
  }

  lemma DownByte(b: bv8)
    ensures Down(b as bv16, 8) == 0
  {
    hide Half;
    var y := b as bv16;
    ByteGone(b);
    assert Down(y, 1) == Half(y);
    assert Down(y, 2) == Half(Half(y));
    assert Down(y, 4) == Half(Half(Half(Half(y))));
    assert Down(y, 6) == Half(Half(Half(Half(Half(Half(y))))));
  }

  lemma XorZero(c: bv16)
    ensures Xor(c, 0) == c
  {
  }

  lemma FeedXor(c: bv16, b: bv8)
    ensures Feed(c, b) == Shift8(Xor(c, b as bv16))
  {
    hide Shift8;
  }

  /** Eight shifts of the register with the byte added are its bits fed one by one. */
  lemma FeedIsBits(c: bv16, b: bv8)
    ensures Feed(c, b) == FeedLowBits(c, b as bv16, 8)
  {
    hide Feed, Shift8, Shifts, FeedLowBits, Down, Xor;
    FeedXor(c, b);
    Shifts8(Xor(c, b as bv16));
    ShiftsAreFeeds(c, b as bv16, 8);
    DownByte(b);
    XorZero(FeedLowBits(c, b as bv16, 8));
  }

  lemma {:induction false} FeedByteBits(c: bv16, bits: seq<bool>, b: bv8, k: nat)
    requires k <= 8
    ensures FeedBits(c, bits + ByteBits(b)[..k]) == FeedLowBits(FeedBits(c, bits), b as bv16, k)
    decreases k
  {
    hide FeedBit, Down, ByteBits, Odd;
    var t := ByteBits(b);
    if k == 0 {
      assert bits + t[..0] == bits;
    } else {
      FeedByteBits(c, bits, b, k - 1);
      ByteDown(b, k - 1);
      assert (bits + t[..k])[..|bits| + k - 1] == bits + t[..k - 1];
    }
  }

  /** The register after a message is the register after its bits. */
  lemma {:induction false} CrcIsBits(m: seq<bv8>)
    ensures Crc(m) == FeedBits(0xFFFF, Bits(m))
    decreases |m|
  {
    hide Feed, FeedLowBits, ByteBits;
    if m != [] {
      var k, b := m[..|m| - 1], m[|m| - 1];
      CrcIsBits(k);
      FeedIsBits(Crc(k), b);
      FeedByteBits(0xFFFF, Bits(k), b, 8);
      assert ByteBits(b)[..8] == ByteBits(b);
    }
  }

  // ----- division -----

  /** The quotient's coefficients, as they come up. */
  function Quotients(bits: seq<bool>): (q: seq<bool>)
    ensures |q| == |bits|
  {
    if bits == [] then []
    else Quotients(bits[..|bits| - 1]) + [Quotient(FeedBits(0xFFFF, bits[..|bits| - 1]), bits[|bits| - 1])]
  }

  lemma RegOnes()
    ensures Reg(0xFFFF) == ONES
  {
    forall e: nat ensures e in Reg(0xFFFF) <==> e < 16 {
      RegTerm(0xFFFF, e);
    }
  }

  lemma DividendNext(bits: seq<bool>, b: bool)
    ensures Dividend(bits + [b]) == Add(Up(Dividend(bits), 1), if b then {16} else {})
  {
    assert (bits + [b])[..|bits|] == bits;
    var low: Poly := if b then {0} else {};
    UpAdd(Up(Value(bits), 1), low, 16);
    UpUp(Value(bits), 1, 16);
    UpUp(Value(bits), 16, 1);
    UpUp(ONES, |bits|, 1);
    UpAdd(Up(Value(bits), 16), Up(ONES, |bits|), 1);
    hide Up;
    assert Up(low, 16) == if b then {16} else {} by {
      UpLow(b);
    }
  }

  lemma UpLow(b: bool)
    ensures Up(if b then {0} else {}, 16) == if b then {16} else {}
  {
  }

  /** The terms of both sides after one more bit. */
  lemma Regroup(d: Poly, t: Poly, r: Poly, bit: Poly, sub: Poly)
    requires d == Add(t, r)
    ensures Add(Up(d, 1), bit) == Add(Add(Up(t, 1), sub), Add(Add(Up(r, 1), bit), sub))
  {
    UpAdd(t, r, 1);
  }

  /** Dividing bit by bit: dividend = quotient times generator + register. */
  lemma {:induction false} Division(bits: seq<bool>)
    ensures Dividend(bits) == Add(Times(Quotients(bits), G), Reg(FeedBits(0xFFFF, bits)))
    decreases |bits|
  {
    hide Up, Reg, FeedBit;
    if bits == [] {
      RegOnes();
      UpZero();
    } else {
      var k, b := bits[..|bits| - 1], bits[|bits| - 1];
      var c := FeedBits(0xFFFF, k);
      Division(k);
      assert bits == k + [b];
      DividendNext(k, b);
      FeedReg(c, b);
      var sub := if Quotient(c, b) then G else {};
      Regroup(Dividend(k), Times(Quotients(k), G), Reg(c), if b then {16} else {}, sub);
      assert Quotients(bits)[..|bits| - 1] == Quotients(k);
    }
  }

  lemma UpZero()
    ensures Up(ONES, 0) == ONES && Up({}, 16) == {}
  {
    forall e: nat ensures e in Up(ONES, 0) <==> e in ONES {
      UpTerm(ONES, 0, e);
    }
  }

  // ----- the remainder is one -----

  /** Coefficientwise sum of two quotients. */
  function Sum(q: seq<bool>, q': seq<bool>): (s: seq<bool>)
    requires |q| == |q'|
    ensures |s| == |q|
  {
    if q == [] then [] else Sum(q[..|q| - 1], q'[..|q'| - 1]) + [q[|q| - 1] != q'[|q'| - 1]]
  }

  lemma AddFour(a: Poly, b: Poly, c: Poly, d: Poly)
    ensures Add(Add(a, b), Add(c, d)) == Add(Add(a, c), Add(b, d))
  {
  }

  lemma TimesNext(q: seq<bool>, p: Poly)
    requires q != []
    ensures Times(q, p) == Add(Up(Times(q[..|q| - 1], p), 1), Term(q[|q| - 1], p))
  {
  }

  function Term(a: bool, p: Poly): Poly {
    if a then p else {}
  }

  lemma TermSum(a: bool, b: bool, p: Poly)
    ensures Add(Term(a, p), Term(b, p)) == Term(a != b, p)
  {
  }

  lemma {:induction false} TimesSum(q: seq<bool>, q': seq<bool>, p: Poly)
    requires |q| == |q'|
    ensures Add(Times(q, p), Times(q', p)) == Times(Sum(q, q'), p)
    decreases |q|
  {
    hide Up, Add, Times, Term;
    if q == [] {
      NoTimes(q, q', p);
    } else {
      var k, k', a, b := q[..|q| - 1], q'[..|q| - 1], q[|q| - 1], q'[|q| - 1];
      TimesSum(k, k', p);
      TimesNext(q, p);
      TimesNext(q', p);
      TimesNext(Sum(q, q'), p);
      UpAdd(Times(k, p), Times(k', p), 1);
      AddFour(Up(Times(k, p), 1), Term(a, p), Up(Times(k', p), 1), Term(b, p));
      TermSum(a, b, p);
      assert Sum(q, q')[..|q| - 1] == Sum(k, k');
    }
  }

  lemma NoTimes(q: seq<bool>, q': seq<bool>, p: Poly)
    requires q == q' == []
    ensures Add(Times(q, p), Times(q', p)) == Times(Sum(q, q'), p)
  {
  }

  lemma UpEmpty(k: nat)
    ensures Up({}, k) == {}
  {
  }

  /** A multiple of the generator is zero or has a term from x^16 on. */
  lemma {:induction false} MultipleIsHigh(q: seq<bool>)
    ensures Times(q, G) == {} || exists e: nat :: e >= 16 && e in Times(q, G)
    decreases |q|
  {
    hide Up;
    if q != [] {
      var k := q[..|q| - 1];
      MultipleIsHigh(k);
      UpEmpty(1);
      if Times(k, G) != {} {
        var e: nat :| e >= 16 && e in Times(k, G);
        UpTerm(Times(k, G), 1, e + 1);
        assert e + 1 in Times(q, G);
      } else if q[|q| - 1] {
        assert 16 in Times(q, G);
      }
    }
  }

  lemma Cancel(t: Poly, r: Poly, t': Poly, r': Poly)
    requires Add(t, r) == Add(t', r')
    ensures Add(t, t') == Add(r, r')
  {
    forall e: nat ensures e in Add(t, t') <==> e in Add(r, r') {
      assert e in Add(t, r) <==> e in Add(t', r');
    }
  }

  /** There is only one remainder below x^16. */
  lemma OneRemainder(bits: seq<bool>, r: Poly, r': Poly)
    requires IsRemainder(bits, r) && IsRemainder(bits, r')
    ensures r == r'
  {
    var q :| |q| == |bits| && Dividend(bits) == Add(Times(q, G), r);
    var q' :| |q'| == |bits| && Dividend(bits) == Add(Times(q', G), r');
    Cancel(Times(q, G), r, Times(q', G), r');
    TimesSum(q, q', G);
    MultipleIsHigh(Sum(q, q'));
  }

  lemma SomeMask(x: bv16) returns (e: nat)
    requires x != 0
    ensures e < 16 && x & Mask(e) != 0
  {
    e := if x & 0xFF == 0 then SomeHigh(x) else SomeLow(x);
  }

  function SomeHigh(x: bv16): (e: nat)
    requires x & 0xFF == 0 && x != 0
    ensures e < 16 && x & Mask(e) != 0
  {
    if x & 0x8000 != 0 then 0 else if x & 0x4000 != 0 then 1 else if x & 0x2000 != 0 then 2
    else if x & 0x1000 != 0 then 3 else if x & 0x0800 != 0 then 4 else if x & 0x0400 != 0 then 5
    else if x & 0x0200 != 0 then 6 else 7
  }

  function SomeLow(x: bv16): (e: nat)
    requires x & 0xFF != 0
    ensures e < 16 && x & Mask(e) != 0
  {
    if x & 0x80 != 0 then 8 else if x & 0x40 != 0 then 9 else if x & 0x20 != 0 then 10
    else if x & 0x10 != 0 then 11 else if x & 0x08 != 0 then 12 else if x & 0x04 != 0 then 13
    else if x & 0x02 != 0 then 14 else 15
  }

  lemma XorMask(c: bv16, d: bv16, m: bv16)
    requires m & (m - 1) == 0
    ensures (c ^ d) & m != 0 <==> (c & m != 0) != (d & m != 0)
    ensures c ^ d == 0 ==> c == d
  {
  }

  lemma OneMask(e: nat)
    ensures Mask(e) & (Mask(e) - 1) == 0
  {
  }

  lemma XorCoef(c: bv16, d: bv16, e: nat)
    requires (c ^ d) & Mask(e) != 0
    ensures Coef(c, e) != Coef(d, e)
  {
    OneMask(e);
    XorMask(c, d, Mask(e));
  }

  lemma Different(c: bv16, d: bv16) returns (e: nat)
    requires c != d
    ensures e < 16 && Coef(c, e) != Coef(d, e)
  {
    hide Coef, Mask;
    e := SomeMask(c ^ d);
    XorCoef(c, d, e);
  }

  lemma SameReg(c: bv16, d: bv16)
    requires Reg(c) == Reg(d)
    ensures c == d
  {
    hide Reg, Coef, Mask;
    if c != d {
      var e := Different(c, d);
      RegTerm(c, e);
      RegTerm(d, e);
      assert false;
    }
  }

  /** The CRC of a message is the remainder, and nothing else is. */
  lemma CrcIsRemainder(m: seq<bv8>, c: bv16)
    ensures IsRemainder(Bits(m), Reg(c)) <==> c == Crc(m)
  {
    hide Reg, Dividend, Times, Crc, Bits;
    CrcIsBits(m);
    Division(Bits(m));
    LowTerms(Crc(m));
    assert IsRemainder(Bits(m), Reg(Crc(m)));
    if IsRemainder(Bits(m), Reg(c)) {
      OneRemainder(Bits(m), Reg(c), Reg(Crc(m)));
      SameReg(c, Crc(m));
    }
  }

  lemma LowTerms(c: bv16)
    ensures forall e :: e in Reg(c) ==> e < 16
  {
  }

  /** The worked value of the standard: 02 07 gives 41 12, low byte first. */
  lemma WorkedValue()
    ensures Crc([0x02, 0x07]) == 0x1241
  {
    assert [0x02 as bv8, 0x07][..1] == [0x02] && [0x02 as bv8][..0] == [];
    assert Crc([]) == 0xFFFF;
    assert Crc([0x02]) == Feed(0xFFFF, 0x02);
    assert Shift8(0xFFFD) == 0x813E;
    assert Shift8(0x8139) == 0x1241;
  }
}
