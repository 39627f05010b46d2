/** The CRC of MODBUS over Serial Line (section 6.2.2 of its appendix), low byte sent first (section 2.5.1.2). */
module ModbusCrc {

  /** One bit: shift right, and add the polynomial when a one falls out. */
  function Shift(c: bv16): bv16 {
    if c & 1 != 0 then (c >> 1) ^ 0xA001 else c >> 1
  }

  function Shifts(c: bv16, n: nat): bv16 {
    if n == 0 then c else Shift(Shifts(c, n - 1))
  }

  function Shift8(c: bv16): bv16 {
    Shift(Shift(Shift(Shift(Shift(Shift(Shift(Shift(c))))))))
  }

  function Feed(c: bv16, b: bv8): bv16 {
    Shift8(c ^ (b as bv16))
  }

  /** CRC register after the bytes of m. */
  function Crc(m: seq<bv8>): bv16 {
    if |m| == 0 then 0xFFFF else Feed(Crc(m[..|m| - 1]), m[|m| - 1])
  }

  function Lo(c: bv16): bv8 {
    (c & 0xFF) as bv8
  }

  function Hi(c: bv16): bv8 {
    (c >> 8) as bv8
  }

  lemma Shifts8(c: bv16)
    ensures Shifts(c, 8) == Shift8(c)
  {
    assert Shifts(c, 1) == Shift(c);
    assert Shifts(c, 2) == Shift(Shift(c));
    assert Shifts(c, 4) == Shift(Shift(Shift(Shift(c))));
    assert Shifts(c, 6) == Shift(Shift(Shift(Shift(Shift(Shift(c))))));
  }

  lemma CrcAppend(m: seq<bv8>, a: bv8)
    ensures Crc(m + [a]) == Feed(Crc(m), a)
  {
    assert (m + [a])[..|m|] == m;
  }

  /** The inner loop of CalcCrcModbus_. */
  method ShiftByte(c: bv16) returns (crc: bv16)
    ensures crc == Shift8(c)
  {
    hide Shift8;
    crc := c;
    var i := 8;
    while i != 0
      invariant 0 <= i <= 8
      invariant crc == Shifts(c, 8 - i)
    {
      ghost var before := crc;
      if crc & 1 != 0 {
        crc := crc >> 1;
        crc := crc ^ 0xA001;
      } else {
        crc := crc >> 1;
      }
      assert crc == Shift(before);
      i := i - 1;
    }
    Shifts8(c);
  }

  /** CalcCrcModbus_. */
  method CalcCrcModbus(buf: array<bv8>, len: nat) returns (crc: bv16)
    requires len <= buf.Length
    ensures crc == Crc(buf[..len])
  {
    crc := 0xFFFF;
    var pos := 0;
    while pos < len
      invariant 0 <= pos <= len
      invariant crc == Crc(buf[..pos])
    {
      CrcAppend(buf[..pos], buf[pos]);
      assert buf[..pos] + [buf[pos]] == buf[..pos + 1];
      crc := ShiftByte(crc ^ (buf[pos] as bv16));
      pos := pos + 1;
    }
  }

  // ----- what the residue tells -----

  lemma ShiftZero(c: bv16)
    ensures Shift(c) == 0 <==> c == 0
  {
  }

  lemma Shift8Zero(c: bv16)
    ensures Shift8(c) == 0 <==> c == 0
  {
    ShiftZero(c);
    ShiftZero(Shift(c));
    ShiftZero(Shift(Shift(c)));
    ShiftZero(Shift(Shift(Shift(c))));
    ShiftZero(Shift(Shift(Shift(Shift(c)))));
    ShiftZero(Shift(Shift(Shift(Shift(Shift(c))))));
    ShiftZero(Shift(Shift(Shift(Shift(Shift(Shift(c)))))));
    ShiftZero(Shift(Shift(Shift(Shift(Shift(Shift(Shift(c))))))));
  }

  /** Eight shifts leave a byte exactly when no one fell out, and then they leave the high byte. */
  lemma Shift8Byte(c: bv16)
    ensures Shift8(c) < 256 <==> c & 0xFF == 0
    ensures c & 0xFF == 0 ==> Shift8(c) == c >> 8
  {
  }

  lemma Bytes(c: bv16, a: bv8, b: bv8)
    ensures (c ^ (a as bv16)) & 0xFF == 0 <==> a == Lo(c)
    ensures (c ^ (a as bv16)) >> 8 == c >> 8
    ensures c ^ (b as bv16) == 0 <==> c < 256 && b == Lo(c)
    ensures c < 256 ==> Lo(c) as bv16 == c
  {
  }

  function Mixed(c: bv16, a: bv8): bv16 {
    c ^ (a as bv16)
  }

  predicate LowZero(x: bv16) {
    x & 0xFF == 0
  }

  predicate OneByte(x: bv16) {
    x < 256
  }

  lemma MixedBytes(c: bv16, a: bv8)
    ensures LowZero(Mixed(c, a)) <==> a == Lo(c)
    ensures Mixed(c, a) >> 8 == c >> 8
    ensures Mixed(c, a) == 0 <==> OneByte(c) && a == Lo(c)
  {
    Bytes(c, a, a);
  }

  lemma ShiftedByte(x: bv16)
    ensures OneByte(Shift8(x)) <==> LowZero(x)
    ensures LowZero(x) ==> Shift8(x) == x >> 8
  {
    Shift8Byte(x);
  }

  lemma FirstByte(c: bv16, a: bv8)
    ensures OneByte(Feed(c, a)) <==> a == Lo(c)
    ensures a == Lo(c) ==> Feed(c, a) == c >> 8
  {
    hide Mixed, LowZero, OneByte, Shift8, Lo;
    FeedMixed(c, a);
    ShiftedByte(Mixed(c, a));
    MixedBytes(c, a);
  }

  lemma LastByte(z: bv16, b: bv8)
    ensures Feed(z, b) == 0 <==> OneByte(z) && b == Lo(z)
  {
    hide Mixed, OneByte, Shift8, Lo;
    FeedMixed(z, b);
    Shift8Zero(Mixed(z, b));
    MixedBytes(z, b);
  }

  lemma FeedMixed(c: bv16, a: bv8)
    ensures Feed(c, a) == Shift8(Mixed(c, a))
  {
    hide Shift8;
  }

  lemma HighByte(c: bv16)
    ensures Lo(c >> 8) == Hi(c)
  {
  }

  lemma FeedTwo(c: bv16, a: bv8, b: bv8)
    ensures Feed(Feed(c, a), b) == 0 <==> a == Lo(c) && b == Hi(c)
  {
    hide Feed, Lo, Hi, OneByte;
    FirstByte(c, a);
    LastByte(Feed(c, a), b);
    HighByte(c);
  }

  /** Residue: a message followed by two bytes has CRC zero exactly when they are the message's CRC, low byte first. */
  lemma Residue(m: seq<bv8>, a: bv8, b: bv8)
    ensures Crc(m + [a] + [b]) == 0 <==> a == Lo(Crc(m)) && b == Hi(Crc(m))
  {
    CrcAppend(m, a);
    CrcAppend(m + [a], b);
    FeedTwo(Crc(m), a, b);
  }
}
