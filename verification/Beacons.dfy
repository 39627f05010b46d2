/** The table of stationary beacons, kept up to date from beacon datagrams. */
module Beacons {
  import opened Bytes
  import opened Options

  /** Coordinates of a beacon in millimetres. */
  datatype Fix = Fix(x: int, y: int, z: int, highResolution: bool)
  datatype Beacon = Beacon(address: Byte, fix: Fix)

  const MAX_STATIONARY_BEACONS: nat := 30

  // ----- the table as a sequence -----

  /** First entry of the table for an address, or its length. */
  function Find(t: seq<Beacon>, a: Byte): (i: nat)
    ensures i <= |t| && (i < |t| ==> t[i].address == a)
    ensures forall j :: 0 <= j < i ==> t[j].address != a
  {
    if t == [] then 0
    else
      var i := Find(t[..|t| - 1], a);
      if i < |t| - 1 || t[|t| - 1].address == a then i else |t|
  }

  /** What receiving one beacon does: a known beacon is updated, a new one is added while there is room. */
  function Put(t: seq<Beacon>, b: Beacon): seq<Beacon> {
    var i := Find(t, b.address);
    if i < |t| then t[i := b] else if |t| < MAX_STATIONARY_BEACONS - 1 then t + [b] else t
  }

  function PutAll(t: seq<Beacon>, bs: seq<Beacon>): seq<Beacon> {
    if bs == [] then t else Put(PutAll(t, bs[..|bs| - 1]), bs[|bs| - 1])
  }

  lemma PutOne(t: seq<Beacon>, bs: seq<Beacon>, b: Beacon)
    ensures PutAll(t, bs + [b]) == Put(PutAll(t, bs), b)
  {
    assert (bs + [b])[..|bs|] == bs;
  }

  /** Receiving one series of beacons after another is receiving both as one. */
  lemma {:induction false} PutMore(t: seq<Beacon>, first: seq<Beacon>, bs: seq<Beacon>)
    ensures PutAll(PutAll(t, first), bs) == PutAll(t, first + bs)
    decreases |bs|
  {
    if bs == [] {
      assert first + bs == first;
    } else {
      var cs, b := bs[..|bs| - 1], bs[|bs| - 1];
      PutMore(t, first, cs);
      PutOne(t, first + cs, b);
      assert first + bs == (first + cs) + [b];
    }
  }

  // ----- what it should hold -----

  /** The last fix received for an address. */
  function Last(bs: seq<Beacon>, a: Byte): Option<Fix> {
    if bs == [] then None
    else if bs[|bs| - 1].address == a then Some(bs[|bs| - 1].fix)
    else Last(bs[..|bs| - 1], a)
  }

  /** The distinct addresses received, in order of first arrival. */
  function Arrivals(bs: seq<Beacon>): (s: seq<Byte>)
    ensures forall i, j :: 0 <= i < j < |s| ==> s[i] != s[j]
  {
    if bs == [] then []
    else
      var before := Arrivals(bs[..|bs| - 1]);
      if bs[|bs| - 1].address in before then before else before + [bs[|bs| - 1].address]
  }

  /** Entry i of the table is for the i-th address that arrived and holds the last fix received for it. */
  predicate Faithful(bs: seq<Beacon>, t: seq<Beacon>, i: nat)
    requires i < |t|
  {
    i < |Arrivals(bs)| && t[i].address == Arrivals(bs)[i] && Last(bs, t[i].address) == Some(t[i].fix)
  }

  lemma KnownHere(bs: seq<Beacon>, t: seq<Beacon>, a: Byte)
    requires |t| <= |Arrivals(bs)| && (forall i :: 0 <= i < |t| ==> Faithful(bs, t, i))
    requires a in Arrivals(bs) && |t| == |Arrivals(bs)|
    ensures Find(t, a) < |t|
  {
    var k :| 0 <= k < |Arrivals(bs)| && Arrivals(bs)[k] == a;
    assert Faithful(bs, t, k);
  }

  lemma NewHere(bs: seq<Beacon>, t: seq<Beacon>, a: Byte)
    requires |t| <= |Arrivals(bs)| && (forall i :: 0 <= i < |t| ==> Faithful(bs, t, i))
    requires a !in Arrivals(bs)
    ensures Find(t, a) == |t|
  {
    var k := Find(t, a);
    assert k < |t| ==> Faithful(bs, t, k);
  }

  lemma PutFaithful(bs: seq<Beacon>, t: seq<Beacon>, b: Beacon, i: nat)
    requires |t| == (if |Arrivals(bs)| < 29 then |Arrivals(bs)| else 29) && i < |Put(t, b)|
    requires forall i :: 0 <= i < |t| ==> Faithful(bs, t, i)
    ensures Faithful(bs + [b], Put(t, b), i)
  {
    assert (bs + [b])[..|bs|] == bs;
    assert Arrivals(bs) <= Arrivals(bs + [b]);
    if i < |t| {
      assert Faithful(bs, t, i);
      if t[i].address == b.address {
        var k := Find(t, b.address);
        assert Faithful(bs, t, k);
      }
    } else if b.address in Arrivals(bs) {
      KnownHere(bs, t, b.address);
      assert false;
    }
  }

  lemma PutSize(bs: seq<Beacon>, t: seq<Beacon>, b: Beacon)
    requires |t| == (if |Arrivals(bs)| < 29 then |Arrivals(bs)| else 29)
    requires forall i :: 0 <= i < |t| ==> Faithful(bs, t, i)
    ensures |Put(t, b)| == if |Arrivals(bs + [b])| < 29 then |Arrivals(bs + [b])| else 29
  {
    assert (bs + [b])[..|bs|] == bs;
    if b.address in Arrivals(bs) {
      if |t| < 29 {
        KnownHere(bs, t, b.address);
      }
    } else {
      NewHere(bs, t, b.address);
    }
  }

  /** After any beacons whatever, starting from an empty table: it holds exactly the first 29 addresses that
      arrived, one entry each and in that order, and each with the last fix received for it. */
  lemma {:induction false} TableContents(bs: seq<Beacon>)
    ensures var t := PutAll([], bs);
            && |t| == (if |Arrivals(bs)| < 29 then |Arrivals(bs)| else 29)
            && (forall i :: 0 <= i < |t| ==> Faithful(bs, t, i))
    decreases |bs|
  {
    if bs != [] {
      var cs, b := bs[..|bs| - 1], bs[|bs| - 1];
      assert cs + [b] == bs;
      var t := PutAll([], cs);
      TableContents(cs);
      PutSize(cs, t, b);
      forall i | 0 <= i < |Put(t, b)| ensures Faithful(bs, Put(t, b), i) {
        PutFaithful(cs, t, b, i);
      }
    }
  }

  // ----- the datagrams -----

  /** Two's complement, low byte first. */
  function Int16(b0: Byte, b1: Byte): (x: int)
    ensures -0x8000 <= x < 0x8000 && (x - (b0 as int) - 0x100 * (b1 as int)) % 0x1_0000 == 0
  {
    var u := (b0 as int) + 0x100 * (b1 as int);
    if u < 0x8000 then u else u - 0x1_0000
  }

  function Int32(b0: Byte, b1: Byte, b2: Byte, b3: Byte): (x: int)
    ensures -0x8000_0000 <= x < 0x8000_0000
    ensures (x - (b0 as int) - 0x100 * (b1 as int) - 0x1_0000 * (b2 as int) - 0x100_0000 * (b3 as int))
            % 0x1_0000_0000 == 0
  {
    var u := (b0 as int) + 0x100 * (b1 as int) + 0x1_0000 * (b2 as int) + 0x100_0000 * (b3 as int);
    if u < 0x8000_0000 then u else u - 0x1_0000_0000
  }

  /** Where beacon i of a datagram starts. */
  function Offset(high: bool, i: nat): nat {
    if high then 6 + 14 * i else 6 + 8 * i
  }

  /** Beacon i of a datagram: centimetres in 16 bits, or millimetres in 32. */
  function Entry(buf: seq<Byte>, high: bool, i: nat): Beacon
    requires Offset(high, i + 1) <= |buf|
  {
    var o := Offset(high, i);
    Beacon(buf[o],
           if high then
             Fix(Int32(buf[o + 1], buf[o + 2], buf[o + 3], buf[o + 4]),
                 Int32(buf[o + 5], buf[o + 6], buf[o + 7], buf[o + 8]),
                 Int32(buf[o + 9], buf[o + 10], buf[o + 11], buf[o + 12]), true)
           else
             Fix(10 * Int16(buf[o + 1], buf[o + 2]), 10 * Int16(buf[o + 3], buf[o + 4]),
                 10 * Int16(buf[o + 5], buf[o + 6]), false))
  }

  function EntriesTo(buf: seq<Byte>, high: bool, n: nat): seq<Beacon>
    requires Offset(high, n) <= |buf|
  {
    if n == 0 then [] else EntriesTo(buf, high, n - 1) + [Entry(buf, high, n - 1)]
  }

  /** The receiver's buffer; a high-resolution datagram of 18 beacons would end one byte past it. */
  predicate Readable(buf: seq<Byte>, high: bool) {
    |buf| == 256 && !(high && buf[4] == 253 && buf[5] == 18)
  }

  /** The beacons a datagram announces; none when its size disagrees with its count. */
  function Entries(buf: seq<Byte>, high: bool): seq<Beacon>
    requires Readable(buf, high)
  {
    if Offset(high, buf[5] as nat) != 5 + (buf[4] as nat) then [] else EntriesTo(buf, high, buf[5] as nat)
  }

  datatype Datagram = Datagram(buffer: seq<Byte>, high: bool)

  /** The beacons of a series of datagrams. */
  function Announced(ds: seq<Datagram>): seq<Beacon>
    requires forall d :: d in ds ==> Readable(d.buffer, d.high)
  {
    if ds == [] then [] else Announced(ds[..|ds| - 1]) + Entries(ds[|ds| - 1].buffer, ds[|ds| - 1].high)
  }

  /** ts are the tables before, between and after the datagrams, as each one's processing leaves them. */
  predicate Updates(ts: seq<seq<Beacon>>, ds: seq<Datagram>) {
    && |ts| == |ds| + 1
    && forall k :: 0 <= k < |ds| ==> Readable(ds[k].buffer, ds[k].high) && UpdatedBy(ts[k], ds[k], ts[k + 1])
  }

  predicate UpdatedBy(t: seq<Beacon>, d: Datagram, t': seq<Beacon>)
    requires Readable(d.buffer, d.high)
  {
    t' == PutAll(t, Entries(d.buffer, d.high))
  }

  lemma {:induction false} UpdatesAnnounced(ts: seq<seq<Beacon>>, ds: seq<Datagram>)
    requires Updates(ts, ds)
    ensures ts[|ds|] == PutAll(ts[0], Announced(ds))
    decreases |ds|
  {
    if ds != [] {
      var n := |ds| - 1;
      assert Updates(ts[..n + 1], ds[..n]);
      UpdatesAnnounced(ts[..n + 1], ds[..n]);
      assert UpdatedBy(ts[n], ds[n], ts[n + 1]);
      PutMore(ts[0], Announced(ds[..n]), Entries(ds[n].buffer, ds[n].high));
    }
  }

  /** From an empty table, any series of datagrams leaves exactly the first 29 addresses announced in it, one entry
      each and in that order, each with the last fix announced for it. */
  lemma TableAfter(ts: seq<seq<Beacon>>, ds: seq<Datagram>)
    requires Updates(ts, ds) && ts[0] == []
    ensures var t, bs := ts[|ds|], Announced(ds);
            && |t| == (if |Arrivals(bs)| < 29 then |Arrivals(bs)| else 29)
            && (forall i :: 0 <= i < |t| ==> Faithful(bs, t, i))
  {
    UpdatesAnnounced(ts, ds);
    TableContents(Announced(ds));
  }

  // ----- what a sender puts into a datagram -----

  /** A number in two's complement, low byte first. */
  function Bytes16(x: int): (bs: seq<Byte>)
    ensures |bs| == 2
  {
    [x % 0x100, (x / 0x100) % 0x100]
  }

  function Bytes32(x: int): (bs: seq<Byte>)
    ensures |bs| == 4
  {
    [x % 0x100, (x / 0x100) % 0x100, (x / 0x1_0000) % 0x100, (x / 0x100_0000) % 0x100]
  }

  lemma Int16Back(x: int)
    requires -0x8000 <= x < 0x8000
    ensures Int16(Bytes16(x)[0], Bytes16(x)[1]) == x
  {
    assert x == 0x100 * (x / 0x100) + x % 0x100;
  }

  lemma Quotients(x: int)
    ensures x / 0x100 / 0x100 == x / 0x1_0000 && x / 0x1_0000 / 0x100 == x / 0x100_0000
  {
  }

  lemma Int32Back(x: int)
    requires -0x8000_0000 <= x < 0x8000_0000
    ensures Int32(Bytes32(x)[0], Bytes32(x)[1], Bytes32(x)[2], Bytes32(x)[3]) == x
  {
    Quotients(x);
    Digits(x, x / 0x100, x / 0x1_0000, x / 0x100_0000);
  }

  /** A number by its last four digits to the base 256. */
  lemma Digits(x: int, q1: int, q2: int, q3: int)
    requires q1 == x / 0x100 && q2 == q1 / 0x100 && q3 == q2 / 0x100 && -0x80 <= q3 < 0x80
    ensures Int32(x % 0x100, q1 % 0x100, q2 % 0x100, q3 % 0x100) == x
  {
    var q4 := q3 / 0x100;
    assert x == 0x100 * q1 + x % 0x100 && q1 == 0x100 * q2 + q1 % 0x100;
    assert q2 == 0x100 * q3 + q2 % 0x100 && q3 == 0x100 * q4 + q3 % 0x100;
  }

  /** A beacon's bytes in a datagram: address, then x, y and z in centimetres or in millimetres; the last one or two
      bytes are not used. */
  predicate Announces(bs: seq<Byte>, b: Beacon) {
    if b.fix.highResolution then
      |bs| >= 13 && bs[..13] == [b.address] + Bytes32(b.fix.x) + Bytes32(b.fix.y) + Bytes32(b.fix.z)
    else
      && b.fix.x % 10 == b.fix.y % 10 == b.fix.z % 10 == 0
      && |bs| >= 7 && bs[..7] == [b.address] + Bytes16(b.fix.x / 10) + Bytes16(b.fix.y / 10) + Bytes16(b.fix.z / 10)
  }

  predicate InRange(f: Fix) {
    if f.highResolution then
      -0x8000_0000 <= f.x < 0x8000_0000 && -0x8000_0000 <= f.y < 0x8000_0000 && -0x8000_0000 <= f.z < 0x8000_0000
    else
      -327680 <= f.x < 327680 && -327680 <= f.y < 327680 && -327680 <= f.z < 327680
  }

  /** Reading an entry gives back the beacon that was put there. */
  lemma EntryBack(buf: seq<Byte>, i: nat, b: Beacon)
    requires Offset(b.fix.highResolution, i + 1) <= |buf| && InRange(b.fix)
    requires Announces(buf[Offset(b.fix.highResolution, i)..], b)
    ensures Entry(buf, b.fix.highResolution, i) == b
  {
    hide Bytes16, Bytes32, Int16, Int32;
    var f := b.fix;
    if f.highResolution {
      Int32Back(f.x);
      Int32Back(f.y);
      Int32Back(f.z);
      Spread(buf, 6 + 14 * i, [b.address], Bytes32(f.x), Bytes32(f.y), Bytes32(f.z));
    } else {
      Int16Back(f.x / 10);
      Int16Back(f.y / 10);
      Int16Back(f.z / 10);
      Spread(buf, 6 + 8 * i, [b.address], Bytes16(f.x / 10), Bytes16(f.y / 10), Bytes16(f.z / 10));
    }
  }

  /** Bytes of a beacon in a datagram. */
  function Size(high: bool): nat {
    if high then 14 else 8
  }

  predicate CarriedAt(buf: seq<Byte>, high: bool, at: nat, b: Beacon) {
    at <= |buf| && b.fix.highResolution == high && InRange(b.fix) && Announces(buf[at..], b)
  }

  /** The datagram carries these beacons, all of one resolution, one after the other from byte 6 on. */
  ghost predicate Carries(buf: seq<Byte>, high: bool, bs: seq<Beacon>) {
    && 6 + |bs| * Size(high) <= |buf|
    && forall i {:trigger bs[i]} :: 0 <= i < |bs| ==> CarriedAt(buf, high, 6 + i * Size(high), bs[i])
  }

  /** Reading a datagram gives back the beacons it carries, in order. */
  lemma {:induction false} DatagramBack(buf: seq<Byte>, high: bool, bs: seq<Beacon>, n: nat)
    requires Carries(buf, high, bs) && n <= |bs|
    ensures EntriesTo(buf, high, n) == bs[..n]
    decreases n
  {
    hide Announces, InRange, Entry;
    if n > 0 {
      DatagramBack(buf, high, bs, n - 1);
      EntryBack(buf, n - 1, bs[n - 1]);
    }
  }

  lemma Int16Bytes(b0: Byte, b1: Byte)
    ensures Bytes16(Int16(b0, b1)) == [b0, b1]
  {
  }

  lemma LastDigit(q: int, b: Byte)
    ensures (0x100 * q + b) / 0x100 == q && (0x100 * q + b) % 0x100 == b
  {
  }

  lemma Int32Bytes(b0: Byte, b1: Byte, b2: Byte, b3: Byte)
    ensures Bytes32(Int32(b0, b1, b2, b3)) == [b0, b1, b2, b3]
  {
    var x := Int32(b0, b1, b2, b3);
    var q3: int := b3 - if b3 < 0x80 then 0 else 0x100;
    var q2 := 0x100 * q3 + b2;
    var q1 := 0x100 * q2 + b1;
    assert x == 0x100 * q1 + b0;
    LastDigit(q1, b0);
    LastDigit(q2, b1);
    LastDigit(q3, b2);
    assert q3 % 0x100 == b3;
    Quotients(x);
    assert x / 0x100 == q1 && x / 0x1_0000 == q2 && x / 0x100_0000 == q3;
  }

  lemma HighCarried(buf: seq<Byte>, o: nat, b: Beacon)
    requires o + 14 <= |buf|
    requires b == Beacon(buf[o], Fix(Int32(buf[o + 1], buf[o + 2], buf[o + 3], buf[o + 4]),
                                     Int32(buf[o + 5], buf[o + 6], buf[o + 7], buf[o + 8]),
                                     Int32(buf[o + 9], buf[o + 10], buf[o + 11], buf[o + 12]), true))
    ensures InRange(b.fix) && Announces(buf[o..], b)
  {
    hide Bytes32, Int32;
    Int32Bytes(buf[o + 1], buf[o + 2], buf[o + 3], buf[o + 4]);
    Int32Bytes(buf[o + 5], buf[o + 6], buf[o + 7], buf[o + 8]);
    Int32Bytes(buf[o + 9], buf[o + 10], buf[o + 11], buf[o + 12]);
    assert buf[o..][..13] == [b.address] + Bytes32(b.fix.x) + Bytes32(b.fix.y) + Bytes32(b.fix.z);
  }

  lemma LowCarried(buf: seq<Byte>, o: nat, b: Beacon)
    requires o + 8 <= |buf|
    requires b == Beacon(buf[o], Fix(10 * Int16(buf[o + 1], buf[o + 2]), 10 * Int16(buf[o + 3], buf[o + 4]),
                                     10 * Int16(buf[o + 5], buf[o + 6]), false))
    ensures InRange(b.fix) && Announces(buf[o..], b)
  {
    hide Bytes16, Int16;
    Int16Bytes(buf[o + 1], buf[o + 2]);
    Int16Bytes(buf[o + 3], buf[o + 4]);
    Int16Bytes(buf[o + 5], buf[o + 6]);
    Tenths(b.fix.x, b.fix.y, b.fix.z, Int16(buf[o + 1], buf[o + 2]), Int16(buf[o + 3], buf[o + 4]),
           Int16(buf[o + 5], buf[o + 6]));
    assert buf[o..][..7] == [b.address] + Bytes16(b.fix.x / 10) + Bytes16(b.fix.y / 10) + Bytes16(b.fix.z / 10);
  }

  lemma Tenths(x: int, y: int, z: int, a: int, b: int, c: int)
    requires x == 10 * a && y == 10 * b && z == 10 * c
    ensures x % 10 == y % 10 == z % 10 == 0 && x / 10 == a && y / 10 == b && z / 10 == c
  {
  }

  /** Whatever a datagram holds is read as what it carries. */
  lemma EntryCarried(buf: seq<Byte>, high: bool, i: nat)
    requires Offset(high, i + 1) <= |buf|
    ensures CarriedAt(buf, high, Offset(high, i), Entry(buf, high, i))
  {
    hide Announces, InRange, Int16, Int32;
    if high {
      HighCarried(buf, Offset(high, i), Entry(buf, high, i));
    } else {
      LowCarried(buf, Offset(high, i), Entry(buf, high, i));
    }
  }

  /** Any datagram of consistent size carries as many beacons as its count byte says. */
  lemma {:induction false} AllCarried(buf: seq<Byte>, high: bool, n: nat)
    requires Offset(high, n) <= |buf|
    ensures |EntriesTo(buf, high, n)| == n && Carries(buf, high, EntriesTo(buf, high, n))
    decreases n
  {
    hide Announces, InRange, Entry;
    if n > 0 {
      AllCarried(buf, high, n - 1);
      EntryCarried(buf, high, n - 1);
    }
  }

  /** The size that a beacon list of n beacons announces: its count byte, and 14 or 8 bytes for each beacon. */
  predicate Consistent(buf: seq<Byte>, high: bool)
    requires |buf| == 256
  {
    (buf[4] as int) == 1 + (buf[5] as int) * Size(high)
  }

  /** The beacons of a datagram of consistent size are those it carries, as many as it counts; no others. */
  lemma EntriesCarried(buf: seq<Byte>, high: bool, bs: seq<Beacon>)
    requires Readable(buf, high) && Consistent(buf, high) && |bs| == buf[5] && Carries(buf, high, bs)
    ensures Entries(buf, high) == bs
  {
    assert Offset(high, buf[5] as nat) == 5 + (buf[4] as nat);
    hide Carries, EntriesTo, Offset;
    DatagramBack(buf, high, bs, |bs|);
    assert bs[..|bs|] == bs;
  }

  /** Where the pieces of a concatenation lie. */
  lemma Spread(buf: seq<Byte>, o: nat, a: seq<Byte>, x: seq<Byte>, y: seq<Byte>, z: seq<Byte>)
    requires |a| == 1 && |x| == |y| == |z| && o + 1 + 3 * |x| <= |buf|
    requires buf[o..][..1 + 3 * |x|] == a + x + y + z
    ensures buf[o] == a[0]
    ensures forall j :: 0 <= j < |x| ==>
      buf[o + 1 + j] == x[j] && buf[o + 1 + |x| + j] == y[j] && buf[o + 1 + 2 * |x| + j] == z[j]
  {
    var s := a + x + y + z;
    assert forall j :: 0 <= j < 1 + 3 * |x| ==> buf[o + j] == buf[o..][..1 + 3 * |x|][j] == s[j];
    forall j | 0 <= j < |x|
      ensures buf[o + 1 + j] == x[j] && buf[o + 1 + |x| + j] == y[j] && buf[o + 1 + 2 * |x| + j] == z[j]
    {
      assert buf[o + (1 + j)] == s[1 + j] == x[j];
      assert buf[o + (1 + |x| + j)] == s[1 + |x| + j] == y[j];
      assert buf[o + (1 + 2 * |x| + j)] == s[1 + 2 * |x| + j] == z[j];
    }
  }

  /** positionsBeacons. */
  class BeaconTable {
    const beacons: array<Beacon>
    var numBeacons: nat
    var updated: bool

    ghost predicate Valid()
      reads this
    {
      beacons.Length == MAX_STATIONARY_BEACONS && numBeacons < MAX_STATIONARY_BEACONS
    }

    ghost function Contents(): seq<Beacon>
      reads this, beacons
      requires Valid()
    {
      beacons[..numBeacons]
    }

    constructor ()
      ensures Valid() && fresh(beacons) && Contents() == [] && !updated
    {
      beacons := new Beacon[MAX_STATIONARY_BEACONS](_ => Beacon(0, Fix(0, 0, 0, false)));
      numBeacons, updated := 0, false;
    }

    /** getOrAllocBeacon: the slot of a known address, or a new slot, or none. */
    method GetOrAlloc(address: Byte) returns (slot: Option<nat>)
      requires Valid()
      modifies this`numBeacons
      ensures Valid() && numBeacons >= old(numBeacons)
      ensures var i := Find(old(Contents()), address);
              if i < old(numBeacons) then slot == Some(i) && numBeacons == old(numBeacons)
              else if i < MAX_STATIONARY_BEACONS - 1 then slot == Some(i) && numBeacons == i + 1
              else slot == None && numBeacons == i
    {
      ghost var t := Contents();
      var i := 0;
      while i < numBeacons
        invariant i <= numBeacons
        invariant forall j :: 0 <= j < i ==> t[j].address != address
      {
        if beacons[i].address == address {
          return Some(i);
        }
        i := i + 1;
      }
      if numBeacons >= MAX_STATIONARY_BEACONS - 1 {
        return None;
      }
      numBeacons := numBeacons + 1;
      return Some(numBeacons - 1);
    }

    /** The loop body shared by both datagrams. */
    method Store(b: Beacon)
      requires Valid()
      modifies this, beacons
      ensures Valid() && Contents() == Put(old(Contents()), b)
      ensures old(updated) ==> updated
      ensures !updated ==> Contents() == old(Contents())
    {
      ghost var t := Contents();
      var slot := GetOrAlloc(b.address);
      if slot.Some? {
        beacons[slot.value] := b;
        updated := true;
      }
    }

    /** Stores the n beacons of a datagram. */
    method StoreAll(buf: seq<Byte>, high: bool, n: nat)
      requires Valid() && Offset(high, n) <= |buf|
      modifies this, beacons
      ensures Valid() && Contents() == PutAll(old(Contents()), EntriesTo(buf, high, n))
      ensures !updated ==> Contents() == old(Contents())
    {
      ghost var t := Contents();
      var i := 0;
      while i < n
        invariant i <= n && Valid() && Offset(high, i) <= |buf|
        invariant Contents() == PutAll(t, EntriesTo(buf, high, i))
        invariant !updated ==> Contents() == t
      {
        PutOne(t, EntriesTo(buf, high, i), Entry(buf, high, i));
        Store(Entry(buf, high, i));
        i := i + 1;
      }
    }

    /** process_beacons_positions_datagram and its high-resolution twin. */
    method Process(buffer: seq<Byte>, high: bool)
      requires Valid() && Readable(buffer, high)
      modifies this, beacons
      ensures Valid() && Contents() == PutAll(old(Contents()), Entries(buffer, high))
      ensures forall bs :: Consistent(buffer, high) && |bs| == buffer[5] && Carries(buffer, high, bs) ==>
                Contents() == PutAll(old(Contents()), bs)
      ensures !Consistent(buffer, high) ==> Contents() == old(Contents())
      ensures !updated ==> Contents() == old(Contents())
    {
      forall bs | Consistent(buffer, high) && |bs| == buffer[5] && Carries(buffer, high, bs)
        ensures Entries(buffer, high) == bs
      {
        EntriesCarried(buffer, high, bs);
      }
      if Offset(high, buffer[5] as nat) == 5 + (buffer[4] as nat) {
        StoreAll(buffer, high, buffer[5] as nat);
      }
    }
  }

  /** Every consistent datagram carries exactly one list of as many beacons as it counts. */
  lemma CarriesOne(buf: seq<Byte>, high: bool, bs: seq<Beacon>)
    requires Readable(buf, high) && Consistent(buf, high) && |bs| == buf[5]
    ensures Carries(buf, high, bs) <==> bs == Entries(buf, high)
  {
    AllCarried(buf, high, buf[5]);
    if Carries(buf, high, bs) {
      EntriesCarried(buf, high, bs);
    }
  }
}
