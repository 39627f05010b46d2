/** From the byte stream to the beacon table: what the receiver dispatches, the table's update takes over. */
module BeaconStream {
  import opened Bytes
  import opened Options
  import opened ModbusCrc
  import R = Receiver
  import B = Beacons

  /** The bytes of a buffer as numbers. */
  function Nums(f: seq<bv8>): (s: seq<Byte>)
    ensures |s| == |f| && forall i :: 0 <= i < |f| ==> s[i] == f[i] as Byte
  {
    seq(|f|, i requires 0 <= i < |f| => f[i] as Byte)
  }

  /** What a dispatch with this identifier makes of the table: only the two kinds of beacon list change it. */
  function Dispatched(t: seq<B.Beacon>, id: bv16, buf: seq<bv8>): seq<B.Beacon>
    requires |buf| == 256 && buf[4] <= 248
  {
    if id == 0x0002 then B.PutAll(t, B.Entries(Nums(buf), false))
    else if id == 0x0012 then B.PutAll(t, B.Entries(Nums(buf), true))
    else t
  }

  /** One byte read: the receiver's step, and the update when it dispatches. */
  function Step(x: R.Rx, t: seq<B.Beacon>, b: bv8): (r: (R.Rx, seq<B.Beacon>))
    requires R.RxOk(x)
    ensures R.RxOk(r.0)
  {
    var (y, d) := R.Take(x, b);
    (y, if d.Some? && y.buf[4] <= 248 then Dispatched(t, y.dataId, y.buf) else t)
  }

  /** What is dispatched has a length byte of at most 248, so that its beacons lie within the buffer. */
  lemma DispatchedFits(x: R.Rx, b: bv8)
    requires R.RxOk(x)
    ensures R.Take(x, b).1.Some? ==> R.Take(x, b).0.buf[4] <= 248
  {
  }

  /** The body of the receiving loop, for one byte. */
  method ReceiveByte(hedge: R.Hedge, table: B.BeaconTable, b: bv8)
    requires hedge.Valid() && table.Valid()
    modifies hedge, hedge.inputBuffer, table, table.beacons
    ensures hedge.Valid() && table.Valid()
    ensures (hedge.State(), table.Contents()) == Step(old(hedge.State()), old(table.Contents()), b)
  {
    DispatchedFits(hedge.State(), b);
    var dispatched := hedge.Receive(b);
    if dispatched.Some? {
      var buffer := Nums(hedge.inputBuffer[..]);
      match hedge.dataId {
        case 0x0002 => table.Process(buffer, false);
        case 0x0012 => table.Process(buffer, true);
        case _ =>
      }
    }
  }

  // ----- streams -----

  /** The receiver and the table after a stream of bytes. */
  function Track(x: R.Rx, t: seq<B.Beacon>, s: seq<bv8>): (r: (R.Rx, seq<B.Beacon>))
    requires R.RxOk(x)
    ensures R.RxOk(r.0)
  {
    if s == [] then (x, t)
    else
      var (y, u) := Track(x, t, s[..|s| - 1]);
      Step(y, u, s[|s| - 1])
  }

  lemma {:induction false} TrackAppend(x: R.Rx, t: seq<B.Beacon>, a: seq<bv8>, b: seq<bv8>)
    requires R.RxOk(x)
    ensures Track(x, t, a + b) == Track(Track(x, t, a).0, Track(x, t, a).1, b)
    decreases |b|
  {
    hide Step;
    if b == [] {
      assert a + b == a;
    } else {
      TrackAppend(x, t, a, b[..|b| - 1]);
      assert (a + b)[..|a + b| - 1] == a + b[..|b| - 1];
    }
  }

  /** Bytes that dispatch nothing leave the table alone. */
  lemma QuietStep(x: R.Rx, t: seq<B.Beacon>, b: bv8)
    requires R.RxOk(x) && R.Take(x, b).1 == None
    ensures Step(x, t, b) == (R.Take(x, b).0, t)
  {
  }

  lemma {:induction false} NoiseQuiet(x: R.Rx, t: seq<B.Beacon>, n: seq<bv8>)
    requires R.Got(x, [], 0) && 0xff !in n
    ensures R.Got(Track(x, t, n).0, [], 0) && Track(x, t, n).1 == t
    decreases |n|
  {
    hide Step;
    if n != [] {
      NoiseQuiet(x, t, n[..|n| - 1]);
      var y := Track(x, t, n[..|n| - 1]).0;
      assert n[|n| - 1] in n;
      R.HeaderStep(y, [n[|n| - 1]], 0);
      QuietStep(y, t, n[|n| - 1]);
    }
  }

  lemma {:induction false} PrefixQuiet(x: R.Rx, t: seq<B.Beacon>, f: seq<bv8>, k: nat)
    requires R.Got(x, [], 0) && R.Framed(f) && k < |f|
    ensures R.Got(Track(x, t, f[..k]).0, f, k) && Track(x, t, f[..k]).1 == t
    decreases k
  {
    hide Step, R.Framed, R.Take;
    if k > 0 {
      PrefixQuiet(x, t, f, k - 1);
      assert f[..k][..k - 1] == f[..k - 1];
      var y := Track(x, t, f[..k - 1]).0;
      R.GotNext(y, f, k - 1);
      QuietStep(y, t, f[k - 1]);
    }
  }

  /** A datagram with the two bytes of its CRC, and the list of beacons it carries; none if it is not a beacon list,
      has a wrong CRC or a size that disagrees with its count. */
  ghost predicate Delivers(f: seq<bv8>, l: seq<B.Beacon>)
    requires |f| >= 7
  {
    var high := f[2] == 0x12;
    if R.Sealed(f) && f[3] == 0 && (f[2] == 0x02 || f[2] == 0x12)
        && f[4] as int == 1 + (f[5] as int) * (if high then 14 else 8)
    then |l| == f[5] as int && B.Carries(Nums(f), high, l)
    else l == []
  }

  lemma StillAnnounced(a: seq<Byte>, b: seq<Byte>, o: nat, size: nat, beacon: B.Beacon)
    requires size == (if beacon.fix.highResolution then 14 else 8) && o + size <= |a| <= |b| && b[..|a|] == a
    requires B.Announces(a[o..], beacon)
    ensures B.Announces(b[o..], beacon)
  {
    hide B.Bytes16, B.Bytes32;
    assert forall j :: 0 <= j < size ==> a[o..][j] == b[o..][j] by {
      assert forall j :: 0 <= j < |a| ==> a[j] == b[..|a|][j];
    }
    assert size == 14 ==> a[o..][..13] == b[o..][..13];
    assert a[o..][..7] == b[o..][..7];
  }

  /** What follows a datagram in the buffer does not matter. */
  lemma StillCarried(a: seq<Byte>, b: seq<Byte>, high: bool, l: seq<B.Beacon>)
    requires |a| <= |b| && b[..|a|] == a && B.Carries(a, high, l)
    ensures B.Carries(b, high, l)
  {
    hide B.Announces, B.InRange;
    forall i | 0 <= i < |l|
      ensures l[i].fix.highResolution == high && B.InRange(l[i].fix) && B.Announces(b[B.Offset(high, i)..], l[i])
    {
      StillAnnounced(a, b, B.Offset(high, i), if high then 14 else 8, l[i]);
    }
  }

  lemma NumsPrefix(buf: seq<bv8>, f: seq<bv8>)
    requires |f| <= |buf| && buf[..|f|] == f
    ensures Nums(buf)[..|f|] == Nums(f)
  {
    assert forall i :: 0 <= i < |f| ==> buf[..|f|][i] == buf[i];
  }

  lemma SameHead(f: seq<bv8>, buf: seq<bv8>)
    requires 6 <= |f| <= |buf| && buf[..|f|] == f
    ensures buf[2] == f[2] && buf[3] == f[3] && buf[4] == f[4] && buf[5] == f[5]
  {
    assert forall i :: 0 <= i < |f| ==> buf[..|f|][i] == buf[i];
  }

  /** A beacon list in the buffer puts into the table what the datagram carries, if its size agrees with its count. */
  lemma ListRead(f: seq<bv8>, buf: seq<bv8>, high: bool, l: seq<B.Beacon>)
    requires 6 <= |f| <= |buf| == 256 && buf[..|f|] == f && f[4] <= 248
    requires if f[4] as int == 1 + (f[5] as int) * B.Size(high) then |l| == f[5] as int && B.Carries(Nums(f), high, l)
             else l == []
    ensures B.Entries(Nums(buf), high) == l
  {
    hide B.Carries, B.Entries;
    SameHead(f, buf);
    NumsPrefix(buf, f);
    if B.Consistent(Nums(buf), high) {
      StillCarried(Nums(f), Nums(buf), high, l);
      B.EntriesCarried(Nums(buf), high, l);
    } else {
      NoEntries(Nums(buf), high);
    }
  }

  /** The dispatch of a datagram with its own CRC makes of the table what it delivers. */
  lemma DeliversIs(t: seq<B.Beacon>, f: seq<bv8>, buf: seq<bv8>, l: seq<B.Beacon>)
    requires R.Framed(f) && |buf| == 256 && buf[..|f|] == f && R.Sealed(f) && Delivers(f, l)
    ensures buf[4] <= 248 && Dispatched(t, R.DataId(f[2], f[3]), buf) == B.PutAll(t, l)
  {
    hide B.PutAll, B.Carries, R.Sealed, R.Framed, B.Entries, R.DataId;
    Plain(f);
    SameHead(f, buf);
    IdsOf(f[2], f[3]);
    NothingPut(t);
    if f[3] == 0 && (f[2] == 0x02 || f[2] == 0x12) {
      ListRead(f, buf, f[2] == 0x12, l);
    }
  }

  lemma NothingPut(t: seq<B.Beacon>)
    ensures B.PutAll(t, []) == t
  {
  }

  lemma NoEntries(buf: seq<Byte>, high: bool)
    requires B.Readable(buf, high) && !B.Consistent(buf, high)
    ensures B.Entries(buf, high) == []
  {
  }

  lemma Plain(f: seq<bv8>)
    requires R.Framed(f)
    ensures 7 <= |f| <= 255 && |f| == 7 + (f[4] as nat) && f[4] <= 248
  {
  }

  lemma IdsOf(low: bv8, high: bv8)
    ensures R.DataId(low, high) == 0x0002 <==> high == 0 && low == 0x02
    ensures R.DataId(low, high) == 0x0012 <==> high == 0 && low == 0x12
  {
  }

  /** One whole datagram. */
  lemma WholeDelivers(x: R.Rx, t: seq<B.Beacon>, f: seq<bv8>, l: seq<B.Beacon>)
    requires R.Got(x, [], 0) && R.Framed(f) && Delivers(f, l)
    ensures R.Got(Track(x, t, f).0, [], 0) && Track(x, t, f).1 == B.PutAll(t, l)
  {
    Plain(f);
    var k: nat := |f| - 1;
    PrefixQuiet(x, t, f, k);
    var y := Track(x, t, f[..k]).0;
    LastStep(y, t, f, l);
  }

  lemma LastStep(y: R.Rx, t: seq<B.Beacon>, f: seq<bv8>, l: seq<B.Beacon>)
    requires R.Framed(f) && Delivers(f, l) && R.Got(y, f, |f| - 1)
    ensures var r := Step(y, t, f[|f| - 1]); R.Got(r.0, [], 0) && r.1 == B.PutAll(t, l)
  {
    hide R.Take, R.Framed, Crc, R.Sealed, B.PutAll, Delivers, Dispatched, R.DataId;
    Plain(f);
    var buf := y.buf[|f| - 1 := f[|f| - 1]];
    R.SealedIsResidue(f);
    R.GotLast(y, f);
    LastTake(y, f);
    if Crc(f) == 0 {
      DeliversIs(t, f, buf, l);
    } else {
      NothingDelivered(f, l);
      NothingPut(t);
      QuietStep(y, t, f[|f| - 1]);
    }
  }

  lemma NothingDelivered(f: seq<bv8>, l: seq<B.Beacon>)
    requires |f| >= 7 && Delivers(f, l) && !R.Sealed(f)
    ensures l == []
  {
  }

  lemma LastTake(y: R.Rx, f: seq<bv8>)
    requires R.Framed(f) && R.Got(y, f, |f| - 1)
    ensures |y.buf| == 256
    ensures var r, buf := R.Take(y, f[|f| - 1]).0, y.buf[|f| - 1 := f[|f| - 1]];
            r.buf == buf && buf[..|f|] == f && r.dataId == R.DataId(f[2], f[3])
  {
    Plain(f);
    var k: nat := |f| - 1;
    R.BufferedNext(y.buf, f, k);
    assert f[..k + 1] == f;
    hide R.Framed, Crc, R.Take;
    R.TakeLast(y, f[k], |f|);
  }

  /** What a series of datagrams delivers. */
  ghost predicate AllDeliver(bs: seq<R.Burst>, ls: seq<seq<B.Beacon>>) {
    |bs| == |ls| && forall i :: 0 <= i < |bs| ==> R.BurstOk(bs[i]) && Delivers(bs[i].datagram, ls[i])
  }

  function Flat(ls: seq<seq<B.Beacon>>): seq<B.Beacon> {
    if ls == [] then [] else Flat(ls[..|ls| - 1]) + ls[|ls| - 1]
  }

  /** From the bytes to the table: whatever series of datagrams arrives, with noise between them, the table takes in, in
      order, exactly the beacons of the beacon lists with their own CRC and a consistent size. */
  lemma {:induction false} BytesToTable(x: R.Rx, t: seq<B.Beacon>, bs: seq<R.Burst>, ls: seq<seq<B.Beacon>>)
    requires R.Got(x, [], 0) && AllDeliver(bs, ls)
    ensures R.Got(Track(x, t, R.Sent(bs)).0, [], 0) && Track(x, t, R.Sent(bs)).1 == B.PutAll(t, Flat(ls))
    decreases |bs|
  {
    hide Step, R.Framed, Delivers, B.PutAll;
    if bs == [] {
      NothingPut(t);
    } else {
      var n := |bs| - 1;
      assert R.BurstOk(bs[n]);
      Plain(bs[n].datagram);
      assert Delivers(bs[n].datagram, ls[n]);
      assert AllDeliver(bs[..n], ls[..n]);
      BytesToTable(x, t, bs[..n], ls[..n]);
      var s := R.Sent(bs[..n]);
      var y, u := Track(x, t, s).0, Track(x, t, s).1;
      NoiseQuiet(y, u, bs[n].noise);
      WholeDelivers(Track(y, u, bs[n].noise).0, u, bs[n].datagram, ls[n]);
      TrackAppend(x, t, s, bs[n].noise);
      TrackAppend(x, t, s + bs[n].noise, bs[n].datagram);
      B.PutMore(t, Flat(ls[..n]), ls[n]);
    }
  }
}
