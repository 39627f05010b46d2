/** The byte-stream receiver of the indoor positioning system: header filter, length, CRC, dispatch. */
module Receiver {
  import opened ModbusCrc
  import opened Options

  const POSITION: bv16 := 0x0001
  const BEACONS: bv16 := 0x0002
  const IMU_RAW: bv16 := 0x0003
  const DISTANCES: bv16 := 0x0004
  const IMU_FUSION: bv16 := 0x0005
  const TELEMETRY: bv16 := 0x0006
  const QUALITY: bv16 := 0x0007
  const POSITION_HIGHRES: bv16 := 0x0011
  const BEACONS_HIGHRES: bv16 := 0x0012
  const WAYPOINT: bv16 := 0x0201

  function DataId(low: bv8, high: bv8): bv16 {
    ((high as bv16) << 8) + (low as bv16)
  }

  predicate KnownId(id: bv16) {
    || id == POSITION || id == BEACONS || id == POSITION_HIGHRES || id == BEACONS_HIGHRES || id == IMU_RAW
    || id == IMU_FUSION || id == DISTANCES || id == TELEMETRY || id == QUALITY || id == WAYPOINT
  }

  /** The payload length each kind of datagram must announce; beacon lists are free. */
  predicate LengthOk(id: bv16, len: bv8) {
    if id == POSITION || id == TELEMETRY || id == QUALITY then len == 0x10
    else if id == BEACONS || id == BEACONS_HIGHRES then true
    else if id == POSITION_HIGHRES then len == 0x16
    else if id == IMU_RAW || id == DISTANCES then len == 0x20
    else if id == IMU_FUSION then len == 0x2a
    else if id == WAYPOINT then len == 0x0c
    else false
  }

  /** Bytes of a whole datagram that announces this payload length. */
  function Total(len: bv8): (n: nat)
    ensures n == 7 + (len as nat) && n < 263
  {
    7 + (len as nat)
  }

  /** recvState, nBytesInBlockReceived and dataId, with the input buffer. */
  datatype Rx = Rx(inDatagram: bool, count: nat, dataId: bv16, buf: seq<bv8>)

  predicate RxOk(x: Rx) {
    |x.buf| == 256 && x.count < 256 && (!x.inDatagram ==> x.count <= 4)
  }

  predicate HeaderOk(count: nat, dataId: bv16, low: bv8, b: bv8) {
    if count == 0 then b == 0xff
    else if count == 1 then b == 0x47 || b == 0x4a
    else if count == 2 then true
    else if count == 3 then KnownId(DataId(low, b))
    else LengthOk(dataId, b)
  }

  function Idle(buf: seq<bv8>, id: bv16): Rx {
    Rx(false, 0, id, buf)
  }

  /** One byte in the header state. */
  function TakeHeader(x: Rx, b: bv8): (y: Rx)
    requires RxOk(x) && !x.inDatagram
    ensures RxOk(y)
  {
    var buf := x.buf[x.count := b];
    var id := if x.count == 3 then DataId(buf[2], b) else x.dataId;
    if HeaderOk(x.count, x.dataId, buf[2], b) then Rx(x.count == 4, x.count + 1, id, buf) else Idle(buf, id)
  }

  /** One byte after the header. The counter is one byte wide. */
  function TakeBody(x: Rx, b: bv8): (r: (Rx, Option<seq<bv8>>))
    requires RxOk(x) && x.inDatagram
    ensures RxOk(r.0)
  {
    var buf := x.buf[x.count := b];
    var n := if x.count == 255 then 0 else x.count + 1;
    if n >= Total(buf[4]) then (Idle(buf, x.dataId), if Crc(buf[..n]) == 0 then Some(buf[..n]) else None)
    else (Rx(true, n, x.dataId, buf), None)
  }

  /** The receiver after one byte, and the datagram that byte dispatches. */
  function Take(x: Rx, b: bv8): (r: (Rx, Option<seq<bv8>>))
    requires RxOk(x)
    ensures RxOk(r.0)
  {
    if x.inDatagram then TakeBody(x, b) else (TakeHeader(x, b), None)
  }

  /** The receiving thread's state; Receive is the body of its loop for one byte read. */
  class Hedge {
    const inputBuffer: array<bv8>
    var recvDatagram: bool
    var nBytes: nat
    var dataId: bv16

    ghost predicate Valid()
      reads this, inputBuffer
    {
      inputBuffer.Length == 256 && RxOk(State())
    }

    ghost function State(): Rx
      reads this, inputBuffer
    {
      Rx(recvDatagram, nBytes, dataId, inputBuffer[..])
    }

    constructor ()
      ensures Valid() && fresh(inputBuffer) && !recvDatagram && nBytes == 0
    {
      inputBuffer := new bv8[256];
      recvDatagram, nBytes, dataId := false, 0, 0;
    }

    method Receive(b: bv8) returns (dispatched: Option<seq<bv8>>)
      requires Valid()
      modifies this, inputBuffer
      ensures Valid()
      ensures (State(), dispatched) == Take(old(State()), b)
    {
      inputBuffer[nBytes] := b;
      dispatched := None;
      if !recvDatagram {
        var good := false;
        match nBytes {
          case 0 => good := b == 0xff;
          case 1 => good := b == 0x47 || b == 0x4a;
          case 2 => good := true;
          case 3 =>
            good := KnownId(DataId(inputBuffer[2], b));
            dataId := DataId(inputBuffer[2], b);
          case _ =>
            good := LengthOk(dataId, b);
            if good {
              recvDatagram := true;
            }
        }
        if good {
          nBytes := nBytes + 1;
        } else {
          recvDatagram, nBytes := false, 0;
        }
      } else {
        nBytes := if nBytes == 255 then 0 else nBytes + 1;
        if nBytes >= 7 + (inputBuffer[4] as nat) {
          var crc := CalcCrcModbus(inputBuffer, nBytes);
          if crc == 0 {
            dispatched := Some(inputBuffer[..nBytes]);
          }
          recvDatagram, nBytes := false, 0;
        }
      }
    }
  }

  // ----- whole datagrams -----

  /** A datagram the receiver can hold: the header it expects, a length byte of at most 248, all its bytes. */
  predicate Framed(f: seq<bv8>) {
    && 7 <= |f| <= 255 && |f| == Total(f[4])
    && f[0] == 0xff && (f[1] == 0x47 || f[1] == 0x4a)
    && KnownId(DataId(f[2], f[3])) && LengthOk(DataId(f[2], f[3]), f[4])
  }

  /** The kinds of datagram by their identifier, low byte first, and their length byte: positions, beacons, raw and
      fused inertial data, raw distances, telemetry, quality, high-resolution positions and beacons, waypoints. */
  predicate Listed(low: bv8, high: bv8, len: bv8) {
    (high == 0 &&
       ((low == 0x01 && len == 16) || low == 0x02 || (low == 0x03 && len == 32) || (low == 0x04 && len == 32)
        || (low == 0x05 && len == 42) || (low == 0x06 && len == 16) || (low == 0x07 && len == 16)
        || (low == 0x11 && len == 22) || low == 0x12))
    || (high == 2 && low == 1 && len == 12)
  }

  predicate ListedId(low: bv8, high: bv8) {
    (high == 0 && (1 <= low <= 7 || low == 0x11 || low == 0x12)) || (high == 2 && low == 1)
  }

  lemma KnownListed(low: bv8, high: bv8, len: bv8)
    ensures KnownId(DataId(low, high)) <==> ListedId(low, high)
    ensures KnownId(DataId(low, high)) && LengthOk(DataId(low, high), len) <==> Listed(low, high, len)
  {
  }

  /** The datagrams that the receiver takes, byte by byte. */
  lemma FramedIff(f: seq<bv8>)
    ensures Framed(f) <==>
              && 7 <= |f| <= 255 && |f| == 7 + (f[4] as nat)
              && f[0] == 0xff && (f[1] == 0x47 || f[1] == 0x4a) && Listed(f[2], f[3], f[4])
  {
    if |f| >= 7 {
      KnownListed(f[2], f[3], f[4]);
    }
    hide KnownId, LengthOk, DataId, Listed;
  }

  /** A header that goes wrong at byte k: not the start byte, not a direction byte, an identifier or a length that is
      not listed. */
  predicate WrongAt(f: seq<bv8>, k: nat)
    requires k < |f|
  {
    match k
    case 0 => f[0] != 0xff
    case 1 => f[1] != 0x47 && f[1] != 0x4a
    case 3 => !ListedId(f[2], f[3])
    case 4 => !Listed(f[2], f[3], f[4])
    case _ => false
  }

  /** The receiver drops a header at its first wrong byte, and not before. */
  lemma HeaderStep(x: Rx, f: seq<bv8>, k: nat)
    requires k < 5 && k < |f| && Got(x, f, k) && (k == 4 ==> ListedId(f[2], f[3]))
    ensures Take(x, f[k]).1 == None
    ensures WrongAt(f, k) ==> Got(Take(x, f[k]).0, [], 0)
    ensures !WrongAt(f, k) ==> Got(Take(x, f[k]).0, f, k + 1)
  {
    hide KnownId, LengthOk, DataId, Listed, ListedId;
    BufferedNext(x.buf, f, k);
    if k == 3 {
      KnownListed(f[2], f[3], 0);
    } else if k == 4 {
      KnownListed(f[2], f[3], f[4]);
    }
  }

  lemma FramedSize(f: seq<bv8>)
    requires Framed(f)
    ensures 7 <= |f| <= 255 && |f| == Total(f[4])
  {
  }

  /** The first k bytes of f have been received. */
  ghost predicate Got(x: Rx, f: seq<bv8>, k: nat)
    requires k <= |f|
  {
    && RxOk(x) && x.count == k && (x.inDatagram <==> k >= 5)
    && x.buf[..k] == f[..k]
    && (k >= 4 ==> x.dataId == DataId(f[2], f[3]))
  }

  lemma BufferedNext(buf: seq<bv8>, f: seq<bv8>, k: nat)
    requires |buf| == 256 && k < |f| && k < 256 && buf[..k] == f[..k]
    ensures buf[k := f[k]][..k + 1] == f[..k + 1]
    ensures forall j :: 0 <= j <= k ==> buf[k := f[k]][j] == f[j]
  {
    assert buf[k := f[k]][..k] == buf[..k];
    assert f[..k + 1] == f[..k] + [f[k]];
    assert forall j :: 0 <= j < k ==> buf[j] == buf[..k][j] == f[..k][j] == f[j];
  }

  lemma GotHeader(x: Rx, f: seq<bv8>, k: nat)
    requires Framed(f) && k < 5 && Got(x, f, k)
    ensures Got(TakeHeader(x, f[k]), f, k + 1)
  {
    BufferedNext(x.buf, f, k);
  }

  lemma GotBody(x: Rx, f: seq<bv8>, k: nat)
    requires Framed(f) && 5 <= k && k + 1 < |f| && Got(x, f, k)
    ensures TakeBody(x, f[k]).1 == None && Got(TakeBody(x, f[k]).0, f, k + 1)
  {
    BufferedNext(x.buf, f, k);
  }

  lemma GotNext(x: Rx, f: seq<bv8>, k: nat)
    requires Framed(f) && k + 1 < |f| && Got(x, f, k)
    ensures Take(x, f[k]).1 == None && Got(Take(x, f[k]).0, f, k + 1)
  {
    if k < 5 {
      GotHeader(x, f, k);
    } else {
      GotBody(x, f, k);
    }
  }

  /** The byte that completes the announced length. */
  lemma TakeLast(x: Rx, b: bv8, n: nat)
    requires RxOk(x) && x.inDatagram && x.count + 1 == n <= 255 && n == Total(x.buf[x.count := b][4])
    ensures var buf := x.buf[x.count := b];
            Take(x, b) == (Idle(buf, x.dataId), if Crc(buf[..n]) == 0 then Some(buf[..n]) else None)
  {
    hide Total, Crc;
  }

  lemma GotLast(x: Rx, f: seq<bv8>)
    requires Framed(f) && Got(x, f, |f| - 1)
    ensures Take(x, f[|f| - 1]).1 == if Crc(f) == 0 then Some(f) else None
    ensures Got(Take(x, f[|f| - 1]).0, [], 0)
  {
    hide Framed, Crc, Take, Total, DataId;
    FramedSize(f);
    var k := |f| - 1;
    BufferedNext(x.buf, f, k);
    assert x.buf[k := f[k]][..|f|] == f;
    TakeLast(x, f[k], |f|);
  }

  /** The receiver after a stream of bytes, with everything it dispatched. */
  function Stream(x: Rx, s: seq<bv8>): (r: (Rx, seq<seq<bv8>>))
    requires RxOk(x)
    ensures RxOk(r.0)
  {
    if s == [] then (x, [])
    else
      var (y, out) := Stream(x, s[..|s| - 1]);
      var (z, d) := Take(y, s[|s| - 1]);
      (z, if d.Some? then out + [d.value] else out)
  }

  /** The stream s takes x to y and dispatches out. */
  predicate Leads(x: Rx, s: seq<bv8>, y: Rx, out: seq<seq<bv8>>)
    requires RxOk(x)
  {
    Stream(x, s) == (y, out)
  }

  lemma LeadsQuiet(x: Rx, s: seq<bv8>, y: Rx, out: seq<seq<bv8>>, b: bv8)
    requires RxOk(x) && RxOk(y) && Leads(x, s, y, out) && Take(y, b).1 == None
    ensures Leads(x, s + [b], Take(y, b).0, out)
  {
    assert (s + [b])[..|s|] == s;
  }

  lemma LeadsLoud(x: Rx, s: seq<bv8>, y: Rx, out: seq<seq<bv8>>, b: bv8)
    requires RxOk(x) && RxOk(y) && Leads(x, s, y, out) && Take(y, b).1.Some?
    ensures Leads(x, s + [b], Take(y, b).0, out + [Take(y, b).1.value])
  {
    assert (s + [b])[..|s|] == s;
  }

  /** Nothing is dispatched before the last byte. */
  lemma {:induction false} PrefixQuiet(x: Rx, s: seq<bv8>, y: Rx, out: seq<seq<bv8>>, f: seq<bv8>, k: nat)
    returns (z: Rx)
    requires RxOk(x) && Framed(f) && k < |f| && Leads(x, s, y, out) && Got(y, [], 0)
    ensures Leads(x, s + f[..k], z, out) && Got(z, f, k)
    decreases k
  {
    hide Framed, Take, Stream;
    if k == 0 {
      assert s + f[..0] == s;
      z := y;
    } else {
      z := PrefixQuiet(x, s, y, out, f, k - 1);
      GotNext(z, f, k - 1);
      LeadsQuiet(x, s + f[..k - 1], z, out, f[k - 1]);
      assert s + f[..k] == (s + f[..k - 1]) + [f[k - 1]];
      z := Take(z, f[k - 1]).0;
    }
  }

  /** Arriving when the receiver is idle, a whole datagram is dispatched on its last byte, and only if its CRC is
      zero; either way the receiver is idle again. */
  lemma WholeDatagram(x: Rx, s: seq<bv8>, y: Rx, out: seq<seq<bv8>>, f: seq<bv8>) returns (z: Rx)
    requires RxOk(x) && Framed(f) && Leads(x, s, y, out) && Got(y, [], 0)
    ensures Leads(x, s + f, z, out + if Crc(f) == 0 then [f] else []) && Got(z, [], 0)
  {
    hide Framed, Take, Stream, Crc;
    FramedSize(f);
    var k: nat := |f| - 1;
    var p := PrefixQuiet(x, s, y, out, f, k);
    GotLast(p, f);
    z := Take(p, f[k]).0;
    assert s + f == (s + f[..k]) + [f[k]];
    if Crc(f) == 0 {
      LeadsLoud(x, s + f[..k], p, out, f[k]);
    } else {
      LeadsQuiet(x, s + f[..k], p, out, f[k]);
      assert out + [] == out;
    }
  }

  /** Bytes other than 0xff leave an idle receiver idle. */
  lemma {:induction false} Noise(x: Rx, s: seq<bv8>, y: Rx, out: seq<seq<bv8>>, n: seq<bv8>) returns (z: Rx)
    requires RxOk(x) && Leads(x, s, y, out) && Got(y, [], 0) && 0xff !in n
    ensures Leads(x, s + n, z, out) && Got(z, [], 0)
    decreases |n|
  {
    if n == [] {
      assert s + n == s;
      z := y;
    } else {
      var n0, b := n[..|n| - 1], n[|n| - 1];
      z := Noise(x, s, y, out, n0);
      LeadsQuiet(x, s + n0, z, out, b);
      assert s + n == (s + n0) + [b];
      z := Take(z, b).0;
    }
  }

  /** A datagram preceded by noise. */
  datatype Burst = Burst(noise: seq<bv8>, datagram: seq<bv8>)

  predicate BurstOk(b: Burst) {
    0xff !in b.noise && Framed(b.datagram)
  }

  function Sent(bs: seq<Burst>): seq<bv8> {
    if bs == [] then [] else Sent(bs[..|bs| - 1]) + bs[|bs| - 1].noise + bs[|bs| - 1].datagram
  }

  /** The datagrams of a transmission whose last two bytes are the CRC of what precedes them. */
  function Intact(bs: seq<Burst>): seq<seq<bv8>> {
    if bs == [] then []
    else Intact(bs[..|bs| - 1]) + if Sealed(bs[|bs| - 1].datagram) then [bs[|bs| - 1].datagram] else []
  }

  predicate Sealed(f: seq<bv8>) {
    |f| >= 2 && f[|f| - 2] == Lo(Crc(f[..|f| - 2])) && f[|f| - 1] == Hi(Crc(f[..|f| - 2]))
  }

  lemma SealedIsResidue(f: seq<bv8>)
    requires |f| >= 2
    ensures Sealed(f) <==> Crc(f) == 0
  {
    var m := f[..|f| - 2];
    assert f == m + [f[|f| - 2]] + [f[|f| - 1]];
    Residue(m, f[|f| - 2], f[|f| - 1]);
  }

  /** Whatever sequence of datagrams arrives, with noise between them, exactly those that carry their own CRC are
      dispatched, each once and in order, and the receiver ends idle. */
  lemma {:induction false} Transmission(x: Rx, bs: seq<Burst>) returns (z: Rx)
    requires Got(x, [], 0) && forall i :: 0 <= i < |bs| ==> BurstOk(bs[i])
    ensures Leads(x, Sent(bs), z, Intact(bs)) && Got(z, [], 0)
    decreases |bs|
  {
    if bs == [] {
      z := x;
    } else {
      var b := bs[|bs| - 1];
      assert BurstOk(b);
      var before, out := Sent(bs[..|bs| - 1]), Intact(bs[..|bs| - 1]);
      z := Transmission(x, bs[..|bs| - 1]);
      z := Noise(x, before, z, out, b.noise);
      z := WholeDatagram(x, before + b.noise, z, out, b.datagram);
      SealedIsResidue(b.datagram);
    }
  }
}
