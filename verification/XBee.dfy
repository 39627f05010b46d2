/** API frames of the radio modem: the sender's framing and the receiver's byte-by-byte state machine. */
module XBee {

  import opened Bytes

  const START_DELIMITER: Byte := 0x7E
  const TX_REQUEST: int := 0x01
  const RX_DATA: Byte := 0x81
  const AT_RESPONSE: Byte := 0x88
  const TX_STATUS: Byte := 0x89

  function Word(high: Byte, low: Byte): (w: nat)
    ensures w < 0x1_0000
  {
    256 * (high as nat) + (low as nat)
  }

  /** Sum of the bytes, modulo 256. */
  function Sum(s: seq<Byte>): Byte {
    if s == [] then 0 else (Sum(s[..|s| - 1]) + s[|s| - 1]) % 256
  }

  /** The frame law: delimiter, big-endian length of what lies between length and checksum, bytes after the length
      summing to 0xFF. */
  predicate Lawful(f: seq<Byte>) {
    Shaped(f) && Sum(f[3..]) == 0xFF
  }

  predicate Shaped(f: seq<Byte>) {
    |f| >= 5 && f[0] == START_DELIMITER && Word(f[1], f[2]) == |f| - 4
  }

  lemma SumAppend(s: seq<Byte>, b: Byte)
    ensures Sum(s + [b]) == (Sum(s) + b) % 256
  {
    assert (s + [b])[..|s|] == s;
  }

  lemma ChecksumLaw(f: seq<Byte>)
    requires Shaped(f)
    ensures Lawful(f) <==> f[|f| - 1] == 255 - Sum(f[3..|f| - 1])
  {
    assert f[3..] == f[3..|f| - 1] + [f[|f| - 1]];
    SumAppend(f[3..|f| - 1], f[|f| - 1]);
  }

  // ----- sending -----

  /** What the sender puts between the length and the checksum. */
  function Payload(typeTrame: int, id: Byte, dest0: Byte, dest1: Byte, options: int, data: seq<Byte>): seq<Byte> {
    [typeTrame % 256, id, dest0, dest1] + (if typeTrame == TX_REQUEST then [options % 256] else []) + data
  }

  method CopyData(trame: array<Byte>, first: nat, data: seq<Byte>)
    requires first + |data| <= trame.Length
    modifies trame
    ensures trame[..first] == old(trame[..first]) && trame[first..first + |data|] == data
  {
    var i := 0;
    while i < |data|
      invariant 0 <= i <= |data|
      invariant forall k :: 0 <= k < first ==> trame[k] == old(trame[k])
      invariant forall k :: 0 <= k < i ==> trame[first + k] == data[k]
    {
      trame[first + i] := data[i];
      i := i + 1;
    }
  }

  method Checksum(trame: array<Byte>, nbTotal: nat) returns (checksum: Byte)
    requires 3 <= nbTotal <= trame.Length
    ensures checksum == Sum(trame[3..nbTotal])
  {
    checksum := 0;
    var pos := 3;
    while pos < nbTotal
      invariant 3 <= pos <= nbTotal
      invariant checksum == Sum(trame[3..pos])
    {
      SumAppend(trame[3..pos], trame[pos]);
      assert trame[3..pos + 1] == trame[3..pos] + [trame[pos]];
      checksum := (checksum + trame[pos]) % 256;
      pos := pos + 1;
    }
  }

  function High(n: nat): Byte {
    (n / 256) % 256
  }

  function Low(n: nat): Byte {
    n % 256
  }

  lemma Joined(t: seq<Byte>, head: seq<Byte>, data: seq<Byte>)
    requires 3 <= |head| && |head| + |data| <= |t|
    requires t[..|head|] == head && t[|head|..|head| + |data|] == data
    ensures t[..3] == head[..3] && t[3..|head| + |data|] == head[3..] + data
  {
    assert t[..|head| + |data|] == head + data;
    assert t[3..|head| + |data|] == (head + data)[3..];
  }

  lemma FrameIsLawful(f: seq<Byte>, body: seq<Byte>)
    requires 1 <= |body| < 0x1_0000 && |f| == |body| + 4 && f[3..|f| - 1] == body
    requires f[0] == START_DELIMITER && f[1] == High(|body|) && f[2] == Low(|body|) && f[|f| - 1] == 255 - Sum(body)
    ensures Lawful(f)
  {
    ChecksumLaw(f);
  }

  method FillHeader(trame: array<Byte>, nb: nat, dest0: Byte, dest1: Byte, typeTrame: int, id: Byte, options: int)
    returns (first: nat)
    requires trame.Length == 128
    modifies trame
    ensures var head := Payload(typeTrame, id, dest0, dest1, options, []);
            && first == 3 + |head| && trame[0] == START_DELIMITER && trame[3..first] == head
            && trame[1] == High(nb + |head|) && trame[2] == Low(nb + |head|)
  {
    trame[0] := 0x7E;
    trame[1] := High(nb + 5);
    trame[2] := Low(nb + 5);
    trame[3], trame[4], trame[5], trame[6] := typeTrame % 256, id, dest0, dest1;
    if typeTrame == TX_REQUEST {
      trame[7] := options % 256;
      first := 8;
    } else {
      first := 7;
      trame[1] := High(nb + 4);
      trame[2] := Low(nb + 4);
    }
  }

  /** PortXbee_envoyer: the bytes written to the port. The frame has to fit the 128-byte buffer. */
  method Envoyer(dest0: Byte, dest1: Byte, data: seq<Byte>, typeTrame: int, id: Byte, options: int)
    returns (frame: seq<Byte>)
    requires |data| + (if typeTrame == TX_REQUEST then 9 else 8) <= 128
    ensures Lawful(frame)
    ensures frame[3..|frame| - 1] == Payload(typeTrame, id, dest0, dest1, options, data)
    ensures |frame| == |data| + (if typeTrame == 0x01 then 9 else 8) && frame[0] == 0x7E
    ensures 256 * (frame[1] as int) + (frame[2] as int) == |frame| - 4
    ensures frame[3] == typeTrame % 256 && frame[4] == id && frame[5] == dest0 && frame[6] == dest1
    ensures typeTrame == 0x01 ==> frame[7] == options % 256 && frame[8..|frame| - 1] == data
    ensures typeTrame != 0x01 ==> frame[7..|frame| - 1] == data
  {
    hide High, Low, Sum, Word;
    var trame := new Byte[128];
    var first := FillHeader(trame, |data|, dest0, dest1, typeTrame, id, options);
    ghost var head := trame[..first];
    CopyData(trame, first, data);
    var nbTotal := first + |data|;
    ghost var body := trame[3..nbTotal];
    Joined(trame[..], head, data);
    var checksum := Checksum(trame, nbTotal);
    trame[nbTotal] := 0xFF - checksum;
    frame := trame[..nbTotal + 1];
    FrameIsLawful(frame, body);
    FrameBytes(frame, typeTrame, id, dest0, dest1, options, data);
  }

  /** The frame byte by byte: delimiter, length, type, identifier, address, in a transmit request the options, data. */
  lemma FrameBytes(f: seq<Byte>, typeTrame: int, id: Byte, dest0: Byte, dest1: Byte, options: int, data: seq<Byte>)
    requires Lawful(f) && f[3..|f| - 1] == Payload(typeTrame, id, dest0, dest1, options, data)
    ensures |f| == |data| + (if typeTrame == 0x01 then 9 else 8) && f[0] == 0x7E
    ensures 256 * (f[1] as int) + (f[2] as int) == |f| - 4
    ensures f[3] == typeTrame % 256 && f[4] == id && f[5] == dest0 && f[6] == dest1
    ensures typeTrame == 0x01 ==> f[7] == options % 256 && f[8..|f| - 1] == data
    ensures typeTrame != 0x01 ==> f[7..|f| - 1] == data
  {
    hide Sum;
    var body := f[3..|f| - 1];
    var n := if typeTrame == 0x01 then 5 else 4;
    assert |body| == |data| + n;
    assert forall j :: 0 <= j < |body| ==> f[3 + j] == body[j];
    assert body[0] == f[3] && body[1] == f[4] && body[2] == f[5] && body[3] == f[6] && (n == 5 ==> body[4] == f[7]);
    assert f[3 + n..|f| - 1] == body[n..] == data;
  }

  // ----- receiving -----

  datatype Phase = Wait | MsbLen | LsbLen | FrameType | MsbAdr | LsbAdr | Rssi | Options | DataType | Datas | Cks
                 | AckId | AckState | AckCks | AtId | At1 | At2 | AtStatus | AtDatas

  /** xBeeReceivePacket. */
  datatype Packet = Packet(len: nat, frameType: Byte, adr: nat, rssi: Byte, options: Byte, status: Byte, frameId: Byte,
                           ack: Byte, cks: Byte, data: seq<Byte>)

  /** The static variables of the receiver, with the packet it fills. */
  datatype State = State(phase: Phase, index: nat, sum: Byte, packet: Packet)

  const DATA_BYTES: nat := 100

  /** Storing the next data byte. */
  function Append(s: State, b: Byte): State {
    var data := if s.index < |s.packet.data| then s.packet.data[s.index := b] else s.packet.data;
    s.(index := s.index + 1, sum := (s.sum + b) % 256, packet := s.packet.(data := data))
  }

  function Add(s: State, b: Byte, phase: Phase, packet: Packet): State {
    s.(sum := (s.sum + b) % 256, phase := phase, packet := packet)
  }

  /** The checksum states: back to waiting, and 1 exactly when the checksum is right. */
  function Close(s: State, b: Byte): (State, int) {
    var good := 255 - s.sum == b;
    (s.(phase := Wait, sum := 255 - s.sum, packet := s.packet.(cks := b, status := if good then 0 else 1)),
     if good then 1 else -1)
  }

  /** PortXbee_receptionOctet on one byte, without the timeout. */
  function Octet(s: State, b: Byte): (State, int) {
    var p := s.packet;
    match s.phase
    case Wait => (s.(sum := 0, phase := if b == START_DELIMITER then MsbLen else Wait), 0)
    case MsbLen => (s.(phase := LsbLen, packet := p.(len := Word(b, 0))), 0)
    case LsbLen => (s.(phase := FrameType, packet := p.(len := (p.len + b) % 0x1_0000)), 0)
    case FrameType =>
      var q := p.(frameType := b);
      if b == RX_DATA then (Add(s, b, MsbAdr, q), 0)
      else if b == TX_STATUS then (Add(s, b, AckId, q), 0)
      else if b == AT_RESPONSE then (Add(s, b, AtId, q), 0)
      else (Add(s, b, Wait, q), -2)
    case MsbAdr => (Add(s, b, LsbAdr, p.(adr := Word(b, 0))), 0)
    case LsbAdr => (Add(s, b, Rssi, p.(adr := (p.adr + b) % 0x1_0000)), 0)
    case Rssi => (Add(s, b, Options, p.(rssi := b)), 0)
    case Options => (Add(s, b, DataType, p.(options := b)).(index := 0), 0)
    case DataType => (Append(s, b).(phase := Datas), 0)
    case Datas =>
      var t := Append(s, b);
      (if t.index == p.len - 5 then t.(phase := Cks) else t, 0)
    case Cks => Close(s, b)
    case AckId => (Add(s, b, AckState, p.(frameId := b)), 0)
    case AckState => (Add(s, b, AckCks, p.(ack := b)), 0)
    case AckCks => Close(s, b)
    case AtId => (Add(s, b, At1, p.(frameId := b)), 0)
    case At1 => (Add(s, b, At2, p), 0)
    case At2 => (Add(s, b, AtStatus, p), 0)
    case AtStatus => (s.(phase := if p.len > 5 then AtDatas else Cks, packet := p.(ack := b, cks := b)), 0)
    case AtDatas =>
      var t := Append(s, b);
      (if t.index == p.len - 4 then t.(phase := Cks) else t, 0)
  }

  /** The receiver's statics and the packet it is given. */
  class Port {
    var phase: Phase
    var index: nat
    var sum: Byte
    var packet: Packet
    const data: array<Byte>

    ghost predicate Valid()
      reads this
    {
      data.Length == DATA_BYTES
    }

    ghost function Now(): State
      reads this, data
    {
      State(phase, index, sum, packet.(data := data[..]))
    }

    constructor (p: Packet)
      ensures Valid() && fresh(data) && phase == Wait
    {
      data := new Byte[DATA_BYTES](_ => 0);
      phase, index, sum, packet := Wait, 0, 0, p;
    }

    method Store(b: Byte)
      requires Valid() && index < DATA_BYTES
      modifies this, data
      ensures Now() == Append(old(Now()), b)
    {
      data[index] := b;
      index := index + 1;
      sum := (sum + b) % 256;
    }

    method Finish(b: Byte) returns (code: int)
      modifies this
      ensures (Now(), code) == Close(old(Now()), b)
    {
      packet := packet.(cks := b);
      sum := 0xFF - sum;
      phase := Wait;
      if sum == b {
        packet := packet.(status := 0);
        return 1;
      } else {
        packet := packet.(status := 1);
        return -1;
      }
    }

    method Header(b: Byte) returns (code: int)
      requires phase in {Wait, MsbLen, LsbLen, FrameType, MsbAdr, LsbAdr, Rssi, Options}
      modifies this
      ensures (Now(), code) == Octet(old(Now()), b)
    {
      code := 0;
      match phase {
        case Wait =>
          sum := 0;
          if b == START_DELIMITER {
            phase := MsbLen;
          }
        case MsbLen =>
          packet, phase := packet.(len := Word(b, 0)), LsbLen;
        case LsbLen =>
          packet, phase := packet.(len := (packet.len + b) % 0x1_0000), FrameType;
        case FrameType =>
          packet, sum := packet.(frameType := b), (sum + b) % 256;
          if b == RX_DATA {
            phase := MsbAdr;
          } else if b == TX_STATUS {
            phase := AckId;
          } else if b == AT_RESPONSE {
            phase := AtId;
          } else {
            phase := Wait;
            code := -2;
          }
        case MsbAdr =>
          packet, sum, phase := packet.(adr := Word(b, 0)), (sum + b) % 256, LsbAdr;
        case LsbAdr =>
          packet, sum, phase := packet.(adr := (packet.adr + b) % 0x1_0000), (sum + b) % 256, Rssi;
        case Rssi =>
          packet, sum, phase := packet.(rssi := b), (sum + b) % 256, Options;
        case Options =>
          packet, sum, phase, index := packet.(options := b), (sum + b) % 256, DataType, 0;
      }
    }

    /** PortXbee_receptionOctet; late tells that the timeout has expired. A data byte must have room in the packet. */
    method ReceptionOctet(b: Byte, late: bool) returns (code: int)
      requires Valid() && (phase in {DataType, Datas, AtDatas} && !late ==> index < DATA_BYTES)
      modifies this, data
      ensures Valid()
      ensures (Now(), code) == Octet(old(if late then Now().(phase := Wait) else Now()), b)
    {
      if late {
        phase := Wait;
      }
      code := 0;
      match phase {
        case DataType =>
          Store(b);
          phase := Datas;
        case Datas =>
          Store(b);
          if index == packet.len - 5 {
            phase := Cks;
          }
        case Cks => code := Finish(b);
        case AckId => packet, sum, phase := packet.(frameId := b), (sum + b) % 256, AckState;
        case AckState => packet, sum, phase := packet.(ack := b), (sum + b) % 256, AckCks;
        case AckCks => code := Finish(b);
        case AtId => packet, sum, phase := packet.(frameId := b), (sum + b) % 256, At1;
        case At1 => sum, phase := (sum + b) % 256, At2;
        case At2 => sum, phase := (sum + b) % 256, AtStatus;
        case AtStatus =>
          packet := packet.(ack := b, cks := b);
          phase := if packet.len > 5 then AtDatas else Cks;
        case AtDatas =>
          Store(b);
          if index == packet.len - 4 {
            phase := Cks;
          }
        case _ => code := Header(b);
      }
    }
  }
}
