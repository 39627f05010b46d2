/** What the receiver makes of whole frames. */
module XBeeFrames {
  import opened Bytes
  import opened XBee

  /** The receiver after the bytes bs. */
  function After(s: State, bs: seq<Byte>): State {
    if bs == [] then s else Octet(After(s, bs[..|bs| - 1]), bs[|bs| - 1]).0
  }

  /** What it returns on byte k. */
  function Code(s: State, f: seq<Byte>, k: nat): int
    requires k < |f|
  {
    Octet(After(s, f[..k]), f[k]).1
  }

  /** Byte k is taken without a verdict, and if it is data there is room for it. */
  predicate Quiet(s: State, f: seq<Byte>, k: nat)
    requires k < |f|
  {
    Code(s, f, k) == 0 && Roomy(After(s, f[..k]))
  }

  predicate Roomy(s: State) {
    s.phase in {DataType, Datas, AtDatas} ==> s.index < DATA_BYTES
  }

  /** From a the byte b leads to c, without a verdict. */
  predicate Takes(a: State, b: Byte, c: State) {
    Octet(a, b) == (c, 0) && Roomy(a)
  }

  /** The states of path follow one another as the bytes of f arrive. */
  lemma {:induction false} Follow(f: seq<Byte>, path: seq<State>, k: nat)
    requires k < |path| <= |f| + 1
    requires forall j :: 0 <= j < |path| - 1 ==> Takes(path[j], f[j], path[j + 1])
    ensures After(path[0], f[..k]) == path[k]
    ensures forall j :: 0 <= j < k ==> Quiet(path[0], f, j)
    decreases k
  {
    if k > 0 {
      Follow(f, path, k - 1);
      assert Takes(path[k - 1], f[k - 1], path[k]);
      assert f[..k][..k - 1] == f[..k - 1];
    }
  }

  lemma Verdict(s: State, f: seq<Byte>, t: State)
    requires |f| > 0 && After(s, f[..|f| - 1]) == t
    ensures (After(s, f), Code(s, f, |f| - 1)) == Octet(t, f[|f| - 1])
  {
  }

  /** Sum of the bytes that follow the length, among the first k. */
  function SumTo(f: seq<Byte>, k: nat): Byte
    requires k <= |f|
  {
    if k <= 3 then 0 else Sum(f[3..k])
  }

  lemma SumNext(f: seq<Byte>, k: nat)
    requires 3 <= k < |f|
    ensures SumTo(f, k + 1) == (SumTo(f, k) + f[k]) % 256
  {
    assert f[3..k + 1] == f[3..k] + [f[k]];
    SumAppend(f[3..k], f[k]);
  }

  // ----- data frames -----

  predicate DataFrame(f: seq<Byte>) {
    Shaped(f) && f[3] == RX_DATA && 11 <= |f| <= 109
  }

  /** The packet with the fields that the first k bytes of a frame give. */
  function Header(p: Packet, f: seq<Byte>, k: nat): Packet
    requires |f| >= 8
  {
    p.(len := if k <= 1 then p.len else if k == 2 then Word(f[1], 0) else Word(f[1], f[2]),
       frameType := if k < 4 then p.frameType else f[3],
       adr := if k < 5 then p.adr else if k == 5 then Word(f[4], 0) else Word(f[4], f[5]),
       rssi := if k < 7 then p.rssi else f[6],
       options := if k < 8 then p.options else f[7])
  }

  const HEADER_PHASES := [Wait, MsbLen, LsbLen, FrameType, MsbAdr, LsbAdr, Rssi, Options]

  /** The receiver after k bytes of a data frame, 0 < k < 8. */
  function InHeader(s: State, f: seq<Byte>, k: nat): State
    requires |f| >= 8 && k < 8
  {
    if k == 0 then s else State(HEADER_PHASES[k], s.index, SumTo(f, k), Header(s.packet, f, k))
  }

  /** The receiver after k bytes of a data frame, k at least 8. */
  function InData(s: State, f: seq<Byte>, k: nat): State
    requires |s.packet.data| == DATA_BYTES && DataFrame(f) && 8 <= k < |f|
  {
    State(if k == 8 then DataType else if k < |f| - 1 then Datas else Cks, k - 8, SumTo(f, k),
          Header(s.packet, f, 8).(data := f[8..k] + s.packet.data[k - 8..]))
  }

  lemma InHeaderNext(s: State, f: seq<Byte>, k: nat)
    requires s.phase == Wait && DataFrame(f) && k < 7
    ensures Takes(InHeader(s, f, k), f[k], InHeader(s, f, k + 1))
  {
    if k >= 3 {
      SumNext(f, k);
    }
  }

  lemma InHeaderLast(s: State, f: seq<Byte>)
    requires s.phase == Wait && |s.packet.data| == DATA_BYTES && DataFrame(f)
    ensures Takes(InHeader(s, f, 7), f[7], InData(s, f, 8))
  {
    SumNext(f, 7);
    assert f[8..8] + s.packet.data[0..] == s.packet.data;
  }

  /** A data byte taken by a receiver that has i data bytes d. */
  lemma StoreOctet(p: Packet, i: nat, sum: Byte, d: seq<Byte>, phase: Phase, b: Byte, next: Phase)
    requires phase in {DataType, Datas} && i < DATA_BYTES == |d|
    requires next == if phase == Datas && i + 1 == p.len - 5 then Cks else Datas
    ensures Takes(State(phase, i, sum, p.(data := d)), b, State(next, i + 1, (sum + b) % 256, p.(data := d[i := b])))
  {
  }

  /** Putting one more byte in place. */
  lemma Spliced(f: seq<Byte>, d: seq<Byte>, k: nat)
    requires 8 <= k < |f| && k - 8 < |d|
    ensures (f[8..k] + d[k - 8..])[k - 8 := f[k]] == f[8..k + 1] + d[k - 7..]
  {
  }

  lemma AnnouncedLength(s: State, f: seq<Byte>)
    requires DataFrame(f)
    ensures Header(s.packet, f, 8).len == |f| - 4
  {
  }

  lemma InDataNext(s: State, f: seq<Byte>, k: nat)
    requires |s.packet.data| == DATA_BYTES && DataFrame(f) && 8 <= k < |f| - 1
    ensures Takes(InData(s, f, k), f[k], InData(s, f, k + 1))
  {
    hide SumTo, Takes, Octet, Header, Word, Shaped;
    AnnouncedLength(s, f);
    SumNext(f, k);
    Spliced(f, s.packet.data, k);
    var p, d := Header(s.packet, f, 8), s.packet.data;
    StoreOctet(p, k - 8, SumTo(f, k), f[8..k] + d[k - 8..], if k == 8 then DataType else Datas, f[k],
               if k + 1 == |f| - 1 then Cks else Datas);
  }

  function DataState(s: State, f: seq<Byte>, k: nat): State
    requires |s.packet.data| == DATA_BYTES && DataFrame(f) && k < |f|
  {
    if k < 8 then InHeader(s, f, k) else InData(s, f, k)
  }

  lemma DataStep(s: State, f: seq<Byte>, k: nat)
    requires s.phase == Wait && |s.packet.data| == DATA_BYTES && DataFrame(f) && k < |f| - 1
    ensures Takes(DataState(s, f, k), f[k], DataState(s, f, k + 1))
  {
    if k < 7 {
      InHeaderNext(s, f, k);
    } else if k == 7 {
      InHeaderLast(s, f);
    } else {
      InDataNext(s, f, k);
    }
  }

  lemma DataSoFar(s: State, f: seq<Byte>)
    requires s.phase == Wait && |s.packet.data| == DATA_BYTES && DataFrame(f)
    ensures After(s, f[..|f| - 1]) == InData(s, f, |f| - 1)
    ensures forall k :: 0 <= k < |f| - 1 ==> Quiet(s, f, k)
  {
    var path := seq(|f|, k requires 0 <= k < |f| => DataState(s, f, k));
    forall j | 0 <= j < |path| - 1 ensures Takes(path[j], f[j], path[j + 1]) {
      DataStep(s, f, j);
    }
    Follow(f, path, |f| - 1);
  }

  /** A data frame of 2 to 100 bytes that arrives while the receiver waits: 0 on every byte but the last, and on the
      last 1 exactly when the frame obeys the law, -1 otherwise; the fields and the data are stored, the receiver
      waits again. */
  lemma DataFrameReceived(s: State, f: seq<Byte>)
    requires s.phase == Wait && |s.packet.data| == DATA_BYTES && DataFrame(f)
    ensures forall k :: 0 <= k < |f| - 1 ==> Quiet(s, f, k)
    ensures Code(s, f, |f| - 1) == if Lawful(f) then 1 else -1
    ensures After(s, f).phase == Wait && After(s, f).index == |f| - 9
    ensures After(s, f).packet
            == s.packet.(len := |f| - 4, frameType := RX_DATA, adr := Word(f[4], f[5]), rssi := f[6], options := f[7],
                         data := f[8..|f| - 1] + s.packet.data[|f| - 9..], cks := f[|f| - 1],
                         status := if Lawful(f) then 0 else 1)
  {
    DataSoFar(s, f);
    Verdict(s, f, InData(s, f, |f| - 1));
    ChecksumLaw(f);
  }

  // ----- status frames and command responses -----

  const STATUS_PHASES := [Wait, MsbLen, LsbLen, FrameType, AckId, AckState, AckCks]
  const RESPONSE_PHASES := [Wait, MsbLen, LsbLen, FrameType, AtId, At1, At2, AtStatus]

  /** The fields that the first k bytes of a status frame or a command response give. */
  function Reported(p: Packet, f: seq<Byte>, k: nat): Packet
    requires |f| >= 7
  {
    p.(len := if k <= 1 then p.len else if k == 2 then Word(f[1], 0) else Word(f[1], f[2]),
       frameType := if k < 4 then p.frameType else f[3],
       frameId := if k < 5 then p.frameId else f[4])
  }

  function InStatus(s: State, f: seq<Byte>, k: nat): State
    requires |f| == 7 && k < 7
  {
    if k == 0 then s
    else
      var p := Reported(s.packet, f, k);
      State(STATUS_PHASES[k], s.index, SumTo(f, k), if k == 6 then p.(ack := f[5]) else p)
  }

  /** The receiver after k bytes of a command response, up to its status. */
  function InResponse(s: State, f: seq<Byte>, k: nat): State
    requires |f| >= 9 && k < 9
  {
    if k == 0 then s
    else
      var p := Reported(s.packet, f, k);
      if k < 8 then State(RESPONSE_PHASES[k], s.index, SumTo(f, k), p)
      else State(if |f| == 9 then Cks else AtDatas, s.index, SumTo(f, 7), p.(ack := f[7], cks := f[7]))
  }

  lemma InStatusNext(s: State, f: seq<Byte>, k: nat)
    requires s.phase == Wait && Shaped(f) && f[3] == TX_STATUS && |f| == 7 && k < 6
    ensures Takes(InStatus(s, f, k), f[k], InStatus(s, f, k + 1))
  {
    if k >= 3 {
      SumNext(f, k);
    }
  }

  lemma InResponseNext(s: State, f: seq<Byte>, k: nat)
    requires s.phase == Wait && Shaped(f) && f[3] == AT_RESPONSE && |f| >= 9 && k < 8
    ensures Takes(InResponse(s, f, k), f[k], InResponse(s, f, k + 1))
  {
    if k >= 3 {
      SumNext(f, k);
    }
  }

  /** An acknowledgement: 1 on its last byte exactly when it obeys the law. */
  lemma StatusFrameReceived(s: State, f: seq<Byte>)
    requires s.phase == Wait && Shaped(f) && f[3] == TX_STATUS && |f| == 7
    ensures forall k :: 0 <= k < 6 ==> Quiet(s, f, k)
    ensures Code(s, f, 6) == if Lawful(f) then 1 else -1
    ensures After(s, f).phase == Wait
    ensures After(s, f).packet
            == s.packet.(len := 3, frameType := TX_STATUS, frameId := f[4], ack := f[5], cks := f[6],
                         status := if Lawful(f) then 0 else 1)
  {
    var path := seq(7, k requires 0 <= k < 7 => InStatus(s, f, k));
    forall j | 0 <= j < 6 ensures Takes(path[j], f[j], path[j + 1]) {
      InStatusNext(s, f, j);
    }
    Follow(f, path, 6);
    Verdict(s, f, InStatus(s, f, 6));
    ChecksumLaw(f);
  }

  /** A command response without data: its status byte is left out of the sum, so a response that obeys the law is
      accepted exactly when it reports status zero. */
  lemma CommandResponseReceived(s: State, f: seq<Byte>)
    requires s.phase == Wait && Shaped(f) && f[3] == AT_RESPONSE && |f| == 9
    ensures forall k :: 0 <= k < 8 ==> Quiet(s, f, k)
    ensures Lawful(f) ==> Code(s, f, 8) == if f[7] == 0 then 1 else -1
  {
    ResponseSoFar(s, f);
    Verdict(s, f, InResponse(s, f, 8));
    ResponseVerdict(s, f);
    hide Octet, SumTo, InResponse, Lawful, Shaped, After;
    ResponseSum(f);
    Complement(SumTo(f, 7), f[7]);
  }

  lemma ResponseVerdict(s: State, f: seq<Byte>)
    requires |f| == 9
    ensures Octet(InResponse(s, f, 8), f[8]).1 == if f[8] == 255 - SumTo(f, 7) then 1 else -1
  {
    hide SumTo;
  }

  lemma Complement(a: Byte, b: Byte)
    ensures a == (a + b) % 256 <==> b == 0
  {
  }

  lemma ResponseSoFar(s: State, f: seq<Byte>)
    requires s.phase == Wait && Shaped(f) && f[3] == AT_RESPONSE && |f| >= 9
    ensures forall k :: 0 <= k < 8 ==> Quiet(s, f, k)
    ensures After(s, f[..8]) == InResponse(s, f, 8)
  {
    hide Octet, SumTo, InResponse, Takes;
    var path := seq(9, k requires 0 <= k < 9 => InResponse(s, f, k));
    forall j | 0 <= j < 8 ensures Takes(path[j], f[j], path[j + 1]) {
      InResponseNext(s, f, j);
    }
    ResponseStart(s, f);
    Follow(f, path, 8);
  }

  lemma ResponseStart(s: State, f: seq<Byte>)
    requires |f| >= 9
    ensures InResponse(s, f, 0) == s
  {
  }

  /** What the law says of a command response: the checksum complements the bytes before the status and the status. */
  lemma ResponseSum(f: seq<Byte>)
    requires Shaped(f) && |f| == 9
    ensures Lawful(f) <==> f[8] == 255 - (SumTo(f, 7) + f[7]) % 256
  {
    hide Sum;
    SumNext(f, 7);
    ChecksumLaw(f);
  }

  /** A frame built by the sender with the receiver's data type, looped back: the receiver takes the identifier and
      the first address byte as the source, the second as signal strength, the first data byte as options. */
  lemma LoopedBack(s: State, f: seq<Byte>, id: Byte, dest0: Byte, dest1: Byte, options: int, data: seq<Byte>)
    requires s.phase == Wait && |s.packet.data| == DATA_BYTES && 3 <= |data| <= 101
    requires Lawful(f) && f[3..|f| - 1] == Payload(RX_DATA, id, dest0, dest1, options, data)
    ensures Code(s, f, |f| - 1) == 1
    ensures var p := After(s, f).packet;
            && p.adr == Word(id, dest0) && p.rssi == dest1 && p.options == data[0]
            && data[1..] <= p.data
  {
    var body := f[3..|f| - 1];
    assert |body| == 4 + |data|;
    hide Code, After, Sum, Quiet;
    assert forall j :: 3 <= j < |f| - 1 ==> f[j] == body[j - 3];
    DataFrameReceived(s, f);
    assert f[8..|f| - 1] == data[1..];
  }

  /** An answer "NJ: error" that obeys the frame law. */
  const REFUSED: seq<Byte> := [START_DELIMITER, 0, 5, AT_RESPONSE, 1, 0x4E, 0x4A, 1, 0xDD]

  lemma RefusedLawful()
    ensures Lawful(REFUSED)
  {
    var t := REFUSED[3..];
    assert t == [0x88, 1, 0x4E, 0x4A, 1, 0xDD];
    assert t[..5] == [0x88, 1, 0x4E, 0x4A, 1] && t[..5][..4] == [0x88, 1, 0x4E, 0x4A]
        && t[..5][..4][..3] == [0x88, 1, 0x4E];
    assert t[..5][..4][..3][..2] == [0x88, 1] && t[..5][..4][..3][..2][..1] == [0x88];
    assert Sum([0x88]) == 0x88 && Sum([0x88, 1]) == 0x89 && Sum([0x88, 1, 0x4E]) == 0xD7
        && Sum([0x88, 1, 0x4E, 0x4A]) == 0x21;
    assert Sum(t[..5]) == 0x22;
  }

  /** The receiver takes it for a corrupted one. */
  lemma ResponseRejected(s: State)
    requires s.phase == Wait
    ensures Lawful(REFUSED) && Code(s, REFUSED, 8) == -1
  {
    hide Lawful;
    RefusedLawful();
    CommandResponseReceived(s, REFUSED);
  }

  // ----- command responses with data -----

  /** A command response that carries data; there is room for them from the receiver's index on. */
  predicate Answer(s: State, f: seq<Byte>) {
    && s.phase == Wait && |s.packet.data| == DATA_BYTES
    && Shaped(f) && f[3] == AT_RESPONSE && 9 < |f| && s.index + (|f| - 9) < DATA_BYTES
  }

  /** The sum the receiver has formed after k bytes: without the status. */
  function AnswerSum(f: seq<Byte>, k: nat): Byte
    requires 8 <= k <= |f|
  {
    if k == 8 then SumTo(f, 7) else (AnswerSum(f, k - 1) + f[k - 1]) % 256
  }

  lemma {:induction false} AnswerSumIs(f: seq<Byte>, k: nat)
    requires 8 <= k <= |f|
    ensures (AnswerSum(f, k) + f[7]) % 256 == SumTo(f, k)
    decreases k
  {
    hide SumTo;
    if k == 8 {
      SumNext(f, 7);
    } else {
      AnswerSumIs(f, k - 1);
      SumNext(f, k - 1);
      OneAside(AnswerSum(f, k - 1), f[7], f[k - 1]);
    }
  }

  lemma OneAside(a: Byte, b: Byte, c: Byte)
    ensures ((a + c) % 256 + b) % 256 == ((a + b) % 256 + c) % 256
  {
    Mod(a + c, b);
    Mod(a + b, c);
    assert a + c + b == a + b + c;
  }

  lemma Mod(x: nat, y: nat)
    ensures (x % 256 + y) % 256 == (x + y) % 256
  {
  }

  /** The index from which data are stored is not reset by a command response, but compared with the length; so the
      checksum is expected after this byte. */
  function AnswerEnd(s: State, f: seq<Byte>): int {
    |f| - s.index
  }

  /** The receiver after k bytes of a response with data, before it has taken some byte for the checksum. */
  predicate Answering(t: State, s: State, f: seq<Byte>, k: nat)
    requires 8 <= k <= |f|
  {
    && t.phase == (if 8 < k == AnswerEnd(s, f) then Cks else AtDatas)
    && t.index == s.index + (k - 8) && t.sum == AnswerSum(f, k)
    && t.packet.len == |f| - 4 && |t.packet.data| == DATA_BYTES
  }

  lemma AnswerBegins(s: State, f: seq<Byte>)
    requires Answer(s, f)
    ensures Answering(InResponse(s, f, 8), s, f, 8)
  {
    hide SumTo;
  }

  lemma AnswerNext(t: State, s: State, f: seq<Byte>, k: nat)
    requires Answer(s, f) && 8 <= k < |f| && Answering(t, s, f, k) && !(8 < k == AnswerEnd(s, f))
    ensures Octet(t, f[k]).1 == 0 && Roomy(t) && Answering(Octet(t, f[k]).0, s, f, k + 1)
  {
    hide SumTo;
  }

  lemma AnswerStep(s: State, f: seq<Byte>, k: nat)
    requires Answer(s, f) && 8 <= k < |f| && !(8 < k == AnswerEnd(s, f)) && Answering(After(s, f[..k]), s, f, k)
    ensures Answering(After(s, f[..k + 1]), s, f, k + 1) && Quiet(s, f, k)
  {
    hide Octet, Answering, Answer, Roomy, AnswerEnd;
    AnswerNext(After(s, f[..k]), s, f, k);
    assert f[..k + 1][..k] == f[..k];
  }

  lemma AnswerStart(s: State, f: seq<Byte>)
    requires Answer(s, f)
    ensures Answering(After(s, f[..8]), s, f, 8)
    ensures forall j :: 0 <= j < 8 ==> Quiet(s, f, j)
  {
    hide Octet, Answering;
    ResponseSoFar(s, f);
    AnswerBegins(s, f);
  }

  lemma {:induction false} AnswerSoFar(s: State, f: seq<Byte>, k: nat)
    requires Answer(s, f) && 8 <= k <= |f|
    requires 8 < AnswerEnd(s, f) ==> k <= AnswerEnd(s, f)
    ensures Answering(After(s, f[..k]), s, f, k)
    ensures forall j :: 0 <= j < k ==> Quiet(s, f, j)
    decreases k
  {
    hide Answering, Quiet, After, Shaped;
    if k == 8 {
      AnswerStart(s, f);
    } else {
      AnswerSoFar(s, f, k - 1);
      AnswerStep(s, f, k - 1);
    }
  }

  lemma AnswerCode(s: State, f: seq<Byte>)
    requires Answer(s, f) && 1 <= s.index <= |f| - 9
    ensures var e := AnswerEnd(s, f); Code(s, f, e) == if f[e] == 255 - AnswerSum(f, e) then 1 else -1
  {
    hide AnswerSum, Shaped;
    AnswerSoFar(s, f, AnswerEnd(s, f));
  }

  lemma AnswerLaw(f: seq<Byte>)
    requires Lawful(f) && |f| > 9
    ensures f[|f| - 1] == 255 - AnswerSum(f, |f| - 1) <==> f[7] == 0
  {
    hide Sum;
    AnswerSumIs(f, |f| - 1);
    ChecksumLaw(f);
    Complement(AnswerSum(f, |f| - 1), f[7]);
  }

  /** So a response with data is judged on its last byte exactly when it finds the index at 1; at a lower index it is
      not judged, nor at one beyond its data; at any other the judgement falls on an earlier byte. */
  lemma AnswerJudged(s: State, f: seq<Byte>)
    requires Answer(s, f)
    ensures s.index == 1 <==> (forall k :: 0 <= k < |f| - 1 ==> Code(s, f, k) == 0) && Code(s, f, |f| - 1) != 0
    ensures s.index == 1 && Lawful(f) ==> Code(s, f, |f| - 1) == if f[7] == 0 then 1 else -1
    ensures s.index == 0 || s.index > |f| - 9 ==> forall k :: 0 <= k < |f| ==> Code(s, f, k) == 0
    ensures 2 <= s.index <= |f| - 9 ==> Code(s, f, |f| - s.index) != 0
  {
    hide Answering, AnswerSum, Octet, After, Lawful, Shaped;
    if 1 <= s.index <= |f| - 9 {
      AnswerCode(s, f);
      if s.index == 1 {
        AnswerSoFar(s, f, |f| - 1);
        forall k | 0 <= k < |f| - 1 ensures Code(s, f, k) == 0 {
          assert Quiet(s, f, k);
        }
        if Lawful(f) {
          AnswerLaw(f);
        }
      }
    } else {
      AnswerSoFar(s, f, |f|);
      forall k | 0 <= k < |f| ensures Code(s, f, k) == 0 {
        assert Quiet(s, f, k);
      }
    }
  }

  // ----- what is not a frame -----

  /** Between frames every byte but the delimiter is passed over. */
  lemma BetweenFrames(s: State, b: Byte)
    requires s.phase == Wait
    ensures b != 0x7E ==> Octet(s, b) == (s.(sum := 0), 0)
    ensures b == 0x7E ==> Octet(s, b) == (s.(sum := 0, phase := MsbLen), 0)
  {
  }

  /** A frame of any other kind than data, acknowledgement and command response is given up at its type byte. */
  lemma OtherTypes(s: State, f: seq<Byte>)
    requires s.phase == Wait && Shaped(f) && f[3] != 0x81 && f[3] != 0x88 && f[3] != 0x89
    ensures (forall k :: 0 <= k < 3 ==> Quiet(s, f, k)) && Code(s, f, 3) == -2
    ensures After(s, f[..4]).phase == Wait
  {
    assert f[..1] == [f[0]] && f[..2] == [f[0], f[1]] && f[..3] == [f[0], f[1], f[2]];
    assert f[..4] == [f[0], f[1], f[2], f[3]];
    var s1 := Octet(s, f[0]).0;
    var s2 := Octet(s1, f[1]).0;
    var s3 := Octet(s2, f[2]).0;
    Follow(f, [s, s1, s2, s3], 3);
    assert f[..4][..3] == f[..3];
    assert After(s, f[..4]) == Octet(After(s, f[..3]), f[3]).0;
  }
}
