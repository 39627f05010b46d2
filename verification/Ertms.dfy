/** Whole messages and telegrams: round trip and lengths. */
module Ertms {
  import opened Bytes
  import opened ErtmsCodec
  import opened ErtmsTables

  const END_OF_FRAME: Byte := 0xFF
  const MESSAGE_ID := Key(Msg, NidMessage, 0)
  const PACKET_ID := Key(Pack, NidPacket, 0)
  const TRAIN_ID := Key(Train, NidPacket, 0)

  // ----- what the code does -----

  /** serializeMessage. */
  function Serialize(m: Struct): seq<Byte> {
    var id := Get(m, MESSAGE_ID);
    [id % 256] + (Write(m, WriteHead(id)) + (Write(m, WritePackets(id, Get(m, PACKET_ID))) + [END_OF_FRAME]))
  }

  /** The packet number deserializeMessage goes by: the next byte of the buffer, but for an end of mission the number
      already in the destination. */
  function Peeked(id: nat, c: Cursor, buf: seq<Byte>): nat {
    if id == END_OF_MISSION then Get(c.m, PACKET_ID) else At(buf, c.pos)
  }

  /** deserializeMessage: the destination and the position when the end marker is looked for, and the result. */
  function Deserialize(id: nat, dest: Struct, buf: seq<Byte>): (Cursor, int) {
    var c := Read(Cursor(dest, 1), ReadHead(id), buf);
    var d := Read(c, ReadPackets(id, Peeked(id, c, buf)), buf);
    (d, if At(buf, d.pos) == END_OF_FRAME then 0 else -2)
  }

  /** serializeEBT and deSerializeEBT. */
  function SerializeTelegram(m: Struct): seq<Byte> {
    Write(m, WRITE_TELEGRAM) + (Write(m, WriteTelegramPacket(Get(m, PACKET_ID))) + [END_OF_FRAME])
  }

  function DeserializeTelegram(dest: Struct, buf: seq<Byte>): (Cursor, int) {
    var c := Read(Cursor(dest, 0), READ_TELEGRAM, buf);
    var d := Read(c, ReadTelegramPacket(At(buf, c.pos)), buf);
    (d, if At(buf, d.pos) == END_OF_FRAME then 0 else -2)
  }

  // ----- lengths set by the init functions -----

  function PositionLength(nid: nat): nat {
    if nid == 0 then 24 else if nid == 1 then 28 else 0
  }

  function TrainLength(m: Struct): nat {
    16 + 3 * Get(m, ENGINES.0) + Get(m, NTCS.0)
  }

  function HeadLength(id: nat): nat {
    if id == SR_AUTHORISATION then 14
    else if id == MOVEMENT_AUTHORITY || id == ACK_TERMINATION || id == ACKNOWLEDGMENT then 11
    else if id == ACK_TRAIN_DATA then 15
    else if id == RBC_VERSION then 12
    else if id == MA_REQUEST then 8
    else if id in {TRAIN_DATA, END_OF_MISSION, INITIATION, ESTABLISHED} then 7
    else 0
  }

  /** l_message as the init functions set it. */
  function InitLength(m: Struct): nat {
    var id, nid := Get(m, MESSAGE_ID), Get(m, PACKET_ID);
    if id == INITIATION || id == ESTABLISHED then 8
    else if id == ACK_TERMINATION || id == ACKNOWLEDGMENT then 12
    else if id == RBC_VERSION then 13
    else if id == SR_AUTHORISATION then 15
    else if id == ACK_TRAIN_DATA then 16
    else if id == MOVEMENT_AUTHORITY then 12 + (33 + 7 * Get(m, SECTIONS.0))
    else if id == TRAIN_DATA then 8 + PositionLength(nid) + TrainLength(m)
    else if id == MA_REQUEST then 9 + PositionLength(nid)
    else if id == END_OF_MISSION then 8 + PositionLength(nid)
    else 1
  }

  /** l_packet of a telegram's packet as its init function sets it. */
  function InitPacketLength(m: Struct): nat {
    var nid := Get(m, PACKET_ID);
    if nid == 12 then 34 + 7 * Get(m, SECTIONS.0) else if nid == 41 then 12 + 4 * Get(m, TRANSITIONS.0) else 0
  }

  lemma GroupLayout()
    ensures Layout(WRITE_GROUP, 11, []) && Layout(WRITE_ENGINE, 7, [])
  {
  }

  lemma FieldLayout(items: seq<Item>, n: nat, part: Part, name: Name, width: Width)
    requires Layout(items, n, [])
    ensures Layout(items + [One(Leaf(part, name, width))], n + width, [])
  {
    var one := [One(Leaf(part, name, width))];
    assert one[1..] == [];
    LayoutJoin(items, n, [], one, width, []);
  }

  lemma HeadLayout(id: nat)
    ensures Layout(WriteHead(id), HeadLength(id), [])
  {
    hide Layout;
    GroupLayout();
    LayoutEmpty();
    FieldLayout(WRITE_GROUP, 11, Msg, QScale, 1);
    FieldLayout(WRITE_GROUP + [B(Msg, QScale)], 12, Msg, DSr, 2);
    FieldLayout(WRITE_GROUP, 11, Msg, TOrigin, 4);
    FieldLayout(WRITE_GROUP, 11, Msg, MVersion, 1);
    FieldLayout(WRITE_ENGINE, 7, Msg, QMaReason, 1);
    FieldLayout(WRITE_ENGINE, 7, Msg, TOrigin, 4);
  }

  lemma PositionLayout(nid: nat)
    ensures Layout(WritePosition(nid), PositionLength(nid), [])
  {
    PacketLayouts();
  }

  function PacketGroups(id: nat): seq<(Key, nat)> {
    if id == MOVEMENT_AUTHORITY then [SECTIONS] else if id == TRAIN_DATA then [ENGINES, NTCS] else []
  }

  function PacketFixed(id: nat, nid: nat): nat {
    if id == MOVEMENT_AUTHORITY then 33
    else if id == TRAIN_DATA then PositionLength(nid) + 16
    else if id == MA_REQUEST || id == END_OF_MISSION then PositionLength(nid)
    else 0
  }

  lemma PacketLayout(id: nat, nid: nat)
    ensures Layout(WritePackets(id, nid), PacketFixed(id, nid), PacketGroups(id))
  {
    hide WritePosition, Layout;
    PacketLayouts();
    PositionLayout(nid);
    if id == TRAIN_DATA {
      LayoutJoin(WritePosition(nid), PositionLength(nid), [], WRITE_TRAIN_DATA, 16, [ENGINES, NTCS]);
      assert [] + [ENGINES, NTCS] == [ENGINES, NTCS];
    } else if id != MOVEMENT_AUTHORITY && id != MA_REQUEST && id != END_OF_MISSION {
      LayoutEmpty();
    }
  }

  lemma LayoutEmpty()
    ensures Layout([], 0, [])
  {
  }

  lemma LayoutLength(m: Struct, items: seq<Item>, n: nat, groups: seq<(Key, nat)>)
    requires Layout(items, n, groups)
    ensures |Write(m, items)| == n + Repeated(m, groups)
  {
    WriteLength(m, items);
  }

  lemma NoGroups(m: Struct)
    ensures Repeated(m, []) == 0
  {
  }

  /** The announced length by its parts: the message number, the head, the packets with their repeated groups. */
  lemma LengthParts(m: Struct)
    ensures var id := Get(m, MESSAGE_ID);
            InitLength(m) == 1 + HeadLength(id) + PacketFixed(id, Get(m, PACKET_ID)) + Repeated(m, PacketGroups(id))
  {
    GroupLengths(m);
    NoGroups(m);
    hide Repeated, Get;
  }

  lemma GroupLengths(m: Struct)
    ensures Repeated(m, [SECTIONS]) == 7 * Get(m, SECTIONS.0)
    ensures Repeated(m, [ENGINES, NTCS]) == 3 * Get(m, ENGINES.0) + Get(m, NTCS.0)
  {
    assert [ENGINES, NTCS][1..] == [NTCS] && [NTCS][1..] == [] && [SECTIONS][1..] == [];
    assert Repeated(m, [NTCS]) == Get(m, NTCS.0) * 1 + Repeated(m, []);
  }

  /** The serialized message is the end marker longer than the length its init function announces. */
  lemma SerializedLength(m: Struct)
    ensures |Serialize(m)| == InitLength(m) + 1
  {
    hide Layout, WriteHead, WritePackets, InitLength, HeadLength, PacketFixed, PacketGroups, Repeated;
    var id, nid := Get(m, MESSAGE_ID), Get(m, PACKET_ID);
    HeadLayout(id);
    PacketLayout(id, nid);
    LengthParts(m);
    NoGroups(m);
    LayoutLength(m, WriteHead(id), HeadLength(id), []);
    LayoutLength(m, WritePackets(id, nid), PacketFixed(id, nid), PacketGroups(id));
  }

  lemma TelegramLayout(nid: nat)
    ensures nid == 12 ==> Layout(WriteTelegramPacket(nid), 34, [SECTIONS])
    ensures nid == 41 ==> Layout(WriteTelegramPacket(nid), 12, [TRANSITIONS])
    ensures nid != 12 && nid != 41 ==> Layout(WriteTelegramPacket(nid), 0, [])
  {
    PacketLayouts();
    LayoutEmpty();
  }

  lemma TelegramLength(m: Struct)
    ensures |SerializeTelegram(m)| == 12 + InitPacketLength(m) + 1
  {
    var nid := Get(m, PACKET_ID);
    LayoutTelegram();
    TelegramLayout(nid);
    hide Layout, WriteTelegramPacket;
    LayoutLength(m, WRITE_TELEGRAM, 12, []);
    assert [SECTIONS][1..] == [] && [TRANSITIONS][1..] == [];
    if nid == 12 {
      LayoutLength(m, WriteTelegramPacket(nid), 34, [SECTIONS]);
    } else if nid == 41 {
      LayoutLength(m, WriteTelegramPacket(nid), 12, [TRANSITIONS]);
    } else {
      LayoutLength(m, WriteTelegramPacket(nid), 0, []);
    }
  }

  // ----- round trip -----

  /** Two packet numbers that stand for the same kind of position report, or both for none. */
  predicate Same(a: nat, b: nat) {
    a == b || (a > 1 && b > 1)
  }

  /** The packet is announced so that the receiver sees what was sent: an end of mission by the destination's own
      packet number, train data without a position report by their packet number. */
  predicate Announced(m: Struct, dest: Struct) {
    var id, nid := Get(m, MESSAGE_ID), Get(m, PACKET_ID);
    && (id == END_OF_MISSION ==> Same(Get(dest, PACKET_ID), nid))
    && (id == TRAIN_DATA ==> nid <= 1 || Get(m, TRAIN_ID) > 1)
  }

  ghost predicate FitsMessage(m: Struct) {
    Fits(m, WriteHead(Get(m, MESSAGE_ID))) && Fits(m, WritePackets(Get(m, MESSAGE_ID), Get(m, PACKET_ID)))
  }

  /** Every field of the message but nid_message. */
  function MessageKeys(m: Struct): set<Key> {
    Keys(m, WriteHead(Get(m, MESSAGE_ID))) + Keys(m, WritePackets(Get(m, MESSAGE_ID), Get(m, PACKET_ID)))
  }

  lemma FirstByte(m: Struct, items: seq<Item>, part: Part)
    requires items != [] && items[0] == B(part, NidPacket) && Fits(m, items)
    ensures Write(m, items) != [] && Write(m, items)[0] == Get(m, Key(part, NidPacket, 0))
  {
    var v := Get(m, Key(part, NidPacket, 0));
    assert FitsItem(m, items[0]) && Range(1) == 256;
    assert BigEndian(v, 1) == [v % 256];
  }

  /** What follows the head, up to the end marker. */
  function Tail(m: Struct): seq<Byte> {
    Write(m, WritePackets(Get(m, MESSAGE_ID), Get(m, PACKET_ID))) + [END_OF_FRAME]
  }

  lemma TailBegins(m: Struct, dest: Struct)
    requires Get(m, MESSAGE_ID) in {TRAIN_DATA, MA_REQUEST} && FitsMessage(m) && Announced(m, dest)
    ensures Same(Tail(m)[0], Get(m, PACKET_ID))
  {
    var id, nid := Get(m, MESSAGE_ID), Get(m, PACKET_ID);
    var items := WritePackets(id, nid);
    if nid <= 1 {
      FirstByte(m, items, Pack);
    } else if id == TRAIN_DATA {
      FirstByte(m, items, Train);
    }
  }

  lemma HeadBack(m: Struct, dest: Struct, buf: seq<Byte>)
    requires FitsMessage(m) && Placed(buf, 0, Serialize(m))
    ensures var id := Get(m, MESSAGE_ID); var c := Read(Cursor(dest, 1), ReadHead(id), buf);
            && Mixed(c.m, m, dest, Keys(m, WriteHead(id))) && Placed(buf, c.pos, Tail(m))
  {
    var id := Get(m, MESSAGE_ID);
    var head := WriteHead(id);
    HeadLayout(id);
    SameDest(dest, m);
    hide Write, WritePackets, WriteHead, ReadHead, Read, Keys, Fits, Mixed;
    PlacedParts(buf, 0, [id % 256], Write(m, head) + Tail(m));
    PlacedParts(buf, 1, Write(m, head), Tail(m));
    SameHead(id);
    ReadBack(m, Cursor(dest, 1), dest, {}, head, [], buf);
    assert {} + Keys(m, head) == Keys(m, head);
  }

  lemma SameHead(id: nat)
    ensures ReadHead(id) == WriteHead(id)
  {
    SameOrder(id, 0);
  }

  lemma SamePackets(id: nat, a: nat, b: nat)
    requires id in {TRAIN_DATA, MA_REQUEST, END_OF_MISSION} ==> Same(a, b)
    ensures ReadPackets(id, a) == WritePackets(id, b)
  {
    SameOrder(id, b);
  }

  lemma {:induction false} OwnKeys(m: Struct, items: seq<Item>)
    requires forall i :: 0 <= i < |items| ==> items[i].One? && items[i].leaf.part == Msg
    ensures PACKET_ID !in Keys(m, items)
    decreases |items|
  {
    if items != [] {
      OwnKeys(m, items[1..]);
    }
  }

  lemma DestinationNumber(m: Struct)
    ensures PACKET_ID !in Keys(m, WriteHead(END_OF_MISSION))
  {
    OwnKeys(m, WriteHead(END_OF_MISSION));
  }

  lemma PeekedRight(m: Struct, dest: Struct, buf: seq<Byte>, c: Cursor)
    requires FitsMessage(m) && Announced(m, dest) && Placed(buf, c.pos, Tail(m))
    requires Mixed(c.m, m, dest, Keys(m, WriteHead(Get(m, MESSAGE_ID))))
    ensures var id := Get(m, MESSAGE_ID);
            ReadPackets(id, Peeked(id, c, buf)) == WritePackets(id, Get(m, PACKET_ID))
  {
    var id, nid := Get(m, MESSAGE_ID), Get(m, PACKET_ID);
    if id == END_OF_MISSION {
      DestinationNumber(m);
      assert Get(c.m, PACKET_ID) == Get(dest, PACKET_ID);
    } else if id == TRAIN_DATA || id == MA_REQUEST {
      TailBegins(m, dest);
      assert buf[c.pos..c.pos + |Tail(m)|][0] == Tail(m)[0];
    }
    hide ReadPackets, WritePackets, Tail, Keys;
    SamePackets(id, Peeked(id, c, buf), nid);
  }

  /** Round trip: deserializing a serialized message gives result 0 and every field its value, leaves the rest of the
      destination alone, and stops at the end marker, which is where l_message says. */
  lemma MessageRoundTrip(m: Struct, dest: Struct, buf: seq<Byte>)
    requires FitsMessage(m) && Announced(m, dest) && Placed(buf, 0, Serialize(m))
    ensures var (d, code) := Deserialize(Get(m, MESSAGE_ID), dest, buf);
            && code == 0 && d.pos == InitLength(m)
            && Mixed(d.m, m, dest, MessageKeys(m))
  {
    var id, nid := Get(m, MESSAGE_ID), Get(m, PACKET_ID);
    var packets := WritePackets(id, nid);
    HeadBack(m, dest, buf);
    var c := Read(Cursor(dest, 1), ReadHead(id), buf);
    PeekedRight(m, dest, buf, c);
    PacketLayout(id, nid);
    MessageEnd(m, dest, buf);
    hide Read, Write, WritePackets, ReadPackets, WriteHead, ReadHead, Keys, Peeked, Mixed, Fits, InitLength,
         PacketFixed, PacketGroups;
    EndRead(m, c, dest, Keys(m, WriteHead(id)), packets, buf);
  }

  /** The last packets and the end marker. */
  lemma EndRead(m: Struct, c: Cursor, dest: Struct, seen: set<Key>, items: seq<Item>, buf: seq<Byte>)
    requires Mixed(c.m, m, dest, seen) && Fits(m, items) && Counted(items, [])
    requires Placed(buf, c.pos, Write(m, items) + [END_OF_FRAME])
    ensures var d := Read(c, items, buf);
            && At(buf, d.pos) == END_OF_FRAME && d.pos + 1 == c.pos + |Write(m, items) + [END_OF_FRAME]|
            && Mixed(d.m, m, dest, seen + Keys(m, items))
  {
    hide Read, Write, Fits, Counted, Mixed, Keys;
    PlacedParts(buf, c.pos, Write(m, items), [END_OF_FRAME]);
    ReadBack(m, c, dest, seen, items, [], buf);
    var d := Read(c, items, buf);
    assert buf[d.pos..d.pos + 1][0] == END_OF_FRAME;
  }

  /** Where the tail of a serialized message lies. */
  lemma MessageEnd(m: Struct, dest: Struct, buf: seq<Byte>)
    ensures Read(Cursor(dest, 1), ReadHead(Get(m, MESSAGE_ID)), buf).pos + |Tail(m)| == InitLength(m) + 1
  {
    var id := Get(m, MESSAGE_ID);
    SerializedLength(m);
    HeadLayout(id);
    hide Write, WritePackets, WriteHead, ReadHead;
    SameHead(id);
    LayoutLength(m, WriteHead(id), HeadLength(id), []);
    FixedRead(Cursor(dest, 1), WriteHead(id), buf);
  }

  /** An end of mission is read over exactly its announced length when, and only when, the destination already holds
      the number of the right packet. */
  lemma EndOfMissionNeedsPreset(m: Struct, dest: Struct, buf: seq<Byte>)
    requires Get(m, MESSAGE_ID) == END_OF_MISSION && FitsMessage(m) && Placed(buf, 0, Serialize(m))
    ensures Deserialize(END_OF_MISSION, dest, buf).0.pos == InitLength(m)
            <==> Same(Get(dest, PACKET_ID), Get(m, PACKET_ID))
  {
    var nid := Get(dest, PACKET_ID);
    HeadBack(m, dest, buf);
    MessageEnd(m, dest, buf);
    DestinationNumber(m);
    var c := Read(Cursor(dest, 1), ReadHead(END_OF_MISSION), buf);
    assert Get(c.m, PACKET_ID) == nid;
    PacketLayout(END_OF_MISSION, nid);
    PacketLayout(END_OF_MISSION, Get(m, PACKET_ID));
    hide Read, Write, WritePackets, ReadPackets, WriteHead, ReadHead, Keys;
    SamePackets(END_OF_MISSION, nid, nid);
    FixedRead(c, WritePackets(END_OF_MISSION, nid), buf);
    LayoutLength(m, WritePackets(END_OF_MISSION, Get(m, PACKET_ID)), PositionLength(Get(m, PACKET_ID)), []);
  }

  // ----- telegrams -----

  function TelegramKeys(m: Struct): set<Key> {
    Keys(m, WRITE_TELEGRAM) + Keys(m, WriteTelegramPacket(Get(m, PACKET_ID)))
  }

  ghost predicate FitsTelegram(m: Struct) {
    Fits(m, WRITE_TELEGRAM) && Fits(m, WriteTelegramPacket(Get(m, PACKET_ID)))
  }

  function TelegramTail(m: Struct): seq<Byte> {
    Write(m, WriteTelegramPacket(Get(m, PACKET_ID))) + [END_OF_FRAME]
  }

  lemma TelegramPeeked(m: Struct)
    requires FitsTelegram(m)
    ensures ReadTelegramPacket(TelegramTail(m)[0]) == WriteTelegramPacket(Get(m, PACKET_ID))
  {
    var nid := Get(m, PACKET_ID);
    SameOrder(0, nid);
    if nid == 12 || nid == 41 {
      FirstByte(m, WriteTelegramPacket(nid), Pack);
    }
  }

  lemma SameDest(dest: Struct, m: Struct)
    ensures Mixed(dest, m, dest, {})
  {
  }

  lemma TelegramHeadFacts(m: Struct)
    ensures Counted(WRITE_TELEGRAM, []) && |Write(m, WRITE_TELEGRAM)| == 12 && READ_TELEGRAM == WRITE_TELEGRAM
  {
    LayoutTelegram();
    LayoutLength(m, WRITE_TELEGRAM, 12, []);
    SameOrder(0, 0);
  }

  lemma TelegramHeadBack(m: Struct, dest: Struct, buf: seq<Byte>)
    requires FitsTelegram(m) && Placed(buf, 0, SerializeTelegram(m))
    ensures var c := Read(Cursor(dest, 0), READ_TELEGRAM, buf);
            && Mixed(c.m, m, dest, Keys(m, WRITE_TELEGRAM)) && Placed(buf, c.pos, TelegramTail(m)) && c.pos == 12
  {
    hide Write, WriteTelegramPacket, Keys, Read, Mixed, Fits, Counted;
    TelegramHeadFacts(m);
    PlacedParts(buf, 0, Write(m, WRITE_TELEGRAM), TelegramTail(m));
    SameDest(dest, m);
    ReadBack(m, Cursor(dest, 0), dest, {}, WRITE_TELEGRAM, [], buf);
    assert {} + Keys(m, WRITE_TELEGRAM) == Keys(m, WRITE_TELEGRAM);
  }

  /** Round trip of a balise telegram: its packet takes exactly the bytes that l_packet says. */
  lemma TelegramRoundTrip(m: Struct, dest: Struct, buf: seq<Byte>)
    requires FitsTelegram(m) && Placed(buf, 0, SerializeTelegram(m))
    ensures var (d, code) := DeserializeTelegram(dest, buf);
            && code == 0 && d.pos == 12 + InitPacketLength(m)
            && Mixed(d.m, m, dest, TelegramKeys(m))
  {
    var nid := Get(m, PACKET_ID);
    var packet := WriteTelegramPacket(nid);
    TelegramHeadBack(m, dest, buf);
    TelegramPeeked(m);
    TelegramLayout(nid);
    TelegramLength(m);
    LayoutTelegram();
    LayoutLength(m, WRITE_TELEGRAM, 12, []);
    var c := Read(Cursor(dest, 0), READ_TELEGRAM, buf);
    assert buf[c.pos..c.pos + |TelegramTail(m)|][0] == TelegramTail(m)[0];
    hide Read, Write, WriteTelegramPacket, ReadTelegramPacket, Keys, Mixed, Fits, Fixed, Groups, InitPacketLength;
    EndRead(m, c, dest, Keys(m, WRITE_TELEGRAM), packet, buf);
  }

  // ----- an end of mission that is not read back -----

  lemma {:induction false} SmallBody(m: Struct, body: seq<Leaf>, i: nat)
    requires forall k: Key :: Get(m, k) < 256
    ensures FitsBody(m, body, i)
  {
    if body != [] {
      SmallBody(m, body[1..], i);
    }
  }

  lemma {:induction false} SmallFits(m: Struct, items: seq<Item>)
    requires forall k: Key :: Get(m, k) < 256
    ensures Fits(m, items)
    decreases |items|
  {
    if items != [] {
      if items[0].Loop? {
        forall i: nat ensures FitsBody(m, items[0].body, i) {
          SmallBody(m, items[0].body, i);
        }
      }
      SmallFits(m, items[1..]);
    }
  }

  /** A position report of two balise groups in message 150, and a destination that holds nothing yet. */
  lemma EndOfMissionMisread()
    ensures var m := map[MESSAGE_ID := END_OF_MISSION, PACKET_ID := 1];
            FitsMessage(m) && Deserialize(END_OF_MISSION, map[], Serialize(m)).0.pos != InitLength(m)
  {
    var m: Struct := map[MESSAGE_ID := END_OF_MISSION, PACKET_ID := 1];
    hide WriteHead, WritePackets, Serialize, Deserialize, InitLength;
    SmallFits(m, WriteHead(Get(m, MESSAGE_ID)));
    SmallFits(m, WritePackets(Get(m, MESSAGE_ID), Get(m, PACKET_ID)));
    assert Serialize(m)[0..|Serialize(m)|] == Serialize(m);
    EndOfMissionNeedsPreset(m, map[], Serialize(m));
  }
}
