/** The functions that fill in messages and packets before they are sent: numbers and lengths. */
module ErtmsInit {
  import opened Bytes
  import opened ErtmsCodec
  import opened ErtmsTables
  import opened Ertms

  const L_MESSAGE := Key(Msg, LMessage, 0)
  const L_PACKET := Key(Pack, LPacket, 0)
  const L_TRAIN := Key(Train, LPacket, 0)
  const MESSAGES := {SR_AUTHORISATION, MOVEMENT_AUTHORITY, ACK_TRAIN_DATA, RBC_VERSION, ACK_TERMINATION, TRAIN_DATA,
                     MA_REQUEST, ACKNOWLEDGMENT, END_OF_MISSION, INITIATION, ESTABLISHED}

  // ----- packets; the other fields are the arguments -----

  function InitPosition(args: Struct, twoGroups: bool): Struct {
    args[PACKET_ID := if twoGroups then 1 else 0][L_PACKET := if twoGroups then 28 else 24]
  }

  function InitTrainData(args: Struct): Struct {
    args[TRAIN_ID := 11][L_TRAIN := 16 + 3 * Get(args, ENGINES.0) + Get(args, NTCS.0)]
  }

  function InitAuthority(args: Struct): Struct {
    args[PACKET_ID := 15][L_PACKET := 33 + 7 * Get(args, SECTIONS.0)]
  }

  function InitLevel1(args: Struct): Struct {
    args[PACKET_ID := 12][Key(Pack, QDir, 0) := 1][L_PACKET := 34 + 7 * Get(args, SECTIONS.0)]
  }

  function InitTransition(args: Struct): Struct {
    args[PACKET_ID := 41][Key(Pack, QDir, 0) := 1][L_PACKET := 12 + 4 * Get(args, TRANSITIONS.0)]
  }

  // ----- messages: the length is that of the head and the l_packet of each packet put in -----

  predicate CarriesPosition(id: nat) {
    id == TRAIN_DATA || id == MA_REQUEST || id == END_OF_MISSION
  }

  /** The packets as their init functions leave them. */
  function Packets(id: nat, args: Struct, twoGroups: bool): Struct {
    var p :=
      if CarriesPosition(id) then InitPosition(args, twoGroups)
      else if id == MOVEMENT_AUTHORITY then InitAuthority(args)
      else args;
    if id == TRAIN_DATA then InitTrainData(p) else p
  }

  function HeadBytes(id: nat): nat {
    match id
    case 2 => 15
    case 8 => 16
    case 32 => 13
    case 132 => 9
    case 3 => 12
    case 39 => 12
    case 146 => 12
    case _ => 8
  }

  function InitMessage(id: nat, args: Struct, twoGroups: bool): Struct {
    var p := Packets(id, args, twoGroups);
    p[MESSAGE_ID := id]
     [L_MESSAGE := HeadBytes(id)
                   + (if CarriesPosition(id) || id == MOVEMENT_AUTHORITY then Get(p, L_PACKET) else 0)
                   + (if id == TRAIN_DATA then Get(p, L_TRAIN) else 0)]
  }

  // ----- what they promise -----

  /** What the init functions write does not change the counts of the repeated groups. */
  lemma CountsKept(id: nat, args: Struct, twoGroups: bool)
    ensures var m := InitMessage(id, args, twoGroups);
            && Get(m, SECTIONS.0) == Get(args, SECTIONS.0)
            && Get(m, ENGINES.0) == Get(args, ENGINES.0) && Get(m, NTCS.0) == Get(args, NTCS.0)
  {
  }

  lemma LengthAgrees(id: nat, args: Struct, twoGroups: bool)
    requires id in MESSAGES
    ensures var m := InitMessage(id, args, twoGroups); Get(m, L_MESSAGE) == InitLength(m)
  {
    CountsKept(id, args, twoGroups);
  }

  /** The length field that an init function computes is the number of bytes that its serializer then writes before
      the end marker, and it stands in the second and third of them. */
  lemma LengthField(id: nat, args: Struct, twoGroups: bool)
    requires id in MESSAGES
    ensures var m := InitMessage(id, args, twoGroups); var bs := Serialize(m);
            && |bs| == Get(m, L_MESSAGE) + 1
            && bs[0] == id
            && (|bs| <= 0x1_0000 ==> 0x100 * (bs[1] as int) + (bs[2] as int) == |bs| - 1)
  {
    hide Serialize, InitLength;
    var m := InitMessage(id, args, twoGroups);
    hide InitMessage;
    NumberSet(id, args, twoGroups);
    LengthAgrees(id, args, twoGroups);
    SerializedLength(m);
    LengthFirst(m);
    var bs := Serialize(m);
    assert bs[1] == bs[1..3][0] && bs[2] == bs[1..3][1];
    TwoDigits(Get(m, L_MESSAGE));
  }

  lemma NumberSet(id: nat, args: Struct, twoGroups: bool)
    ensures Get(InitMessage(id, args, twoGroups), MESSAGE_ID) == id
  {
  }

  lemma TwoDigits(v: nat)
    ensures BigEndian(v, 2) == [v / 256 % 256, v % 256]
  {
    assert BigEndian(v / 256, 1) == BigEndian(v / 256 / 256, 0) + [v / 256 % 256];
  }

  lemma LengthFirst(m: Struct)
    requires Get(m, MESSAGE_ID) in MESSAGES
    ensures var bs := Serialize(m);
            |bs| >= 3 && bs[1..3] == BigEndian(Get(m, L_MESSAGE), 2) && bs[0] == Get(m, MESSAGE_ID)
  {
    var head := WriteHead(Get(m, MESSAGE_ID));
    assert head != [] && head[0] == W(Msg, LMessage);
    assert WriteItem(m, head[0]) == BigEndian(Get(m, L_MESSAGE), 2);
  }

  /** The same for the packet of a telegram, whose own head takes 12 bytes. */
  lemma TelegramField(args: Struct, level1: bool)
    ensures var m := if level1 then InitLevel1(args) else InitTransition(args);
            |SerializeTelegram(m)| == 12 + Get(m, L_PACKET) + 1
  {
    TelegramLength(if level1 then InitLevel1(args) else InitTransition(args));
  }
}
