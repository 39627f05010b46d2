/** Where each field of a message stands among its bytes. */
module ErtmsFields {
  import opened Bytes
  import opened ErtmsCodec
  import opened ErtmsTables
  import opened Ertms
  import opened ErtmsInit

  /** A field of this width at this byte. */
  datatype Field = Field(part: Part, name: Name, width: nat, at: nat)

  /** The bytes show the field's value, most significant byte first. */
  predicate Shows(bs: seq<Byte>, m: Struct, f: Field) {
    f.at + f.width <= |bs| && bs[f.at..f.at + f.width] == BigEndian(Get(m, Key(f.part, f.name, 0)), f.width)
  }

  ghost predicate ShowsAll(bs: seq<Byte>, m: Struct, fs: seq<Field>) {
    forall i :: 0 <= i < |fs| ==> Shows(bs, m, fs[i])
  }

  /** The items are single fields, in this order and at these bytes, from one byte to another. */
  predicate LaidOut(items: seq<Item>, fs: seq<Field>, from: nat, to: nat) {
    if items == [] then fs == [] && from == to
    else
      && fs != [] && items[0].One? && fs[0] == Field(items[0].leaf.part, items[0].leaf.name, items[0].leaf.width, from)
      && LaidOut(items[1..], fs[1..], from + fs[0].width, to)
  }

  function Shifted(fs: seq<Field>, d: nat): (r: seq<Field>)
    ensures |r| == |fs|
  {
    seq(|fs|, i requires 0 <= i < |fs| => fs[i].(at := fs[i].at + d))
  }

  // ----- the fields by their bytes -----

  const GROUP_FIELDS :=
    [Field(Msg, LMessage, 2, 1), Field(Msg, TTrain, 4, 3), Field(Msg, MAck, 1, 7), Field(Msg, NidC, 2, 8),
     Field(Msg, NidBg, 2, 10)]
  const ENGINE_FIELDS := [Field(Msg, LMessage, 2, 1), Field(Msg, TTrain, 4, 3), Field(Msg, NidEngine, 1, 7)]

  /** After the message number, byte 0. */
  function HeadFields(id: nat): seq<Field> {
    match id
    case 2 => GROUP_FIELDS + [Field(Msg, QScale, 1, 12)] + [Field(Msg, DSr, 2, 13)]
    case 3 => GROUP_FIELDS
    case 8 => GROUP_FIELDS + [Field(Msg, TOrigin, 4, 12)]
    case 32 => GROUP_FIELDS + [Field(Msg, MVersion, 1, 12)]
    case 39 => GROUP_FIELDS
    case 129 => ENGINE_FIELDS
    case 132 => ENGINE_FIELDS + [Field(Msg, QMaReason, 1, 8)]
    case 146 => ENGINE_FIELDS + [Field(Msg, TOrigin, 4, 8)]
    case 150 => ENGINE_FIELDS
    case 155 => ENGINE_FIELDS
    case 159 => ENGINE_FIELDS
    case _ => []
  }

  // packets, each from its first byte on; the end of an authority from the first byte after its sections

  const ONE_GROUP_FIELDS :=
    [Field(Pack, NidPacket, 1, 0), Field(Pack, LPacket, 2, 1), Field(Pack, QScale, 1, 3), Field(Pack, NidC, 2, 4),
     Field(Pack, NidBg, 2, 6)]

  const TWO_GROUPS_FIELDS :=
    [Field(Pack, NidPacket, 1, 0), Field(Pack, LPacket, 2, 1), Field(Pack, QScale, 1, 3), Field(Pack, NidC, 2, 4),
     Field(Pack, NidBg, 2, 6), Field(Pack, PrvC, 2, 8), Field(Pack, PrvBg, 2, 10)]

  const DISTANCES_FIELDS :=
    [Field(Pack, DLrbg, 2, 8), Field(Pack, QDirLrbg, 1, 10), Field(Pack, QDLrbg, 1, 11),
     Field(Pack, LDoubtOver, 2, 12), Field(Pack, LDoubtUnder, 2, 14), Field(Pack, QLength, 1, 16)]

  const DISTANCES2_FIELDS :=
    [Field(Pack, DLrbg, 2, 12), Field(Pack, QDirLrbg, 1, 14), Field(Pack, QDLrbg, 1, 15),
     Field(Pack, LDoubtOver, 2, 16), Field(Pack, LDoubtUnder, 2, 18), Field(Pack, QLength, 1, 20)]

  const MOVEMENT_FIELDS :=
    [Field(Pack, LTrainInit, 2, 17), Field(Pack, VTrain, 1, 19), Field(Pack, QDirTrain, 1, 20),
     Field(Pack, MMode, 1, 21), Field(Pack, MLevel, 1, 22), Field(Pack, NidNtc, 1, 23)]

  const MOVEMENT2_FIELDS :=
    [Field(Pack, LTrainInit, 2, 21), Field(Pack, VTrain, 1, 23), Field(Pack, QDirTrain, 1, 24),
     Field(Pack, MMode, 1, 25), Field(Pack, MLevel, 1, 26), Field(Pack, NidNtc, 1, 27)]

  const AUTHORITY_HEAD_FIELDS :=
    [Field(Pack, NidPacket, 1, 0), Field(Pack, LPacket, 2, 1), Field(Pack, QDir, 1, 3), Field(Pack, QScale, 1, 4),
     Field(Pack, VEma, 1, 5), Field(Pack, TEma, 2, 6), Field(Pack, NIterSection, 1, 8)]

  const LEVEL1_HEAD_FIELDS :=
    [Field(Pack, NidPacket, 1, 0), Field(Pack, QDir, 1, 1), Field(Pack, LPacket, 2, 2), Field(Pack, QScale, 1, 4),
     Field(Pack, VMain, 1, 5), Field(Pack, VEma, 1, 6), Field(Pack, TEma, 2, 7), Field(Pack, NIterSection, 1, 9)]

  const END_SECTION_FIELDS :=
    [Field(Pack, EndSectionLength, 2, 0), Field(Pack, EndSectionTimer, 1, 2), Field(Pack, EndSectionTime, 2, 3),
     Field(Pack, EndSectionDistance, 2, 5), Field(Pack, EndTimer, 1, 7), Field(Pack, EndTime, 2, 8),
     Field(Pack, EndDistance, 2, 10)]

  const OVERLAP_FIELDS :=
    [Field(Pack, QDangerPoint, 1, 12), Field(Pack, DDp, 2, 13), Field(Pack, VReleaseDp, 1, 15),
     Field(Pack, OverlapTimer, 1, 16), Field(Pack, DStartOl, 2, 17), Field(Pack, OverlapTime, 2, 19),
     Field(Pack, OverlapDistance, 2, 21), Field(Pack, VReleaseOl, 1, 23)]

  const TRANSITION_HEAD_FIELDS :=
    [Field(Pack, NidPacket, 1, 0), Field(Pack, QDir, 1, 1), Field(Pack, LPacket, 2, 2), Field(Pack, QScale, 1, 4),
     Field(Pack, DLeveltr, 2, 5), Field(Pack, MLeveltr, 1, 7), Field(Pack, NidNtc, 1, 8),
     Field(Pack, LAckLeveltr, 2, 9), Field(Pack, NIterNext, 1, 11)]

  const TRAIN_HEAD_FIELDS :=
    [Field(Train, NidPacket, 1, 0), Field(Train, LPacket, 2, 1), Field(Train, NcCdTrain, 1, 3),
     Field(Train, NcTrain, 2, 4), Field(Train, LTrain, 2, 6), Field(Train, VMaxTrain, 1, 8),
     Field(Train, MLoadingGauge, 1, 9), Field(Train, MAxleLoadCat, 1, 10), Field(Train, MAirtight, 1, 11),
     Field(Train, NAxle, 2, 12), Field(Train, NIterEngine, 1, 14)]

  const TELEGRAM_FIELDS :=
    [Field(Msg, QUpdown, 1, 0), Field(Msg, MVersion, 1, 1), Field(Msg, QMedia, 1, 2), Field(Msg, NPig, 1, 3),
     Field(Msg, NTotal, 1, 4), Field(Msg, MDup, 1, 5), Field(Msg, MCount, 1, 6), Field(Msg, NidC, 2, 7),
     Field(Msg, NidBg, 2, 9), Field(Msg, QLink, 1, 11)]

  // ----- that is how they are written -----

  lemma OneGroupFields()
    ensures LaidOut(WRITE_ONE_GROUP, ONE_GROUP_FIELDS, 0, 8)
  {
  }

  lemma TwoGroupsFields()
    ensures LaidOut(WRITE_TWO_GROUPS, TWO_GROUPS_FIELDS, 0, 12)
  {
  }

  lemma DistancesFields()
    ensures LaidOut(WRITE_DISTANCES, DISTANCES_FIELDS, 8, 17)
  {
  }

  lemma Distances2Fields()
    ensures LaidOut(WRITE_DISTANCES, DISTANCES2_FIELDS, 12, 21)
  {
  }

  lemma MovementFields()
    ensures LaidOut(WRITE_MOVEMENT, MOVEMENT_FIELDS, 17, 24)
  {
  }

  lemma Movement2Fields()
    ensures LaidOut(WRITE_MOVEMENT, MOVEMENT2_FIELDS, 21, 28)
  {
  }

  lemma AuthorityHeadFields()
    ensures LaidOut(WRITE_AUTHORITY_HEAD, AUTHORITY_HEAD_FIELDS, 0, 9)
  {
  }

  lemma Level1HeadFields()
    ensures LaidOut(WRITE_LEVEL1_HEAD, LEVEL1_HEAD_FIELDS, 0, 10)
  {
    var a := [B(Pack, NidPacket), B(Pack, QDir), W(Pack, LPacket), B(Pack, QScale)];
    var fa := [Field(Pack, NidPacket, 1, 0), Field(Pack, QDir, 1, 1), Field(Pack, LPacket, 2, 2), Field(Pack,
      QScale, 1, 4)];
    var b := [B(Pack, VMain), B(Pack, VEma), W(Pack, TEma), B(Pack, NIterSection)];
    var fb := [Field(Pack, VMain, 1, 5), Field(Pack, VEma, 1, 6), Field(Pack, TEma, 2, 7), Field(Pack,
      NIterSection, 1, 9)];
    assert LaidOut(a, fa, 0, 5) && LaidOut(b, fb, 5, 10);
    hide LaidOut;
    LaidOutJoin(a, fa, 0, 5, b, fb, 10);
    assert a + b == WRITE_LEVEL1_HEAD && fa + fb == LEVEL1_HEAD_FIELDS;
  }

  lemma EndSectionFields()
    ensures LaidOut(WRITE_END_SECTION, END_SECTION_FIELDS, 0, 12)
  {
  }

  lemma OverlapFields()
    ensures LaidOut(WRITE_OVERLAP, OVERLAP_FIELDS, 12, 24)
  {
    var a := [B(Pack, QDangerPoint), W(Pack, DDp), B(Pack, VReleaseDp), B(Pack, OverlapTimer)];
    var fa := [Field(Pack, QDangerPoint, 1, 12), Field(Pack, DDp, 2, 13), Field(Pack, VReleaseDp, 1, 15),
      Field(Pack, OverlapTimer, 1, 16)];
    var b := [W(Pack, DStartOl), W(Pack, OverlapTime), W(Pack, OverlapDistance), B(Pack, VReleaseOl)];
    var fb := [Field(Pack, DStartOl, 2, 17), Field(Pack, OverlapTime, 2, 19), Field(Pack, OverlapDistance, 2,
      21), Field(Pack, VReleaseOl, 1, 23)];
    assert LaidOut(a, fa, 12, 17) && LaidOut(b, fb, 17, 24);
    hide LaidOut;
    LaidOutJoin(a, fa, 12, 17, b, fb, 24);
    assert a + b == WRITE_OVERLAP && fa + fb == OVERLAP_FIELDS;
  }

  lemma TransitionHeadFields()
    ensures LaidOut(WRITE_TRANSITION_HEAD, TRANSITION_HEAD_FIELDS, 0, 12)
  {
    var a := [B(Pack, NidPacket), B(Pack, QDir), W(Pack, LPacket), B(Pack, QScale)];
    var fa := [Field(Pack, NidPacket, 1, 0), Field(Pack, QDir, 1, 1), Field(Pack, LPacket, 2, 2), Field(Pack,
      QScale, 1, 4)];
    var b := [W(Pack, DLeveltr), B(Pack, MLeveltr), B(Pack, NidNtc), W(Pack, LAckLeveltr), B(Pack, NIterNext)];
    var fb := [Field(Pack, DLeveltr, 2, 5), Field(Pack, MLeveltr, 1, 7), Field(Pack, NidNtc, 1, 8), Field(Pack,
      LAckLeveltr, 2, 9), Field(Pack, NIterNext, 1, 11)];
    assert LaidOut(a, fa, 0, 5) && LaidOut(b, fb, 5, 12);
    hide LaidOut;
    LaidOutJoin(a, fa, 0, 5, b, fb, 12);
    assert a + b == WRITE_TRANSITION_HEAD && fa + fb == TRANSITION_HEAD_FIELDS;
  }

  lemma TrainHeadFieldsBegin()
    ensures LaidOut([B(Train, NidPacket), W(Train, LPacket), B(Train, NcCdTrain), W(Train, NcTrain)],
                    [Field(Train, NidPacket, 1, 0), Field(Train, LPacket, 2, 1), Field(Train, NcCdTrain, 1, 3),
                     Field(Train, NcTrain, 2, 4)], 0, 6)
  {
  }

  lemma TrainHeadFields()
    ensures LaidOut(WRITE_TRAIN_HEAD, TRAIN_HEAD_FIELDS, 0, 15)
  {
    var a := [B(Train, NidPacket), W(Train, LPacket), B(Train, NcCdTrain), W(Train, NcTrain)];
    var fa := [Field(Train, NidPacket, 1, 0), Field(Train, LPacket, 2, 1), Field(Train, NcCdTrain, 1, 3),
      Field(Train, NcTrain, 2, 4)];
    var b := [W(Train, LTrain), B(Train, VMaxTrain), B(Train, MLoadingGauge), B(Train, MAxleLoadCat)];
    var fb := [Field(Train, LTrain, 2, 6), Field(Train, VMaxTrain, 1, 8), Field(Train, MLoadingGauge, 1, 9),
      Field(Train, MAxleLoadCat, 1, 10)];
    var c := [B(Train, MAirtight), W(Train, NAxle), B(Train, NIterEngine)];
    var fc := [Field(Train, MAirtight, 1, 11), Field(Train, NAxle, 2, 12), Field(Train, NIterEngine, 1, 14)];
    assert LaidOut(b, fb, 6, 11) && LaidOut(c, fc, 11, 15);
    hide LaidOut;
    TrainHeadFieldsBegin();
    LaidOutJoin(a, fa, 0, 6, b, fb, 11);
    LaidOutJoin(a + b, fa + fb, 0, 11, c, fc, 15);
    assert a + b + c == WRITE_TRAIN_HEAD && fa + fb + fc == TRAIN_HEAD_FIELDS;
  }

  lemma TelegramFieldsBegin()
    ensures LaidOut([B(Msg, QUpdown), B(Msg, MVersion), B(Msg, QMedia), B(Msg, NPig)],
                    [Field(Msg, QUpdown, 1, 0), Field(Msg, MVersion, 1, 1), Field(Msg, QMedia, 1, 2),
                     Field(Msg, NPig, 1, 3)], 0, 4)
  {
  }

  lemma TelegramFields()
    ensures LaidOut(WRITE_TELEGRAM, TELEGRAM_FIELDS, 0, 12)
  {
    var a := [B(Msg, QUpdown), B(Msg, MVersion), B(Msg, QMedia), B(Msg, NPig)];
    var fa := [Field(Msg, QUpdown, 1, 0), Field(Msg, MVersion, 1, 1), Field(Msg, QMedia, 1, 2), Field(Msg, NPig, 1, 3)];
    var b := [B(Msg, NTotal), B(Msg, MDup), B(Msg, MCount)];
    var fb := [Field(Msg, NTotal, 1, 4), Field(Msg, MDup, 1, 5), Field(Msg, MCount, 1, 6)];
    var c := [W(Msg, NidC), W(Msg, NidBg), B(Msg, QLink)];
    var fc := [Field(Msg, NidC, 2, 7), Field(Msg, NidBg, 2, 9), Field(Msg, QLink, 1, 11)];
    assert LaidOut(b, fb, 4, 7) && LaidOut(c, fc, 7, 12);
    hide LaidOut;
    TelegramFieldsBegin();
    LaidOutJoin(a, fa, 0, 4, b, fb, 7);
    LaidOutJoin(a + b, fa + fb, 0, 7, c, fc, 12);
    assert a + b + c == WRITE_TELEGRAM && fa + fb + fc == TELEGRAM_FIELDS;
  }

  lemma GroupFields()
    ensures LaidOut(WRITE_GROUP, GROUP_FIELDS, 1, 12) && LaidOut(WRITE_ENGINE, ENGINE_FIELDS, 1, 8)
  {
  }

  lemma {:induction false} LaidOutJoin(a: seq<Item>, fa: seq<Field>, x: nat, y: nat,
                                       b: seq<Item>, fb: seq<Field>, z: nat)
    requires LaidOut(a, fa, x, y) && LaidOut(b, fb, y, z)
    ensures LaidOut(a + b, fa + fb, x, z)
    decreases |a|
  {
    if a == [] {
      assert a + b == b && fa + fb == fb;
    } else {
      LaidOutJoin(a[1..], fa[1..], x + fa[0].width, y, b, fb, z);
      assert (a + b)[1..] == a[1..] + b && (fa + fb)[1..] == fa[1..] + fb;
    }
  }

  // ----- the bytes -----

  /** Fields that are laid out show where they are said to, after whatever comes before them. */
  lemma {:induction false} Shown(m: Struct, pre: seq<Byte>, items: seq<Item>, post: seq<Byte>, fs: seq<Field>,
                                 from: nat, to: nat, d: nat)
    requires LaidOut(items, fs, from, to) && |pre| == from + d
    ensures |Write(m, items)| == to - from >= 0
    ensures ShowsAll(pre + Write(m, items) + post, m, Shifted(fs, d))
    decreases |items|
  {
    if items != [] {
      var b := WriteItem(m, items[0]);
      var rest := Write(m, items[1..]);
      Shown(m, pre + b, items[1..], post, fs[1..], from + fs[0].width, to, d);
      Between(pre, b, rest, post);
      hide LaidOut, WriteItem;
      ShownFirst(pre + (b + rest) + post, m, fs, d);
    }
  }

  lemma Between(pre: seq<Byte>, b: seq<Byte>, rest: seq<Byte>, post: seq<Byte>)
    ensures (pre + b) + rest + post == pre + (b + rest) + post
    ensures (pre + (b + rest) + post)[|pre|..|pre| + |b|] == b
  {
  }

  lemma ShownFirst(bs: seq<Byte>, m: Struct, fs: seq<Field>, d: nat)
    requires fs != [] && Shows(bs, m, fs[0].(at := fs[0].at + d)) && ShowsAll(bs, m, Shifted(fs[1..], d))
    ensures ShowsAll(bs, m, Shifted(fs, d))
  {
    hide Shows;
    forall i | 0 <= i < |fs| ensures Shows(bs, m, Shifted(fs, d)[i]) {
      if i > 0 {
        assert Shifted(fs, d)[i] == Shifted(fs[1..], d)[i - 1];
      }
    }
  }

  lemma ShownUnmoved(bs: seq<Byte>, m: Struct, fs: seq<Field>)
    requires ShowsAll(bs, m, Shifted(fs, 0))
    ensures ShowsAll(bs, m, fs)
  {
    assert Shifted(fs, 0) == fs;
  }

  lemma {:induction false} WriteJoin(m: Struct, a: seq<Item>, b: seq<Item>)
    ensures Write(m, a + b) == Write(m, a) + Write(m, b)
    decreases |a|
  {
    hide WriteItem;
    if a == [] {
      assert a + b == b;
    } else {
      WriteJoin(m, a[1..], b);
      assert (a + b)[1..] == a[1..] + b && (a + b)[0] == a[0];
      var x, y, z := WriteItem(m, a[0]), Write(m, a[1..]), Write(m, b);
      assert x + (y + z) == (x + y) + z;
    }
  }

  /** Where element i of a repeated group begins. */
  function Start(body: seq<Leaf>, i: nat): nat {
    i * BodyWidth(body)
  }

  lemma StartNext(m: Struct, body: seq<Leaf>, n: nat)
    ensures Start(body, n + 1) == Start(body, n) + |WriteBody(m, body, n)| && |WriteLoop(m, body, n)| == Start(body, n)
  {
    hide WriteBody, WriteLoop, BodyWidth;
    OneMore(n + 1, BodyWidth(body));
    BodyLength(m, body, n);
    LoopLength(m, body, n);
  }

  lemma {:induction false} ElementAt(m: Struct, body: seq<Leaf>, n: nat, i: nat)
    requires i < n
    ensures Start(body, i) <= Start(body, i + 1) <= Start(body, n) == |WriteLoop(m, body, n)|
    ensures WriteLoop(m, body, n)[Start(body, i)..Start(body, i + 1)] == WriteBody(m, body, i)
    decreases n
  {
    hide WriteBody, BodyWidth, Start;
    StartNext(m, body, n - 1);
    StartNext(m, body, n);
    StartNext(m, body, i);
    var x, y := WriteLoop(m, body, n - 1), WriteBody(m, body, n - 1);
    if i < n - 1 {
      ElementAt(m, body, n - 1, i);
      InFirst(x, y, Start(body, i), Start(body, i + 1));
    } else {
      InLast(x, y);
    }
  }

  /** Element i of a repeated group. */
  lemma Element(m: Struct, body: seq<Leaf>, n: nat, i: nat)
    requires i < n
    ensures |WriteLoop(m, body, n)| == n * BodyWidth(body) && (i + 1) * BodyWidth(body) <= n * BodyWidth(body)
    ensures i * BodyWidth(body) <= (i + 1) * BodyWidth(body)
    ensures WriteLoop(m, body, n)[i * BodyWidth(body)..(i + 1) * BodyWidth(body)] == WriteBody(m, body, i)
  {
    hide WriteBody, WriteLoop, BodyWidth;
    ElementAt(m, body, n, i);
  }

  lemma InFirst(x: seq<Byte>, y: seq<Byte>, a: nat, b: nat)
    requires a <= b <= |x|
    ensures (x + y)[a..b] == x[a..b]
  {
  }

  lemma InLast(x: seq<Byte>, y: seq<Byte>)
    ensures (x + y)[|x|..|x| + |y|] == y
  {
  }

  // ----- whole messages -----

  lemma HeadsLaidOut(id: nat)
    ensures LaidOut(WriteHead(id), HeadFields(id), 1, 1 + HeadLength(id))
  {
    GroupFields();
    assert LaidOut([B(Msg, QScale)], [Field(Msg, QScale, 1, 12)], 12, 13);
    assert LaidOut([W(Msg, DSr)], [Field(Msg, DSr, 2, 13)], 13, 15);
    assert LaidOut([L(Msg, TOrigin)], [Field(Msg, TOrigin, 4, 12)], 12, 16);
    assert LaidOut([B(Msg, MVersion)], [Field(Msg, MVersion, 1, 12)], 12, 13);
    assert LaidOut([B(Msg, QMaReason)], [Field(Msg, QMaReason, 1, 8)], 8, 9);
    assert LaidOut([L(Msg, TOrigin)], [Field(Msg, TOrigin, 4, 8)], 8, 12);
    hide LaidOut;
    LaidOutJoin(WRITE_GROUP, GROUP_FIELDS, 1, 12, [B(Msg, QScale)], [Field(Msg, QScale, 1, 12)], 13);
    LaidOutJoin(WRITE_GROUP + [B(Msg, QScale)], GROUP_FIELDS + [Field(Msg, QScale, 1, 12)], 1, 13,
                [W(Msg, DSr)], [Field(Msg, DSr, 2, 13)], 15);
    LaidOutJoin(WRITE_GROUP, GROUP_FIELDS, 1, 12, [L(Msg, TOrigin)], [Field(Msg, TOrigin, 4, 12)], 16);
    LaidOutJoin(WRITE_GROUP, GROUP_FIELDS, 1, 12, [B(Msg, MVersion)], [Field(Msg, MVersion, 1, 12)], 13);
    LaidOutJoin(WRITE_ENGINE, ENGINE_FIELDS, 1, 8, [B(Msg, QMaReason)], [Field(Msg, QMaReason, 1, 8)], 9);
    LaidOutJoin(WRITE_ENGINE, ENGINE_FIELDS, 1, 8, [L(Msg, TOrigin)], [Field(Msg, TOrigin, 4, 8)], 12);
    NothingLaidOut();
  }

  lemma NothingLaidOut()
    ensures LaidOut([], [], 1, 1)
  {
  }

  /** Every message begins with its number and shows its own fields at these bytes. */
  lemma HeadShown(m: Struct)
    ensures var bs := Serialize(m); |bs| >= 1 && bs[0] == Get(m, MESSAGE_ID) % 256
    ensures ShowsAll(Serialize(m), m, HeadFields(Get(m, MESSAGE_ID)))
  {
    hide LaidOut, HeadFields, WriteHead, WritePackets, Shows;
    var id := Get(m, MESSAGE_ID);
    var rest := Write(m, WritePackets(id, Get(m, PACKET_ID))) + [END_OF_FRAME];
    HeadsLaidOut(id);
    Shown(m, [id % 256], WriteHead(id), rest, HeadFields(id), 1, 1 + HeadLength(id), 0);
    assert Serialize(m) == [id % 256] + Write(m, WriteHead(id)) + rest;
    ShownUnmoved(Serialize(m), m, HeadFields(id));
  }

  const POSITION_FIELDS := ONE_GROUP_FIELDS + DISTANCES_FIELDS + MOVEMENT_FIELDS
  const POSITION2_FIELDS := TWO_GROUPS_FIELDS + DISTANCES2_FIELDS + MOVEMENT2_FIELDS

  lemma PositionsLaidOut()
    ensures LaidOut(WRITE_POSITION, POSITION_FIELDS, 0, 24) && LaidOut(WRITE_POSITION2, POSITION2_FIELDS, 0, 28)
  {
    OneGroupFields();
    TwoGroupsFields();
    DistancesFields();
    Distances2Fields();
    MovementFields();
    Movement2Fields();
    hide LaidOut;
    LaidOutJoin(WRITE_ONE_GROUP, ONE_GROUP_FIELDS, 0, 8, WRITE_DISTANCES, DISTANCES_FIELDS, 17);
    LaidOutJoin(WRITE_ONE_GROUP + WRITE_DISTANCES, ONE_GROUP_FIELDS + DISTANCES_FIELDS, 0, 17,
                WRITE_MOVEMENT, MOVEMENT_FIELDS, 24);
    LaidOutJoin(WRITE_TWO_GROUPS, TWO_GROUPS_FIELDS, 0, 12, WRITE_DISTANCES, DISTANCES2_FIELDS, 21);
    LaidOutJoin(WRITE_TWO_GROUPS + WRITE_DISTANCES, TWO_GROUPS_FIELDS + DISTANCES2_FIELDS, 0, 21,
                WRITE_MOVEMENT, MOVEMENT2_FIELDS, 28);
  }

  /** What a message is before its packets, and how long that is. */
  function Before(m: Struct): seq<Byte> {
    [Get(m, MESSAGE_ID) % 256] + Write(m, WriteHead(Get(m, MESSAGE_ID)))
  }

  lemma Rebracket(a: seq<Byte>, b: seq<Byte>, c: seq<Byte>, d: seq<Byte>)
    ensures a + (b + (c + d)) == (a + b) + c + d
  {
  }

  lemma Rebracket5(a: seq<Byte>, x: seq<Byte>, y: seq<Byte>, z: seq<Byte>, e: seq<Byte>)
    ensures a + ((x + y) + z) + e == (a + x) + y + (z + e)
  {
  }

  lemma BeforeLength(m: Struct)
    ensures |Before(m)| == 1 + HeadLength(Get(m, MESSAGE_ID))
    ensures Serialize(m) == Before(m) + Write(m, WritePackets(Get(m, MESSAGE_ID), Get(m, PACKET_ID))) + [END_OF_FRAME]
  {
    hide WriteHead, WritePackets, Layout, Write, HeadLength, Repeated;
    var id := Get(m, MESSAGE_ID);
    HeadLayout(id);
    LayoutLength(m, WriteHead(id), HeadLength(id), []);
    NoGroups(m);
    Rebracket([id % 256], Write(m, WriteHead(id)), Write(m, WritePackets(id, Get(m, PACKET_ID))), [END_OF_FRAME]);
  }

  /** A part of the packets, after what comes before it. */
  lemma PartShown(m: Struct, a: seq<Item>, items: seq<Item>, b: seq<Item>, fs: seq<Field>, from: nat, to: nat, d: nat)
    requires WritePackets(Get(m, MESSAGE_ID), Get(m, PACKET_ID)) == a + items + b && LaidOut(items, fs, from, to)
    requires 1 + HeadLength(Get(m, MESSAGE_ID)) + |Write(m, a)| == from + d
    ensures ShowsAll(Serialize(m), m, Shifted(fs, d))
  {
    hide LaidOut, WritePackets, ShowsAll, Shifted, HeadLength, Before, Serialize, Write;
    BeforeLength(m);
    WriteJoin(m, a + items, b);
    WriteJoin(m, a, items);
    Shown(m, Before(m) + Write(m, a), items, Write(m, b) + [END_OF_FRAME], fs, from, to, d);
    Rebracket5(Before(m), Write(m, a), Write(m, items), Write(m, b), [END_OF_FRAME]);
  }

  /** The position report in messages 129, 132 and 150: its fields follow the head. */
  lemma PositionShown(m: Struct)
    requires Get(m, MESSAGE_ID) in {129, 132, 150} && Get(m, PACKET_ID) <= 1
    ensures var start := if Get(m, MESSAGE_ID) == 132 then 9 else 8;
            var fs := if Get(m, PACKET_ID) == 0 then POSITION_FIELDS else POSITION2_FIELDS;
            ShowsAll(Serialize(m), m, Shifted(fs, start))
  {
    var id, nid := Get(m, MESSAGE_ID), Get(m, PACKET_ID);
    PositionsLaidOut();
    hide LaidOut, ShowsAll, Shifted;
    var items, fs := WritePosition(nid), if nid == 0 then POSITION_FIELDS else POSITION2_FIELDS;
    var rest := if id == 129 then WRITE_TRAIN_DATA else [];
    assert WritePackets(id, nid) == [] + items + rest;
    PartShown(m, [], items, rest, fs, 0, if nid == 0 then 24 else 28, if id == 132 then 9 else 8);
  }

  lemma EndsLaidOut()
    ensures LaidOut(WRITE_END_SECTION + WRITE_OVERLAP, END_SECTION_FIELDS + OVERLAP_FIELDS, 0, 24)
  {
    EndSectionFields();
    OverlapFields();
    LaidOutJoin(WRITE_END_SECTION, END_SECTION_FIELDS, 0, 12, WRITE_OVERLAP, OVERLAP_FIELDS, 24);
  }

  lemma SectionsLength(m: Struct)
    ensures |Write(m, [WRITE_SECTIONS])| == 7 * Get(m, SECTIONS.0)
  {
    LoopLength(m, WRITE_SECTIONS.body, Get(m, SECTIONS.0));
    SectionWidth();
    hide BodyWidth, WriteLoop;
  }

  lemma SectionWidth()
    ensures BodyWidth(WRITE_SECTIONS.body) == 7
  {
  }

  /** Message 3: the head of packet 15 from byte 12 on, the sections, then its end. */
  lemma AuthorityShown(m: Struct)
    requires Get(m, MESSAGE_ID) == 3
    ensures ShowsAll(Serialize(m), m, Shifted(AUTHORITY_HEAD_FIELDS, 12))
    ensures ShowsAll(Serialize(m), m, Shifted(END_SECTION_FIELDS + OVERLAP_FIELDS, 21 + 7 * Get(m, SECTIONS.0)))
  {
    AuthorityHeadFields();
    EndsLaidOut();
    SectionsLength(m);
    hide LaidOut, ShowsAll, Shifted, Write;
    var tail := WRITE_END_SECTION + WRITE_OVERLAP;
    assert WRITE_AUTHORITY == [] + WRITE_AUTHORITY_HEAD + ([WRITE_SECTIONS] + tail);
    assert WRITE_AUTHORITY == (WRITE_AUTHORITY_HEAD + [WRITE_SECTIONS]) + tail + [];
    NoBytes(m);
    HeadBytes9(m);
    PartShown(m, [], WRITE_AUTHORITY_HEAD, [WRITE_SECTIONS] + tail, AUTHORITY_HEAD_FIELDS, 0, 9, 12);
    WriteJoin(m, WRITE_AUTHORITY_HEAD, [WRITE_SECTIONS]);
    PartShown(m, WRITE_AUTHORITY_HEAD + [WRITE_SECTIONS], tail, [], END_SECTION_FIELDS + OVERLAP_FIELDS, 0, 24,
              21 + 7 * Get(m, SECTIONS.0));
  }

  lemma NoBytes(m: Struct)
    ensures Write(m, []) == []
  {
  }

  lemma HeadBytes9(m: Struct)
    ensures |Write(m, WRITE_AUTHORITY_HEAD)| == 9
  {
    AuthorityHeadFields();
    Shown(m, [], WRITE_AUTHORITY_HEAD, [], AUTHORITY_HEAD_FIELDS, 0, 9, 0);
  }

  // ----- repeated groups -----

  lemma OneLoop(m: Struct, loop: Item)
    requires loop.Loop?
    ensures Write(m, [loop]) == WriteLoop(m, loop.body, Get(m, Key(loop.part, loop.count, 0)))
  {
    assert [loop][1..] == [];
  }

  lemma Within(a: seq<Byte>, x: seq<Byte>, b: seq<Byte>, i: nat, j: nat)
    requires i <= j <= |x|
    ensures (a + x + b)[|a| + i..|a| + j] == x[i..j]
  {
  }

  /** Element i of a repeated group of the packets, w bytes long each. */
  lemma ElementShown(m: Struct, a: seq<Item>, loop: Item, b: seq<Item>, i: nat, w: nat, at: nat)
    requires loop.Loop? && i < Get(m, Key(loop.part, loop.count, 0)) && w == BodyWidth(loop.body)
    requires WritePackets(Get(m, MESSAGE_ID), Get(m, PACKET_ID)) == a + [loop] + b
    requires at == 1 + HeadLength(Get(m, MESSAGE_ID)) + |Write(m, a)| + i * w
    ensures at + w <= |Serialize(m)| && Serialize(m)[at..at + w] == WriteBody(m, loop.body, i)
  {
    hide WritePackets, HeadLength, Before, Serialize, Write, WriteBody, WriteLoop, BodyWidth;
    BeforeLength(m);
    WriteJoin(m, a + [loop], b);
    WriteJoin(m, a, [loop]);
    OneLoop(m, loop);
    Element(m, loop.body, Get(m, Key(loop.part, loop.count, 0)), i);
    OneMore(i + 1, w);
    Rebracket5(Before(m), Write(m, a), Write(m, [loop]), Write(m, b), [END_OF_FRAME]);
    Within(Before(m) + Write(m, a), Write(m, [loop]), Write(m, b) + [END_OF_FRAME], i * w, (i + 1) * w);
  }

  lemma LastLeaf(m: Struct, l: Leaf, i: nat)
    ensures WriteBody(m, [l], i) == WriteLeaf(m, l, i)
  {
    assert [l][1..] == [];
  }

  lemma MoreLeaves(m: Struct, l: Leaf, rest: seq<Leaf>, i: nat)
    ensures WriteBody(m, [l] + rest, i) == WriteLeaf(m, l, i) + WriteBody(m, rest, i)
  {
    assert ([l] + rest)[1..] == rest;
  }

  lemma SectionBody(m: Struct, i: nat)
    ensures WriteBody(m, WRITE_SECTIONS.body, i) ==
              BigEndian(Get(m, Key(Pack, SectionLength, i)), 2) + BigEndian(Get(m, Key(Pack, SectionTimer, i)), 1)
              + BigEndian(Get(m, Key(Pack, SectionTime, i)), 2) + BigEndian(Get(m, Key(Pack, SectionDistance, i)), 2)
  {
    hide BigEndian, WriteBody;
    var a, b := Leaf(Pack, SectionLength, 2), Leaf(Pack, SectionTimer, 1);
    var c, d := Leaf(Pack, SectionTime, 2), Leaf(Pack, SectionDistance, 2);
    LastLeaf(m, d, i);
    MoreLeaves(m, c, [d], i);
    MoreLeaves(m, b, [c] + [d], i);
    MoreLeaves(m, a, [b] + ([c] + [d]), i);
    assert WRITE_SECTIONS.body == [a] + ([b] + ([c] + [d]));
  }

  /** Section i of a movement authority: length, timer, time and distance from byte 21 + 7 i on. */
  lemma SectionShown(m: Struct, i: nat)
    requires Get(m, MESSAGE_ID) == 3 && i < Get(m, SECTIONS.0)
    ensures var bs, at := Serialize(m), 21 + 7 * i;
            && at + 7 <= |bs|
            && bs[at..at + 7] ==
                 BigEndian(Get(m, Key(Pack, SectionLength, i)), 2) + BigEndian(Get(m, Key(Pack, SectionTimer, i)), 1)
                 + BigEndian(Get(m, Key(Pack, SectionTime, i)), 2) + BigEndian(Get(m, Key(Pack, SectionDistance, i)), 2)
  {
    SectionWidth();
    SectionBody(m, i);
    HeadBytes9(m);
    hide Write, BigEndian, WriteBody, BodyWidth, Serialize;
    assert WRITE_AUTHORITY == WRITE_AUTHORITY_HEAD + [WRITE_SECTIONS] + (WRITE_END_SECTION + WRITE_OVERLAP);
    ElementShown(m, WRITE_AUTHORITY_HEAD, WRITE_SECTIONS, WRITE_END_SECTION + WRITE_OVERLAP, i, 7, 21 + 7 * i);
  }

  // ----- train data -----

  lemma TrainHeadLength(m: Struct)
    ensures |Write(m, WRITE_TRAIN_HEAD)| == 15
  {
    hide LaidOut, Write;
    TrainHeadFields();
    Shown(m, [], WRITE_TRAIN_HEAD, [], TRAIN_HEAD_FIELDS, 0, 15, 0);
  }

  lemma CountLaidOut(m: Struct)
    ensures LaidOut([B(Train, NIterNtc)], [Field(Train, NIterNtc, 1, 0)], 0, 1)
    ensures |Write(m, [B(Train, NIterNtc)])| == 1
  {
    Shown(m, [], [B(Train, NIterNtc)], [], [Field(Train, NIterNtc, 1, 0)], 0, 1, 0);
  }

  lemma EngineWidths()
    ensures BodyWidth(WRITE_ENGINES.body) == 3 && BodyWidth(WRITE_NTCS.body) == 1
  {
  }

  lemma TrainLengths(m: Struct)
    ensures |Write(m, WRITE_TRAIN_HEAD)| == 15 && |Write(m, [B(Train, NIterNtc)])| == 1
    ensures |Write(m, [WRITE_ENGINES])| == 3 * Get(m, ENGINES.0)
    ensures LaidOut([B(Train, NIterNtc)], [Field(Train, NIterNtc, 1, 0)], 0, 1)
    ensures BodyWidth(WRITE_ENGINES.body) == 3 && BodyWidth(WRITE_NTCS.body) == 1
  {
    hide LaidOut, Write, WriteLoop, BodyWidth;
    TrainHeadLength(m);
    CountLaidOut(m);
    EngineWidths();
    LoopLength(m, WRITE_ENGINES.body, Get(m, ENGINES.0));
    OneLoop(m, WRITE_ENGINES);
  }

  lemma PositionBytes(m: Struct, nid: nat)
    ensures |Write(m, WritePosition(nid))| == PositionLength(nid)
  {
    hide Write, Repeated;
    PositionLayout(nid);
    LayoutLength(m, WritePosition(nid), PositionLength(nid), []);
    NoGroups(m);
  }

  /** The train data packet of message 129, from the byte after the position report on. */
  lemma TrainShown(m: Struct)
    requires Get(m, MESSAGE_ID) == 129
    ensures var at := 8 + PositionLength(Get(m, PACKET_ID));
            && ShowsAll(Serialize(m), m, Shifted(TRAIN_HEAD_FIELDS, at))
            && ShowsAll(Serialize(m), m, Shifted([Field(Train, NIterNtc, 1, 0)], at + 15 + 3 * Get(m, ENGINES.0)))
  {
    var nid := Get(m, PACKET_ID);
    var p, h, e, c, n := WritePosition(nid), WRITE_TRAIN_HEAD, [WRITE_ENGINES], [B(Train, NIterNtc)], [WRITE_NTCS];
    TrainHeadFields();
    TrainLengths(m);
    PositionBytes(m, nid);
    hide LaidOut, ShowsAll, Shifted, Write, WritePosition;
    assert p + WRITE_TRAIN_DATA == p + h + (e + c + n);
    PartShown(m, p, h, e + c + n, TRAIN_HEAD_FIELDS, 0, 15, 8 + PositionLength(nid));
    WriteJoin(m, p + h, e);
    WriteJoin(m, p, h);
    assert p + WRITE_TRAIN_DATA == (p + h + e) + c + n;
    PartShown(m, p + h + e, c, n, [Field(Train, NIterNtc, 1, 0)], 0, 1,
              8 + PositionLength(nid) + 15 + 3 * Get(m, ENGINES.0));
  }

  lemma EngineBody(m: Struct, i: nat)
    ensures WriteBody(m, WRITE_ENGINES.body, i) ==
              BigEndian(Get(m, Key(Train, MVoltage, i)), 1) + BigEndian(Get(m, Key(Train, NidCTraction, i)), 2)
    ensures WriteBody(m, WRITE_NTCS.body, i) == BigEndian(Get(m, Key(Train, NidNtcItem, i)), 1)
  {
    hide BigEndian, WriteBody;
    var a, b := Leaf(Train, MVoltage, 1), Leaf(Train, NidCTraction, 2);
    LastLeaf(m, b, i);
    MoreLeaves(m, a, [b], i);
    assert WRITE_ENGINES.body == [a] + [b];
    LastLeaf(m, Leaf(Train, NidNtcItem, 1), i);
  }

  /** Its engines, voltage and traction system, and its national systems. */
  lemma EngineShown(m: Struct, i: nat)
    requires Get(m, MESSAGE_ID) == 129
    ensures var bs, at := Serialize(m), 23 + PositionLength(Get(m, PACKET_ID)) + 3 * i;
            i < Get(m, ENGINES.0) ==>
              && at + 3 <= |bs|
              && bs[at..at + 3] ==
                   BigEndian(Get(m, Key(Train, MVoltage, i)), 1) + BigEndian(Get(m, Key(Train, NidCTraction, i)), 2)
    ensures var bs, at := Serialize(m), 24 + PositionLength(Get(m, PACKET_ID)) + 3 * Get(m, ENGINES.0) + i;
            i < Get(m, NTCS.0) ==>
              at + 1 <= |bs| && bs[at..at + 1] == BigEndian(Get(m, Key(Train, NidNtcItem, i)), 1)
  {
    var nid := Get(m, PACKET_ID);
    var p, h, e, c, n := WritePosition(nid), WRITE_TRAIN_HEAD, [WRITE_ENGINES], [B(Train, NIterNtc)], [WRITE_NTCS];
    TrainLengths(m);
    PositionBytes(m, nid);
    EngineBody(m, i);
    hide LaidOut, Write, WritePosition, BigEndian, WriteBody, BodyWidth, Serialize;
    WriteJoin(m, p, h);
    if i < Get(m, ENGINES.0) {
      assert p + WRITE_TRAIN_DATA == (p + h) + e + (c + n);
      ElementShown(m, p + h, WRITE_ENGINES, c + n, i, 3, 23 + PositionLength(nid) + 3 * i);
    }
    if i < Get(m, NTCS.0) {
      WriteJoin(m, p + h, e);
      WriteJoin(m, p + h + e, c);
      assert p + WRITE_TRAIN_DATA == (p + h + e + c) + n + [];
      ElementShown(m, p + h + e + c, WRITE_NTCS, [], i, 1, 24 + PositionLength(nid) + 3 * Get(m, ENGINES.0) + i);
    }
  }

  // ----- telegrams -----

  lemma TelegramStart(m: Struct)
    ensures |Write(m, WRITE_TELEGRAM)| == 12
    ensures SerializeTelegram(m) ==
              Write(m, WRITE_TELEGRAM) + Write(m, WriteTelegramPacket(Get(m, PACKET_ID))) + [END_OF_FRAME]
  {
    hide LaidOut, Write, WriteTelegramPacket;
    TelegramFields();
    Shown(m, [], WRITE_TELEGRAM, [], TELEGRAM_FIELDS, 0, 12, 0);
    Rebracket([], Write(m, WRITE_TELEGRAM), Write(m, WriteTelegramPacket(Get(m, PACKET_ID))), [END_OF_FRAME]);
  }

  lemma TelegramPart(m: Struct, a: seq<Item>, items: seq<Item>, b: seq<Item>, fs: seq<Field>, to: nat, d: nat)
    requires WriteTelegramPacket(Get(m, PACKET_ID)) == a + items + b && LaidOut(items, fs, 0, to)
    requires 12 + |Write(m, a)| == d
    ensures ShowsAll(SerializeTelegram(m), m, Shifted(fs, d))
  {
    hide LaidOut, WriteTelegramPacket, ShowsAll, Shifted, SerializeTelegram, Write;
    TelegramStart(m);
    WriteJoin(m, a + items, b);
    WriteJoin(m, a, items);
    Shown(m, Write(m, WRITE_TELEGRAM) + Write(m, a), items, Write(m, b) + [END_OF_FRAME], fs, 0, to, d);
    Rebracket5(Write(m, WRITE_TELEGRAM), Write(m, a), Write(m, items), Write(m, b), [END_OF_FRAME]);
  }

  lemma TelegramElement(m: Struct, a: seq<Item>, loop: Item, b: seq<Item>, i: nat, w: nat, at: nat)
    requires loop.Loop? && i < Get(m, Key(loop.part, loop.count, 0)) && w == BodyWidth(loop.body)
    requires WriteTelegramPacket(Get(m, PACKET_ID)) == a + [loop] + b && at == 12 + |Write(m, a)| + i * w
    ensures at + w <= |SerializeTelegram(m)| && SerializeTelegram(m)[at..at + w] == WriteBody(m, loop.body, i)
  {
    hide WriteTelegramPacket, SerializeTelegram, Write, WriteBody, WriteLoop, BodyWidth;
    TelegramStart(m);
    WriteJoin(m, a + [loop], b);
    WriteJoin(m, a, [loop]);
    OneLoop(m, loop);
    Element(m, loop.body, Get(m, Key(loop.part, loop.count, 0)), i);
    OneMore(i + 1, w);
    Rebracket5(Write(m, WRITE_TELEGRAM), Write(m, a), Write(m, [loop]), Write(m, b), [END_OF_FRAME]);
    Within(Write(m, WRITE_TELEGRAM) + Write(m, a), Write(m, [loop]), Write(m, b) + [END_OF_FRAME], i * w, (i + 1) * w);
  }

  /** A telegram shows its own fields in its first 12 bytes. */
  lemma TelegramShown(m: Struct)
    ensures ShowsAll(SerializeTelegram(m), m, TELEGRAM_FIELDS)
  {
    hide LaidOut, Write, WriteTelegramPacket, ShowsAll, Shifted;
    TelegramFields();
    TelegramStart(m);
    var rest := Write(m, WriteTelegramPacket(Get(m, PACKET_ID))) + [END_OF_FRAME];
    Shown(m, [], WRITE_TELEGRAM, rest, TELEGRAM_FIELDS, 0, 12, 0);
    assert [] + Write(m, WRITE_TELEGRAM) + rest == SerializeTelegram(m);
    ShownUnmoved(SerializeTelegram(m), m, TELEGRAM_FIELDS);
  }

  lemma Level1HeadLength(m: Struct)
    ensures |Write(m, WRITE_LEVEL1_HEAD)| == 10
  {
    hide LaidOut, Write;
    Level1HeadFields();
    Shown(m, [], WRITE_LEVEL1_HEAD, [], LEVEL1_HEAD_FIELDS, 0, 10, 0);
  }

  /** Packet 12 in a telegram: its head, sections and end. */
  lemma Level1Shown(m: Struct)
    requires Get(m, PACKET_ID) == 12
    ensures ShowsAll(SerializeTelegram(m), m, Shifted(LEVEL1_HEAD_FIELDS, 12))
    ensures ShowsAll(SerializeTelegram(m), m, Shifted(END_SECTION_FIELDS + OVERLAP_FIELDS, 22 + 7 * Get(m, SECTIONS.0)))
  {
    Level1HeadFields();
    EndsLaidOut();
    SectionsLength(m);
    hide LaidOut, ShowsAll, Shifted, Write;
    var tail := WRITE_END_SECTION + WRITE_OVERLAP;
    assert WRITE_LEVEL1 == [] + WRITE_LEVEL1_HEAD + ([WRITE_SECTIONS] + tail);
    assert WRITE_LEVEL1 == (WRITE_LEVEL1_HEAD + [WRITE_SECTIONS]) + tail + [];
    NoBytes(m);
    Level1HeadLength(m);
    TelegramPart(m, [], WRITE_LEVEL1_HEAD, [WRITE_SECTIONS] + tail, LEVEL1_HEAD_FIELDS, 10, 12);
    WriteJoin(m, WRITE_LEVEL1_HEAD, [WRITE_SECTIONS]);
    TelegramPart(m, WRITE_LEVEL1_HEAD + [WRITE_SECTIONS], tail, [], END_SECTION_FIELDS + OVERLAP_FIELDS, 24,
                 22 + 7 * Get(m, SECTIONS.0));
  }

  lemma Level1SectionShown(m: Struct, i: nat)
    requires Get(m, PACKET_ID) == 12 && i < Get(m, SECTIONS.0)
    ensures var bs, at := SerializeTelegram(m), 22 + 7 * i;
            && at + 7 <= |bs|
            && bs[at..at + 7] ==
                 BigEndian(Get(m, Key(Pack, SectionLength, i)), 2) + BigEndian(Get(m, Key(Pack, SectionTimer, i)), 1)
                 + BigEndian(Get(m, Key(Pack, SectionTime, i)), 2) + BigEndian(Get(m, Key(Pack, SectionDistance, i)), 2)
  {
    SectionWidth();
    SectionBody(m, i);
    Level1HeadLength(m);
    hide Write, BigEndian, WriteBody, BodyWidth, SerializeTelegram;
    assert WRITE_LEVEL1 == WRITE_LEVEL1_HEAD + [WRITE_SECTIONS] + (WRITE_END_SECTION + WRITE_OVERLAP);
    TelegramElement(m, WRITE_LEVEL1_HEAD, WRITE_SECTIONS, WRITE_END_SECTION + WRITE_OVERLAP, i, 7, 22 + 7 * i);
  }

  lemma TransitionHeadLength(m: Struct)
    ensures |Write(m, WRITE_TRANSITION_HEAD)| == 12
  {
    hide LaidOut, Write;
    TransitionHeadFields();
    Shown(m, [], WRITE_TRANSITION_HEAD, [], TRANSITION_HEAD_FIELDS, 0, 12, 0);
  }

  lemma TransitionBody(m: Struct, i: nat)
    ensures BodyWidth(WRITE_TRANSITIONS.body) == 4
    ensures WriteBody(m, WRITE_TRANSITIONS.body, i) ==
              BigEndian(Get(m, Key(Pack, MLeveltrNext, i)), 1) + BigEndian(Get(m, Key(Pack, NidNtcNext, i)), 1)
              + BigEndian(Get(m, Key(Pack, LAckLeveltrNext, i)), 2)
  {
    hide BigEndian, WriteBody;
    var a, b, c := Leaf(Pack, MLeveltrNext, 1), Leaf(Pack, NidNtcNext, 1), Leaf(Pack, LAckLeveltrNext, 2);
    LastLeaf(m, c, i);
    MoreLeaves(m, b, [c], i);
    MoreLeaves(m, a, [b] + [c], i);
    assert WRITE_TRANSITIONS.body == [a] + ([b] + [c]);
  }

  /** Packet 41 in a telegram: its head and its further transitions. */
  lemma TransitionShown(m: Struct, i: nat)
    requires Get(m, PACKET_ID) == 41
    ensures ShowsAll(SerializeTelegram(m), m, Shifted(TRANSITION_HEAD_FIELDS, 12))
    ensures var bs, at := SerializeTelegram(m), 24 + 4 * i;
            i < Get(m, TRANSITIONS.0) ==>
              && at + 4 <= |bs|
              && bs[at..at + 4] ==
                   BigEndian(Get(m, Key(Pack, MLeveltrNext, i)), 1) + BigEndian(Get(m, Key(Pack, NidNtcNext, i)), 1)
                   + BigEndian(Get(m, Key(Pack, LAckLeveltrNext, i)), 2)
  {
    TransitionHeadFields();
    TransitionHeadLength(m);
    TransitionBody(m, i);
    hide LaidOut, ShowsAll, Shifted, Write, BigEndian, WriteBody, BodyWidth, SerializeTelegram;
    NoBytes(m);
    assert WRITE_TRANSITION == [] + WRITE_TRANSITION_HEAD + [WRITE_TRANSITIONS];
    TelegramPart(m, [], WRITE_TRANSITION_HEAD, [WRITE_TRANSITIONS], TRANSITION_HEAD_FIELDS, 12, 12);
    if i < Get(m, TRANSITIONS.0) {
      assert WRITE_TRANSITION == WRITE_TRANSITION_HEAD + [WRITE_TRANSITIONS] + [];
      TelegramElement(m, WRITE_TRANSITION_HEAD, WRITE_TRANSITIONS, [], i, 4, 24 + 4 * i);
    }
  }

  // ----- what the init functions put there -----

  lemma OneByte(v: nat)
    requires v < 256
    ensures BigEndian(v, 1) == [v]
  {
    assert BigEndian(v / 256, 0) == [];
  }

  lemma ByteShown(bs: seq<Byte>, m: Struct, fs: seq<Field>, d: nat, i: nat)
    requires i < |fs| && fs[i].width == 1 && ShowsAll(bs, m, Shifted(fs, d))
    requires Get(m, Key(fs[i].part, fs[i].name, 0)) < 256
    ensures fs[i].at + d < |bs| && bs[fs[i].at + d] == Get(m, Key(fs[i].part, fs[i].name, 0))
  {
    var f := Shifted(fs, d)[i];
    assert Shows(bs, m, f);
    OneByte(Get(m, Key(f.part, f.name, 0)));
    assert bs[f.at..f.at + 1][0] == bs[f.at];
  }

  /** The packet numbers in the messages that the init functions fill in: 15 in a movement authority, 0 or 1 for
      a position report on one or two balise groups, 11 for train data. */
  lemma NumbersShown(args: Struct, two: bool)
    ensures var bs := Serialize(InitMessage(3, args, two)); |bs| > 12 && bs[12] == 15
    ensures var bs := Serialize(InitMessage(132, args, two)); |bs| > 9 && bs[9] == if two then 1 else 0
    ensures var bs := Serialize(InitMessage(150, args, two)); |bs| > 8 && bs[8] == if two then 1 else 0
    ensures var bs := Serialize(InitMessage(129, args, two));
            |bs| > 36 && bs[8] == (if two then 1 else 0) && bs[if two then 36 else 32] == 11
  {
    hide Serialize, ShowsAll, Shifted;
    var a, b := InitMessage(3, args, two), InitMessage(132, args, two);
    var c, d := InitMessage(150, args, two), InitMessage(129, args, two);
    assert Get(a, PACKET_ID) == 15 && Get(d, TRAIN_ID) == 11;
    AuthorityShown(a);
    ByteShown(Serialize(a), a, AUTHORITY_HEAD_FIELDS, 12, 0);
    var fs := if two then POSITION2_FIELDS else POSITION_FIELDS;
    PositionShown(b);
    ByteShown(Serialize(b), b, fs, 9, 0);
    PositionShown(c);
    ByteShown(Serialize(c), c, fs, 8, 0);
    PositionShown(d);
    ByteShown(Serialize(d), d, fs, 8, 0);
    TrainShown(d);
    ByteShown(Serialize(d), d, TRAIN_HEAD_FIELDS, if two then 36 else 32, 0);
    LengthField(129, args, two);
    TrainLong(args, two);
  }

  lemma TrainLong(args: Struct, two: bool)
    ensures Get(InitMessage(129, args, two), L_MESSAGE) >= 48
  {
  }

  /** In a telegram the packet number is followed by the direction, which the init functions set to 1. */
  lemma TelegramNumbers(args: Struct)
    ensures var bs := SerializeTelegram(InitLevel1(args)); |bs| > 13 && bs[12] == 12 && bs[13] == 1
    ensures var bs := SerializeTelegram(InitTransition(args)); |bs| > 13 && bs[12] == 41 && bs[13] == 1
  {
    hide SerializeTelegram, Shifted;
    var a, b := InitLevel1(args), InitTransition(args);
    Level1Shown(a);
    TransitionShown(b, 0);
    hide InitLevel1, InitTransition;
    Directions(args);
    ByteShown(SerializeTelegram(a), a, LEVEL1_HEAD_FIELDS, 12, 0);
    ByteShown(SerializeTelegram(b), b, TRANSITION_HEAD_FIELDS, 12, 0);
    ByteShown(SerializeTelegram(a), a, LEVEL1_HEAD_FIELDS, 12, 1);
    ByteShown(SerializeTelegram(b), b, TRANSITION_HEAD_FIELDS, 12, 1);
  }

  lemma Directions(args: Struct)
    ensures Get(InitLevel1(args), PACKET_ID) == 12 && Get(InitLevel1(args), Key(Pack, QDir, 0)) == 1
    ensures Get(InitTransition(args), PACKET_ID) == 41 && Get(InitTransition(args), Key(Pack, QDir, 0)) == 1
  {
  }
}
