/** ERTMS messages and balise telegrams, byte-aligned after chapters 7 and 8 of UNISIG SUBSET-026: the field order of
    each serializer and of each deserializer, and the lengths that follow. */
module ErtmsTables {
  import opened ErtmsCodec

  function B(part: Part, name: Name): Item { One(Leaf(part, name, 1)) }
  function W(part: Part, name: Name): Item { One(Leaf(part, name, 2)) }
  function L(part: Part, name: Name): Item { One(Leaf(part, name, 4)) }

  // ----- packets, as written -----

  const WRITE_SECTIONS :=
    Loop(Pack, NIterSection, [Leaf(Pack, SectionLength, 2), Leaf(Pack, SectionTimer, 1), Leaf(Pack, SectionTime, 2),
                              Leaf(Pack, SectionDistance, 2)])

  /** The end of both kinds of movement authority. */
  const WRITE_END_SECTION :=
    [W(Pack, EndSectionLength), B(Pack, EndSectionTimer), W(Pack, EndSectionTime), W(Pack, EndSectionDistance),
     B(Pack, EndTimer), W(Pack, EndTime), W(Pack, EndDistance)]

  const WRITE_OVERLAP :=
    [B(Pack, QDangerPoint), W(Pack, DDp), B(Pack, VReleaseDp),
     B(Pack, OverlapTimer), W(Pack, DStartOl), W(Pack, OverlapTime), W(Pack, OverlapDistance), B(Pack, VReleaseOl)]

  const WRITE_LEVEL1_HEAD :=
    [B(Pack, NidPacket), B(Pack, QDir), W(Pack, LPacket), B(Pack, QScale), B(Pack, VMain), B(Pack, VEma), W(Pack, TEma),
     B(Pack, NIterSection)]

  const WRITE_AUTHORITY_HEAD :=
    [B(Pack, NidPacket), W(Pack, LPacket), B(Pack, QDir), B(Pack, QScale), B(Pack, VEma), W(Pack, TEma),
     B(Pack, NIterSection)]

  const WRITE_LEVEL1 := WRITE_LEVEL1_HEAD + [WRITE_SECTIONS] + WRITE_END_SECTION + WRITE_OVERLAP
  const WRITE_AUTHORITY := WRITE_AUTHORITY_HEAD + [WRITE_SECTIONS] + WRITE_END_SECTION + WRITE_OVERLAP

  const WRITE_TRANSITION_HEAD :=
    [B(Pack, NidPacket), B(Pack, QDir), W(Pack, LPacket), B(Pack, QScale), W(Pack, DLeveltr), B(Pack, MLeveltr),
     B(Pack, NidNtc), W(Pack, LAckLeveltr), B(Pack, NIterNext)]

  const WRITE_TRANSITIONS :=
    Loop(Pack, NIterNext, [Leaf(Pack, MLeveltrNext, 1), Leaf(Pack, NidNtcNext, 1), Leaf(Pack, LAckLeveltrNext, 2)])

  const WRITE_TRANSITION := WRITE_TRANSITION_HEAD + [WRITE_TRANSITIONS]

  /** The end of both kinds of position report. */
  const WRITE_DISTANCES :=
    [W(Pack, DLrbg), B(Pack, QDirLrbg), B(Pack, QDLrbg), W(Pack, LDoubtOver), W(Pack, LDoubtUnder), B(Pack, QLength)]

  const WRITE_MOVEMENT :=
    [W(Pack, LTrainInit), B(Pack, VTrain), B(Pack, QDirTrain), B(Pack, MMode), B(Pack, MLevel), B(Pack, NidNtc)]

  const WRITE_ONE_GROUP := [B(Pack, NidPacket), W(Pack, LPacket), B(Pack, QScale), W(Pack, NidC), W(Pack, NidBg)]
  const WRITE_TWO_GROUPS :=
    [B(Pack, NidPacket), W(Pack, LPacket), B(Pack, QScale), W(Pack, NidC), W(Pack, NidBg), W(Pack, PrvC),
     W(Pack, PrvBg)]

  const WRITE_POSITION := WRITE_ONE_GROUP + WRITE_DISTANCES + WRITE_MOVEMENT
  const WRITE_POSITION2 := WRITE_TWO_GROUPS + WRITE_DISTANCES + WRITE_MOVEMENT

  const WRITE_TRAIN_HEAD :=
    [B(Train, NidPacket), W(Train, LPacket), B(Train, NcCdTrain), W(Train, NcTrain), W(Train, LTrain),
     B(Train, VMaxTrain), B(Train, MLoadingGauge), B(Train, MAxleLoadCat), B(Train, MAirtight),
     W(Train, NAxle), B(Train, NIterEngine)]

  const WRITE_ENGINES := Loop(Train, NIterEngine, [Leaf(Train, MVoltage, 1), Leaf(Train, NidCTraction, 2)])
  const WRITE_NTCS := Loop(Train, NIterNtc, [Leaf(Train, NidNtcItem, 1)])

  const WRITE_TRAIN_DATA := WRITE_TRAIN_HEAD + [WRITE_ENGINES] + [B(Train, NIterNtc)] + [WRITE_NTCS]

  // ----- packets, as read -----

  const READ_SECTIONS :=
    Loop(Pack, NIterSection, [Leaf(Pack, SectionLength, 2), Leaf(Pack, SectionTimer, 1), Leaf(Pack, SectionTime, 2),
                              Leaf(Pack, SectionDistance, 2)])

  const READ_END_SECTION :=
    [W(Pack, EndSectionLength), B(Pack, EndSectionTimer), W(Pack, EndSectionTime), W(Pack, EndSectionDistance),
     B(Pack, EndTimer), W(Pack, EndTime), W(Pack, EndDistance)]

  const READ_OVERLAP :=
    [B(Pack, QDangerPoint), W(Pack, DDp), B(Pack, VReleaseDp),
     B(Pack, OverlapTimer), W(Pack, DStartOl), W(Pack, OverlapTime), W(Pack, OverlapDistance), B(Pack, VReleaseOl)]

  const READ_LEVEL1_HEAD :=
    [B(Pack, NidPacket), B(Pack, QDir), W(Pack, LPacket), B(Pack, QScale), B(Pack, VMain), B(Pack, VEma), W(Pack, TEma),
     B(Pack, NIterSection)]

  const READ_AUTHORITY_HEAD :=
    [B(Pack, NidPacket), W(Pack, LPacket), B(Pack, QDir), B(Pack, QScale), B(Pack, VEma), W(Pack, TEma),
     B(Pack, NIterSection)]

  const READ_LEVEL1 := READ_LEVEL1_HEAD + [READ_SECTIONS] + READ_END_SECTION + READ_OVERLAP
  const READ_AUTHORITY := READ_AUTHORITY_HEAD + [READ_SECTIONS] + READ_END_SECTION + READ_OVERLAP

  const READ_TRANSITION_HEAD :=
    [B(Pack, NidPacket), B(Pack, QDir), W(Pack, LPacket), B(Pack, QScale), W(Pack, DLeveltr), B(Pack, MLeveltr),
     B(Pack, NidNtc), W(Pack, LAckLeveltr), B(Pack, NIterNext)]

  const READ_TRANSITIONS :=
    Loop(Pack, NIterNext, [Leaf(Pack, MLeveltrNext, 1), Leaf(Pack, NidNtcNext, 1), Leaf(Pack, LAckLeveltrNext, 2)])

  const READ_TRANSITION := READ_TRANSITION_HEAD + [READ_TRANSITIONS]

  const READ_DISTANCES :=
    [W(Pack, DLrbg), B(Pack, QDirLrbg), B(Pack, QDLrbg), W(Pack, LDoubtOver), W(Pack, LDoubtUnder), B(Pack, QLength)]

  const READ_MOVEMENT :=
    [W(Pack, LTrainInit), B(Pack, VTrain), B(Pack, QDirTrain), B(Pack, MMode), B(Pack, MLevel), B(Pack, NidNtc)]

  const READ_ONE_GROUP := [B(Pack, NidPacket), W(Pack, LPacket), B(Pack, QScale), W(Pack, NidC), W(Pack, NidBg)]
  const READ_TWO_GROUPS :=
    [B(Pack, NidPacket), W(Pack, LPacket), B(Pack, QScale), W(Pack, NidC), W(Pack, NidBg), W(Pack, PrvC),
     W(Pack, PrvBg)]

  const READ_POSITION := READ_ONE_GROUP + READ_DISTANCES + READ_MOVEMENT
  const READ_POSITION2 := READ_TWO_GROUPS + READ_DISTANCES + READ_MOVEMENT

  const READ_TRAIN_HEAD :=
    [B(Train, NidPacket), W(Train, LPacket), B(Train, NcCdTrain), W(Train, NcTrain), W(Train, LTrain),
     B(Train, VMaxTrain), B(Train, MLoadingGauge), B(Train, MAxleLoadCat), B(Train, MAirtight),
     W(Train, NAxle), B(Train, NIterEngine)]

  const READ_ENGINES := Loop(Train, NIterEngine, [Leaf(Train, MVoltage, 1), Leaf(Train, NidCTraction, 2)])
  const READ_NTCS := Loop(Train, NIterNtc, [Leaf(Train, NidNtcItem, 1)])

  const READ_TRAIN_DATA := READ_TRAIN_HEAD + [READ_ENGINES] + [B(Train, NIterNtc)] + [READ_NTCS]

  // ----- messages: what precedes the packets -----

  const SR_AUTHORISATION: nat := 2
  const MOVEMENT_AUTHORITY: nat := 3
  const ACK_TRAIN_DATA: nat := 8
  const RBC_VERSION: nat := 32
  const ACK_TERMINATION: nat := 39
  const TRAIN_DATA: nat := 129
  const MA_REQUEST: nat := 132
  const ACKNOWLEDGMENT: nat := 146
  const END_OF_MISSION: nat := 150
  const INITIATION: nat := 155
  const ESTABLISHED: nat := 159

  const WRITE_GROUP := [W(Msg, LMessage), L(Msg, TTrain), B(Msg, MAck), W(Msg, NidC), W(Msg, NidBg)]
  const WRITE_ENGINE := [W(Msg, LMessage), L(Msg, TTrain), B(Msg, NidEngine)]

  function WriteHead(id: nat): seq<Item> {
    if id == SR_AUTHORISATION then WRITE_GROUP + [B(Msg, QScale)] + [W(Msg, DSr)]
    else if id == ACK_TRAIN_DATA then WRITE_GROUP + [L(Msg, TOrigin)]
    else if id == RBC_VERSION then WRITE_GROUP + [B(Msg, MVersion)]
    else if id == MOVEMENT_AUTHORITY || id == ACK_TERMINATION then WRITE_GROUP
    else if id == MA_REQUEST then WRITE_ENGINE + [B(Msg, QMaReason)]
    else if id == ACKNOWLEDGMENT then WRITE_ENGINE + [L(Msg, TOrigin)]
    else if id in {TRAIN_DATA, END_OF_MISSION, INITIATION, ESTABLISHED} then WRITE_ENGINE
    else []
  }

  const READ_GROUP := [W(Msg, LMessage), L(Msg, TTrain), B(Msg, MAck), W(Msg, NidC), W(Msg, NidBg)]
  const READ_ENGINE := [W(Msg, LMessage), L(Msg, TTrain), B(Msg, NidEngine)]

  function ReadHead(id: nat): seq<Item> {
    if id == SR_AUTHORISATION then READ_GROUP + [B(Msg, QScale)] + [W(Msg, DSr)]
    else if id == ACK_TRAIN_DATA then READ_GROUP + [L(Msg, TOrigin)]
    else if id == RBC_VERSION then READ_GROUP + [B(Msg, MVersion)]
    else if id == MOVEMENT_AUTHORITY || id == ACK_TERMINATION then READ_GROUP
    else if id == MA_REQUEST then READ_ENGINE + [B(Msg, QMaReason)]
    else if id == ACKNOWLEDGMENT then READ_ENGINE + [L(Msg, TOrigin)]
    else if id in {TRAIN_DATA, END_OF_MISSION, INITIATION, ESTABLISHED} then READ_ENGINE
    else []
  }

  // ----- messages: the packets -----

  function WritePosition(nid: nat): seq<Item> {
    if nid == 0 then WRITE_POSITION else if nid == 1 then WRITE_POSITION2 else []
  }

  function ReadPosition(nid: nat): seq<Item> {
    if nid == 0 then READ_POSITION else if nid == 1 then READ_POSITION2 else []
  }

  function WritePackets(id: nat, nid: nat): seq<Item> {
    if id == MOVEMENT_AUTHORITY then WRITE_AUTHORITY
    else if id == TRAIN_DATA then WritePosition(nid) + WRITE_TRAIN_DATA
    else if id == MA_REQUEST || id == END_OF_MISSION then WritePosition(nid)
    else []
  }

  function ReadPackets(id: nat, nid: nat): seq<Item> {
    if id == MOVEMENT_AUTHORITY then READ_AUTHORITY
    else if id == TRAIN_DATA then ReadPosition(nid) + READ_TRAIN_DATA
    else if id == MA_REQUEST || id == END_OF_MISSION then ReadPosition(nid)
    else []
  }

  const WRITE_TELEGRAM :=
    [B(Msg, QUpdown), B(Msg, MVersion), B(Msg, QMedia), B(Msg, NPig), B(Msg, NTotal), B(Msg, MDup), B(Msg, MCount),
     W(Msg, NidC), W(Msg, NidBg), B(Msg, QLink)]

  const READ_TELEGRAM :=
    [B(Msg, QUpdown), B(Msg, MVersion), B(Msg, QMedia), B(Msg, NPig), B(Msg, NTotal), B(Msg, MDup), B(Msg, MCount),
     W(Msg, NidC), W(Msg, NidBg), B(Msg, QLink)]

  function WriteTelegramPacket(nid: nat): seq<Item> {
    if nid == 12 then WRITE_LEVEL1 else if nid == 41 then WRITE_TRANSITION else []
  }

  function ReadTelegramPacket(nid: nat): seq<Item> {
    if nid == 12 then READ_LEVEL1 else if nid == 41 then READ_TRANSITION else []
  }

  // ----- facts about the tables -----

  /** Each deserializer reads the fields in the order in which its serializer writes them. */
  lemma SameOrder(id: nat, nid: nat)
    ensures ReadHead(id) == WriteHead(id) && ReadPackets(id, nid) == WritePackets(id, nid)
    ensures READ_TELEGRAM == WRITE_TELEGRAM && ReadTelegramPacket(nid) == WriteTelegramPacket(nid)
  {
  }

  /** A list's layout: its fixed length, its repeated groups, every group after its count. */
  ghost predicate Layout(items: seq<Item>, n: nat, groups: seq<(Key, nat)>) {
    Counted(items, []) && Fixed(items) == n && Groups(items) == groups
  }

  const SECTIONS: (Key, nat) := (Key(Pack, NIterSection, 0), 7)
  const TRANSITIONS: (Key, nat) := (Key(Pack, NIterNext, 0), 4)
  const ENGINES: (Key, nat) := (Key(Train, NIterEngine, 0), 3)
  const NTCS: (Key, nat) := (Key(Train, NIterNtc, 0), 1)

  lemma LayoutEndSection()
    ensures Layout(WRITE_END_SECTION, 12, [])
  {
  }

  lemma LayoutOverlap()
    ensures Layout(WRITE_OVERLAP, 12, [])
  {
  }

  lemma LayoutLevel1Head()
    ensures Layout(WRITE_LEVEL1_HEAD, 10, [])
  {
  }

  lemma LayoutAuthorityHead()
    ensures Layout(WRITE_AUTHORITY_HEAD, 9, [])
  {
  }

  lemma LayoutTransitionHead()
    ensures Layout(WRITE_TRANSITION_HEAD, 12, [])
  {
  }

  lemma LayoutDistances()
    ensures Layout(WRITE_DISTANCES, 9, []) && Layout(WRITE_MOVEMENT, 7, [])
  {
  }

  lemma LayoutOneGroup()
    ensures Layout(WRITE_ONE_GROUP, 8, [])
  {
  }

  lemma LayoutTwoGroups()
    ensures Layout(WRITE_TWO_GROUPS, 12, [])
  {
  }

  lemma LayoutTrainHead()
    ensures Layout(WRITE_TRAIN_HEAD, 15, [])
  {
  }

  lemma LayoutTelegram()
    ensures Layout(WRITE_TELEGRAM, 12, [])
  {
  }

  /** What the lengths set by the init functions of the packets amount to, and where their repeated groups are. */
  lemma PacketLayouts()
    ensures Layout(WRITE_LEVEL1, 34, [SECTIONS]) && Layout(WRITE_AUTHORITY, 33, [SECTIONS])
    ensures Layout(WRITE_TRANSITION, 12, [TRANSITIONS]) && Layout(WRITE_TRAIN_DATA, 16, [ENGINES, NTCS])
    ensures Layout(WRITE_POSITION, 24, []) && Layout(WRITE_POSITION2, 28, [])
  {
    LayoutLevel1();
    LayoutAuthority();
    LayoutTransition();
    LayoutTrainData();
    LayoutPositions();
  }

  lemma LayoutLevel1()
    ensures Layout(WRITE_LEVEL1, 34, [SECTIONS])
  {
    hide Layout;
    LayoutLevel1Head();
    assert WRITE_LEVEL1_HEAD[7] == B(Pack, NIterSection);
    LayoutGroup(WRITE_LEVEL1_HEAD, 10, [], WRITE_SECTIONS, SECTIONS);
    LayoutEndSection();
    LayoutOverlap();
    LayoutJoin3(WRITE_LEVEL1_HEAD + [WRITE_SECTIONS], 10, WRITE_END_SECTION, 12, WRITE_OVERLAP, 12, [SECTIONS]);
  }

  lemma LayoutAuthority()
    ensures Layout(WRITE_AUTHORITY, 33, [SECTIONS])
  {
    hide Layout;
    LayoutAuthorityHead();
    assert WRITE_AUTHORITY_HEAD[6] == B(Pack, NIterSection);
    LayoutGroup(WRITE_AUTHORITY_HEAD, 9, [], WRITE_SECTIONS, SECTIONS);
    LayoutEndSection();
    LayoutOverlap();
    LayoutJoin3(WRITE_AUTHORITY_HEAD + [WRITE_SECTIONS], 9, WRITE_END_SECTION, 12, WRITE_OVERLAP, 12, [SECTIONS]);
  }

  lemma LayoutTransition()
    ensures Layout(WRITE_TRANSITION, 12, [TRANSITIONS])
  {
    hide Layout;
    LayoutTransitionHead();
    assert WRITE_TRANSITION_HEAD[8] == B(Pack, NIterNext);
    LayoutGroup(WRITE_TRANSITION_HEAD, 12, [], WRITE_TRANSITIONS, TRANSITIONS);
    assert [] + [TRANSITIONS] == [TRANSITIONS];
  }

  lemma LayoutTrainData()
    ensures Layout(WRITE_TRAIN_DATA, 16, [ENGINES, NTCS])
  {
    hide Layout;
    LayoutTrainHead();
    assert WRITE_TRAIN_HEAD[10] == B(Train, NIterEngine);
    LayoutGroup(WRITE_TRAIN_HEAD, 15, [], WRITE_ENGINES, ENGINES);
    var engines := WRITE_TRAIN_HEAD + [WRITE_ENGINES];
    LayoutNtcCount();
    LayoutJoin(engines, 15, [ENGINES], [B(Train, NIterNtc)], 1, []);
    assert [ENGINES] + [] == [ENGINES];
    var counted := engines + [B(Train, NIterNtc)];
    assert counted[|engines|] == B(Train, NIterNtc);
    LayoutGroup(counted, 16, [ENGINES], WRITE_NTCS, NTCS);
    assert [ENGINES] + [NTCS] == [ENGINES, NTCS];
  }

  lemma LayoutNtcCount()
    ensures Layout([B(Train, NIterNtc)], 1, [])
  {
  }

  lemma LayoutPositions()
    ensures Layout(WRITE_POSITION, 24, []) && Layout(WRITE_POSITION2, 28, [])
  {
    hide Layout;
    LayoutDistances();
    LayoutOneGroup();
    LayoutTwoGroups();
    LayoutJoin3(WRITE_ONE_GROUP, 8, WRITE_DISTANCES, 9, WRITE_MOVEMENT, 7, []);
    LayoutJoin3(WRITE_TWO_GROUPS, 12, WRITE_DISTANCES, 9, WRITE_MOVEMENT, 7, []);
  }

  /** A repeated group may follow any list that holds its count. */
  lemma LayoutGroup(a: seq<Item>, n: nat, groups: seq<(Key, nat)>, loop: Item, group: (Key, nat))
    requires Layout(a, n, groups) && loop.Loop? && One(Leaf(loop.part, loop.count, 1)) in a
    requires group == (Key(loop.part, loop.count, 0), BodyWidth(loop.body))
    ensures Layout(a + [loop], n, groups + [group])
  {
    CountedLoop(a, loop, []);
    LengthAppend(a, [loop]);
    assert [loop][1..] == [];
  }

  lemma {:induction false} CountedLoop(a: seq<Item>, loop: Item, before: seq<Leaf>)
    requires Counted(a, before) && loop.Loop?
    requires One(Leaf(loop.part, loop.count, 1)) in a || Leaf(loop.part, loop.count, 1) in before
    ensures Counted(a + [loop], before)
    decreases |a|
  {
    if a == [] {
      assert a + [loop] == [loop] && [loop][1..] == [];
      CountsIn(before, Leaf(loop.part, loop.count, 1));
    } else {
      assert (a + [loop])[1..] == a[1..] + [loop];
      match a[0]
      case One(l) => CountedLoop(a[1..], loop, [l] + before);
      case Loop(_, _, _) => CountedLoop(a[1..], loop, before);
    }
  }

  lemma {:induction false} CountsMore(less: seq<Leaf>, more: seq<Leaf>, p: Part, count: Name)
    requires Counts(less, p, count) && forall l :: l in less ==> l in more
    ensures Counts(more, p, count)
    decreases |less|
  {
    if less[0].part == p && less[0].name == count {
      CountsIn(more, less[0]);
    } else {
      CountsMore(less[1..], more, p, count);
    }
  }

  lemma {:induction false} CountsIn(before: seq<Leaf>, l: Leaf)
    requires l in before
    ensures Counts(before, l.part, l.name)
    decreases |before|
  {
    if before[0] != l {
      CountsIn(before[1..], l);
    }
  }

  lemma {:induction false} CountedMore(items: seq<Item>, less: seq<Leaf>, more: seq<Leaf>)
    requires Counted(items, less) && forall l :: l in less ==> l in more
    ensures Counted(items, more)
    decreases |items|
  {
    if items != [] {
      match items[0]
      case One(l) => CountedMore(items[1..], [l] + less, [l] + more);
      case Loop(p, count, _) =>
        CountsMore(less, more, p, count);
        CountedMore(items[1..], less, more);
    }
  }

  lemma {:induction false} CountedAppend(a: seq<Item>, b: seq<Item>, before: seq<Leaf>)
    requires Counted(a, before) && Counted(b, [])
    ensures Counted(a + b, before)
    decreases |a|
  {
    if a == [] {
      assert a + b == b;
      CountedMore(b, [], before);
    } else {
      assert (a + b)[1..] == a[1..] + b;
      match a[0]
      case One(l) => CountedAppend(a[1..], b, [l] + before);
      case Loop(_, _, _) => CountedAppend(a[1..], b, before);
    }
  }

  lemma {:induction false} LengthAppend(a: seq<Item>, b: seq<Item>)
    ensures Fixed(a + b) == Fixed(a) + Fixed(b) && Groups(a + b) == Groups(a) + Groups(b)
    decreases |a|
  {
    if a == [] {
      assert a + b == b;
    } else {
      assert (a + b)[1..] == a[1..] + b;
      LengthAppend(a[1..], b);
    }
  }

  lemma LayoutJoin(a: seq<Item>, na: nat, ga: seq<(Key, nat)>, b: seq<Item>, nb: nat, gb: seq<(Key, nat)>)
    requires Layout(a, na, ga) && Layout(b, nb, gb)
    ensures Layout(a + b, na + nb, ga + gb)
  {
    CountedAppend(a, b, []);
    LengthAppend(a, b);
  }

  lemma LayoutJoin3(a: seq<Item>, na: nat, b: seq<Item>, nb: nat, c: seq<Item>, nc: nat, groups: seq<(Key, nat)>)
    requires Layout(a, na, groups) && Layout(b, nb, []) && Layout(c, nc, [])
    ensures Layout(a + b + c, na + nb + nc, groups)
  {
    LayoutJoin(a, na, groups, b, nb, []);
    LayoutJoin(a + b, na + nb, groups + [], c, nc, []);
    assert groups + [] + [] == groups;
  }
}
