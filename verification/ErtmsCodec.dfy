/** Writing the fields of a structure into a byte buffer and reading them back, field list by field list. */
module ErtmsCodec {
  import opened Bytes

  /** The parts of a message: its own fields, the packet it carries, the train data packet that may follow. */
  datatype Part = Msg | Pack | Train

  datatype Name =
    | NidMessage | LMessage | TTrain | MAck | NidC | NidBg | QScale | DSr | TOrigin | MVersion | NidEngine | QMaReason
    | QUpdown | QMedia | NPig | NTotal | MDup | MCount | QLink
    | NidPacket | LPacket | QDir | VMain | VEma | TEma | NIterSection
    | SectionLength | SectionTimer | SectionTime | SectionDistance
    | EndSectionLength | EndSectionTimer | EndSectionTime | EndSectionDistance
    | EndTimer | EndTime | EndDistance | QDangerPoint | DDp | VReleaseDp
    | OverlapTimer | DStartOl | OverlapTime | OverlapDistance | VReleaseOl
    | DLeveltr | MLeveltr | NidNtc | LAckLeveltr | NIterNext | MLeveltrNext | NidNtcNext | LAckLeveltrNext
    | PrvC | PrvBg | DLrbg | QDirLrbg | QDLrbg | LDoubtOver | LDoubtUnder | QLength | LTrainInit | VTrain | QDirTrain
    | MMode | MLevel
    | NcCdTrain | NcTrain | LTrain | VMaxTrain | MLoadingGauge | MAxleLoadCat | MAirtight | NAxle
    | NIterEngine | MVoltage | NidCTraction | NIterNtc | NidNtcItem

  /** A field; i is its index when it belongs to an array, otherwise 0. */
  datatype Key = Key(part: Part, name: Name, i: nat)
  type Struct = map<Key, nat>

  function Get(m: Struct, k: Key): nat {
    if k in m then m[k] else 0
  }

  type Width = w: nat | w == 1 || w == 2 || w == 4 witness 1
  datatype Leaf = Leaf(part: Part, name: Name, width: Width)

  /** A field, or a group of fields repeated as often as an earlier one-byte field says. */
  datatype Item = One(leaf: Leaf) | Loop(part: Part, count: Name, body: seq<Leaf>)

  // ----- writing -----

  function WriteLeaf(m: Struct, l: Leaf, i: nat): (bs: seq<Byte>)
    ensures |bs| == l.width
  {
    BigEndian(Get(m, Key(l.part, l.name, i)), l.width)
  }

  function WriteBody(m: Struct, body: seq<Leaf>, i: nat): seq<Byte> {
    if body == [] then [] else WriteLeaf(m, body[0], i) + WriteBody(m, body[1..], i)
  }

  function WriteLoop(m: Struct, body: seq<Leaf>, n: nat): seq<Byte> {
    if n == 0 then [] else WriteLoop(m, body, n - 1) + WriteBody(m, body, n - 1)
  }

  function WriteItem(m: Struct, item: Item): seq<Byte> {
    match item
    case One(l) => WriteLeaf(m, l, 0)
    case Loop(p, count, body) => WriteLoop(m, body, Get(m, Key(p, count, 0)))
  }

  function Write(m: Struct, items: seq<Item>): seq<Byte> {
    if items == [] then [] else WriteItem(m, items[0]) + Write(m, items[1..])
  }

  // ----- reading -----

  function At(buf: seq<Byte>, pos: nat): Byte {
    if pos < |buf| then buf[pos] else 0
  }

  function Window(buf: seq<Byte>, pos: nat, w: nat): (bs: seq<Byte>)
    ensures |bs| == w && forall j :: 0 <= j < w ==> bs[j] == At(buf, pos + j)
  {
    if w == 0 then [] else Window(buf, pos, w - 1) + [At(buf, pos + w - 1)]
  }

  /** A structure being filled and the position reached in the buffer. */
  datatype Cursor = Cursor(m: Struct, pos: nat)

  function ReadLeaf(c: Cursor, l: Leaf, i: nat, buf: seq<Byte>): Cursor {
    Cursor(c.m[Key(l.part, l.name, i) := Value(Window(buf, c.pos, l.width))], c.pos + l.width)
  }

  function ReadBody(c: Cursor, body: seq<Leaf>, i: nat, buf: seq<Byte>): Cursor
    decreases |body|
  {
    if body == [] then c else ReadBody(ReadLeaf(c, body[0], i, buf), body[1..], i, buf)
  }

  function ReadLoop(c: Cursor, body: seq<Leaf>, n: nat, buf: seq<Byte>): Cursor
    decreases n
  {
    if n == 0 then c else ReadBody(ReadLoop(c, body, n - 1, buf), body, n - 1, buf)
  }

  function ReadItem(c: Cursor, item: Item, buf: seq<Byte>): Cursor {
    match item
    case One(l) => ReadLeaf(c, l, 0, buf)
    case Loop(p, count, body) => ReadLoop(c, body, Get(c.m, Key(p, count, 0)), buf)
  }

  function Read(c: Cursor, items: seq<Item>, buf: seq<Byte>): Cursor
    decreases |items|
  {
    if items == [] then c else Read(ReadItem(c, items[0], buf), items[1..], buf)
  }

  // ----- which fields a list covers -----

  function KeysBody(body: seq<Leaf>, i: nat): set<Key> {
    if body == [] then {} else {Key(body[0].part, body[0].name, i)} + KeysBody(body[1..], i)
  }

  function KeysLoop(body: seq<Leaf>, n: nat): set<Key> {
    if n == 0 then {} else KeysLoop(body, n - 1) + KeysBody(body, n - 1)
  }

  function KeysItem(m: Struct, item: Item): set<Key> {
    match item
    case One(l) => {Key(l.part, l.name, 0)}
    case Loop(p, count, body) => KeysLoop(body, Get(m, Key(p, count, 0)))
  }

  function Keys(m: Struct, items: seq<Item>): set<Key> {
    if items == [] then {} else KeysItem(m, items[0]) + Keys(m, items[1..])
  }

  /** Every value fits its field. */
  predicate FitsLeaf(m: Struct, l: Leaf, i: nat) {
    Get(m, Key(l.part, l.name, i)) < Range(l.width)
  }

  predicate FitsBody(m: Struct, body: seq<Leaf>, i: nat) {
    body != [] ==> FitsLeaf(m, body[0], i) && FitsBody(m, body[1..], i)
  }

  predicate FitsItem(m: Struct, item: Item) {
    match item
    case One(l) => FitsLeaf(m, l, 0)
    case Loop(p, count, body) => forall i :: 0 <= i < Get(m, Key(p, count, 0)) ==> FitsBody(m, body, i)
  }

  predicate Fits(m: Struct, items: seq<Item>) {
    items != [] ==> FitsItem(m, items[0]) && Fits(m, items[1..])
  }

  /** Every repeated group comes after its count. */
  predicate Counted(items: seq<Item>, before: seq<Leaf>)
    decreases |items|
  {
    items == [] ||
    match items[0]
    case One(l) => Counted(items[1..], [l] + before)
    case Loop(p, count, _) => Counts(before, p, count) && Counted(items[1..], before)
  }

  predicate Counts(before: seq<Leaf>, p: Part, count: Name) {
    before != [] && ((before[0].part == p && before[0].name == count) || Counts(before[1..], p, count))
  }

  // ----- reading back what was written -----

  predicate Placed(buf: seq<Byte>, pos: nat, bs: seq<Byte>) {
    pos + |bs| <= |buf| && buf[pos..pos + |bs|] == bs
  }

  lemma PlacedParts(buf: seq<Byte>, pos: nat, a: seq<Byte>, b: seq<Byte>)
    requires Placed(buf, pos, a + b)
    ensures Placed(buf, pos, a) && Placed(buf, pos + |a|, b)
  {
    var s := buf[pos..pos + |a + b|];
    assert buf[pos..pos + |a|] == s[..|a|] == a;
    assert buf[pos + |a|..pos + |a| + |b|] == s[|a|..] == b;
  }

  /** The structure d holds the fields of m that have been read, and otherwise what it held before. */
  ghost predicate Mixed(d: Struct, m: Struct, old0: Struct, seen: set<Key>) {
    forall k :: Get(d, k) == if k in seen then Get(m, k) else Get(old0, k)
  }

  lemma LeafBack(m: Struct, c: Cursor, old0: Struct, seen: set<Key>, l: Leaf, i: nat, buf: seq<Byte>)
    requires Mixed(c.m, m, old0, seen) && FitsLeaf(m, l, i) && Placed(buf, c.pos, WriteLeaf(m, l, i))
    ensures var d := ReadLeaf(c, l, i, buf);
            Mixed(d.m, m, old0, seen + {Key(l.part, l.name, i)}) && d.pos == c.pos + |WriteLeaf(m, l, i)|
  {
    hide BigEndian, Value, Window, Range;
    var bs := WriteLeaf(m, l, i);
    assert Window(buf, c.pos, l.width) == bs by {
      assert forall j :: 0 <= j < l.width ==> buf[c.pos..c.pos + |bs|][j] == bs[j];
    }
    ValueBack(Get(m, Key(l.part, l.name, i)), l.width);
  }

  lemma {:induction false} BodyBack(m: Struct, c: Cursor, old0: Struct, seen: set<Key>, body: seq<Leaf>, i: nat,
      buf: seq<Byte>)
    requires Mixed(c.m, m, old0, seen) && FitsBody(m, body, i) && Placed(buf, c.pos, WriteBody(m, body, i))
    ensures var d := ReadBody(c, body, i, buf);
            Mixed(d.m, m, old0, seen + KeysBody(body, i)) && d.pos == c.pos + |WriteBody(m, body, i)|
    decreases |body|
  {
    hide Mixed, Placed, ReadLeaf, WriteLeaf, FitsLeaf;
    if body == [] {
      assert seen + {} == seen;
    } else {
      var k := Key(body[0].part, body[0].name, i);
      PlacedParts(buf, c.pos, WriteLeaf(m, body[0], i), WriteBody(m, body[1..], i));
      LeafBack(m, c, old0, seen, body[0], i, buf);
      BodyBack(m, ReadLeaf(c, body[0], i, buf), old0, seen + {k}, body[1..], i, buf);
      assert seen + {k} + KeysBody(body[1..], i) == seen + KeysBody(body, i);
    }
  }

  lemma {:induction false} LoopBack(m: Struct, c: Cursor, old0: Struct, seen: set<Key>, body: seq<Leaf>, n: nat,
      buf: seq<Byte>)
    requires Mixed(c.m, m, old0, seen) && Placed(buf, c.pos, WriteLoop(m, body, n))
    requires forall i :: 0 <= i < n ==> FitsBody(m, body, i)
    ensures var d := ReadLoop(c, body, n, buf);
            Mixed(d.m, m, old0, seen + KeysLoop(body, n)) && d.pos == c.pos + |WriteLoop(m, body, n)|
    decreases n
  {
    hide Mixed, FitsBody, Placed, WriteBody, ReadBody, KeysBody;
    if n == 0 {
      assert seen + {} == seen;
    } else {
      PlacedParts(buf, c.pos, WriteLoop(m, body, n - 1), WriteBody(m, body, n - 1));
      LoopBack(m, c, old0, seen, body, n - 1, buf);
      BodyBack(m, ReadLoop(c, body, n - 1, buf), old0, seen + KeysLoop(body, n - 1), body, n - 1, buf);
      assert seen + KeysLoop(body, n - 1) + KeysBody(body, n - 1) == seen + KeysLoop(body, n);
    }
  }

  lemma {:induction false} CountsSeen(before: seq<Leaf>, p: Part, count: Name, seen: set<Key>)
    requires Counts(before, p, count) && forall l :: l in before ==> Key(l.part, l.name, 0) in seen
    ensures Key(p, count, 0) in seen
    decreases |before|
  {
    if !(before[0].part == p && before[0].name == count) {
      CountsSeen(before[1..], p, count, seen);
    }
  }

  lemma ItemBack(m: Struct, c: Cursor, old0: Struct, seen: set<Key>, item: Item, before: seq<Leaf>, buf: seq<Byte>)
    requires Mixed(c.m, m, old0, seen) && FitsItem(m, item) && Placed(buf, c.pos, WriteItem(m, item))
    requires item.Loop? ==> Counts(before, item.part, item.count)
    requires forall l :: l in before ==> Key(l.part, l.name, 0) in seen
    ensures var d := ReadItem(c, item, buf);
            Mixed(d.m, m, old0, seen + KeysItem(m, item)) && d.pos == c.pos + |WriteItem(m, item)|
  {
    match item
    case One(l) => LeafBack(m, c, old0, seen, l, 0, buf);
    case Loop(p, count, body) =>
      CountsSeen(before, p, count, seen);
      LoopBack(m, c, old0, seen, body, Get(m, Key(p, count, 0)), buf);
  }

  /** Round trip of a field list: reading what was written gives every field of the list its value, leaves every other
      field alone, and moves exactly past what was written. */
  lemma {:induction false} ReadBack(m: Struct, c: Cursor, old0: Struct, seen: set<Key>, items: seq<Item>,
                                    before: seq<Leaf>, buf: seq<Byte>)
    requires Mixed(c.m, m, old0, seen) && Fits(m, items) && Placed(buf, c.pos, Write(m, items))
    requires Counted(items, before) && forall l :: l in before ==> Key(l.part, l.name, 0) in seen
    ensures var d := Read(c, items, buf);
            Mixed(d.m, m, old0, seen + Keys(m, items)) && d.pos == c.pos + |Write(m, items)|
    decreases |items|
  {
    if items == [] {
      assert seen + {} == seen;
    } else {
      var item := items[0];
      PlacedParts(buf, c.pos, WriteItem(m, item), Write(m, items[1..]));
      ItemBack(m, c, old0, seen, item, before, buf);
      ReadBack(m, ReadItem(c, item, buf), old0, seen + KeysItem(m, item), items[1..],
               if item.One? then [item.leaf] + before else before, buf);
      assert seen + KeysItem(m, item) + Keys(m, items[1..]) == seen + Keys(m, items);
    }
  }

  // ----- lengths -----

  function BodyWidth(body: seq<Leaf>): nat {
    if body == [] then 0 else body[0].width + BodyWidth(body[1..])
  }

  /** Bytes of the fields that are not repeated. */
  function Fixed(items: seq<Item>): nat {
    if items == [] then 0 else (if items[0].One? then items[0].leaf.width else 0) + Fixed(items[1..])
  }

  /** The repeated groups: their counts and the bytes each takes. */
  function Groups(items: seq<Item>): seq<(Key, nat)> {
    if items == [] then []
    else if items[0].One? then Groups(items[1..])
    else [(Key(items[0].part, items[0].count, 0), BodyWidth(items[0].body))] + Groups(items[1..])
  }

  function Repeated(m: Struct, groups: seq<(Key, nat)>): nat {
    if groups == [] then 0 else Get(m, groups[0].0) * groups[0].1 + Repeated(m, groups[1..])
  }

  lemma {:induction false} BodyLength(m: Struct, body: seq<Leaf>, i: nat)
    ensures |WriteBody(m, body, i)| == BodyWidth(body)
    decreases |body|
  {
    if body != [] {
      BodyLength(m, body[1..], i);
    }
  }

  lemma OneMore(n: nat, w: nat)
    requires n > 0
    ensures n * w == (n - 1) * w + w
  {
  }

  lemma {:induction false} LoopLength(m: Struct, body: seq<Leaf>, n: nat)
    ensures |WriteLoop(m, body, n)| == n * BodyWidth(body)
    decreases n
  {
    hide WriteBody, BodyWidth;
    if n > 0 {
      LoopLength(m, body, n - 1);
      BodyLength(m, body, n - 1);
      OneMore(n, BodyWidth(body));
    }
  }

  lemma {:induction false} WriteLength(m: Struct, items: seq<Item>)
    ensures |Write(m, items)| == Fixed(items) + Repeated(m, Groups(items))
    decreases |items|
  {
    if items != [] {
      WriteLength(m, items[1..]);
      match items[0]
      case One(_) =>
      case Loop(p, count, body) =>
        LoopLength(m, body, Get(m, Key(p, count, 0)));
        assert Groups(items)[1..] == Groups(items[1..]);
    }
  }

  /** Reading a list without repeated groups moves by its fixed length, whatever is in the buffer. */
  lemma {:induction false} FixedRead(c: Cursor, items: seq<Item>, buf: seq<Byte>)
    requires Groups(items) == []
    ensures Read(c, items, buf).pos == c.pos + Fixed(items)
    decreases |items|
  {
    if items != [] {
      FixedRead(ReadItem(c, items[0], buf), items[1..], buf);
    }
  }
}
