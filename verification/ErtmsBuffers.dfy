/** The serializers and deserializers at work on a buffer in place. */
module ErtmsBuffers {
  import opened Bytes
  import opened ErtmsCodec
  import opened ErtmsTables
  import opened Ertms

  lemma Quotients(v: nat)
    ensures v / 0x100 / 0x100 == v / 0x1_0000 && v / 0x1_0000 / 0x100 == v / 0x100_0000
  {
  }

  lemma OneByte(v: nat)
    ensures BigEndian(v, 1) == [v % 256]
  {
  }

  lemma TwoBytes(v: nat)
    ensures BigEndian(v, 2) == [(v / 0x100) % 256, v % 256]
  {
    OneByte(v / 0x100);
  }

  lemma FourBytes(v: nat)
    ensures BigEndian(v, 4) == [(v / 0x100_0000) % 256, (v / 0x1_0000) % 256, (v / 0x100) % 256, v % 256]
  {
    Quotients(v);
    TwoBytes(v / 0x100 / 0x100);
    assert BigEndian(v / 0x100, 3) == BigEndian(v / 0x100 / 0x100, 2) + [(v / 0x100) % 256];
  }

  method SerializeUint16(v: nat, buffer: array<Byte>, counter: nat) returns (next: nat)
    requires counter + 2 <= buffer.Length
    modifies buffer
    ensures next == counter + 2 && buffer[..next] == old(buffer[..counter]) + BigEndian(v, 2)
  {
    TwoBytes(v);
    buffer[counter] := (v / 0x100) % 256;
    buffer[counter + 1] := v % 256;
    next := counter + 2;
  }

  method SerializeUint32(v: nat, buffer: array<Byte>, counter: nat) returns (next: nat)
    requires counter + 4 <= buffer.Length
    modifies buffer
    ensures next == counter + 4 && buffer[..next] == old(buffer[..counter]) + BigEndian(v, 4)
  {
    FourBytes(v);
    buffer[counter] := (v / 0x100_0000) % 256;
    buffer[counter + 1] := (v / 0x1_0000) % 256;
    buffer[counter + 2] := (v / 0x100) % 256;
    buffer[counter + 3] := v % 256;
    next := counter + 4;
  }

  method PutLeaf(m: Struct, l: Leaf, i: nat, buffer: array<Byte>, counter: nat) returns (next: nat)
    requires counter + l.width <= buffer.Length
    modifies buffer
    ensures next == counter + l.width && buffer[..next] == old(buffer[..counter]) + WriteLeaf(m, l, i)
  {
    var v := Get(m, Key(l.part, l.name, i));
    if l.width == 1 {
      OneByte(v);
      buffer[counter] := v % 256;
      next := counter + 1;
    } else if l.width == 2 {
      next := SerializeUint16(v, buffer, counter);
    } else {
      next := SerializeUint32(v, buffer, counter);
    }
  }

  lemma BodyStep(m: Struct, body: seq<Leaf>, i: nat, j: nat)
    requires j <= |body|
    ensures j == |body| ==> WriteBody(m, body[j..], i) == []
    ensures j < |body| ==> WriteBody(m, body[j..], i) == WriteLeaf(m, body[j], i) + WriteBody(m, body[j + 1..], i)
  {
    assert j < |body| ==> body[j..][1..] == body[j + 1..];
  }

  method PutBody(m: Struct, body: seq<Leaf>, i: nat, buffer: array<Byte>, counter: nat) returns (next: nat)
    requires counter + |WriteBody(m, body, i)| <= buffer.Length
    modifies buffer
    ensures next == counter + |WriteBody(m, body, i)|
    ensures buffer[..next] == old(buffer[..counter]) + WriteBody(m, body, i)
  {
    hide WriteBody, WriteLeaf;
    ghost var start, all := buffer[..counter], WriteBody(m, body, i);
    ghost var done: seq<Byte> := [];
    next := counter;
    var j := 0;
    assert body[0..] == body;
    while j < |body|
      invariant j <= |body| && next == counter + |done|
      invariant done + WriteBody(m, body[j..], i) == all
      invariant buffer[..next] == start + done
    {
      BodyStep(m, body, i, j);
      ghost var bytes, rest := WriteLeaf(m, body[j], i), WriteBody(m, body[j + 1..], i);
      assert (done + bytes) + rest == all;
      next := PutLeaf(m, body[j], i, buffer, next);
      assert buffer[..next] == start + (done + bytes);
      done := done + bytes;
      j := j + 1;
    }
    BodyStep(m, body, i, j);
  }

  lemma {:induction false} LoopPrefix(m: Struct, body: seq<Leaf>, i: nat, n: nat)
    requires i <= n
    ensures |WriteLoop(m, body, i)| <= |WriteLoop(m, body, n)|
    decreases n
  {
    if i < n {
      LoopPrefix(m, body, i, n - 1);
    }
  }

  method PutLoop(m: Struct, body: seq<Leaf>, n: nat, buffer: array<Byte>, counter: nat) returns (next: nat)
    requires counter + |WriteLoop(m, body, n)| <= buffer.Length
    modifies buffer
    ensures next == counter + |WriteLoop(m, body, n)|
    ensures buffer[..next] == old(buffer[..counter]) + WriteLoop(m, body, n)
  {
    hide WriteBody;
    ghost var start := buffer[..counter];
    next := counter;
    for i := 0 to n
      invariant next == counter + |WriteLoop(m, body, i)| <= buffer.Length
      invariant buffer[..next] == start + WriteLoop(m, body, i)
    {
      ghost var done, bytes := WriteLoop(m, body, i), WriteBody(m, body, i);
      assert WriteLoop(m, body, i + 1) == done + bytes;
      LoopPrefix(m, body, i + 1, n);
      next := PutBody(m, body, i, buffer, next);
      assert buffer[..next] == start + (done + bytes);
    }
  }

  lemma ItemStep(m: Struct, items: seq<Item>, j: nat)
    requires j <= |items|
    ensures j == |items| ==> Write(m, items[j..]) == []
    ensures j < |items| ==> Write(m, items[j..]) == WriteItem(m, items[j]) + Write(m, items[j + 1..])
  {
    assert j < |items| ==> items[j..][1..] == items[j + 1..];
  }

  method PutItem(m: Struct, item: Item, buffer: array<Byte>, counter: nat) returns (next: nat)
    requires counter + |WriteItem(m, item)| <= buffer.Length
    modifies buffer
    ensures next == counter + |WriteItem(m, item)|
    ensures buffer[..next] == old(buffer[..counter]) + WriteItem(m, item)
  {
    match item {
      case One(l) => next := PutLeaf(m, l, 0, buffer, counter);
      case Loop(p, count, body) => next := PutLoop(m, body, Get(m, Key(p, count, 0)), buffer, counter);
    }
  }

  /** One serializer: its field list, from counter on. */
  method Put(m: Struct, items: seq<Item>, buffer: array<Byte>, counter: nat) returns (next: nat)
    requires counter + |Write(m, items)| <= buffer.Length
    modifies buffer
    ensures next == counter + |Write(m, items)|
    ensures buffer[..next] == old(buffer[..counter]) + Write(m, items)
  {
    hide Write, WriteItem;
    ghost var start, all := buffer[..counter], Write(m, items);
    ghost var done: seq<Byte> := [];
    next := counter;
    var j := 0;
    assert items[0..] == items;
    while j < |items|
      invariant j <= |items| && next == counter + |done|
      invariant done + Write(m, items[j..]) == all
      invariant buffer[..next] == start + done
    {
      ItemStep(m, items, j);
      ghost var bytes, rest := WriteItem(m, items[j]), Write(m, items[j + 1..]);
      assert (done + bytes) + rest == all;
      next := PutItem(m, items[j], buffer, next);
      assert buffer[..next] == start + (done + bytes);
      done := done + bytes;
      j := j + 1;
    }
    ItemStep(m, items, j);
  }

  method SerializeMessage(m: Struct, buffer: array<Byte>)
    requires |Serialize(m)| <= buffer.Length
    modifies buffer
    ensures Placed(buffer[..], 0, Serialize(m))
  {
    hide Write, WriteHead, WritePackets;
    var id := Get(m, MESSAGE_ID);
    buffer[0] := id % 256;
    var counter := Put(m, WriteHead(id), buffer, 1);
    counter := Put(m, WritePackets(id, Get(m, PACKET_ID)), buffer, counter);
    buffer[counter] := END_OF_FRAME;
    assert buffer[..counter + 1] == Serialize(m);
  }

  method SerializeEbt(m: Struct, buffer: array<Byte>)
    requires |SerializeTelegram(m)| <= buffer.Length
    modifies buffer
    ensures Placed(buffer[..], 0, SerializeTelegram(m))
  {
    hide Write, WriteTelegramPacket;
    var counter := Put(m, WRITE_TELEGRAM, buffer, 0);
    counter := Put(m, WriteTelegramPacket(Get(m, PACKET_ID)), buffer, counter);
    buffer[counter] := END_OF_FRAME;
    assert buffer[..counter + 1] == SerializeTelegram(m);
  }

  // ----- reading -----

  method DeserializeUint16(buffer: array<Byte>, counter: nat) returns (v: nat)
    requires counter + 2 <= buffer.Length
    ensures v == Value(Window(buffer[..], counter, 2))
  {
    v := (buffer[counter] as nat) * 0x100;
    v := v + buffer[counter + 1];
    WindowBytes(buffer[..], counter);
  }

  method DeserializeUint32(buffer: array<Byte>, counter: nat) returns (v: nat)
    requires counter + 4 <= buffer.Length
    ensures v == Value(Window(buffer[..], counter, 4))
  {
    v := (buffer[counter] as nat) * 0x100_0000;
    v := v + (buffer[counter + 1] as nat) * 0x1_0000;
    v := v + (buffer[counter + 2] as nat) * 0x100;
    v := v + buffer[counter + 3];
    WindowBytes(buffer[..], counter);
  }

  lemma WindowBytes(buf: seq<Byte>, pos: nat)
    ensures Value(Window(buf, pos, 1)) == At(buf, pos)
    ensures Value(Window(buf, pos, 2)) == 0x100 * (At(buf, pos) as int) + At(buf, pos + 1)
    ensures Value(Window(buf, pos, 4)) == 0x100_0000 * (At(buf, pos) as int) + 0x1_0000 * (At(buf, pos + 1) as int)
                                          + 0x100 * (At(buf, pos + 2) as int) + At(buf, pos + 3)
  {
    assert Window(buf, pos, 4)[..3] == Window(buf, pos, 3);
    assert Window(buf, pos, 3)[..2] == Window(buf, pos, 2);
    assert Window(buf, pos, 2)[..1] == Window(buf, pos, 1);
    assert Window(buf, pos, 1)[..0] == [];
  }

  method TakeLeaf(c: Cursor, l: Leaf, i: nat, buffer: array<Byte>) returns (d: Cursor)
    requires c.pos + l.width <= buffer.Length
    ensures d == ReadLeaf(c, l, i, buffer[..])
  {
    var v: nat;
    if l.width == 1 {
      v := buffer[c.pos];
      WindowBytes(buffer[..], c.pos);
    } else if l.width == 2 {
      v := DeserializeUint16(buffer, c.pos);
    } else {
      v := DeserializeUint32(buffer, c.pos);
    }
    d := Cursor(c.m[Key(l.part, l.name, i) := v], c.pos + l.width);
  }

  lemma {:induction false} BodyGrows(c: Cursor, body: seq<Leaf>, i: nat, buf: seq<Byte>)
    ensures ReadBody(c, body, i, buf).pos >= c.pos
    decreases |body|
  {
    if body != [] {
      BodyGrows(ReadLeaf(c, body[0], i, buf), body[1..], i, buf);
    }
  }

  lemma LoopStep(c: Cursor, body: seq<Leaf>, n: nat, buf: seq<Byte>)
    requires n > 0
    ensures ReadLoop(c, body, n, buf) == ReadBody(ReadLoop(c, body, n - 1, buf), body, n - 1, buf)
  {
  }

  lemma {:induction false} LoopGrows(c: Cursor, body: seq<Leaf>, i: nat, n: nat, buf: seq<Byte>)
    requires i <= n
    ensures ReadLoop(c, body, i, buf).pos <= ReadLoop(c, body, n, buf).pos
    decreases n
  {
    hide ReadBody, ReadLoop;
    if i < n {
      LoopGrows(c, body, i, n - 1, buf);
      LoopStep(c, body, n, buf);
      BodyGrows(ReadLoop(c, body, n - 1, buf), body, n - 1, buf);
    }
  }

  lemma {:induction false} ReadGrows(c: Cursor, items: seq<Item>, buf: seq<Byte>)
    ensures Read(c, items, buf).pos >= c.pos
    decreases |items|
  {
    if items != [] {
      if items[0].Loop? {
        LoopGrows(c, items[0].body, 0, Get(c.m, Key(items[0].part, items[0].count, 0)), buf);
      }
      ReadGrows(ReadItem(c, items[0], buf), items[1..], buf);
    }
  }

  method TakeBody(c: Cursor, body: seq<Leaf>, i: nat, buffer: array<Byte>) returns (d: Cursor)
    requires ReadBody(c, body, i, buffer[..]).pos <= buffer.Length
    ensures d == ReadBody(c, body, i, buffer[..])
  {
    d := c;
    var j := 0;
    while j < |body|
      invariant j <= |body|
      invariant ReadBody(d, body[j..], i, buffer[..]) == ReadBody(c, body, i, buffer[..])
    {
      assert body[j..][1..] == body[j + 1..];
      BodyGrows(ReadLeaf(d, body[j], i, buffer[..]), body[j + 1..], i, buffer[..]);
      d := TakeLeaf(d, body[j], i, buffer);
      j := j + 1;
    }
  }

  method TakeLoop(c: Cursor, body: seq<Leaf>, n: nat, buffer: array<Byte>) returns (d: Cursor)
    requires ReadLoop(c, body, n, buffer[..]).pos <= buffer.Length
    ensures d == ReadLoop(c, body, n, buffer[..])
  {
    d := c;
    for i := 0 to n
      invariant d == ReadLoop(c, body, i, buffer[..])
    {
      LoopGrows(c, body, i + 1, n, buffer[..]);
      d := TakeBody(d, body, i, buffer);
    }
  }

  /** One deserializer: its field list, from the cursor on. The buffer has to hold what it reads. */
  method Take(c: Cursor, items: seq<Item>, buffer: array<Byte>) returns (d: Cursor)
    requires Read(c, items, buffer[..]).pos <= buffer.Length
    ensures d == Read(c, items, buffer[..])
  {
    d := c;
    var j := 0;
    while j < |items|
      invariant j <= |items|
      invariant Read(d, items[j..], buffer[..]) == Read(c, items, buffer[..])
    {
      assert items[j..][1..] == items[j + 1..];
      ReadGrows(ReadItem(d, items[j], buffer[..]), items[j + 1..], buffer[..]);
      match items[j] {
        case One(l) => d := TakeLeaf(d, l, 0, buffer);
        case Loop(p, count, body) => d := TakeLoop(d, body, Get(d.m, Key(p, count, 0)), buffer);
      }
      j := j + 1;
    }
  }

  method DeserializeMessage(buffer: array<Byte>, messNb: nat, dest: Struct) returns (m: Struct, code: int)
    requires Deserialize(messNb, dest, buffer[..]).0.pos < buffer.Length
    ensures (m, code) == (Deserialize(messNb, dest, buffer[..]).0.m, Deserialize(messNb, dest, buffer[..]).1)
  {
    hide Read, ReadHead, ReadPackets;
    ghost var c := Read(Cursor(dest, 1), ReadHead(messNb), buffer[..]);
    ReadGrows(c, ReadPackets(messNb, Peeked(messNb, c, buffer[..])), buffer[..]);
    var head := Take(Cursor(dest, 1), ReadHead(messNb), buffer);
    var nid := if messNb == END_OF_MISSION then Get(head.m, PACKET_ID) else buffer[head.pos];
    var end := Take(head, ReadPackets(messNb, nid), buffer);
    m := end.m;
    if buffer[end.pos] == END_OF_FRAME {
      return m, 0;
    } else {
      return m, -2;
    }
  }

  method DeserializeEbt(buffer: array<Byte>, dest: Struct) returns (m: Struct, code: int)
    requires DeserializeTelegram(dest, buffer[..]).0.pos < buffer.Length
    ensures (m, code) == (DeserializeTelegram(dest, buffer[..]).0.m, DeserializeTelegram(dest, buffer[..]).1)
  {
    hide Read, ReadTelegramPacket;
    ghost var c := Read(Cursor(dest, 0), READ_TELEGRAM, buffer[..]);
    ReadGrows(c, ReadTelegramPacket(At(buffer[..], c.pos)), buffer[..]);
    var head := Take(Cursor(dest, 0), READ_TELEGRAM, buffer);
    var end := Take(head, ReadTelegramPacket(buffer[head.pos]), buffer);
    m := end.m;
    if buffer[end.pos] == END_OF_FRAME {
      return m, 0;
    } else {
      return m, -2;
    }
  }

  /** Sending and receiving a message over one buffer. */
  method Exchange(m: Struct, dest: Struct, buffer: array<Byte>) returns (r: Struct, code: int)
    requires FitsMessage(m) && Announced(m, dest) && InitLength(m) < buffer.Length
    modifies buffer
    ensures code == 0 && Mixed(r, m, dest, MessageKeys(m))
  {
    hide Serialize, Deserialize, Mixed, MessageKeys, FitsMessage, Announced, InitLength;
    SerializedLength(m);
    SerializeMessage(m, buffer);
    MessageRoundTrip(m, dest, buffer[..]);
    r, code := DeserializeMessage(buffer, Get(m, MESSAGE_ID), dest);
  }
}
