/** Reading a message back. */
module TextParser {
  import opened TextProtocol

  /** Length of the leading part of s without colon. */
  function Span(s: string): (n: nat)
    ensures n <= |s| && (forall k :: 0 <= k < n ==> s[k] != ':') && (n < |s| ==> s[n] == ':')
  {
    if s == "" || s[0] == ':' then 0 else 1 + Span(s[1..])
  }

  /** The tokens strtok finds: maximal stretches without colon. */
  function Tokens(s: string): seq<string>
    decreases |s|
  {
    if s == "" then []
    else if s[0] == ':' then Tokens(s[1..])
    else [s[..Span(s)]] + Tokens(s[Span(s)..])
  }

  predicate Clean(f: string) {
    f != "" && ':' !in f
  }

  predicate AllClean(fields: seq<string>) {
    forall k :: 0 <= k < |fields| ==> Clean(fields[k])
  }

  lemma SpanStops(s: string, n: nat)
    requires n <= |s| && (forall k :: 0 <= k < n ==> s[k] != ':') && (n < |s| ==> s[n] == ':')
    ensures Span(s) == n
  {
  }

  lemma {:induction false} TokensJoin(a: string, b: string)
    ensures Tokens(a + ":" + b) == Tokens(a) + Tokens(b)
    decreases |a|
  {
    var s := a + ":" + b;
    if a == "" {
      assert s[1..] == b;
    } else if a[0] == ':' {
      assert s[1..] == a[1..] + ":" + b;
      TokensJoin(a[1..], b);
    } else {
      var n := Span(a);
      assert forall k :: 0 <= k < |a| ==> s[k] == a[k];
      SpanStops(s, n);
      assert s[..n] == a[..n];
      assert s[n..] == a[n..] + ":" + b;
      TokensJoin(a[n..], b);
    }
  }

  lemma CleanToken(f: string)
    requires Clean(f)
    ensures Tokens(f) == [f]
  {
    SpanStops(f, |f|);
    assert f[..|f|] == f && f[|f|..] == "";
  }

  lemma {:induction false} TokensClean(s: string)
    ensures AllClean(Tokens(s))
    decreases |s|
  {
    if s == "" {
    } else if s[0] == ':' {
      TokensClean(s[1..]);
    } else {
      TokensClean(s[Span(s)..]);
    }
  }

  // ----- numbers -----

  predicate IsDigit(c: char) {
    '0' <= c <= '9'
  }

  predicate IsSpace(c: char) {
    c == ' ' || '\t' <= c <= '\r'
  }

  /** Value of the leading digits of s, continuing from n. */
  function Value(s: string, n: nat): nat
    decreases |s|
  {
    if s == "" || !IsDigit(s[0]) then n else Value(s[1..], 10 * n + (s[0] - '0') as nat)
  }

  /** atoi, on unbounded numbers. */
  function Atoi(s: string): int
    decreases |s|
  {
    if s == "" then 0
    else if IsSpace(s[0]) then Atoi(s[1..])
    else if s[0] == '-' then -(Value(s[1..], 0) as int)
    else if s[0] == '+' then Value(s[1..], 0)
    else Value(s, 0)
  }

  lemma {:induction false} ValueAppend(s: string, c: char, n: nat)
    requires (forall k :: 0 <= k < |s| ==> IsDigit(s[k])) && IsDigit(c)
    ensures Value(s + [c], n) == 10 * Value(s, n) + (c - '0') as nat
    decreases |s|
  {
    if s == "" {
      assert (s + [c])[1..] == "";
    } else {
      assert (s + [c])[1..] == s[1..] + [c];
      ValueAppend(s[1..], c, 10 * n + (s[0] - '0') as nat);
    }
  }

  lemma {:induction false} DigitsValue(n: nat)
    ensures Digits(n) != "" && forall k :: 0 <= k < |Digits(n)| ==> IsDigit(Digits(n)[k])
    ensures Value(Digits(n), 0) == n
  {
    if n >= 10 {
      DigitsValue(n / 10);
      ValueAppend(Digits(n / 10), Digit(n % 10), 0);
    } else {
      assert Digits(n)[1..] == "";
    }
  }

  lemma AtoiItoa(n: int)
    ensures Atoi(Itoa(n)) == n && Clean(Itoa(n))
  {
    DigitsValue(if n < 0 then -n else n);
    if n < 0 {
      assert Itoa(n)[1..] == Digits(-n);
    }
  }

  lemma {:induction false} ValueStops(d: string, rest: string, n: nat)
    requires (forall k :: 0 <= k < |d| ==> IsDigit(d[k])) && (rest == "" || !IsDigit(rest[0]))
    ensures Value(d + rest, n) == Value(d, n)
    decreases |d|
  {
    if d == "" {
      assert d + rest == rest;
    } else {
      assert (d + rest)[1..] == d[1..] + rest;
      ValueStops(d[1..], rest, 10 * n + (d[0] - '0') as nat);
    }
  }

  lemma AtoiDigits(d: string, rest: string)
    requires d != "" && (forall k :: 0 <= k < |d| ==> IsDigit(d[k])) && (rest == "" || !IsDigit(rest[0]))
    ensures Atoi(d + rest) == Value(d, 0) && Atoi("-" + (d + rest)) == -(Value(d, 0) as int)
  {
    ValueStops(d, rest, 0);
    hide Value;
    assert (d + rest)[0] == d[0] && ("-" + (d + rest))[1..] == d + rest;
  }

  /** What follows the digits of a number does not count. */
  lemma AtoiTail(n: int, rest: string)
    requires rest == "" || !('0' <= rest[0] <= '9')
    ensures Atoi(Itoa(n) + rest) == n
  {
    var d := Digits(if n < 0 then -n else n);
    DigitsValue(if n < 0 then -n else n);
    hide Digits, Value, Atoi;
    AtoiDigits(d, rest);
    if n < 0 {
      assert Itoa(n) + rest == "-" + (d + rest);
    }
  }

  /** Nor do white space and a plus sign before it; text that does not begin with a number is 0. */
  lemma AtoiHead(c: char, s: string)
    ensures c in {' ', '\t', '\n', '\r'} ==> Atoi([c] + s) == Atoi(s)
    ensures c == '+' && s != "" && '0' <= s[0] <= '9' ==> Atoi([c] + s) == Atoi(s)
    ensures 'a' <= c <= 'z' || 'A' <= c <= 'Z' ==> Atoi([c] + s) == 0
  {
    assert ([c] + s)[1..] == s && ([c] + s)[0] == c;
  }

  // ----- messages -----

  /** What receive_data makes of a text; a missing number gives code 500 and leaves the fields as they were. */
  function Parse(text: string, before: Message): Message {
    var t := Tokens(text);
    if |t| == 0 then before.(reqId := -1, trainId := -1, code := 500)
    else if |t| == 1 then before.(reqId := Atoi(t[0]), trainId := -1, code := 500)
    else if |t| == 2 then before.(reqId := Atoi(t[0]), trainId := Atoi(t[1]), code := 500)
    else Message(Atoi(t[0]), Atoi(t[1]), Atoi(t[2]), FirstFields(t[3..]))
  }

  function FirstFields(t: seq<string>): seq<string> {
    if |t| <= MAXDATA then t else t[..MAXDATA]
  }

  lemma ColonSkipped(s: string)
    requires s != "" && s[0] == ':'
    ensures Tokens(s) == Tokens(s[1..])
  {
  }

  lemma NoToken(s: string)
    requires s == ""
    ensures Tokens(s) == []
  {
  }

  lemma TokenTaken(s: string, n: nat)
    requires 0 < n <= |s| && (forall k :: 0 <= k < n ==> s[k] != ':') && (n < |s| ==> s[n] == ':')
    ensures Tokens(s) == [s[..n]] + Tokens(s[n..])
  {
    SpanStops(s, n);
  }

  /** strtok: the next token from pos on, and where to go on. */
  method NextToken(text: string, pos: nat) returns (found: bool, token: string, next: nat)
    requires pos <= |text|
    ensures pos <= next <= |text|
    ensures Tokens(text[pos..]) == if found then [token] + Tokens(text[next..]) else []
  {
    hide Tokens;
    next := pos;
    while next < |text| && text[next] == ':'
      invariant pos <= next <= |text|
      invariant Tokens(text[pos..]) == Tokens(text[next..])
    {
      ColonSkipped(text[next..]);
      assert text[next..][1..] == text[next + 1..];
      next := next + 1;
    }
    ghost var s := text[next..];
    assert Tokens(text[pos..]) == Tokens(s);
    var start := next;
    while next < |text| && text[next] != ':'
      invariant start <= next <= |text|
      invariant forall k :: 0 <= k < next - start ==> s[k] != ':'
    {
      next := next + 1;
    }
    found, token := start < next, text[start..next];
    if found {
      TokenTaken(s, next - start);
      assert s[..next - start] == token;
      assert s[next - start..] == text[next..];
    } else {
      NoToken(s);
    }
  }

  lemma ParseThree(text: string, before: Message, a: string, b: string, c: string, rest: seq<string>)
    requires Tokens(text) == [a] + ([b] + ([c] + rest))
    ensures Parse(text, before) == Message(Atoi(a), Atoi(b), Atoi(c), FirstFields(rest))
  {
    hide Tokens, Atoi, FirstFields;
    assert ([a] + ([b] + ([c] + rest)))[3..] == rest;
  }

  /** receive_data on the text of a datagram. */
  method ReceiveData(text: string, before: Message) returns (m: Message)
    ensures m == Parse(text, before)
  {
    hide Tokens, Atoi, FirstFields;
    m := before;
    ghost var all := Tokens(text);
    assert text[0..] == text;
    var found, token, pos := NextToken(text, 0);
    if !found {
      return m.(reqId := -1, trainId := -1, code := 500);
    }
    ghost var a := token;
    assert all == [a] + Tokens(text[pos..]);
    m := m.(reqId := Atoi(token));
    found, token, pos := NextToken(text, pos);
    if !found {
      return m.(trainId := -1, code := 500);
    }
    ghost var b := token;
    assert all == [a] + ([b] + Tokens(text[pos..]));
    m := m.(trainId := Atoi(token));
    found, token, pos := NextToken(text, pos);
    if !found {
      return m.(code := 500);
    }
    ParseThree(text, before, a, b, token, Tokens(text[pos..]));
    m := m.(code := Atoi(token));
    var data := ReadFields(text, pos);
    m := m.(data := data);
  }

  method ReadFields(text: string, start: nat) returns (data: seq<string>)
    requires start <= |text|
    ensures data == FirstFields(Tokens(text[start..]))
  {
    hide Tokens;
    ghost var all := Tokens(text[start..]);
    data := [];
    var found, token, pos := NextToken(text, start);
    while found && |data| < MAXDATA
      invariant |data| <= MAXDATA && pos <= |text|
      invariant all == data + if found then [token] + Tokens(text[pos..]) else []
      decreases MAXDATA - |data|
    {
      ghost var rest := Tokens(text[pos..]);
      assert all == (data + [token]) + rest;
      data := data + [token];
      found, token, pos := NextToken(text, pos);
    }
  }

  /** All tokens of some fields, in order. */
  function Flatten(fields: seq<string>): seq<string> {
    if fields == [] then [] else Flatten(fields[..|fields| - 1]) + Tokens(fields[|fields| - 1])
  }

  lemma {:induction false} PrintTokens(fields: seq<string>)
    ensures Tokens(Print(fields)) == Flatten(fields)
    decreases |fields|
  {
    if fields != [] {
      var before, f := Print(fields[..|fields| - 1]), fields[|fields| - 1];
      PrintTokens(fields[..|fields| - 1]);
      ClosedPrint(fields[..|fields| - 1], f + ":");
      TokensJoin(f, "");
      assert f + ":" + "" == f + ":";
      assert Print(fields) == before + (f + ":");
    }
  }

  /** What precedes a text printed by Print is cut off by a colon. */
  lemma ClosedPrint(fields: seq<string>, s: string)
    ensures Tokens(Print(fields) + s) == Tokens(Print(fields)) + Tokens(s)
  {
    if fields == [] {
      assert Print(fields) + s == s;
    } else {
      var p := Print(fields);
      var q := p[..|p| - 1];
      assert p == q + ":" + "" && p + s == q + ":" + s;
      TokensJoin(q, "");
      TokensJoin(q, s);
    }
  }

  lemma {:induction false} CleanFlatten(fields: seq<string>)
    requires AllClean(fields)
    ensures Flatten(fields) == fields
    decreases |fields|
  {
    hide Tokens, Clean;
    if fields != [] {
      var before, f := fields[..|fields| - 1], fields[|fields| - 1];
      CleanFlatten(before);
      CleanToken(f);
      assert Flatten(fields) == before + [f] == fields;
    }
  }

  lemma TextTokens(m: Message)
    ensures Tokens(Text(m)) == [Itoa(m.reqId), Itoa(m.trainId), Itoa(m.code)] + Flatten(Kept(m.data))
  {
    hide Tokens, Itoa, Atoi, Print, Flatten, Kept, Clean;
    var tail := Print(Kept(m.data));
    AtoiItoa(m.reqId);
    AtoiItoa(m.trainId);
    AtoiItoa(m.code);
    CleanToken(Itoa(m.reqId));
    CleanToken(Itoa(m.trainId));
    CleanToken(Itoa(m.code));
    PrintTokens(Kept(m.data));
    TokensJoin(Itoa(m.code), tail);
    TokensJoin(Itoa(m.trainId), Itoa(m.code) + ":" + tail);
    TokensJoin(Itoa(m.reqId), Itoa(m.trainId) + ":" + (Itoa(m.code) + ":" + tail));
  }

  lemma {:induction false} FlattenClean(fields: seq<string>)
    ensures AllClean(Flatten(fields))
    decreases |fields|
  {
    if fields != [] {
      FlattenClean(fields[..|fields| - 1]);
      TokensClean(fields[|fields| - 1]);
    }
  }

  lemma FieldsBack(kept: seq<string>)
    requires |kept| <= MAXDATA
    ensures FirstFields(Flatten(kept)) == kept <==> AllClean(kept)
  {
    FlattenClean(kept);
    if AllClean(kept) {
      CleanFlatten(kept);
    }
  }

  /** Round trip: the three numbers always come back; the fields that were sent come back exactly when none of them
      is empty or holds a colon. */
  lemma RoundTrip(m: Message, before: Message)
    requires |m.data| <= MAXDATA
    ensures var r := Parse(Text(m), before);
            && r.reqId == m.reqId && r.trainId == m.trainId && r.code == m.code
            && (r.data == Kept(m.data) <==> AllClean(Kept(m.data)))
  {
    var kept := Kept(m.data);
    assert |kept| <= MAXDATA;
    hide Tokens, Atoi, Itoa, Text, Kept, Flatten, AllClean;
    TextTokens(m);
    AtoiItoa(m.reqId);
    AtoiItoa(m.trainId);
    AtoiItoa(m.code);
    assert Tokens(Text(m))[3..] == Flatten(kept);
    FieldsBack(kept);
  }

  lemma OneField(f: string)
    requires |f| + 1 < MAXOCTETS - 50
    ensures Kept([f]) == [f]
  {
    assert [f][..1] == [f] && [f][..0] == [];
    assert Width([]) == 0 && Width([f]) == |f| + 1;
    assert Fitting([f], 0) == 0 && Fitting([f], 1) == 1;
  }

  /** The position 2:5 sent as one field does not come back, and neither does an empty field. */
  lemma FieldLost(reqId: int, trainId: int, code: int, before: Message)
    ensures Parse(Text(Message(reqId, trainId, code, ["2:5"])), before).data != ["2:5"]
    ensures Parse(Text(Message(reqId, trainId, code, [""])), before).data != [""]
  {
    hide Parse, Text, Kept;
    OneField("2:5");
    OneField("");
    assert "2:5"[1] == ':' && !Clean(["2:5"][0]) && !Clean([""][0]);
    RoundTrip(Message(reqId, trainId, code, ["2:5"]), before);
    RoundTrip(Message(reqId, trainId, code, [""]), before);
  }

  // ----- texts by their fields -----

  /** The fields of a text, with a colon between them. */
  function Joined(fields: seq<string>): string {
    if |fields| == 0 then "" else if |fields| == 1 then fields[0] else fields[0] + ":" + Joined(fields[1..])
  }

  lemma {:induction false} JoinedTokens(fields: seq<string>)
    requires AllClean(fields)
    ensures Tokens(Joined(fields)) == fields
    decreases |fields|
  {
    if |fields| == 1 {
      CleanToken(fields[0]);
    } else if |fields| > 1 {
      JoinedTokens(fields[1..]);
      assert Clean(fields[0]);
      CleanToken(fields[0]);
      TokensJoin(fields[0], Joined(fields[1..]));
      assert fields[0] + ":" + Joined(fields[1..]) == fields[0] + (":" + Joined(fields[1..]));
    }
  }

  /** What receive_data makes of a text, by the number of its fields: missing numbers give -1 and code 500, of the
      fields
      after the three numbers the first two are kept. */
  lemma ParseFields(f: seq<string>, before: Message)
    requires AllClean(f)
    ensures var r := Parse(Joined(f), before);
            && r.reqId == (if |f| >= 1 then Atoi(f[0]) else -1)
            && r.trainId == (if |f| >= 2 then Atoi(f[1]) else -1)
            && r.code == (if |f| >= 3 then Atoi(f[2]) else 500)
            && (|f| < 3 ==> r.data == before.data)
            && (3 <= |f| <= 5 ==> r.data == f[3..]) && (|f| > 5 ==> r.data == [f[3], f[4]])
  {
    hide Tokens, Atoi, Joined;
    JoinedTokens(f);
  }

  /** The text of a message of two fields. */
  lemma TwoFields(r: int, t: int, c: int, a: string, b: string)
    requires |a| + |b| + 2 < 100
    ensures Kept([a, b]) == [a, b] && Print([a, b]) == a + ":" + b + ":"
    ensures Text(Message(r, t, c, [a, b])) ==
      Itoa(r) + ":" + (Itoa(t) + ":" + (Itoa(c) + ":" + (a + ":" + b + ":")))
  {
    var f := [a, b];
    assert f[..1] == [a] && f[..2] == f && f[..0] == [] && [a][..0] == [];
    assert Print([a]) == a + ":" && Width([a]) == |a| + 1 && Width(f) == |a| + |b| + 2;
    assert Fitting(f, 0) == 0 && Fitting(f, 1) == 1 && Fitting(f, 2) == 2;
  }

  lemma Printed()
    ensures Digits(7) == "7" && Digits(2) == "2" && Digits(101) == "101" && Digits(120) == "120" && Digits(250) == "250"
  {
    assert Digits(1) == "1" && Digits(25) == "25";
    assert Digits(10) == "10" && Digits(12) == "12";
  }

  /** A position report as it goes over the wire, and a negative number. */
  lemma OnTheWire()
    ensures Text(Message(7, 2, 101, ["25", "130"])) == "7:2:101:25:130:"
    ensures Itoa(-120) == "-120" && Atoi("-120") == -120 && Atoi("250") == 250
  {
    hide Digits, Kept, Print, Atoi;
    TwoFields(7, 2, 101, "25", "130");
    Printed();
    AtoiItoa(-120);
    AtoiItoa(250);
  }
}
