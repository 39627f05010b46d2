/** Messages between trains, control centre and supervisor, printed as text: three numbers and some fields, each
    followed by a colon. */
module TextProtocol {

  const MAXOCTETS: nat := 150
  const MAXDATA: nat := 2

  /** message_t; data holds the fields that are not NULL. */
  datatype Message = Message(reqId: int, trainId: int, code: int, data: seq<string>)

  // ----- printing -----

  function Digit(d: nat): char
    requires d < 10
  {
    '0' + (d as char)
  }

  function Digits(n: nat): string {
    if n < 10 then [Digit(n)] else Digits(n / 10) + [Digit(n % 10)]
  }

  /** What "%d" prints. */
  function Itoa(n: int): string {
    if n < 0 then "-" + Digits(-n) else Digits(n)
  }

  /** Characters taken by fields that are each followed by a colon. */
  function Width(fields: seq<string>): nat {
    if fields == [] then 0 else Width(fields[..|fields| - 1]) + |fields[|fields| - 1]| + 1
  }

  function Print(fields: seq<string>): string {
    if fields == [] then "" else Print(fields[..|fields| - 1]) + fields[|fields| - 1] + ":"
  }

  /** How many of the first n fields are sent: the guard stops at the first that would not fit. */
  function Fitting(fields: seq<string>, n: nat): (k: nat)
    requires n <= |fields|
    ensures k <= n
  {
    if n == 0 then 0
    else
      var k := Fitting(fields, n - 1);
      if k == n - 1 && Width(fields[..n]) < MAXOCTETS - 50 then n else k
  }

  function Kept(fields: seq<string>): seq<string> {
    fields[..Fitting(fields, |fields|)]
  }

  function Text(m: Message): string {
    Itoa(m.reqId) + ":" + (Itoa(m.trainId) + ":" + (Itoa(m.code) + ":" + Print(Kept(m.data))))
  }

  lemma WidthGrows(fields: seq<string>, j: nat, k: nat)
    requires j <= k <= |fields|
    ensures Width(fields[..j]) <= Width(fields[..k])
    decreases k - j
  {
    if j < k {
      assert fields[..k][..k - 1] == fields[..k - 1];
      WidthGrows(fields, j, k - 1);
    }
  }

  lemma {:induction false} FittingLongest(fields: seq<string>, n: nat, k: nat)
    requires k <= n <= |fields|
    ensures Width(fields[..k]) < MAXOCTETS - 50 <==> k <= Fitting(fields, n)
    decreases n
  {
    if n == 0 {
      assert fields[..k] == [];
    } else {
      if k < n {
        FittingLongest(fields, n - 1, k);
      }
      FittingLongest(fields, n - 1, n - 1);
      WidthGrows(fields, n - 1, n);
    }
  }

  /** The fields sent are the longest prefix that leaves room for the terminator in the 100-byte string. */
  lemma KeptIsLongestPrefix(fields: seq<string>)
    ensures Kept(fields) <= fields
    ensures forall k :: 0 <= k <= |fields| ==> (Width(fields[..k]) < 100 <==> k <= |Kept(fields)|)
  {
    forall k | 0 <= k <= |fields|
      ensures Width(fields[..k]) < MAXOCTETS - 50 <==> k <= Fitting(fields, |fields|)
    {
      FittingLongest(fields, |fields|, k);
    }
  }

  lemma {:induction false} PrintWidth(fields: seq<string>)
    ensures |Print(fields)| == Width(fields)
    decreases |fields|
  {
    if fields != [] {
      PrintWidth(fields[..|fields| - 1]);
    }
  }

  lemma {:induction false} DigitsShort(n: nat, d: nat, bound: nat)
    requires d > 0 && n < bound && bound == Pow10(d)
    ensures 1 <= |Digits(n)| <= d
    decreases d
  {
    if n >= 10 {
      assert d > 1 by {
        assert Pow10(1) == 10;
      }
      DigitsShort(n / 10, d - 1, Pow10(d - 1));
    }
  }

  function Pow10(d: nat): nat {
    if d == 0 then 1 else 10 * Pow10(d - 1)
  }

  predicate Is32(n: int) {
    -0x8000_0000 <= n < 0x8000_0000
  }

  lemma ItoaShort(n: int)
    requires Is32(n)
    ensures 1 <= |Itoa(n)| <= 11
  {
    assert Pow10(10) == 10_000_000_000 by {
      assert Pow10(2) == 100;
      assert Pow10(4) == 10_000;
      assert Pow10(6) == 1_000_000;
      assert Pow10(8) == 100_000_000;
    }
    DigitsShort(if n < 0 then -n else n, 10, 10_000_000_000);
  }

  /** Any message of 32-bit numbers fits the send buffer with its terminator, with 15 bytes to spare. */
  lemma TextFits(m: Message)
    requires Is32(m.reqId) && Is32(m.trainId) && Is32(m.code)
    ensures |Text(m)| + 1 <= 136 < MAXOCTETS + 1
  {
    ItoaShort(m.reqId);
    ItoaShort(m.trainId);
    ItoaShort(m.code);
    PrintWidth(Kept(m.data));
    KeptIsLongestPrefix(m.data);
  }

  /** send_data: the string handed to the socket. */
  method SendData(m: Message) returns (sent: string)
    requires |m.data| <= MAXDATA
    ensures sent == Text(m)
    ensures Is32(m.reqId) && Is32(m.trainId) && Is32(m.code) ==> |sent| < MAXOCTETS + 1
  {
    var dataStr := "";
    var i := 0;
    while i < |m.data|
      invariant i <= |m.data|
      invariant dataStr == Print(m.data[..i]) && |dataStr| == Width(m.data[..i])
      invariant Fitting(m.data, i) == i
    {
      assert m.data[..i + 1][..i] == m.data[..i];
      if |dataStr| + |m.data[i]| + 1 < MAXOCTETS - 50 {
        dataStr := dataStr + m.data[i] + ":";
      } else {
        break;
      }
      i := i + 1;
    }
    Stopped(m.data, i);
    sent := Itoa(m.reqId) + ":" + (Itoa(m.trainId) + ":" + (Itoa(m.code) + ":" + dataStr));
    if Is32(m.reqId) && Is32(m.trainId) && Is32(m.code) {
      TextFits(m);
    }
  }

  lemma Stopped(fields: seq<string>, i: nat)
    requires i <= |fields| && Fitting(fields, i) == i
    requires i < |fields| ==> Width(fields[..i + 1]) >= MAXOCTETS - 50
    ensures Kept(fields) == fields[..i]
  {
    KeptIsLongestPrefix(fields);
    FittingLongest(fields, i, i);
    if i < |fields| {
      assert !(i + 1 <= |Kept(fields)|);
    }
  }
}
