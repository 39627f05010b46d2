/** Bytes as numbers. */
module Bytes {

  type Byte = n: nat | n < 256

  /** The low w bytes of v, most significant first. */
  function BigEndian(v: nat, w: nat): (bs: seq<Byte>)
    ensures |bs| == w
  {
    if w == 0 then [] else BigEndian(v / 256, w - 1) + [v % 256]
  }

  function Value(bs: seq<Byte>): nat {
    if bs == [] then 0 else 256 * Value(bs[..|bs| - 1]) + bs[|bs| - 1]
  }

  /** Number of values of w bytes. */
  function Range(w: nat): nat {
    if w == 0 then 1 else 256 * Range(w - 1)
  }

  lemma {:induction false} ValueBack(v: nat, w: nat)
    requires v < Range(w)
    ensures Value(BigEndian(v, w)) == v
    decreases w
  {
    if w > 0 {
      ValueBack(v / 256, w - 1);
      assert BigEndian(v, w)[..w - 1] == BigEndian(v / 256, w - 1);
    }
  }
}
