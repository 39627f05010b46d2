/** The repository's mask bytes, and the RBC that starts on them. */
module ShippedRbc {
  import opened ResourceBits
  import opened Tables
  import opened Interlocking
  import opened ShippedTables
  import opened ShippedCoherent
  import opened Handler
  import C = Control

  const SHIPPED_MASKS := C.Masks(
    [[0x08, 0x01], [0x02, 0x04, 0x18], [0x10, 0x04, 0x08, 0x03]],
    [[0x08, 0x01], [0x02, 0x04, 0x08, 0x10], [0x10, 0x04, 0x08, 0x03]])

  lemma OneBit()
    ensures Bits(0x01) == R1 && Bits(0x02) == R2 && Bits(0x04) == R3 && Bits(0x08) == R4 && Bits(0x10) == R5
  {
  }

  lemma TwoBits()
    ensures Bits(0x18) == R4 + R5 && Bits(0x03) == R1 + R2
  {
    OneBit();
    MaskSets(0x08, 0x10);
    MaskSets(0x01, 0x02);
  }

  /** The bytes of the source are the bit sets on which everything is proved. */
  lemma ShippedBytes(w: nat)
    ensures C.MasksOk(Shipped(w), SHIPPED_MASKS)
  {
    hide Bits;
    OneBit();
    TwoBits();
    var N, m := Shipped(w), SHIPPED_MASKS;
    assert C.Packs(m.req[0], N[0].req.mask) && C.Packs(m.req[1], N[1].req.mask) && C.Packs(m.req[2], N[2].req.mask);
    assert C.Packs(m.lib[0], N[0].lib.mask) && C.Packs(m.lib[1], N[1].lib.mask) && C.Packs(m.lib[2], N[2].lib.mask);
  }

  /** The program's start: the RBC on the repository's tables stands in the first world of every run. */
  method PowerUp(w: nat) returns (rbc: C.Rbc, ghost start: World)
    requires w == 3 || w == 4
    ensures fresh(rbc) && fresh(rbc.nextReq) && fresh(rbc.nextLib) && fresh(rbc.posTrains)
    ensures rbc.net == Shipped(w) && Tracks(rbc, start) && Reaches(rbc.net, Start(rbc.net), start)
  {
    hide NetworkOk, C.MasksOk, Inv;
    ShippedOk(w);
    UsableNetwork(Shipped(w));
    ShippedBytes(w);
    rbc := new C.Rbc(Shipped(w), SHIPPED_MASKS);
    start := Start(rbc.net);
    StartInv(rbc.net, start);
    ReachHere(rbc.net, start);
  }
}
