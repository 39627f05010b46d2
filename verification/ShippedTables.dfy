/** The tables of the repository, and the proof that they are coherent. */
module ShippedTables {
  import opened Tables

  const PATH_1 := [1, 2, 3, 12, 13, 7, 8, 9]
  const PATH_2 := [21, 17, 11, 251, 26, 250, 25, 20]
  const PATH_3 := [22, 23, 24, 25, 250, 26, 251, 27, 28, 29, 11, 12, 13, 7, 8, 9]

  const COMMANDS_1: seq<seq<Command>> := [
    [Command(0x1A2, true), Command(0x192, true), Command(0x212, false), Command(0x202, false), Command(0x1D2, true),
        Command(0x1E2, true)],
    [Command(0x112, true), Command(0x102, false)]]
  const COMMANDS_2: seq<seq<Command>> := [
    [Command(0x132, false), Command(0x142, false)],
    [Command(0x152, false), Command(0x162, false)],
    [Command(0x192, false), Command(0x212, true), Command(0x1F2, false), Command(0x1B2, true), Command(0x182, false)]]
  const COMMANDS_3: seq<seq<Command>> := [
    [Command(0x1B2, false), Command(0x1F2, true)],
    [Command(0x152, true), Command(0x162, false)],
    [Command(0x192, false), Command(0x212, false), Command(0x202, false), Command(0x1D2, true), Command(0x1E2, true)],
    [Command(0x102, false), Command(0x112, false), Command(0x122, true), Command(0x132, true), Command(0x142, true)]]

  /** Resource bits R1 to R5 as sets: 0b00001, 0b00010, 0b00100, 0b01000, 0b10000, and the two composite masks. */
  const R1: set<nat> := {0}
  const R2: set<nat> := {1}
  const R3: set<nat> := {2}
  const R4: set<nat> := {3}
  const R5: set<nat> := {4}

  const REQ_1 := Stops([3, 9], [R4, R1], [2, 7], 2)
  const LIB_1 := Stops([12, 1], [R4, R1], [3, 8], 2)
  const REQ_2 := Stops([21, 17, 11], [R2, R3, R4 + R5], [0, 1, 2], 3)
  const REQ_3 := Stops([24, 29, 11, 9], [R5, R3, R4, R1 + R2], [2, 9, 10, 15], 4)
  const LIB_3 := Stops([27, 11, 12, 22], [R5, R3, R4, R1 + R2], [7, 10, 11, 16], 4)

  /** Release list of train 2, with the cursor wrapping after w entries. */
  function Lib2(w: nat): Stops {
    Stops([17, 11, 251, 20], [R2, R3, R4, R5], [1, 2, 3, 7], w)
  }

  /** The network whose second release cursor wraps after w entries. The code uses the size of the request
      list, 3; the list itself has 4 entries. */
  function Shipped(w: nat): Network {
    [Train(PATH_1, REQ_1, LIB_1, COMMANDS_1),
     Train(PATH_2, REQ_2, Lib2(w), COMMANDS_2),
     Train(PATH_3, REQ_3, LIB_3, COMMANDS_3)]
  }

  lemma Train1Ok(w: nat)
    ensures TrainOk(Shipped(w)[0])
  {
    assert StopsOk(PATH_1, REQ_1);
    assert StopsOk(PATH_1, LIB_1);
  }

  lemma Lib2Ok(w: nat)
    requires w == 3 || w == 4
    ensures StopsOk(PATH_2, Lib2(w))
  {
  }

  lemma Train2Ok(w: nat)
    requires w == 3 || w == 4
    ensures TrainOk(Shipped(w)[1])
  {
    assert StopsOk(PATH_2, REQ_2);
    Lib2Ok(w);
  }

  lemma Path3Distinct()
    ensures Distinct(PATH_3)
  {
  }

  lemma Req3Ok()
    ensures StopsOk(PATH_3, REQ_3)
  {
  }

  lemma Lib3Ok()
    ensures StopsOk(PATH_3, LIB_3)
  {
  }

  lemma Train3Ok(w: nat)
    ensures TrainOk(Shipped(w)[2])
  {
    Path3Distinct();
    Req3Ok();
    Lib3Ok();
  }
}
