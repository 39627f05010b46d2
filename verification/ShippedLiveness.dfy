/** Waiting on the repository's tables: no circular wait once the release cursor of train 2 is mended. */
module ShippedLiveness {
  import opened Tables
  import opened Interlocking
  import opened ShippedTables
  import opened ShippedCoherent
  import opened Deadlock

  /** All releases of a lap lie before the first request of the next lap, and give back exactly what was asked. */
  ghost predicate Settled(T: Train, b: nat)
    requires TrainOk(T)
  {
    && Count(T.req, T.req.wrap, b) == Count(T.lib, T.lib.wrap, b)
    && T.lib.at[T.lib.wrap - 1] < |T.path| + T.req.at[0]
  }

  lemma RankedShift(T: Train, rank: Ranking, k: nat, j: nat, b: nat, c: nat)
    requires TrainOk(T) && Settled(T, b) && RankedAt(T, rank, k, j, b, c)
    ensures RankedAt(T, rank, k + T.req.wrap, j + T.lib.wrap, b, c)
  {
    CountRound(T.req, k, b);
    CountRound(T.lib, j, b);
  }

  /** The order of resources has to be checked on one lap only. */
  lemma {:induction false} RankedEveryLap(T: Train, rank: Ranking, k: nat, j: nat, b: nat, c: nat)
    requires TrainOk(T) && Settled(T, b)
    requires forall r: nat, q: nat {:trigger RankedAt(T, rank, r, q, b, c)} ::
               r < T.req.wrap && q < T.lib.wrap ==> RankedAt(T, rank, r, q, b, c)
    ensures RankedAt(T, rank, k, j, b, c)
    decreases k
  {
    if k >= T.req.wrap && j >= T.lib.wrap {
      RankedEveryLap(T, rank, k - T.req.wrap, j - T.lib.wrap, b, c);
      RankedShift(T, rank, k - T.req.wrap, j - T.lib.wrap, b, c);
    } else if k >= T.req.wrap {
      StopMono(T.path, T.req, T.req.wrap, k);
      StopMono(T.path, T.lib, j, T.lib.wrap - 1);
      assert StopIdx(T.req, |T.path|, 0) == T.req.at[0];
    } else if j >= T.lib.wrap {
      CountMono(T.lib, T.lib.wrap, j, b);
      CountMono(T.req, k, T.req.wrap, b);
    }
  }

  /** R2 before R3 before R4 and R5; R1 ranks lowest, for nothing is held when it is asked for. */
  const RANK: Ranking := [0, 1, 2, 3, 3]

  lemma FirstLapRanked(t: nat, k: nat, j: nat, b: nat, c: nat)
    requires t < 3 && TrainOk(Shipped(4)[t]) && k < Shipped(4)[t].req.wrap && j < Shipped(4)[t].lib.wrap
    ensures RankedAt(Shipped(4)[t], RANK, k, j, b, c)
  {
    Lap1(b);
    Lap2(b);
    Lap3(b);
    if t == 0 {
    } else if t == 1 {
    } else {
    }
  }

  lemma AllSettled(t: nat, b: nat)
    requires t < 3 && TrainOk(Shipped(4)[t])
    ensures Settled(Shipped(4)[t], b)
  {
    Lap1(b);
    Lap2(b);
    Lap3(b);
  }

  lemma ShippedOrdered()
    ensures NetworkOk(Shipped(4)) && OrderedNetwork(Shipped(4), RANK)
  {
    ShippedOk(4);
    var N := Shipped(4);
    forall t: nat | t < 3 ensures Ranked(N[t], RANK) {
      forall k: nat, j: nat, b: nat, c: nat {:trigger RankedAt(N[t], RANK, k, j, b, c)}
        ensures RankedAt(N[t], RANK, k, j, b, c)
      {
        forall r: nat, q: nat {:trigger RankedAt(N[t], RANK, r, q, b, c)} | r < N[t].req.wrap && q < N[t].lib.wrap
          ensures RankedAt(N[t], RANK, r, q, b, c)
        {
          FirstLapRanked(t, r, q, b, c);
        }
        AllSettled(t, b);
        RankedEveryLap(N[t], RANK, k, j, b, c);
      }
    }
  }

  /** With the release cursor of train 2 wrapping at the length of its own list, no circle of trains blocked in
      lock_ressources is ever reached in a run whose reports skip no release balise. */
  lemma ShippedNoCircularWait(ws: seq<World>, es: seq<Event>, n: nat, S: set<nat>) returns (s: nat)
    requires NetworkOk(Shipped(4)) && LiveRun(Shipped(4), ws, es) && n < |ws| && |ws[n].trk| == 3
    requires S != {} && forall t :: t in S ==> Waits(ws[n], t)
    ensures Shape(Shipped(4), ws[n]) && s in S && forall t :: t in S ==> !Blocked(Shipped(4), ws[n], s, t)
  {
    ShippedOrdered();
    s := NoCircularWait(Shipped(4), RANK, 3, ws, es, n, S);
  }
}
