# UniRAIL: the radio block centre and its protocols

UniRAIL runs three model trains on fixed cyclic paths. A radio block centre (RBC) receives position reports and
movement authority requests from on-board computers (EVC), locks shared track resources in one byte, sets switches
over CAN, and answers with an End Of Authority: the farthest place a train may go. This project models that centre
and the code around it in Dafny and proves what it is for.

- **Interlocking** (`ResourceBits`, `Cyclic`, `Tables`, `EndOfAuthority`, `Control`, `Interlocking`, `Invariance`,
  `Safety`, `Handler`, `Requests`). `Control.Rbc` is the centre's code over its global variables. `Interlocking` is the transition
  system: each mutex section of the code is one step, and true train movement is another. The state holds the centre's
  variables and, for each train, its true, reported and authorised positions on the unrolled path and how many
  requests and releases it has made. Theorems are about every world of every run, for any tables that satisfy
  `Tables.NetworkOk`. `Handler` ties the code to the steps.
- **Route locking, deadlock, the shipped tables** (`RouteLocking`, `Deadlock`, `ShippedTables`, `ShippedCoherent`,
  `ShippedRbc`, `ShippedLiveness`, `AsCoded`). The general theorems are instantiated on the repository's paths, masks and
  command lists.
- **Standing for ever** (`Standstill`, `ShippedLaps`, `HoldUps`, `Grantable`, `WaitsIff`, `GrantGuard`; runs are built in
  `LivePaths`, `Manoeuvres`, `ShippedMoves`, `JamRun`, `SelfBlockRun`): waits that no order of the locks excludes,
  because the train that holds the resource stands behind the one that waits for it.
- **Distances and speeds** (`RouteMap`, `ShippedMap`, `EoaDistance`, `SpeedControl`), in exact reals with whole-part
  square roots.
- **Codecs** (`TextProtocol`, `TextParser`, `ModbusCrc`, `CrcPolynomial`, `Receiver`, `Beacons`, `BeaconStream`, `XBee`,
  `XBeeFrames`, `ErtmsCodec`, `ErtmsTables`, `Ertms`, `ErtmsInit`, `ErtmsFields`, `ErtmsBuffers`, with `Bytes` and `Options`).
- **Waiting for responses** (`Waiters`, `WaiterRuns`, `WaiterCode`): the heap linked list, every interleaving of waiters
  and listener, and the proof that the two speak of the same list.

What a train is taken to do: it never passes its authority; what it reports is never ahead of where it is, in order,
and not behind a balise; it has at most one movement authority request open. The theorems about waiting also take it
that a train does not skip the report that falls on its release balise. Everything else is any order of steps.

Positions of the interlocking are pairs of a canton index and an offset in the canton, compared lexicographically, so
its theorems do not depend on arc lengths.

## What the code does that its documentation does not say

- The release cursor wraps at the length of the request list (app/RBC/src/ressources.c:120). For train 2 that is 3,
  while its release list has 4 entries, so resource R5 is never given back by train 2. The design net has it given
  back (CPNTools/all_trains.cpn:1715-1722). The safety theorems hold either way and are proved for both; that there is
  no circle of lock waits is proved for the cursor that wraps at its own list. For the code as it stands, a waiting train
  2 is blocked by itself exactly at its sixth request (`AsCoded.SelfBlockedIff`), which is exactly when any circle of lock waits
  exists (`AsCoded.CircleIff`); a run gets there (`SelfBlockRun.SelfBlockReached`); train 2 never passes that balise
  (`AsCoded.ComesToAStand`), and from its third grant on train 3 can never have R5 (`AsCoded.R5Gone`).
- `lock_ressources` grants a free resource without a look at the track ahead. A train that is granted a resource behind
  another train that needs it next can never reach its release, and the other is never granted its request
  (`Standstill.NeverGranted`). The repository's tables lead there, as coded and mended (`JamRun.JamReached`). With the
  mended cursor a waiting train can still be granted its request exactly when no holder of a wanted resource is so held
  up (`WaitsIff.CanBeGrantedIff`), and holders are held up exactly after a grant that did not look, or after a report at
  the very place where a holder is reported at the end of its authority (`GrantGuard.JammedIff`).
- When both other trains are ahead in a train's own canton, `next_eoa` returns the one it tests first, not the nearer
  one. `Tables.NetworkOk` rules the situation out (no balise is on all three paths), and
  `EndOfAuthority.NearestUnlessShadowed` gives the exact condition.
- `next_eoa` and `get_distance` disagree on a place that trails the train by less than 50 in its own canton:
  `EoaDistance.AgreesIff`, with reports on which they do in `ShippedMap.DisagreeIn8`.
- The speed ramp after a slower canton runs the wrong way (`SpeedControl.AccelerationRampFalls`), and the tick
  that leaves the braking branch raises the command, within its limit, exactly when the train was faster than its
  braking curve or the tick lasts a tenth of a second (`SpeedControl.BrakeThenDrive`; `SpeedControl.JumpBack` gives such
  ticks).
- An empty field or a field with a colon does not survive the text protocol (`TextParser.RoundTrip`,
  `TextParser.FieldLost`).
- A waiter copies its message outside the node's lock; a message that comes in between makes it return a mixture, with or
  without a timeout (`WaiterRuns.TornReturn`, `WaiterRuns.MixedReturn`).
- The receiver of modem frames leaves the status byte of a command response out of the sum
  (`XBeeFrames.CommandResponseReceived`, `XBeeFrames.ResponseRejected`). It does not reset its data index for one either:
  a response with data is judged on its last byte only when the index stands at 1, where no data frame of two bytes or
  more leaves it (`XBeeFrames.AnswerJudged`, `XBeeFrames.DataFrameReceived`).
- Message 150 is deserialized by the packet number already in the destination (`Ertms.EndOfMissionNeedsPreset`,
  `Ertms.EndOfMissionMisread`).

## Model

| member | source | states |
|---|---|---|
| ResourceBits.MaskSets | app/RBC/src/ressources.c:27-33 | on the resource byte, or-ing a mask in adds exactly its bits and and-ing its complement removes exactly its bits |
| ResourceBits.FreeBits | app/RBC/src/ressources.c:22 | the polling test succeeds exactly when no wanted bit is taken |
| Control.Rbc.constructor | app/RBC/src/trains.c:3-17 | the centre starts with nothing locked, both cursors at 0 and every train on the first balise of its path |
| Control.Rbc.TryLock | app/RBC/src/ressources.c:19-29 | one poll: takes the whole mask when it is free, otherwise changes nothing |
| Control.Rbc.UnlockRessources | app/RBC/src/ressources.c:31-35 | removes exactly the bits of the mask |
| Control.Rbc.RequestDue | app/RBC/src/ressources.c:51-75 | the table scan finds a request exactly when the train stands on the request balise or on the one before it, with a position not behind the balise |
| Requests.DueByBalise | app/RBC/src/ressources.c:51-75 | on any path a request is due exactly when the reported balise is the request balise or the one that precedes it on the cyclic path, with a position not behind it |
| Requests.DueNear | app/RBC/src/ressources.c:51-75 | in every world with the invariant a train reported in the canton before its next request or in the one of its next request is due |
| Requests.DueIff | app/RBC/src/ressources.c:51-75 | and in runs that skip no release of an ordered network it is due nowhere else |
| Requests.ShippedDue | app/RBC/src/ressources.c:51-75 | the two balises of each request of the three shipped tables, as numbers |
| Control.Rbc.SetAllSwitch | app/utility/src/can_infra.c:41-67 | every switch of the current grant gets its commanded direction, in list order, all else unchanged |
| Control.Rbc.AskResources | app/RBC/src/ressources.c:38-110 | refused, blocked or granted exactly by the position and the free resources; a grant takes the mask, sets the switches and advances the wrapped cursor, anything else changes nothing |
| Control.Rbc.FreeResources | app/RBC/src/ressources.c:112-122 | on the expected release balise the mask is given back and the cursor advances, wrapping at the length of the request list; otherwise nothing changes |
| Control.Rbc.HandleRequest | app/RBC/src/requests_handler.c:36-129 | the whole reply and the whole new state for codes 100, 101 and 102, for an unknown code (400), unreadable positions (401) and unknown trains (404) |
| Control.Rbc.Resume | app/RBC/src/requests_handler.c:85-114 | a blocked request that polls again: still open and nothing changed while a wanted bit is taken, otherwise the whole grant and the reply with the authority |
| EndOfAuthority.Search | app/RBC/src/eoa_calculator.c:40-88 | the loop ends within one lap, because the request balise is on the path, and returns the least objective of the first balise that carries one |
| EndOfAuthority.NextEoa | app/RBC/src/eoa_calculator.c:4-89 | returns the place of the specified search for every train and every position on its path |
| EndOfAuthority.ScanNearest | app/RBC/src/eoa_calculator.c:40-88 | no objective on a later balise is nearer than the one the search stops at |
| EndOfAuthority.NearestUnlessShadowed | app/RBC/src/eoa_calculator.c:24-88 | no objective lies strictly between the train and the returned place, if and only if it is not the case that both other trains stand ahead in the train's own canton with the one tested first farther away |
| EndOfAuthority.NextHopLands | app/RBC/src/eoa_calculator.c:24-88 | the returned place is one of the three objectives, and not behind the train when in its own canton |
| EoaDistance.AgreesIff | app/RBC/src/eoa_calculator.c:4-89 | in service, `next_eoa` returns an objective of least `get_distance` exactly when none of the objectives on the path, or all of them, trail the train by less than 50 in its own canton |
| Tables.BackedEveryLap | app/utility/src/const_chemins.c:4-17 | that every release gives back a bit asked for before is settled for all laps by checking one lap |
| Tables.KeepsEveryLap | app/utility/src/const_chemins.c:4-17 | what a train keeps between a request and a release repeats from lap to lap |
| ShippedCoherent.ShippedOk | app/utility/src/const_chemins.c:4-23 | the shipped paths, masks and command lists satisfy every condition of the interlocking theorems, as coded and with the cursor of train 2 mended |
| Interlocking.StartInv | app/RBC/src/trains.c:8-17 | the invariant holds when the trains stand where `init_trains` puts them |
| Invariance.LockTakesMask | app/RBC/src/ressources.c:19-29 | a grant adds to what the train holds exactly its mask |
| Invariance.ReleaseOwned | app/RBC/src/ressources.c:112-122 | grants never lag behind releases: a release gives back only bits that its train holds |
| Invariance.ReleaseGivesMask | app/RBC/src/ressources.c:112-122 | a report that frees removes exactly its mask from what the train holds and from the resource byte, and the train held every bit of it |
| Invariance.EntriesExclusive | app/utility/src/const_chemins.c:4-17 | two trains cannot both be past an entry to shared track that one bit guards |
| Invariance.IssuedApart | app/RBC/src/eoa_calculator.c:4-89 | the span up to a newly issued authority touches no other train's span |
| Invariance.StepInv | app/RBC/src/requests_handler.c:36-129 | every step (movement, report with release, request, lock, switch command, cursor, authority) keeps the invariant |
| Invariance.RunInv | app/RBC/src/requests_handler.c:36-129 | the invariant holds in every world of every run, over all interleavings of three trains |
| Safety.Conservation | app/RBC/src/ressources.c:19-35 | at every moment a bit of the resource byte is set exactly when one single train holds it |
| Safety.ZoneHeld | app/RBC/src/ressources.c:38-122 | a train whose true position is strictly between the request and the release of a bit holds that bit |
| Safety.ZonesExclusive | app/RBC/src/ressources.c:38-122 | two trains are never inside zones of the same bit |
| Safety.IssuedSound | app/RBC/src/requests_handler.c:85-95 | when issued, an authority passes neither the next ungranted request nor any train reported ahead on the same path |
| Safety.AuthoritySound | app/RBC/src/requests_handler.c:85-95 | at every later moment too, no other train is strictly between a train and the farthest place it was authorised to |
| Safety.NoHeadOn | app/RBC/src/ressources.c:38-122 | on any network whose opposing stretches are guarded, two trains never occupy one stretch in opposite directions |
| Safety.ShippedNoHeadOn | app/utility/src/map.c:8-10 | on the shipped network no two trains ever run towards each other on one stretch |
| Safety.ShippedSection | app/utility/src/const_chemins.c:9-17 | trains 2 and 3 are never both on the section 25-250-26-251 |
| Handler.ReportIsPath | app/RBC/src/requests_handler.c:70-78 | from any world with the invariant, storing any place the train can truthfully report and the release that may follow lead to a world reached by events, with the invariant, in which that place is reported and no train has moved or got more authority |
| Handler.GrantIsPath | app/RBC/src/ressources.c:81-101 | lock, switch commands and cursor advance of one grant are a path of events ending in the state the code computes |
| Handler.AuthorityIsPath | app/RBC/src/requests_handler.c:85-114 | an uninterrupted movement authority request is a path of events, and the authority reaches the place named in the reply |
| Handler.ResumeIsPath | app/RBC/src/ressources.c:19-29 | so is the rest of a blocked request once its poll succeeds |
| Handler.Serve | app/RBC/src/requests_handler.c:36-129 | the code stays in step with the transition system: serving any request of a true report or of a train with no open request takes the centre from one world with the invariant to a reachable one, every authority sent out lies within the authorised way, and a request left without reply has its handler waiting |
| Handler.Retry | app/RBC/src/ressources.c:19-29 | the same for a handler that polls again |
| Handler.ReachedByRun | app/RBC/src/requests_handler.c:36-129 | every world so reached is a world of a run, so that the theorems on runs hold for the code |
| ShippedRbc.ShippedBytes | app/utility/src/const_chemins.c:6-17 | the mask bytes of the source are the bit sets on which everything is proved |
| ShippedRbc.PowerUp | app/RBC/src/ressources.c:14-17 | the centre can be built on the repository's tables and starts in the first world of every run |
| RouteLocking.SameSwitch | app/utility/src/can_infra.c:41-67 | while a train holds the bit that guards a switch of its grant, no other command for that switch can be sent |
| RouteLocking.RouteLocked | app/utility/src/can_infra.c:41-67 | in every world of every run, a switch set by a completed grant keeps the commanded direction for as long as the train holds the guard that the grant brought |
| RouteLocking.ShippedRoutes | app/utility/src/can_infra.c:11-31 | each of the shipped switches has one guarding bit that every list naming the switch asks for |
| Deadlock.HoldBelowWait | app/RBC/src/ressources.c:19-29 | whatever a waiting train holds ranks below whatever it waits for |
| Deadlock.NoCircularWait | app/RBC/src/ressources.c:19-29 | on an ordered network with every release balise reported, any group of trains that wait in `lock_ressources` has a member for whose mask nobody in the group holds a bit; about locks only |
| Deadlock.SomeoneProceeds | app/RBC/src/ressources.c:19-29 | if every train that holds something itself waits in `lock_ressources`, one of them can lock at once; holders that do not wait are the matter of `WaitsIff` |
| ShippedLiveness.ShippedOrdered | app/utility/src/const_chemins.c:4-17 | with the mended cursor the shipped tables obey the order R2 < R3 < {R4, R5} on every lap, R1 being asked for only when nothing is held |
| ShippedLiveness.ShippedNoCircularWait | app/utility/src/const_chemins.c:4-23 | with the release cursor of train 2 wrapping at its own list, no circle of trains waiting for each other's locks is reachable; waits behind a standing train are the matter of `WaitsIff` |
| AsCoded.SelfBlockedIff | app/RBC/src/ressources.c:112-122 | as coded, in every run that skips no release balise a waiting train 2 is blocked by itself if and only if it waits at its sixth request |
| AsCoded.CircleIff | app/RBC/src/ressources.c:19-29 | as coded, a group of trains waiting for each other's locks exists if and only if train 2 waits at its sixth request |
| AsCoded.ComesToAStand | app/RBC/src/ressources.c:120 | as coded, in every run train 2 gets at most five grants, and neither its authority nor the train ever passes the balise of its sixth request |
| AsCoded.R5Gone | app/utility/src/const_chemins.c:9-17 | as coded, once train 2 has its third grant R5 is never free again: no later lock of any train for R5 is possible |
| SelfBlockRun.SelfBlockReached | app/utility/src/const_chemins.c:9-12 | a run, with every release balise reported, at whose end train 2 waits at its sixth request for a bit that it holds itself |
| Standstill.NeverGranted | app/RBC/src/ressources.c:19-29 | on any network and over any continuation of any run: a train whose next request needs a bit of a train behind it, which gives the bit back only beyond that request, on track that both use up to there, is never granted that request |
| Standstill.NeverFree | app/RBC/src/ressources.c:31-35 | nor is any other bit ever free that the train behind gives back only beyond there |
| Standstill.BehindByReports | app/RBC/src/eoa_calculator.c:4-89 | the reports decide who is behind: an authority ends at or before every place ahead where another train is reported |
| JamRun.JamReached | app/utility/src/const_chemins.c:9-17 | a run with every release reported, on the tables as coded and on the mended ones, after which train 2 waits at 11 for R4 and R5 and train 3 has been granted R4 behind it |
| JamRun.StandForEver | app/RBC/src/ressources.c:81-101 | from there on train 2 is never granted R4 and R5 and train 3 never authorised past canton 11, whatever happens |
| HoldUps.HeldUpCorners | app/utility/src/const_chemins.c:4-17 | with the mended cursor, whoever is reported between a holder's authority and the release of a held bit needs next a bit that the holder has: train 3 before train 1 or the other way round in 8 and 9 for R1, train 3 before train 2 or the other way round in 11 for R4 |
| WaitsIff.HeldUpForEver | app/RBC/src/ressources.c:112-122 | a resource whose holder is so held up is never free again |
| WaitsIff.WaitsForEver | app/RBC/src/ressources.c:19-29 | a train that waits for it waits for ever |
| Grantable.GrantLater | app/RBC/src/ressources.c:19-29 | otherwise there is a continuation, skipping no release, in which every holder of a wanted bit is authorised up to its release, goes there and gives it back, so that the waiting train can lock |
| WaitsIff.CanBeGrantedIff | app/RBC/src/ressources.c:19-29 | with the mended cursor, in every run that skips no release: a waiting train can still be granted what it waits for if and only if no holder of a wanted bit has its authority end at or before a place, short of its release, where another train is reported |
| GrantGuard.JammedIff | app/RBC/src/ressources.c:38-110 | with the mended cursor, in every run that skips no release: some holder is held up for ever if and only if some grant was made while a train was reported between the end of the grantee's authority and the release of a granted bit, or some train reported exactly the place where a holder is reported and has its authority end |
| GrantGuard.CarefulRunsGrant | app/RBC/src/ressources.c:38-110 | so in runs whose grants look at that, every train that waits can still be granted what it waits for |
| RouteMap.GetDistance | app/utility/src/map.c:25-52 | the nested loops terminate on any path whose cantons are all on the map, and add up exactly the arcs between the two places |
| RouteMap.FindArc | app/utility/src/map.c:44-47 | finds the first arc joining two balises in either direction |
| RouteMap.OneCanton | app/utility/src/map.c:25-52 | from a balise to the next one on the path it is as far as the first table entry that joins the two says, in whichever direction that entry is stored |
| RouteMap.DistanceIsDifference | app/utility/src/map.c:25-52 | the distance is the difference of the two positions along the path, plus one lap exactly when the way passes the end of the table |
| RouteMap.DistancesAdd | app/utility/src/map.c:25-52 | distances add up along the way, up to one lap |
| RouteMap.ThereAndBack | app/utility/src/map.c:25-52 | there and back is one lap, or nothing when both places are within 50 of each other in one canton |
| RouteMap.DistanceRange | app/utility/src/map.c:32-51 | between places within their cantons the distance lies in (-50, lap], and is negative exactly when the destination trails by less than 50 in the same canton |
| ShippedMap.ShippedComplete | app/utility/src/map.c:4-10 | all three shipped paths are complete on the shipped map |
| ShippedMap.Laps | app/utility/src/map.c:4-10 | the laps of the three shipped paths are 17202.0, 15980.8 and 31105.0 long, and from 251 to 26, an arc stored the other way, it is 1025.0 |
| ShippedMap.FiftyBehind | app/utility/src/map.c:32-33 | the tolerance in numbers: 49 behind in one canton is minus 49, 50 behind is a lap less 50 |
| ShippedMap.DisagreeIn8 | app/utility/src/map.c:8-10 | reports in canton 8 of path 1 on which `next_eoa` does not return an objective of least `get_distance` |
| SpeedControl.ComputeNewSpeed | app/EVC/src/automatique.c:8-21 | for every speed v and distance d: with 0 <= 2d <= v*v the whole part of the root of 2d and the accumulator back at v, with 2d > v*v the accumulated command, past the goal no number |
| SpeedControl.BrakesIff | app/EVC/src/automatique.c:12-13 | the train brakes exactly when half the square of its speed reaches the distance left |
| SpeedControl.StandsAtEnd | app/EVC/src/automatique.c:8-21 | standing at the end of its authority it is told to stand, whatever has been accumulated |
| SpeedControl.BrakingCommand | app/EVC/src/automatique.c:12-17 | a braking command is at most the measured speed and the distance, and is zero exactly when nothing is left to travel |
| SpeedControl.OvershootIff | app/EVC/src/automatique.c:12-17 | a braking tick never overshoots if and only if ticks last at most a tenth of a second |
| SpeedControl.BrakingRunSafe | app/EVC/src/automatique.c:8-21 | over any run of braking ticks the distance stays non-negative and shrinks, and commands never rise |
| SpeedControl.JumpBackIff | app/EVC/src/automatique.c:14-20 | for every measured speed, also a negative one: a tick that leaves the braking branch commands more than the braking tick before it if and only if the speed left in the accumulator reaches the next whole speed within the tick, which for a train that does not roll back means that it was faster than the braking curve or that the tick lasts a tenth of a second |
| SpeedControl.ControlTick | app/EVC/src/automatique.c:197-209 | one tick of the control loop: the computed command, held down to the speed limit together with the accumulator |
| SpeedControl.BrakeThenDrive | app/EVC/src/automatique.c:197-209 | the same of two ticks of the control loop with their speed limits: the command rises if and only if the second limit is above the first command and the accumulator, left at the measured speed or at the first limit, reaches the next whole speed |
| SpeedControl.JumpBack | app/EVC/src/automatique.c:14-20 | two consecutive ticks of 1/20 s within the movement bound: 38 is commanded, then 40 |
| SpeedControl.GetLimitSpeed | app/EVC/src/automatique.c:52-87 | the limit is the least of the canton's own limit and the two ramps, for every place on the path |
| SpeedControl.LimitEnvelope | app/EVC/src/automatique.c:66-86 | within its canton the limit lies between the least of the three neighbouring limits and the canton's own, and leaves room to brake to the next limit by the canton's end |
| SpeedControl.EndLimitIsHighest | app/EVC/src/automatique.c:66-78 | before a slower canton the limit is the highest whole speed, up to the canton's own, whose square exceeds the next limit's by at most twice the distance left in the canton; so it is the canton's own exactly as long as that can be braked off |
| SpeedControl.StartLimitIs | app/EVC/src/automatique.c:79-84 | after a slower canton the limit is the highest whole speed whose square exceeds the previous limit's by at most twice the distance left to the end of the ramp, and the canton's own from there on |
| SpeedControl.LimitIsLeast | app/EVC/src/automatique.c:65-86 | a speed is within the limit exactly when it is within the canton's own and within each ramp that applies |
| SpeedControl.AccelerationRampFalls | app/EVC/src/automatique.c:79-84 | after a slower canton the ramp starts at the full limit and falls to the slower one |
| ModbusCrc.ShiftByte | doc/subject/Annexes/Marvelmind/src/marvelmind.c:29-38 | the inner loop is eight shifts of the register |
| ModbusCrc.CalcCrcModbus | doc/subject/Annexes/Marvelmind/src/marvelmind.c:22-42 | the loops compute the CRC of the first bytes of the buffer |
| CrcPolynomial.CrcIsRemainder | doc/subject/Annexes/Marvelmind/src/marvelmind.c:22-42 | a register is the CRC of a message if and only if it is the remainder, over GF(2) and lowest bit first, of the message preloaded with ones on division by x^16 + x^15 + x^2 + 1 |
| CrcPolynomial.WorkedValue | doc/subject/Annexes/Marvelmind/src/marvelmind.c:22-42 | the bytes 02 07 have CRC 0x1241, the example of MODBUS over Serial Line |
| ModbusCrc.Residue | doc/subject/Annexes/Marvelmind/src/marvelmind.c:22-42 | a message followed by two bytes has CRC 0 if and only if those bytes are the message's CRC, low byte first |
| Receiver.Hedge.Receive | doc/subject/Annexes/Marvelmind/src/marvelmind.c:622-774 | one byte: the new receive state and the datagram dispatched, for every state and every byte |
| Receiver.GotNext | doc/subject/Annexes/Marvelmind/src/marvelmind.c:628-701 | before its last byte a well-formed datagram dispatches nothing and is buffered byte by byte |
| Receiver.FramedIff | doc/subject/Annexes/Marvelmind/src/marvelmind.c:628-701 | the well-formed datagrams in literal bytes: start, direction, the ten listed identifiers with the lengths each allows |
| Receiver.HeaderStep | doc/subject/Annexes/Marvelmind/src/marvelmind.c:628-701 | a header is dropped at its first byte outside these lists and not before, for every header |
| Receiver.WholeDatagram | doc/subject/Annexes/Marvelmind/src/marvelmind.c:626-774 | a well-formed datagram met by an idle receiver is dispatched on its last byte if and only if its CRC is 0, and the receiver is idle again |
| Receiver.Transmission | doc/subject/Annexes/Marvelmind/src/marvelmind.c:626-774 | of any sequence of datagrams, with noise bytes other than 0xff between them, exactly those carrying their own CRC are dispatched, each once and in order |
| BeaconStream.ReceiveByte | doc/subject/Annexes/Marvelmind/src/marvelmind.c:622-774 | one byte through receiver and table: the state and the table that the specification gives |
| BeaconStream.BytesToTable | doc/subject/Annexes/Marvelmind/src/marvelmind.c:382-774 | over any series of datagrams with noise between them, the table takes in, in order, exactly the beacons of the beacon lists that carry their own CRC and a consistent size |
| Beacons.BeaconTable.GetOrAlloc | doc/subject/Annexes/Marvelmind/src/marvelmind.c:360-380 | the slot of a known address, a new slot while there are fewer than 29, otherwise none |
| Beacons.BeaconTable.Process | doc/subject/Annexes/Marvelmind/src/marvelmind.c:382-461 | for every datagram whose beacons lie within the buffer: when the size byte is 1 plus 14 or 8 for each of the counted beacons, the beacons that the bytes carry, as many as counted, go into the table in order; with any other size nothing changes |
| Beacons.DatagramBack | doc/subject/Annexes/Marvelmind/src/marvelmind.c:391-452 | reading a datagram gives back the beacons it carries in order, from two's complement centimetres in 16 bits or millimetres in 32 |
| Beacons.CarriesOne | doc/subject/Annexes/Marvelmind/src/marvelmind.c:391-452 | every datagram of consistent size carries exactly one list of as many beacons as it counts, and that is the list read |
| Beacons.TableContents | doc/subject/Annexes/Marvelmind/src/marvelmind.c:360-461 | after any list of beacons the table holds exactly the first 29 addresses that arrived, one entry each, with the last position received for each |
| Beacons.TableAfter | doc/subject/Annexes/Marvelmind/src/marvelmind.c:360-461 | the same after any series of datagrams, each processed on the table that the one before left |
| TextProtocol.SendData | app/utility/src/comm.c:69-91 | the string handed to the socket, and that it fits the 151-byte buffer |
| TextProtocol.KeptIsLongestPrefix | app/utility/src/comm.c:75-80 | the fields sent are the longest prefix that fits the 100-byte string |
| TextProtocol.TextFits | app/utility/src/comm.c:70-82 | a message of 32-bit numbers never takes more than 136 bytes with its terminator |
| TextParser.NextToken | app/utility/src/comm.c:109-140 | one call of the tokenizer finds the next maximal stretch without colon |
| TextParser.ReceiveData | app/utility/src/comm.c:109-149 | three numbers and up to two fields, or code 500 and -1 for what is missing |
| TextParser.ParseFields | app/utility/src/comm.c:109-149 | by the number of fields in the text: fewer than three leave code 500 and -1 for the missing numbers, of those after the third the first two are kept |
| TextParser.AtoiTail | app/utility/src/comm.c:116-132 | whatever follows a printed number, unless it begins with a digit, does not change what is read |
| TextParser.TwoFields | app/utility/src/comm.c:75-82 | the text of a message of two fields that fit: three decimal numbers and the fields, each closed by a colon |
| TextParser.OnTheWire | app/utility/src/comm.c:75-82 | a position report as it goes over the wire, and a negative number |
| TextParser.AtoiItoa | app/utility/src/comm.c:82-130 | a printed number reads back as itself |
| TextParser.RoundTrip | app/utility/src/comm.c:69-149 | the three numbers always come back; the fields sent come back if and only if none is empty or holds a colon |
| TextParser.FieldLost | app/utility/src/comm.c:69-149 | the fields 2:5 and the empty field, which do not come back |
| Waiters.WaitingList.Register | app/utility/src/comm_message_listener.c:24-28 | a new waiter goes to the front of the linked list |
| Waiters.WaitingList.Deliver | app/utility/src/comm_message_listener.c:84-106 | the first waiter of the message's identifier gets the message, no other node changes, and none is found exactly when none waits for it |
| Waiters.WaitingList.Remove | app/utility/src/comm_message_listener.c:51-62 | unlinks exactly the given node, wherever it stands |
| WaiterRuns.StepInv | app/utility/src/comm_message_listener.c:8-123 | every step of any waiter or of the listener keeps the invariant |
| WaiterRuns.ListIsRegistered | app/utility/src/comm_message_listener.c:24-62 | over every interleaving the list holds exactly the registered and not yet removed waiters, each once |
| WaiterRuns.ListenerSafe | app/utility/src/comm_message_listener.c:82-119 | the listener touches no removed node, delivers to the one waiter of the identifier, and takes a message for a request exactly when no waiter has its identifier |
| WaiterRuns.ReturnedMessage | app/utility/src/comm_message_listener.c:33-49 | with the copy read field by field in any order: without a timeout a waiter returns its own identifier; with one, its own identifier or code -1 exactly unless it read the identifier before its first message came and the code after; and without a timeout, if the messages it got differ in every other field, a delivered message if and only if none came between the reads of those fields |
| WaiterRuns.TornReturn | app/utility/src/comm_message_listener.c:40-49 | a run in which a message comes in the middle of the copy after a timeout: the waiter returns neither code -1 nor its own identifier |
| WaiterRuns.MixedReturn | app/utility/src/comm_message_listener.c:49 | a run without timeout in which a second reply comes in the middle of the copy: the waiter returns a message that was never sent |
| WaiterCode.Register | app/utility/src/comm_message_listener.c:24-28 | the linked list in memory and the list of the run model stay the same through a registration |
| WaiterCode.Remove | app/utility/src/comm_message_listener.c:51-62 | and through a removal, which always finds its node |
| WaiterCode.Deliver | app/utility/src/comm_message_listener.c:82-119 | and through the handling of one received message, which is an arrival and the looks of one search; program and model agree on who gets it |
| WaiterRuns.IdentifiersUnique | app/utility/src/comm.c:16-22 | no two waiters ever wait for the same identifier |
| XBee.Envoyer | doc/subject/Annexes/Code_exemple_avance_train_UniRAIL/Libs_Unirail/XBEE/xbee.c:391-458 | every frame that fits the buffer has a correct length field, bytes from index 3 on summing to 0xFF modulo 256, and the payload in order |
| XBee.FrameBytes | doc/subject/Annexes/Code_exemple_avance_train_UniRAIL/Libs_Unirail/XBEE/xbee.c:391-458 | byte by byte the frame written for each kind: delimiter, length, type, frame identifier, destination and options of a data request, payload |
| XBee.Port.ReceptionOctet | doc/subject/Annexes/Code_exemple_avance_train_UniRAIL/Libs_Unirail/XBEE/xbee.c:111-322 | one byte: the new state, the stored field and the return code, for every state and byte |
| XBeeFrames.DataFrameReceived | doc/subject/Annexes/Code_exemple_avance_train_UniRAIL/Libs_Unirail/XBEE/xbee.c:149-245 | a 0x81 frame with 2 to 100 data bytes gives 0 on every byte but the last, then 1 if and only if it obeys the frame law, with all fields and data stored |
| XBeeFrames.StatusFrameReceived | doc/subject/Annexes/Code_exemple_avance_train_UniRAIL/Libs_Unirail/XBEE/xbee.c:247-275 | the same for a 0x89 frame |
| XBeeFrames.CommandResponseReceived | doc/subject/Annexes/Code_exemple_avance_train_UniRAIL/Libs_Unirail/XBEE/xbee.c:284-315 | a lawful 0x88 frame without data is accepted if and only if its status is 0, the status byte being left out of the sum |
| XBeeFrames.ResponseRejected | doc/subject/Annexes/Code_exemple_avance_train_UniRAIL/Libs_Unirail/XBEE/xbee.c:284-315 | such a lawful response with status 1, which is refused |
| XBeeFrames.AnswerJudged | doc/subject/Annexes/Code_exemple_avance_train_UniRAIL/Libs_Unirail/XBEE/xbee.c:284-317 | a 0x88 frame with data, for which there is room, is judged on its last byte if and only if the data index, which these frames do not reset, stands at 1; from 0 or from beyond the data it is not judged at all, otherwise on an earlier byte |
| XBeeFrames.BetweenFrames | doc/subject/Annexes/Code_exemple_avance_train_UniRAIL/Libs_Unirail/XBEE/xbee.c:146-158 | between frames every byte but the delimiter is passed over |
| XBeeFrames.OtherTypes | doc/subject/Annexes/Code_exemple_avance_train_UniRAIL/Libs_Unirail/XBEE/xbee.c:170-185 | a frame of any type but data, acknowledgement and command response is given up at its type byte with -2 |
| XBeeFrames.LoopedBack | doc/subject/Annexes/Code_exemple_avance_train_UniRAIL/Libs_Unirail/XBEE/xbee.c:111-458 | a frame built by the sender with the receiver's type is received, field by field |
| ErtmsTables.SameOrder | doc/subject/Annexes/Code_exemple_avance_train_UniRAIL/Libs_Unirail/ERTMS/ertms.c:371-1151 | each deserializer reads the fields in the order and widths in which its serializer writes them |
| ErtmsTables.PacketLayouts | doc/subject/Annexes/Code_exemple_avance_train_UniRAIL/Libs_Unirail/ERTMS/ertms.c:4-150 | the packets' fields add up to the fixed parts of the lengths that their init functions set, with their repeated groups |
| ErtmsFields.HeadShown | doc/subject/Annexes/Code_exemple_avance_train_UniRAIL/Libs_Unirail/ERTMS/ertms.c:591-751 | the byte at which each field of each of the eleven messages stands, and the message number in byte 0 |
| ErtmsFields.PositionShown | doc/subject/Annexes/Code_exemple_avance_train_UniRAIL/Libs_Unirail/ERTMS/ertms.c:430-477 | the bytes of each field of a position report, on one balise group or two, in the messages that carry one |
| ErtmsFields.AuthorityShown | doc/subject/Annexes/Code_exemple_avance_train_UniRAIL/Libs_Unirail/ERTMS/ertms.c:506-541 | the bytes of each field of a movement authority before and after its sections |
| ErtmsFields.SectionShown | doc/subject/Annexes/Code_exemple_avance_train_UniRAIL/Libs_Unirail/ERTMS/ertms.c:506-541 | length, timer, time and distance of each section, from byte 21 + 7i on |
| ErtmsFields.TrainShown | doc/subject/Annexes/Code_exemple_avance_train_UniRAIL/Libs_Unirail/ERTMS/ertms.c:478-505 | the bytes of each field of the train data packet |
| ErtmsFields.EngineShown | doc/subject/Annexes/Code_exemple_avance_train_UniRAIL/Libs_Unirail/ERTMS/ertms.c:478-505 | and of each engine and national system in it |
| ErtmsFields.TelegramShown | doc/subject/Annexes/Code_exemple_avance_train_UniRAIL/Libs_Unirail/ERTMS/ertms.c:542-589 | the bytes of each field of a balise telegram |
| ErtmsFields.Level1Shown | doc/subject/Annexes/Code_exemple_avance_train_UniRAIL/Libs_Unirail/ERTMS/ertms.c:371-407 | of the authority in it |
| ErtmsFields.Level1SectionShown | doc/subject/Annexes/Code_exemple_avance_train_UniRAIL/Libs_Unirail/ERTMS/ertms.c:371-407 | with its sections |
| ErtmsFields.TransitionShown | doc/subject/Annexes/Code_exemple_avance_train_UniRAIL/Libs_Unirail/ERTMS/ertms.c:408-429 | and of the level transition order with its further transitions |
| ErtmsCodec.ReadBack | doc/subject/Annexes/Code_exemple_avance_train_UniRAIL/Libs_Unirail/ERTMS/ertms.c:773-949 | reading what was written gives every field of a list its value, leaves every other field alone and moves exactly past it |
| Ertms.SerializedLength | doc/subject/Annexes/Code_exemple_avance_train_UniRAIL/Libs_Unirail/ERTMS/ertms.c:192-351 | a serialized message is exactly as many bytes as its kind and its counts announce, and the end marker |
| ErtmsInit.LengthField | doc/subject/Annexes/Code_exemple_avance_train_UniRAIL/Libs_Unirail/ERTMS/ertms.c:4-351 | a message filled in by its init function is serialized to exactly `l_message` bytes and the end marker, and that number stands in its second and third byte |
| ErtmsInit.TelegramField | doc/subject/Annexes/Code_exemple_avance_train_UniRAIL/Libs_Unirail/ERTMS/ertms.c:4-48 | the same for the packet of a telegram |
| ErtmsFields.NumbersShown | doc/subject/Annexes/Code_exemple_avance_train_UniRAIL/Libs_Unirail/ERTMS/ertms.c:53-351 | the packet numbers in messages filled in by the init functions: 15, 0 or 1, and 11, at their bytes |
| ErtmsFields.TelegramNumbers | doc/subject/Annexes/Code_exemple_avance_train_UniRAIL/Libs_Unirail/ERTMS/ertms.c:4-48 | 12 and 41 in telegrams, followed by the direction 1 |
| Ertms.MessageRoundTrip | doc/subject/Annexes/Code_exemple_avance_train_UniRAIL/Libs_Unirail/ERTMS/ertms.c:591-1151 | deserializing a serialized message returns 0, restores every field but `nid_message`, changes nothing else and stops at the end marker |
| Ertms.EndOfMissionNeedsPreset | doc/subject/Annexes/Code_exemple_avance_train_UniRAIL/Libs_Unirail/ERTMS/ertms.c:1097-1110 | message 150 is read over exactly its length if and only if the destination already holds the right packet number |
| Ertms.EndOfMissionMisread | doc/subject/Annexes/Code_exemple_avance_train_UniRAIL/Libs_Unirail/ERTMS/ertms.c:1097-1110 | such a message with packet 1, misread into an empty destination |
| Ertms.TelegramRoundTrip | doc/subject/Annexes/Code_exemple_avance_train_UniRAIL/Libs_Unirail/ERTMS/ertms.c:542-1003 | the same round trip for balise telegrams with packets 12 and 41, over exactly `l_packet` bytes of packet |
| ErtmsBuffers.SerializeMessage | doc/subject/Annexes/Code_exemple_avance_train_UniRAIL/Libs_Unirail/ERTMS/ertms.c:591-751 | the serializer at work on a buffer leaves the specified bytes at its start |
| ErtmsBuffers.SerializeEbt | doc/subject/Annexes/Code_exemple_avance_train_UniRAIL/Libs_Unirail/ERTMS/ertms.c:542-589 | the same for telegrams |
| ErtmsBuffers.DeserializeMessage | doc/subject/Annexes/Code_exemple_avance_train_UniRAIL/Libs_Unirail/ERTMS/ertms.c:1005-1151 | the deserializer at work on a buffer returns the specified structure and result |
| ErtmsBuffers.DeserializeEbt | doc/subject/Annexes/Code_exemple_avance_train_UniRAIL/Libs_Unirail/ERTMS/ertms.c:951-1003 | the same for telegrams |
| ErtmsBuffers.Exchange | doc/subject/Annexes/Code_exemple_avance_train_UniRAIL/Libs_Unirail/ERTMS/ertms.c:591-1151 | sending and receiving over one buffer restores the message |

## Left out

- Sockets, CAN frames, thread creation, sleeps, clocks, signals and prints: a mutex section is one step, a failed poll of the lock is no step, CAN sends succeed.
- `next_eoa` reads the other trains' positions without their locks; here the three positions are read in one step.
- The text of a position report: `strtol` and `strtod` are a missing or a present number; train numbers below 1, which the code does not check, are excluded.
- The reply prints the authority's offset with "%2.f", so the place named on the wire can be up to half a unit beyond the one proved sound.
- Control.Rbc.HandleRequest: when authority is asked for (code 102), the stored position must name a balise of the train's own path, without which `next_eoa` reads outside its table; position reports may name any balise. A blocked request gets no reply in the modelled call because the code is still polling; `Control.Rbc.Resume` is what follows.
- Handler.Serve: of trains that report truthfully and have one authority request open at a time; a report of a place behind the last one or not yet reached is served by the code, but leads out of the transition system.
- Safety.AuthoritySound: speaks of the farthest authority a train was ever given; when two trains are reported at exactly one place, the one ahead gets its own reported position back.
- Deadlock.NoCircularWait: about waits of one lock on another only. When a wait can still end is `WaitsIff.CanBeGrantedIff`; that it does end needs, besides what that theorem asks, a fair lock and trains that go on.
- Deadlock.SomeoneProceeds: requires every holder to wait in `lock_ressources`; a holder that does not wait may still be unable to move, see `WaitsIff.CanBeGrantedIff`.
- WaitsIff.CanBeGrantedIff: of the mended tables; as coded, R5 is lost after the third grant of train 2 (`AsCoded.R5Gone`). The trains of a continuation may ask for an authority whenever none is open, the EVC's thresholds being left out.
- SpeedControl.BrakeThenDrive: the first tick's speed limit is not negative, as the table of limits and the ramps within a canton give it.
- SpeedControl.ComputeNewSpeed: past the goal, where the code converts the root of a negative number, the result is no number at all; the elapsed time is a parameter, not the processor clock, and floating-point rounding is not modelled.
- SpeedControl.BrakingRunSafe: says nothing about ticks outside the braking branch, see `SpeedControl.JumpBackIff`.
- The thresholds at which an EVC asks for a new authority (app/EVC/src/eoa_handler.c), the mission loop and train dynamics beyond the movement bound.
- Beacons.BeaconTable.Process: a high-resolution datagram of 18 beacons is excluded, whose last coordinate byte, index 256, lies past the receiver's buffer.
- Receiver.Transmission: noise between datagrams holds no byte 0xff, with which the receiver could take noise for a header; length bytes above 248 make the one-byte counter wrap and are outside the stated datagrams; the payloads of datagrams other than beacon lists are not decoded.
- XBeeFrames.CommandResponseReceived: of responses without data; those with data are `XBeeFrames.AnswerJudged`, without what they leave in the data array. The receiver's timeout is a parameter.
- XBee.Port.ReceptionOctet: requires room for a data byte, which the code does not check; `XBeeFrames.Quiet` shows that the frames covered always leave room.
- TextProtocol.SendData: `sprintf` and `atoi` are modelled on unbounded numbers; the test order in which `send_data` looks at `data[2]` before it compares the index is not modelled.
- TextParser.ReceiveData: starts from the text up to the terminator; a datagram of 151 bytes, for which the code writes one byte past its buffer, is not modelled.
- WaiterRuns.ReturnedMessage: the copy reads each field in one step, each pointer too; delivery guarantees (a reply before its waiter registers goes to the request mailbox, which can be overwritten) are not claimed.
- `generate_unique_req_id` is the `Generate` step of `WaiterRuns`; the counter's wrap-around is not modelled.
- Ertms.MessageRoundTrip: structures are maps from field names to values and the field order of each C function is a table; padding and overlap of C unions are not modelled, and array bounds are those of the caller's counts.
- ErtmsBuffers.DeserializeMessage: the buffer must hold everything that is read, which the code does not check.
- ErtmsInit.LengthField: the position packet given to an init function is one of the two kinds; for any other number the code copies no packet and only prints an error.
- EBT packets other than 12 and 41, which the code does not serialize either; null pointers.
- Raw CAN FIFO code, generated CAN variable tables, the supervisor's interface, the commented-out second `next_eoa`.
