# Video Olympics netplay: lockstep and relay

Two Atari 2600 consoles play one 1977 game in lockstep, and a relay carries their records. This project models
both and proves what they promise.

**The consoles.** `Console` is one console's zero page and the routines that change it in place, each proved
against a function of `Netcode`, and `Controls` says what those functions come to on the ports, the wire and the
page, byte by byte. `Lockstep` joins two consoles by two byte streams into a step system: frames
and transport steps interleave freely, the streams may be delayed and split anywhere, written records may be lost,
the simulation may be corrupted at any frame, and a departure may be announced at any moment. The game is an
arbitrary deterministic step. Beside the eight-bit cells each node carries what really happened: unbounded ticks,
every capture, every state entered, every record sent. `Control`, `Links` and `Runs` carry the invariant of every
run; `Rings` adds what holds when delivery keeps its hypothesis; `Theorems`, `Gate`, `Repairs`, `Progress`,
`Departures`, `Liveness`, `Drive`, `Unending` and `Witness` draw the results.

**The delivery hypothesis** (`Lockstep.Delivered`) says that a record raises the watermark to at most three above
it, ticks 0 and 1 counting as known. Everything about framing, skew, counting, alarms being real, stalls and
progress holds without it. Agreement needs it: `Gate.WindowSuffices` says that three is exactly what a window is
worth, `Witness.DeliveryIsNeeded` is a run without it, losing nothing, that goes wrong, and
`Unending.DeliveredPast` is a run with it, past any tick.

**The relay.** `Relay` is what the relay does, as functions on connections, names and insertion-ordered
dictionaries (`Ordered`), and `Protocol` says what they come to in bytes; `Handover` takes the relay's START to two
consoles. `Framing`, `Pairing`, `Passage`, `Bytewise` and `Talk` prove its properties, `Conduct` over whole
chunks and `Schedule` over turns of the event loop. `Verdict` and `Rematch` are the theory of the checksum verdict, and
`Hearing` carries it over the relay's runs. `Server` is the
Python server, an object whose fields its methods update. `SlotTable`, `SlotSteps` and `SlotRuns` are the C port's
slots, generations, accept order and linear tables, with the relay they stand for; `SlotRelay` changes them in
place. Every operation of the port is shown to be the reference's, and `SlotRuns.SlotsSimulate` carries that over
whole runs: the port's tables on one side, the reference's own run on the same doings on the other. `Overflow`,
`Saturation` and `Corners` are the runs in which the two part.

## Where the code and its comments differ

The model follows the code.

- `src/vodefs.inc:88-93` bounds the skew by the delay. The tick goes up before the gate is tested, so the bound is
  the delay plus one (`Theorems.NoWrap`), and it is reached (`Witness.SkewIsReached`); eight slots still suffice.
- `src/vonet.inc:155-161` and `src/vonet.inc:342-343` say that three ticks a window are enough and that order does
  not matter. Both hold only under the delivery hypothesis.
- `src/vocrck.inc:6-9` says that the rotation sees two bytes that swapped. It does, except for the pairs
  `Checksum.SwapIsSeenUnless` characterises, and there is one at every place (`Checksum.SwapUnseen`).
- `src/vonet.inc:263-269` speaks of eight-byte frames and a mask of `$F8`; the code uses sixteen and `$F0`.
- `server/c/src/vo-relay.c:526` calls a full checksum table unreachable and `:172` says that the Python keeps at
  most nine. The paired branch evicts nothing: two consoles in step fill the table in sixteen ticks, and on the
  seventeenth the port parts from the reference (`Overflow`; the exact condition is `SlotSteps.LogIsLogIff`).
- `server/c/src/vo-relay.c:697-701` calls a failing allocation unreachable. A dropped slot leaves the order before
  it is reaped, so it is not (`Corners.RefusedWithRoom`).
- `server/c/src/vo-relay.c:147-164` derives a peak of 226636 bytes from a connection's own requests. A partner's
  frames come on top, up to 34384 bytes a chunk; with one partner a turn that still fits (`Schedule.TurnKeepsRoom`),
  but partners may follow one another within a turn, and nine of them outgrow the buffer
  (`Saturation.TurnOutgrowsBuffer`); then the port's bytes are not the reference's (`SlotRuns.HandleIsHandleIff`).
- `src/vonet.inc:366-369` says that a clean leave is instant. A batch is consumed newest first, so an older record
  behind the departure can let one more tick run, which clears the count (`Departures`).
- `server/vo_relay_server.py:164-168` has the lap tell one lap's tick from another's. A pairing clears the
  checksums and not the clocks, so a console that has played past tick 130, paired again with a newcomer, counts
  from another lap than its partner, and nothing they send is compared (`Rematch.SurvivorVerdictIff`,
  `Hearing.CounterIsDeaf`; `Sequel` is a run in which a disagreement goes uncounted).

## Model

| member | source | states |
|---|---|---|
| Bytes.SignedCompareIsExact | src/voinput.inc:102-109 | the signed eight-bit compare of two cells is the compare of the unbounded ticks they stand for, as long as those are within 127 of each other |
| Bytes.TopTwoBitsCount | src/vophi.inc:18-23 | adding $40 to the entry byte counts its top two bits modulo four and disturbs none of the six flags below |
| Checksum.OneCellChanges | src/vocrck.inc:57-73 | for a list of cells of any length, the rotate-and-add checksum changes whenever exactly one cell changes |
| Checksum.DifferenceSurvives | src/vocrck.inc:57-73 | a difference in the accumulator survives any number of further cells: each step is a bijection |
| Checksum.SwapIsSeenUnless | src/vocrck.inc:6-9 | exactly which pairs of adjacent cells can be swapped unnoticed: the blind spot of the checksum, both directions |
| Checksum.SwapOfTwo | src/vocrck.inc:57-73 | for any accumulator, two different cells added in either order leave it the same exactly when they are consecutive and the smaller takes the rotated accumulator to 255 |
| Checksum.SwapUnseen | src/vocrck.inc:6-9 | against the comment: at every place in every list there are two different values whose swap the checksum does not see |
| Checksum.SwapUnseenAtFirst | src/vocrck.inc:6-9 | a concrete such pair: 255 then 0 and 0 then 255 have the same checksum |
| Console.ChecksumOf | src/vocrck.inc:57-73 | the routine's two loops over the game page compute the rotate-and-add fold over exactly the covered cells, in its order |
| Controls.ChecksumSeesExactly | src/vocrck.inc:42-70 | of all 128 cells of the page, changing one changes the checksum if and only if it is $88, $8D, $8E, $96 or one of $B2 to $B6 |
| Controls.CellsAreInOrder | src/vocrck.inc:57-70 | each of the nine is rotated as often as cells follow it: eight times for $96, seven for $88, then $8E, $8D and $B6 down to $B2 |
| Controls.VariationIsFirst | src/vocrck.inc:57-70 | the variation is the first cell of the sum, and not the last |
| Controls.RotateIsCyclic | src/vocrck.inc:6-10 | doubling with the carry added back in is a rotation: the bit off the top comes in at the bottom |
| Wire.DecodeInvertsEncode | src/vonet.inc:122-198 | a record decodes, at the receiver's offsets, to exactly the tick, three captures and checksum its sender put in it |
| Wire.OneDamagedByte | src/vonet.inc:375-397 | exactly when a frame with one byte damaged is still accepted as a record: any single change among tick, window, checksum and check byte is rejected |
| Wire.FlatCut | src/vonet.inc:263-283 | cutting a stream of whole frames at a frame boundary gives the stream of the frames before and of the frames behind |
| Console.StreamRecord | src/vonet.inc:122-198 | the bytes the WRITE step streams, with the check byte accumulated as they go, are the encoding of the record for the tick two ahead, newest capture first |
| Console.CheckFrame | src/vonet.inc:375-397 | the unrolled exclusive-or accepts a frame exactly when its check byte covers its eleven bytes |
| Controls.RecordBytes | src/vonet.inc:122-198 | a record's sixteen bytes, one by one |
| Controls.CheckIsParity | src/vonet.inc:375-397 | the check byte: over the bytes it covers and itself, each bit is set an odd number of times exactly where $A5 has it |
| Console.Ram.Begin | src/vosess.inc:231-330 | START is accepted exactly for its type and this delay, and then every cell is as a match begins: role bit from the reply, tick before 0, watermark two behind, both rings idle |
| Controls.FirstBoundary | src/vosess.inc:281-330 | what a match begins with: the first frame is at tick 0, captures for tick 2, finds both rings idle, and waits |
| Controls.IdleIsAtRest | src/vosess.inc:281-300 | what both rings begin with is a console at rest |
| Controls.EntryIsBinary | src/vophi.inc:13-23 | the entry byte as a number: the phase in the top two bits, then repair, left, ran, guest and match |
| Handover.HandOver | src/vosess.inc:236-256 | two consoles paired by the relay, each begun from what the relay told it: with the relay's delay their own both play, the older as host and the newcomer as guest; with any other neither does |
| Console.Ram.SeedRings | src/vosess.inc:283-306 | the descending loop leaves every slot of both contiguous rings idle |
| Console.Ram.CapturePorts | src/vocap.inc:20-97 | the wire's switch byte from the hardware's bits, with RESET pressed and the repair flag cleared exactly when a repair was armed |
| Console.PackSwitches | src/vocap.inc:21-65 | shifts and masks put triggers, SELECT, RESET and this console's difficulty in their places on the wire, the spare bits released |
| Console.MixSwitches | src/vomix.inc:41-80 | the game's switch byte: each difficulty its own, SELECT and RESET pressed if either console presses, the colour switch local |
| Console.MixTriggers | src/vomix.inc:24-39 | each console's two triggers on its own port |
| Controls.ControlsArrive | src/vomix.inc:12-80 | from any two consoles' ports through the wire to the game: each paddle its own, each console's two triggers on its own port, each console's difficulty switch at its own bit, SELECT and RESET low exactly when either is, the colour switch local |
| Controls.WireByte | src/vocap.inc:21-65 | the switch byte on the wire, as a number: SWCHA's top two bits, SELECT at 32, RESET at 16, the difficulty at 8, and 7 to spare |
| Controls.RepairArrives | src/vocap.inc:86-94 | a repair by either console presses RESET in what both games read, and changes nothing else |
| Controls.OnlyColourIsLocal | src/vomix.inc:58-66 | what two consoles must agree on is everything the game reads but the colour switch |
| Console.Ram.Mix | src/vomix.inc:12-89 | the shadow cells become the mix of the two wire captures, and the tick is marked as run at its first phase |
| Console.Ram.BumpPhase | src/vophi.inc:18-23 | the phase goes up by one modulo four and no flag changes |
| Console.Ram.HoldTick | src/vostall.inc:17-35 | the game is held; the stall count goes up, or at fifteen the console leaves; the error code stays |
| Console.Ram.ShimFrame | src/voinput.inc:33-162 | the whole shim: mid-tick frames only count, a boundary commits, then passes or holds on the signed watermark compare |
| Console.Ram.CommitBoundary | src/voinput.inc:57-97 | only after a tick that ran: tick, checksum sample and capture change together, in the local slot two ticks ahead; else nothing does |
| Console.Ram.LoadCaptures | src/voinput.inc:117-160 | ours from the local ring and theirs from the remote ring at this tick, exchanged on the guest |
| Console.Ram.LaunchAs | src/vonet.inc:70-87 | the next sequence number is the acknowledged one plus one, never zero |
| Controls.SequenceCycles | src/vonet.inc:70-87 | sequence numbers run through 1 to 255 and begin again |
| Console.Ram.IssueWrite | src/vonet.inc:99-200 | WRITE puts exactly this console's record on the wire and waits for its answer |
| Console.Ram.SizeRead | src/vonet.inc:257-286 | STATUS sizes the READ: whole frames only, at most 240 bytes, none if none is whole |
| Controls.SizeReads | src/vonet.inc:257-286 | a healthy STATUS reads as many whole frames as are waiting, at most fifteen; a broken one leaves error 2 |
| Console.Ram.ConsumeOne | src/vonet.inc:337-397 | one frame of the reply window, taken backwards: a checked record is accepted, a departure saturates the stall count, anything else is dropped |
| Console.Ram.AcceptRecord | src/vonet.inc:398-481 | the window stored, the alarm armed for a differing checksum of this very tick, the watermark raised if not older |
| Console.Ram.StoreWindow | src/vonet.inc:399-437 | each of the three captures goes into the remote slot of its own tick |
| Console.Ram.FailStep | src/vonet.inc:484-491 | the error code is kept below an unchanged stall count, and the cycle starts again |
| Controls.FailedStepRetries | src/vonet.inc:484-491 | a failed WRITE, STATUS or READ leaves error 2 and nothing else behind, and the next step writes again |
| Progress.FailureIsClean | src/vonet.inc:484-491 | in any reachable state a transaction that fails takes nothing off the stream and passes on nothing but the error |
| Controls.UnansweredWaits | src/vonet.inc:202-205 | and one not yet answered leaves every cell as it is |
| Controls.DepartureIs | src/vonet.inc:366-373 | a departure saturates the stall count, records error 3, and touches nothing else |
| Console.Ram.Step | src/vonet.inc:42-68 | one bounded step of the machine, dispatched on its state; only WRITE puts bytes on the wire |
| Control.DrawKeepsNode | src/voinput.inc:33-162 | a frame, with any corruption of the simulation, keeps everything a node knows about itself: ticks, captures, states, counts, and that what it has said is true |
| Links.Skew | src/vodefs.inc:88-93 | from what two nodes know of each other: ticks at most delay+1 apart, watermark between two behind and five ahead |
| Links.ReadTakesWholeFrames | src/vonet.inc:290-331 | an answered READ takes exactly the oldest whole messages off the stream and leaves a stream of whole messages |
| Links.RecordKeepsLink | src/vonet.inc:374-481 | consuming a record keeps the link invariant, and arms the repair exactly when the two samples of one unbounded tick differ |
| Runs.EveryRun | src/vonet.inc:5-14 | the whole invariant holds after every interleaving of frames, transport steps, losses, delays, corruptions and departures |
| Rings.StoreKeepsHeld | src/vonet.inc:399-406 | a window that raises the watermark by at most three fills every tick it covers and clobbers no slot still to be read |
| Rings.EveryDeliveredRun | src/vonet.inc:155-161 | in every run that keeps the delivery hypothesis each tick from the current one to the watermark is in its slot, and every tick that ran ran on the two consoles' own captures |
| Theorems.NoWrap | src/voinput.inc:99-109 | in runs of any length the skew and watermark bounds hold, and all three eight-bit compares equal compares of unbounded ticks |
| Witness.SkewIsReached | src/vodefs.inc:88-93 | against the comment: in every game a lossless run puts one console delay+1 ticks ahead of the other, so the bound of NoWrap is exact |
| Theorems.RingsAreRight | src/voinput.inc:111-160 | every tick either console ran, it ran on the mix of the host's and the guest's captures for that tick |
| Theorems.AgreementLasts | src/voinput.inc:140-160 | from two equal states, ticks nobody corrupts lead to equal states on both consoles |
| Theorems.LockstepAgreement | src/voinput.inc:42-58 | the state in which either console enters any tick is the fold of the game over the two capture histories, so wherever both reach a tick they agree |
| Gate.GateTells | src/voinput.inc:99-115 | at any reachable boundary the eight-bit gate runs the tick exactly when the watermark has reached it |
| Gate.GateIsRight | src/voinput.inc:117-138 | when the gate passes, the remote slot holds exactly the peer's capture for that tick and the local slot this console's own |
| Gate.RingsStayRight | src/vonet.inc:404-406 | no re-written window ever clobbers a slot between the current tick and the watermark |
| Gate.WindowSuffices | src/vonet.inc:155-161 | three ticks a window are enough, for all ring contents and captures, exactly when the watermark rises by at most three over the ticks known |
| Gate.OnlyTheNewestRaises | src/vonet.inc:337-343 | only the newest record of a batch can raise the watermark, and it does so from the value the batch was read with |
| Witness.DeliveryIsNeeded | src/vonet.inc:342-343 | in every game there is a run with nothing lost, corrupted or reordered in which a console runs tick 2 on a capture the peer never made: the delivery hypothesis is needed |
| Repairs.HistoryStands | src/voinput.inc:43-58 | captures, states, sent records and alarms are only ever added to |
| Repairs.SentIsImmutable | src/voinput.inc:43-58 | two records a console sends at any two moments carry the same capture for any tick both cover: the one made for it, idle for ticks 0 and 1 |
| Repairs.CapturedOnAdvance | src/voinput.inc:57-96 | a capture and a state are recorded exactly on boundaries that advance the tick, once a tick |
| Repairs.AlarmIsReal | src/vonet.inc:441-453 | an alarm at a tick means both consoles entered that unbounded tick, with different checksums: no false alarm in any run whatever |
| Repairs.NoFalseAlarm | src/vonet.inc:452-453 | a delivered run that nothing has corrupted rings no alarm |
| Repairs.AlarmRings | src/vonet.inc:454-469 | consuming a record of the receiver's own tick arms the repair exactly when the two samples differ |
| Repairs.ResetInCapture | src/vocap.inc:86-94 | a capture has RESET pressed exactly for the console's own switch or for its alarm three ticks before |
| Repairs.ResetReachesBoth | src/vomix.inc:41-52 | both consoles' mixed RESET bit is low exactly when one of the two captures presses it |
| Repairs.RepairLandsTogether | src/vocap.inc:86-94 | an alarm at a tick presses RESET on both consoles at the same tick, delay+1 later |
| Repairs.RepairHeals | src/vocap.inc:86-94 | if a RESET tick forgets the state, both consoles agree on every tick after the repair and ring no further alarm there, whatever was corrupted before |
| Progress.NeverMisframes | src/vonet.inc:263-283 | for every split of the stream READ asks for no more than was reported, starts on a frame boundary, and every frame taken is whole and inside the window |
| Progress.EverySeat | src/vosess.inc:240-254 | the match bit and the role never change during a match |
| Progress.TicksAreCounted | src/vophi.inc:13-23 | ticks run, frames the game advanced, captures and phase are tied by exact equations in every run |
| Progress.SilenceEnds | src/vostall.inc:12-35 | with no newer record consumed a console runs no tick past its watermark and has left after at most 43 frames, from any state of any run |
| Progress.LeavesOnlyIf | src/vostall.inc:12-31 | a console leaves only after sixteen stalled boundaries in a row or a consumed departure, and after sixteen it has left |
| Departures.DepartureWarns | src/vonet.inc:366-373 | consuming a departure saturates the stall count, in every run |
| Departures.DepartureIsImmediateIff | src/vonet.inc:366-373 | from there the next boundary leaves for the peer-left screen if and only if no record consumed before it brings the watermark to the tick wanted; else that tick runs and the count is cleared |
| Departures.DepartureForgotten | src/vonet.inc:366-373 | against the comment: in every game a run in which a clean departure, read together with an older record, is not instant |
| Liveness.EveryLosslessRun | src/vonet.inc:10-14 | on a run that loses nothing the newest record sent is consumed or still on its way |
| Liveness.NoDeadlock | src/voinput.inc:99-115 | in every run, whatever was lost before: once each console holds the other's current record, a console waits exactly when it is the full skew ahead, and never both |
| Liveness.SettledIsCaught | src/vonet.inc:10-14 | in a run that loses nothing, consoles that have spoken for their tick and consumed everything hold each other's current record |
| Drive.NoDeadEnd | src/vonet.inc:155-161 | from every reachable state with both consoles in the match, whatever was lost before, some continuation takes both past any given tick with neither leaving |
| Unending.DeliveryGoesOn | src/vonet.inc:155-161 | a run that has kept the delivery hypothesis, and whose consoles are within a window of each other, can keep it past any tick |
| Unending.DeliveredPast | src/vonet.inc:155-161 | in every game, from the very start, some run keeps the delivery hypothesis past any tick on both consoles: the lockstep theorems are about runs that exist |
| Ordered.PutGet | server/vo_relay_server.py:384 | storing under a key changes that key's value and no other, and keys stay distinct |
| Ordered.PopGet | server/vo_relay_server.py:394 | removing takes that key away and no other |
| Framing.CutInvertsFraming | server/vo_relay_server.py:138-141 | frames with bodies of 1 to 200 bytes come out of the reassembler as they went in, with nothing left over |
| Protocol.LengthsAtTheDoor | server/vo_relay_server.py:219-237 | a length byte of 1 to 200 is a frame, once it is whole; 0 and more than 200 end the connection |
| Framing.ChunksDoNotMatter | server/vo_relay_server.py:219-237 | the frames handled, the verdict on the stream and the remainder do not depend on how the stream was split |
| Framing.SameUpToDrop | server/vo_relay_server.py:219-237 | with a connection dropped by some frame, everything handled up to and including that frame is the same for every split |
| Rematch.KeyIsFromBase | server/vo_relay_server.py:376-382 | in any match, first or later, for stamps that never go back and never jump half a lap, a record's key is its stamp counted from the lap its console's first record of the match was taken for |
| Rematch.SameBaseSameVerdict | server/vo_relay_server.py:376-399 | if both clocks count from the same lap, as unused ones do, a later match is judged exactly as a first match of the same records is |
| Rematch.OtherBaseNoVerdict | server/vo_relay_server.py:376-399 | if they count from different laps, nothing in the match is ever compared, however long it lasts, as long as each record comes within a lap of the eight newest of the other console's: no mismatch is counted, real or not |
| Rematch.PacedIsAbreast | server/vo_relay_server.py:384-395 | so it is in every match, of any length, in which no console jumps more than thirty-one ticks or is heard more than seven from the other's latest |
| Rematch.InStepIsAbreast | server/vo_relay_server.py:384-395 | two consoles in step stay so for as long as they play, over any number of laps |
| Rematch.LaterVerdictIff | server/vo_relay_server.py:376-399 | so a later match, of any length, whose consoles keep abreast gets the verdict of a first one if and only if each console's last tick before and first tick now put both clocks in the same lap |
| Rematch.SurvivorVerdictIff | server/vo_relay_server.py:170-171 | a console whose partner has gone and a newcomer, both from tick 2 and abreast from there on: their match, of any length, gets the verdict of a first match if the survivor's last stamp was at most 130, and none at all if it was more |
| Sequel.DisagreementNotCounted | server/vo_relay_server.py:376-399 | a run of conforming clients in which the two consoles of a survivor's match send different checksums for one tick and crc_bad stays zero |
| Hearing.MatchIsTrial | server/vo_relay_server.py:355-399 | through any match of conforming clients, whatever else happens to the relay, the two ledgers are those of the two consoles' records in the order heard |
| Hearing.CounterIsSound | server/vo_relay_server.py:382-399 | over the relay's own runs: with both clocks counting from the same lap, crc_bad rises on a record only if the two consoles really sent different checksums for one true tick, whatever was evicted |
| Hearing.FirstMatchIsJudged | server/vo_relay_server.py:382-399 | in the first match of two connections a mismatch is counted only when the two consoles really sent different checksums for one true tick |
| Hearing.CounterIsDeaf | server/vo_relay_server.py:382-399 | over the relay's own runs: with clocks counting from different laps neither crc_bad nor crc_ok moves for the match, however long it is, while its consoles keep abreast |
| Hearing.PairingOpens | server/vo_relay_server.py:319-330 | a pairing starts the two ledgers with no checksums and with the clocks the connections had, whatever they played before |
| Verdict.NothingRecentIsMissed | server/vo_relay_server.py:384-399 | a tick whose second record comes before eight more of the first sender's is ruled on, and rightly |
| Verdict.PairedNeverEvicts | server/vo_relay_server.py:384-395 | two consoles in step: eviction happens only on an unpaired record, so the dictionary of the one always second keeps every checksum it ever sent |
| Overflow.SixteenTicksFill | server/c/src/vo-relay.c:517-531 | against the comment: in the port's own run of a match in step, the sixteen-entry table of the one always second is full after sixteen ticks |
| Overflow.FullTableDiffers | server/c/src/vo-relay.c:517-531 | a run of conforming clients from the empty tables, seventeen ticks long, after which the port's checksum tables are not the reference's, though all else is |
| Relay.FreeNameIsOk | server/vo_relay_server.py:295-298 | a name found by trying digits is a good name nobody has |
| Relay.RetryEndsIff | server/vo_relay_server.py:295-296 | for a name of seven or eight characters the retry can end if and only if the name or one of the ten it can become is free: otherwise the loop has no end |
| Protocol.HelloIsGranted | server/vo_relay_server.py:264-301 | a HELLO of version 3 and a served television, with two to eight ASCII letters and digits between zeros and spaces, is granted exactly those, small letters made capital, if nobody has that name |
| Protocol.HelloIsRefused | server/vo_relay_server.py:264-294 | every other HELLO is refused, and its connection dropped |
| Protocol.TakenIsRetried | server/vo_relay_server.py:295-296 | a taken name keeps its first seven characters and gets the digit drawn for its last |
| Pairing.NamesAreOwned | server/vo_relay_server.py:290-298 | for clients that behave in any way at all: every live named console owns its name, names are 2-8 of A-Z0-9, and no two are the same |
| Pairing.MatchesAreMutual | server/vo_relay_server.py:306-330 | for clients that follow the protocol: partners are live, mutual, never oneself, and play the two different roles |
| Pairing.PairingTells | server/vo_relay_server.py:314-334 | the host is the oldest waiting, both are told the same seed, delay and variation and each other's names, and nobody else is told anything |
| Protocol.PairingStarts | server/vo_relay_server.py:314-336 | byte by byte: the older console's START says role 0 and the newcomer's role 1, both the seed, the operator's delay and variation, and each the other's name, then zeros |
| Protocol.HelloPairs | server/vo_relay_server.py:297-336 | a HELLO granted its name pairs its sender under it if and only if another live console has a name and no partner: with one waiting longest, both told so byte by byte with the seed drawn; nobody else is told anything |
| Protocol.JoinPairs | server/vo_relay_server.py:251-254 | and so does JOIN, under the name its sender has |
| Pairing.OldestIsOldest | server/vo_relay_server.py:314-318 | nobody waiting is older than the one chosen, and none as old was accepted before |
| Passage.GameFramesAreCut | server/vo_relay_server.py:219-237 | a stream of whole sixteen-byte frames is cut into exactly those frames |
| Protocol.GameFramesPass | server/vo_relay_server.py:239-248 | byte by byte: a frame of the four game types goes to the partner alone under its own type, padded with zeros to sixteen bytes |
| Passage.RecordPasses | server/vo_relay_server.py:239-248 | a console's record reaches its partner byte for byte, nobody else hears it, and the relay listens to exactly its tick and checksum |
| Passage.SurvivorIsTold | server/vo_relay_server.py:402-411 | the frame the survivor gets is the one its console knows as a departure |
| Talk.MatchIsWhole | server/vo_relay_server.py:239-248 | through any match of two consoles that send only game frames, whatever else happens to the relay: all that each has been told, taken or waiting, is what was waiting at START and then the other's frames, each of sixteen bytes, all of them, in order |
| Talk.MatchGoesOn | server/vo_relay_server.py:239-248 | and such a match goes on with any happening in which the two stay and say only game frames |
| Talk.SurvivorGetsLeft | server/vo_relay_server.py:402-421 | however one of the two goes, by BYE, hangup or backlog, the other is told the sixteen bytes of a departure and nothing else |
| Talk.RecordGoesOut | server/vo_relay_server.py:246-248 | a console's record is such a frame, and goes out as the bytes the console wrote |
| Passage.HandleTold | server/c/src/vo-relay.c:147-164 | one frame of n bytes provokes at most 75 bytes to its sender and 8n to all the other connections together, and no receive buffer changes |
| Passage.ServeGrows | server/c/src/vo-relay.c:147-164 | n buffered bytes provoke at most 75*(n/2) bytes to their sender and 8n+16 to all the other connections together |
| Passage.ServeLeaves | server/c/src/vo-relay.c:737-742 | serving leaves exactly what the cutting of the stream leaves: at most 200 bytes, or a dropped connection |
| Passage.BuffersSuffice | server/c/src/vo-relay.c:147-166 | so a chunk always fits the receive buffer, and what it provokes fits the sender's transmit buffer |
| Schedule.TurnKeepsRoom | server/c/src/vo-relay.c:147-164 | at every moment of a turn of the event loop in which nobody is told anything by the chunks of two others, no transmit buffer is outgrown, partners' frames and lost partners included |
| Schedule.TurnGoesOn | server/c/src/vo-relay.c:1380-1446 | and such a turn goes on with any happening but a second chunk of one connection or a second teller of one |
| Schedule.TurnEndsRested | server/c/src/vo-relay.c:1424-1446 | once everything live has been flushed and the dropped reaped, the next turn starts from where this one did |
| Saturation.TurnOutgrowsBuffer | server/c/src/vo-relay.c:147-164 | against the comment: a turn of nine conforming clients' chunks after which one connection has more waiting than the buffer holds |
| Conduct.NamesAreFew | server/c/src/vo-relay.c:478-484 | with conforming clients every name is a live console's, so that there are never more than sixty-four and the name table cannot fill |
| Conduct.DoesKeepsLaw | server/vo_relay_server.py:219-261 | whole chunks of conforming clients keep matches mutual, names owned and receive buffers down to a partial frame |
| Server.RelayServer.AcceptClient | server/vo_relay_server.py:196-216 | a connection is taken exactly while there are fewer than sixty-four, and fewer than eight from its address, and joins at the end of the order; one too many from an address is counted |
| Protocol.ArrivalIff | server/vo_relay_server.py:196-216 | an arrival is let in if and only if fewer than sixty-four are live and fewer than eight from its address, as new as new can be; only a refusal for the address is counted |
| Protocol.NoAddressHasMore | server/vo_relay_server.py:201-207 | for clients that behave in any way at all: never more than sixty-four live connections, nor more than eight from any one address |
| Protocol.FlushDropsIff | server/vo_relay_server.py:474-488 | a live connection is dropped by a send, and counted, if and only if more than 65536 bytes are left; otherwise it has exactly what was not taken |
| Server.RelayServer.FlushClient | server/vo_relay_server.py:474-488 | what one send took leaves the front of the buffer, and a client with more than the backlog left is counted and dropped |
| Server.RelayServer.Service | server/vo_relay_server.py:219-237 | the frame loop over the buffered stream, ending in a partial frame or in a drop for a malformed length |
| Protocol.MalformedIsBlamed | server/vo_relay_server.py:219-231 | a malformed length is counted once and drops its sender |
| Server.RelayServer.Handle | server/vo_relay_server.py:239-261 | the dispatch on frame types, with its whole effect on every connection |
| Protocol.PingIsAnswered | server/vo_relay_server.py:257-258 | PING is answered with the two bytes of PONG, to its sender alone |
| Protocol.OtherFrames | server/vo_relay_server.py:249-261 | BYE drops, JOIN pairs with the oldest waiting, and a type the relay does not know does nothing |
| Server.RelayServer.OnHello | server/vo_relay_server.py:263-301 | the refusals and the digit loop of HELLO, then a free name claimed and a partner sought |
| Server.RelayServer.TryPair | server/vo_relay_server.py:303-336 | the minimum over the idle others becomes the host |
| Server.RelayServer.LogCrc | server/vo_relay_server.py:355-399 | the lap reconstructed, the checksum stored, paired or left to wait, and the oldest evicted only when unpaired |
| Protocol.UnpairedKeepsEight | server/vo_relay_server.py:386-393 | a record that finds nothing to pair with leaves its sender the eight newest of its checksums, and its partner's alone |
| Protocol.LoneRecordIsKept | server/vo_relay_server.py:376-394 | a record from a console with no partner moves its own clock and is kept in its own ledger, and changes nothing else |
| Server.RelayServer.SendLobby | server/vo_relay_server.py:343-352 | the first eight named clients in accept order, each with its state |
| Protocol.ListIsAnswered | server/vo_relay_server.py:343-352 | byte by byte: LIST is answered with the lesser of eight and the number of named live consoles, and of each, in accept order, its name, then zeros to eight bytes, and 1 if it has a partner or 0 |
| Server.RelayServer.Drop | server/vo_relay_server.py:402-421 | the name given up if owned, the survivor's link cut and the survivor told, the client taken out of the order |
| SlotRelay.CloseUp | server/c/src/vo-relay.c:447-456 | the memmove of one place, in place: the entry is gone and everything behind it has closed up |
| SlotRelay.CrcFind | server/c/src/vo-relay.c:509-515 | the linear search finds the key's place or -1 |
| SlotRelay.CrcSet | server/c/src/vo-relay.c:517-531 | an old key keeps its place, a new one is appended, and a full table overwrites its last entry |
| SlotRelay.CrcTrim | server/c/src/vo-relay.c:1043-1048 | the trimming loop leaves the eight newest |
| SlotRelay.NameIn | server/c/src/vo-relay.c:879-904 | stripping, upper-casing and the character check accept exactly the names the reference accepts |
| SlotRelay.SlotServer.ClientSend | server/c/src/vo-relay.c:565-579 | appends in place, or saturates the length when the buffer would overflow |
| SlotRelay.SlotServer.OrderDel | server/c/src/vo-relay.c:447-457 | the slot is taken out of the order in place |
| SlotRelay.SlotServer.NameSet | server/c/src/vo-relay.c:469-490 | a name changes hands in place, is appended, or on a full table displaces the oldest |
| SlotRelay.SlotServer.NameDelIfIs | server/c/src/vo-relay.c:492-505 | a name is removed only if this slot in this generation holds it |
| SlotRelay.SlotServer.Drop | server/c/src/vo-relay.c:1063-1097 | drop over the tables, the slot's own link left standing |
| SlotRelay.SlotServer.TryPair | server/c/src/vo-relay.c:938-987 | the scan of the order for the oldest idle slot, and both slots entered in the match |
| SlotRelay.SlotServer.SendLobby | server/c/src/vo-relay.c:989-1004 | rows built in the order, at most eight |
| SlotRelay.SlotServer.LogCrc | server/c/src/vo-relay.c:1020-1059 | the same log over the slot's table |
| SlotRelay.SlotServer.OnHello | server/c/src/vo-relay.c:834-930 | HELLO over the tables |
| SlotRelay.SlotServer.Handle | server/c/src/vo-relay.c:793-832 | the dispatch over the tables, keeping them sound and the slot's buffer and generation |
| SlotRelay.SlotServer.Service | server/c/src/vo-relay.c:719-784 | one chunk: the overflow branch, then the frame loop |
| SlotRelay.SlotServer.Accept | server/c/src/vo-relay.c:625-714 | the first free slot; refused exactly when the order is full, the address has its eight, or no slot is free, which a dropped slot is not until reaped |
| SlotRelay.SlotServer.Flush | server/c/src/vo-relay.c:589-623 | the sent bytes moved out of the front of the buffer in place, and a slot still over the backlog counted and dropped |
| SlotRelay.MoveDown | server/c/src/vo-relay.c:613-615 | the memmove of the unsent bytes to the front, in ascending order: they stand there, and what was behind them is as it was |
| SlotRelay.SlotServer.ReapAll | server/c/src/vo-relay.c:1102-1107 | every dropped slot freed and its generation moved on |
| SlotTable.WriteView | server/c/src/vo-relay.c:186-219 | writing one slot in use changes exactly one connection of the relay the tables stand for |
| SlotTable.ViewIsKnown | server/c/src/vo-relay.c:241-258 | sound tables stand for a relay in which everything spoken of is known |
| SlotSteps.DropIsDrop | server/c/src/vo-relay.c:1063-1097 | dropping a slot is the reference's drop of its connection |
| SlotSteps.PairIsTryPair | server/c/src/vo-relay.c:938-987 | the slot scan pairs exactly the connections the reference pairs |
| SlotSteps.LobbyIsLobby | server/c/src/vo-relay.c:989-1004 | the lobby bytes are the reference's, despite slot reuse |
| SlotSteps.LogIsLogIff | server/c/src/vo-relay.c:517-531 | for distinct keys the table's log is the dictionary's if and only if the table is not full or has the key already |
| SlotSteps.GiveIsPut | server/c/src/vo-relay.c:469-490 | with fewer than 256 names the linear table is the dictionary's store |
| SlotSteps.TakeIsPop | server/c/src/vo-relay.c:492-505 | slot and generation together decide ownership as object identity does |
| SlotSteps.HandleIsHandle | server/c/src/vo-relay.c:793-832 | any frame of any client makes the tables say exactly what the reference says and stand where it stands, if the buffers and the name table can hold what the reference then has, and so with the checksum ledgers if and only if its checksum has a place |
| SlotRuns.HandleIsHandleIff | server/c/src/vo-relay.c:565-579 | and that is exact: on any frame the port says what the reference says if and only if its buffers and name table can hold what the reference then has |
| SlotRuns.ServeIsServe | server/c/src/vo-relay.c:744-783 | a chunk served over the tables is a chunk served by the reference, in all but the checksum ledgers, and in those too if its checksums fit |
| SlotRuns.ChunkIsServiced | server/c/src/vo-relay.c:719-784 | a received chunk, overflow branch and all, is the reference's: the branch is never taken |
| SlotRuns.ArrivalIsAcceptIff | server/c/src/vo-relay.c:668-714 | an arrival over the tables is the reference's, limits and counts included, if and only if it is turned away or some slot is free |
| Corners.RefusedWithRoom | server/c/src/vo-relay.c:697-701 | against the comment: a run of sixty-four arrivals and one loss after which the port refuses, with sixty-three in the order, a connection the reference takes |
| Corners.SendSaturates | server/c/src/vo-relay.c:565-579 | a send is appended in place while 262144 bytes hold it; otherwise nothing is copied and the buffer counts as full |
| Corners.FullTableForgets | server/c/src/vo-relay.c:478-490 | a new name in a table of 256 displaces the oldest |
| Corners.RoomKeepsAll | server/c/src/vo-relay.c:478-490 | and in one with room displaces none |
| Corners.FullSumsForget | server/c/src/vo-relay.c:517-531 | a new checksum in a full table of sixteen displaces the newest |
| Corners.LongChunkDrops | server/c/src/vo-relay.c:741-753 | a chunk that would leave more than 4352 bytes buffered drops its connection unread |
| SlotRuns.FlushIsFlush | server/c/src/vo-relay.c:589-623 | a flush over the tables is the reference's: the bytes taken off the front, and the drop past the backlog |
| SlotRuns.ReapIsSoundIff | server/c/src/vo-relay.c:1099-1107 | reaping leaves sound tables exactly when no live console is still linked to a dropped one |
| Corners.JoinWhilePaired | server/c/src/vo-relay.c:1063-1107 | a client that says JOIN while it plays and then BYE leaves its first partner linked to its dropped slot, and the reap leaves tables that are not sound |
| Corners.LinkCanBeLeft | server/c/src/vo-relay.c:1063-1107 | a run of conforming clients to such a table: two at play and a third waiting |
| Corners.StrangerIsTold | server/c/src/vo-relay.c:793-813 | and once the slot is taken again, the frames of the one left behind go to whoever has it |
| Corners.RelayTellsNoStranger | server/vo_relay_server.py:239-248 | where the reference, on the same doings, tells the newcomer nothing |
| SlotRuns.ReapIsForget | server/c/src/vo-relay.c:1099-1107 | reaping forgets exactly the dropped connections |
| SlotRuns.MarriedIsParted | server/c/src/vo-relay.c:1076-1078 | with conforming clients reaping is always sound |
| Bytewise.HandleAlike | server/vo_relay_server.py:239-261 | what the relay says and keeps on a frame does not depend on the checksums it has heard |
| SlotRuns.SlotsSimulate | server/c/src/vo-relay.c:246-258 | after any run of conforming clients, arrivals, frames, whole chunks, losses, sends and reaps, in which the reference's own transmit buffers do not outgrow the port's and no arrival is refused for want of a slot, the tables stand for the state the reference reaches by itself on the same doings, in all but the checksum ledgers, and in those too if every checksum fitted |
| SlotRuns.SameBytes | server/c/src/vo-relay.c:246-258 | so what each connection has been told and not yet taken is the same bytes, whatever slots were reused and however full the checksum tables |

## Left out

- The 1977 game logic, the display kernel and the paddle's analog sampling: the game is an arbitrary step function.
- Frame timing: how many transport steps fit before the vertical blank ends is any number, including none, so runs
  with a frame and no transport step are among those quantified over.
- The cartridge mailbox and its firmware: a step sees an acknowledged number, an error flag, a reply and a length;
  a READ that fails takes nothing off the stream, and a written record may be lost.
- Bytes corrupted on the streams between the consoles: they are a reliable transport's; `Wire.OneDamagedByte` says
  what a damaged record would meet.
- Local play (the mirror of the console's own ports), the latency probe, text screens, appkeys, the bank
  trampoline: straight-line set-up or hardware access.
- The second paddle: its byte is carried on the wire as idle and dropped by the receiver, as in the source.
- Slots of two bytes are one value each, so the ring-seeding loop counts slots, not bytes.
- The checksum cell before the first frame is zero, as the RAM clear leaves it.
- Console.Ram.SampleChecksum: computes the checksum of a page handed to it; which cells the game writes is the game's.
- Sockets, epoll, clocks, the sweep of silent connections: losing a connection is an event that may happen at any
  time, and how many bytes a send takes is any number of those waiting.
- The random seed and the digits for taken names are parameters.
- Server.RelayServer.OnHello: refuses a name when the digits given run out, as the C does after a thousand, where the
  Python tries for ever; `Relay.RetryEndsIff` says when trying on is of no use.
- The television standard of a HELLO is checked and not kept: it is only logged. The lobby publisher, logs and
  argument checks are not part of this model.
- SlotRuns.SlotsSimulate: is about runs in which the reference's transmit buffers never hold more than the port's can,
  which `Schedule.TurnKeepsRoom` gives for the event loop, and no arrival is refused for want of a slot; the saturating
  branch of the buffer is modelled in `SlotSteps.Appended`. Generations are unbounded numbers.
- SlotRuns.SameBytes: is about the same runs.
