# newosp: a Dafny model of the bus, the dispatcher, the serial upgrade, the breaker, the behaviour tree and the file transfer

newosp is a C++17 header-only messaging library for embedded systems. This project models the parts
of it whose correctness is hardest to see from the code, and proves what they promise.

* **The bus** (`Options`, `Sets`, `Debts`, `SlotIndex`, `Bus`, `BusSafety`, `BusDepth`, `BusConservation`,
  `AsyncBus`, `BusSolo`, `BusBatch`, `BusRest`). A ring of slots with a sequence number each, filled by any number
  of publishers, drained by one consumer, with admission by priority and eviction in place. `Bus` takes one
  transition per atomic load, store, exchange or counter update and lets all actors interleave. The results are
  about every schedule: one actor per envelope, claims and reserves that only succeed on the right slot, delivery in
  order, a depth bound under stale admission, and the books of messages and statistics. `AsyncBus` is the object
  itself, used by one thread at a time, proved to be a bounded queue; a call or a batch of the step model that
  nobody interrupts does the same.
* **The dispatcher** (`BlockStates`, `BlockPool`, `BlockPoolSafety`, `BlockPoolReclaim`, `BlockPoolStale`,
  `BlockPoolRace`, `Pipeline`, `Pool`, `Dispatcher`). A tagged lock-free free list and reference counts with
  competing reclaimers, again one transition per atomic operation; and the object with whole calls, its recursive
  pipeline, its generations and its block states.
* **The serial upgrade** (`Octets`, `Iteration`, `Crc`, `CrcDetection`, `Frames`, `Parser`, `ParserSafety`,
  `ParserRuns`, `ParserFrames`, `FrameParser`, `OtaWire`, `OtaDevice`, `OtaHost`, `OtaLink`, `OtaTrack`,
  `OtaSafety`, `OtaLanding`, `OtaUpgrade`, `OtaReuse`, `OtaCompletion`, `OtaStandstill`, `OtaRecovery`, `OtaErase`).
  The CRC, the frame printer, the table-driven byte parser, and the host and device of the upgrade protocol joined
  by a link that may lose, delay and reorder frames. The results hold for a device in any state, not only an idle
  one.
* **The breaker** (`Bits`, `Breaker`, `BreakerHistory`, `BreakerRecovery`, `BreakerConcurrent`). A five-level
  circuit breaker packed into one 32-bit word and updated by a compare-and-swap loop from any number of threads.
* **The behaviour tree** (`BtSemantics`, `BehaviorTree`, `BtLeaves`). Recursive ticking of a flat node array,
  against the meaning of the tree it stands for, and that meaning against the leaf functions alone.
* **The file transfer** (`FtTable`, `FileTransfer`). The transition table with its parent states, the retry machine
  it stands for, and the driver loop around it.

Objects that the source updates in place are classes here; each of their methods is proved equal to a
function on values, and what the source promises is proved about those functions. Concurrent protocols
are transition systems over values with an arbitrary schedule. Clocks, randomness and the network are
parameters: the time of a scan, the outcome of each attempt to send, the frames the link loses.

Where code and comments differ, the model follows the code. These results are about places that read otherwise
than they behave:

* A reported upgrade need not be an upgrade. Nothing resets a device after an upgrade, and a device that is not idle
  acknowledges START and ignores it. So a second upgrade with a firmware that is not longer reports success, in
  order and without a loss, and stores nothing (`OtaReuse.SecondUpgradeStoresNothing`). And `SendVerify` marks its
  phase done before it looks at the verdict, so that a failed verification is followed by a tick that reports
  success; a host restarted with another firmware in the middle of a transfer gets there
  (`OtaReuse.RestartFailsThenReports`). Exactly which devices can be upgraded so that success always means written is
  `OtaUpgrade.WrittenIffSafe`; for a driver that stops at the first failure it is
  `OtaUpgrade.FirstReportWrittenIff`. Idle devices are among them (`OtaUpgrade.SuccessMeansWritten`).
* An upgrade can come to a standstill. The host has no timeout: a START, END or VERIFY that is lost, or whose answer
  is, leaves it waiting for ever. And without any loss, if END overtakes the last chunks and is refused, a late refusal
  of a repeated chunk can hide from the host that it has to send END again, with the whole firmware in flash
  (`OtaRecovery.EarlyEndSticks`). In every state of every run, exactly when a success can still be reported is
  `OtaRecovery.CanSucceedIff`.
* The erase loop steps from the start address and not from its sector, so that a region that starts inside a sector
  can keep old bytes at its end (`OtaErase.RegionKeepsByte`); exactly when it is blank after START is
  `OtaErase.StartBlanksIff`.
* The count of bytes sent is the offset of the next chunk until a NAK asks to skip ahead or a refused END rewinds; there
  it is left as it was (`OtaHost.ProgressIsOffsetIff`).
* The generation check of a checked release and the release itself are separate operations. A release that passed
  the check can take a reference of a later holder (`BlockPoolRace.CheckedReleaseTakesAnothers`); it is about the
  incarnation its handle names exactly if the block was not being allocated at the check and has not been popped
  since (`BlockPoolStale.CheckedReleaseIsCurrentIff`).
* The CRC misses one change of two neighbouring bytes: the last covered byte by 0x89 together with the low CRC byte
  by 0xA1. Every other change of two neighbours among class, command, data and CRC is detected
  (`ParserFrames.CorruptLastPair`, `ParserFrames.CorruptPairIsRefused`, `ParserFrames.CorruptCrcIsRefused`).
* The marker of a slot being consumed is numerically the published number of the position one lap later, so
  the markers alone do not keep them apart. What does is that the cursor is never a lap behind
  (`BusSafety.MatchIsPublished`).
* The chunk count of the file transfer is computed in 32 bits. A successful transfer has sent exactly the
  file if and only if the size is at most 2^32 - 2048 (`FileTransfer.ChunksAddUp`).

## Model

| member | source | states |
|---|---|---|
| `SlotIndex.IndexIsRemainder` | include/osp/bus.hpp:880 | the slot of a position is its remainder by the depth, for every depth |
| `BusSafety.EnvelopeHasOneActor` | include/osp/bus.hpp:634-670 | in every interleaving at most one publisher, evictor or consumer is inside an envelope |
| `BusSafety.SequenceMatchMeansFree` | include/osp/bus.hpp:882-893 | when the sequence read equals the position to claim, that position is less than a lap ahead of the consumer, or producers have already moved past it |
| `BusSafety.ClaimIsSound` | include/osp/bus.hpp:878-895 | a claiming exchange that can succeed, also when reached through the `continue`, is about a slot that is free for the position and that nobody is inside |
| `BusSafety.MatchIsPublished` | include/osp/bus.hpp:441-451 | a slot carrying the published number of a position is published for that very position, although the consuming marker a lap earlier is the same number |
| `BusSafety.ReserveIsSound` | include/osp/bus.hpp:939-960 | a reserving exchange that succeeds takes a slot published for the scanned position, holding what was last published there, with nobody inside |
| `BusSafety.DeliveryInOrder` | include/osp/bus.hpp:634-670 | the consumer delivers positions 0, 1, 2, ... each once, with the content last published there |
| `BusSafety.HighIsNeverOverwritten` | include/osp/bus.hpp:951-979 | a published HIGH message keeps its position and content through any future |
| `BusSafety.OnlyLowerPrioritiesEvicted` | include/osp/bus.hpp:962-982 | every evicted message was LOW or MEDIUM |
| `BusSafety.PositionsOrdered` | include/osp/bus.hpp:844-872 | cached position <= stored position <= cursor <= producer position <= cursor + depth, always |
| `BusDepth.AdmissionIsBelowLimit` | include/osp/bus.hpp:846-857 | a call that passes admission loaded a producer position below the stored consumer position plus the threshold of its priority, or of any higher one |
| `BusDepth.DepthIsBounded` | include/osp/bus.hpp:844-895 | with at most K publishing calls in flight, the depth stays between 0 and 99 percent of the ring plus K - 1; with only LOW and MEDIUM calls started 80 percent, with only LOW ones 60 |
| `BusConservation.NoMessageLostOrDuplicated` | include/osp/bus.hpp:897-907 | in every reachable state the published messages are exactly the delivered, the evicted and the pending ones, as multisets |
| `BusConservation.HighMessagesSurvive` | include/osp/bus.hpp:951-979 | every HIGH message published was delivered or is pending, with its multiplicity |
| `BusConservation.StatisticsBalance` | include/osp/bus.hpp:665-668 | with no call in flight, published = processed + evicted + depth and dropped = rejected + evicted |
| `BusConservation.DeliveredWasAsked` | include/osp/bus.hpp:897-904 | over every schedule, a message handed over bears payload, sender, time, topic and priority of a call that was started |
| `BusRest.QuietIsAtRest` | include/osp/bus.hpp:835-908 | after any schedule that leaves no call in flight and the consumer between batches, the ring holds a queue: every pending slot is published and every other one free |
| `BusSolo.SoloCallIsSequential` | include/osp/bus.hpp:835-986 | a call that nobody interrupts on such a bus, operation by operation, appends below 60, 80 or 99 percent, replaces the oldest lower message for HIGH above that, refuses otherwise, and leaves such a bus |
| `BusBatch.SoloBatchIsSequential` | include/osp/bus.hpp:634-670 | a batch that nobody interrupts delivers the oldest messages in order, as many as batch size and queue allow, counts them, and leaves the rest |
| `AsyncBus.Victim` | include/osp/bus.hpp:939-968 | the message to evict is the oldest one behind the first that is not HIGH, or there is none |
| `AsyncBus.HoldsOneMore` | include/osp/bus.hpp:897-904 | publishing into the slot of the next position makes the ring hold the queue with the message appended |
| `AsyncBus.HoldsReplaced` | include/osp/bus.hpp:970-978 | republishing into a pending slot makes the ring hold the queue with that message replaced |
| `AsyncBus.HoldsOneLess` | include/osp/bus.hpp:660-663 | freeing the slot at the cursor makes the ring hold the queue without its first message |
| `AsyncBus.AsyncBus.constructor` | include/osp/bus.hpp:478-482 | a new bus is an empty queue |
| `AsyncBus.AsyncBus.Admit` | include/osp/bus.hpp:844-872 | with n messages pending, a LOW message passes exactly if 100 (n + 1) is at most 60 times the depth, a MEDIUM one with 80 and a HIGH one with 99; the cached position is refreshed and the recheck counted exactly when the cached one shows too many |
| `AsyncBus.AsyncBus.Fill` | include/osp/bus.hpp:897-904 | header, payload, priority and sequence of one slot are written, no other slot changes |
| `AsyncBus.AsyncBus.ClaimPosition` | include/osp/bus.hpp:874-895 | whatever number of spurious failures the exchange has, the loop ends with the next position, or with the queue found full and a drop counted |
| `AsyncBus.AsyncBus.Append` | include/osp/bus.hpp:897-904 | the message is stored at the position after the last and the queue ends with it |
| `AsyncBus.AsyncBus.Claim` | include/osp/bus.hpp:874-907 | the message is appended and counted as published, or the queue is full and it is counted as dropped |
| `AsyncBus.AsyncBus.Reserve` | include/osp/bus.hpp:954-960 | the exchange succeeds exactly on a slot published for the position, and leaves the marker in that slot only |
| `AsyncBus.AsyncBus.Overwrite` | include/osp/bus.hpp:962-978 | under the reserve a HIGH message is restored as it was and any other is replaced and published |
| `AsyncBus.AsyncBus.TryEvict` | include/osp/bus.hpp:945-978 | one candidate: if it is pending and not HIGH the message takes its place, otherwise the ring is as before |
| `AsyncBus.AsyncBus.TryEvictAndPublish` | include/osp/bus.hpp:931-986 | the message takes the place of the victim if there is one, otherwise nothing changes |
| `AsyncBus.AsyncBus.PublishInternal` | include/osp/bus.hpp:835-908 | append below 60, 80 or 99 percent of the ring by priority, with every field of the message as the caller gave it, replace the victim for HIGH above it, drop otherwise, refuse when identifiers run out; all four statistics, the cached position and the identifiers are given exactly |
| `AsyncBus.AsyncBus.Take` | include/osp/bus.hpp:639-663 | the first message is dispatched and its slot freed for the next lap |
| `AsyncBus.AsyncBus.Drain` | include/osp/bus.hpp:637-664 | the loop dispatches the oldest messages in order, up to the batch size or the first slot that is not published, and the ring holds the rest |
| `AsyncBus.AsyncBus.ProcessBatch` | include/osp/bus.hpp:634-670 | the oldest messages are dispatched in order, as many as the batch size and the queue allow |
| `BlockStates.TransitionTable` | include/osp/data_dispatcher.hpp:106-124 | the table allows exactly: Free to Allocated, Allocated to Free or Ready, Ready to anything but Allocated, Ready and Done, Processing to Free, Timeout or Error, and the terminal states to Free |
| `BlockPoolSafety.PopIsCurrent` | include/osp/data_dispatcher.hpp:774-790 | when the tagged head is unchanged, the link read separately is still the link of the first free block |
| `BlockPoolReclaim.FreeListIsSimple` | include/osp/data_dispatcher.hpp:1205-1219 | in every reachable state head and links spell out distinct blocks and end |
| `BlockPoolReclaim.PopTakesTheFirstBlock` | include/osp/data_dispatcher.hpp:774-801 | a pop that succeeds removes exactly the first free block |
| `BlockPoolReclaim.EveryBlockHasOnePlace` | include/osp/data_dispatcher.hpp:774-801 | every block is in the list, referenced, or owned by exactly one thread, and free blocks have no references |
| `BlockPoolReclaim.ReclaimedOnce` | include/osp/data_dispatcher.hpp:865-880 | each incarnation goes to zero references at most once and is pushed at most once, by the thread that took it to zero |
| `BlockPoolReclaim.LogsAreComplete` | include/osp/data_dispatcher.hpp:967-990 | every step that takes a count to zero or puts a block into the list is in the log that the previous result speaks about |
| `BlockPoolReclaim.CountersFollowTheList` | include/osp/data_dispatcher.hpp:789-790 | free and allocated counters equal the list sizes up to the operations in flight |
| `BlockPoolStale.IncarnationLasts` | include/osp/data_dispatcher.hpp:898-903 | over every schedule a block keeps its incarnation exactly until it is popped again |
| `BlockPoolStale.StaleCheckEnds` | include/osp/data_dispatcher.hpp:898-903 | a checked release whose generation does not match at the check returns there and changes nothing; otherwise it goes on to release |
| `BlockPoolStale.CheckedReleaseIsCurrentIff` | include/osp/data_dispatcher.hpp:898-903 | over every schedule after a passed check: the incarnation the release acts on is the one its handle names if and only if the block was not being allocated at the check and has not been popped since |
| `BlockPoolRace.CheckedReleaseTakesAnothers` | include/osp/data_dispatcher.hpp:865-903 | a run from the initial state in which a release passes the check, the block is recycled and handed out again, and the release then takes the later holder's only reference |
| `Pipeline.RankDecreases` | include/osp/data_dispatcher.hpp:646-666 | in an acyclic pipeline every edge leads to a stage that reaches strictly fewer stages |
| `Pipeline.RankIsBelowStageCount` | include/osp/data_dispatcher.hpp:625-666 | the recursion from any stage is shorter than the number of stages |
| `Pipeline.PreorderSplit` | include/osp/data_dispatcher.hpp:658-664 | the preorder below a stage is the preorder of its first successors followed by that of the others |
| `Pipeline.PreorderIsEveryPath` | include/osp/data_dispatcher.hpp:625-666 | the handlers called are one for every path, by positions in the lists of successors, to a stage with a handler; a stage before those below it, all below an earlier successor before those below a later one |
| `Pipeline.OnePerPathIsUnique` | include/osp/data_dispatcher.hpp:625-666 | there is only one sequence of calls of which that is true |
| `Pipeline.CalledIffReached` | include/osp/data_dispatcher.hpp:625-666 | a stage is called exactly if it has a handler and the first stage is it or reaches it by edges |
| `Pipeline.EdgeKeepsAcyclic` | include/osp/data_dispatcher.hpp:556-568 | a new edge keeps an acyclic pipeline acyclic if and only if there is no way back from its end to its start |
| `Pool.AllocTakesTheFirst` | include/osp/data_dispatcher.hpp:760-803 | allocation takes the first free block, renews it and stamps it with the new tag; an empty list gives nothing |
| `Pool.SweepFreesTheChosen` | include/osp/data_dispatcher.hpp:959-993 | a sweep frees exactly the chosen blocks that were referenced and changes no other |
| `Pool.AddedRefsKeepIff` | include/osp/data_dispatcher.hpp:883-886 | adding references keeps the pool valid if and only if the block has some already or none are added |
| `Pool.CallKeeps` | include/osp/data_dispatcher.hpp:865-903 | every allowed call keeps the pool valid: a chain of exactly the Free blocks, exact counters, only Free, Allocated and Ready at rest, references exactly when Ready |
| `Pool.CallGenerations` | include/osp/data_dispatcher.hpp:778-798 | only an allocation changes a generation, and it raises it |
| `Pool.CallsKeep` | include/osp/data_dispatcher.hpp:778-798 | every sequence of calls keeps the pool valid and never lowers a generation |
| `Pool.LastReleaseRecycles` | include/osp/data_dispatcher.hpp:865-880 | a block handed to n consumers is held through n - 1 releases, recycled by the n-th, and unaffected by more |
| `Pool.ScanFreesTheLate` | include/osp/data_dispatcher.hpp:959-993 | a scan frees exactly the referenced blocks whose deadline has passed, those with deadline 0 excepted, and changes no other |
| `Pool.TimedOutIff` | include/osp/data_dispatcher.hpp:818-967 | a block submitted at time t and held ever since, whatever calls came between, is freed by a scan if and only if there is a timeout and more than that has passed since t; otherwise the scan leaves it as it is |
| `Pool.StaleHandleIsHarmless` | include/osp/data_dispatcher.hpp:892-903 | once a block was allocated again, a checked release with an earlier handle changes nothing, whatever came before and after |
| `Dispatcher.DataDispatcher.constructor` | include/osp/data_dispatcher.hpp:724-727 | a new dispatcher has every block free, in index order |
| `Dispatcher.DataDispatcher.DoAddStage` | include/osp/data_dispatcher.hpp:544-552 | unless the pipeline is full there is one more stage, at the index returned, without successors, and all others are as before |
| `Dispatcher.DataDispatcher.DoAddEdge` | include/osp/data_dispatcher.hpp:556-568 | exactly for valid indices and a stage with room there is one edge more, last among the successors, and nothing else changes |
| `Dispatcher.DataDispatcher.SetState` | include/osp/data_dispatcher.hpp:156-159 | a state is set only along the transition table |
| `Dispatcher.DataDispatcher.DoRecycle` | include/osp/data_dispatcher.hpp:1205-1219 | the block becomes Free and the first of the list |
| `Dispatcher.DataDispatcher.DoAlloc` | include/osp/data_dispatcher.hpp:760-803 | the first free block is taken, or the pool is exhausted |
| `Dispatcher.DataDispatcher.DoRelease` | include/osp/data_dispatcher.hpp:865-880 | one reference is given back, the last one recycles and puts the block first, none does nothing |
| `Dispatcher.DataDispatcher.DoReleaseChecked` | include/osp/data_dispatcher.hpp:898-903 | a stale generation changes nothing, the current one releases |
| `Dispatcher.DataDispatcher.DoAddRef` | include/osp/data_dispatcher.hpp:883-886 | references are added to that block only, whatever its state; the pool stays valid if and only if the block has references already or none are added |
| `Dispatcher.DataDispatcher.ExecuteStage` | include/osp/data_dispatcher.hpp:625-641 | one reference is consumed net; the handlers called are one for every path to a stage with a handler, in order, each with references held, at recursion depth at most the stage count, before anything is recycled |
| `Dispatcher.DataDispatcher.OnStageComplete` | include/osp/data_dispatcher.hpp:646-666 | references taken for the successors and the stage's own are all given back, net one |
| `Dispatcher.DataDispatcher.DoSubmit` | include/osp/data_dispatcher.hpp:818-840 | the block is published, and run through the pipeline exactly if there is an entry stage, one handler call for every path; with one reference it is recycled exactly once, after the last handler |
| `Dispatcher.DataDispatcher.TryReclaim` | include/osp/data_dispatcher.hpp:971-988 | all references are taken at once and the block recycled, or there were none |
| `Dispatcher.DataDispatcher.ScanTimeout` | include/osp/data_dispatcher.hpp:959-993 | exactly the referenced blocks with a deadline that has passed become Free, all others stay as they are, and the number is returned |
| `Dispatcher.DataDispatcher.ForceCleanup` | include/osp/data_dispatcher.hpp:1008-1034 | exactly the selected referenced blocks are reclaimed and counted |
| `Crc.BuildTable` | examples/serial_ota/protocol.hpp:89-101 | entry i of the table is eight register steps of i in the top byte |
| `Crc.TableUpdate` | examples/serial_ota/protocol.hpp:108-110 | the update through the table computes the update function |
| `Crc.Calc` | examples/serial_ota/protocol.hpp:113-119 | the loop computes the CRC of the stretch of the buffer |
| `Crc.RegisterIsLinear` | examples/serial_ota/protocol.hpp:95-97 | the register is linear over exclusive or, for any number of steps |
| `Crc.RegisterIsInjective` | examples/serial_ota/protocol.hpp:95-97 | any number of register steps loses nothing |
| `Crc.UpdateIsEightShifts` | examples/serial_ota/protocol.hpp:107-110 | the table update equals eight steps of the bitwise shift register, for every CRC and byte |
| `CrcDetection.UpdateKeepsCrcApart` | examples/serial_ota/protocol.hpp:107-110 | folding the same byte into different CRCs gives different CRCs |
| `CrcDetection.UpdateKeepsBytesApart` | examples/serial_ota/protocol.hpp:107-110 | folding different bytes into one CRC gives different CRCs |
| `CrcDetection.OneByteIsDetected` | examples/serial_ota/protocol.hpp:112-119 | strings of any length that differ in one byte have different CRCs |
| `CrcDetection.TwoBytesAreDetected` | examples/serial_ota/protocol.hpp:112-119 | strings of any length that differ only in two neighbouring bytes have different CRCs |
| `CrcDetection.EntryIsClosed` | examples/serial_ota/protocol.hpp:89-101 | every table entry in closed form |
| `CrcDetection.LastOctetAndLow` | examples/serial_ota/protocol.hpp:107-110 | a change of the last octet and a change of the low CRC byte agree for one pair of differences besides none |
| `CrcDetection.LeadingZeros` | examples/serial_ota/protocol.hpp:113-114 | zero bytes in front do not change the CRC |
| `CrcDetection.ResidueIsZero` | examples/serial_ota/protocol.hpp:107-119 | a string followed by its own CRC, high byte first, has the CRC zero |
| `Frames.BuildFrame` | examples/serial_ota/protocol.hpp:178-206 | no frame without a buffer or without room; otherwise the bytes stored, with the 16-bit length field as it wraps and a CRC over as many buffer bytes as that field says, and nothing behind them changes; with its data, and fewer than 65534 bytes of it, exactly the encoded message |
| `Frames.EncodeIff` | examples/serial_ota/protocol.hpp:178-206 | the printed frame is the one string of the layout 0xAA, length low byte first, class, command, data, CRC low byte first, 0x55 |
| `Frames.EncodeSeparates` | examples/serial_ota/protocol.hpp:178-203 | the bytes of a frame determine the message |
| `Frames.JoinedRoundTrip` | examples/serial_ota/parser.hpp:178-184 | the two CRC bytes of a frame give the CRC back |
| `Parser.TableIsMachine` | examples/serial_ota/parser.hpp:244-299 | for every state, event and context the ordered scan of the table finds exactly the move of the state machine |
| `ParserSafety.PutByteKeeps` | examples/serial_ota/parser.hpp:96-225 | after any byte the fields are what the bytes since the header say, stores stay inside the payload buffer, and the running CRC is that of the bytes stored |
| `ParserRuns.ByteCounts` | examples/serial_ota/parser.hpp:244-299 | a byte lengthens the attempt by itself or ends it, and ending it is counted once |
| `ParserRuns.AttemptsBalance` | examples/serial_ota/parser.hpp:126-205 | over every run the frame, CRC, tail and length counters sum to the attempts ended by a byte; attempts started are ended by a byte, by a reset, or going on |
| `ParserRuns.TakenIsSuffix` | examples/serial_ota/parser.hpp:328-340 | the bytes of the attempt are the last bytes of the input, with no reset among them |
| `ParserRuns.AttemptsAreShort` | examples/serial_ota/parser.hpp:131-174 | whatever the bytes, an attempt has taken at most 263 of them, so the parser is back in Idle within 263 bytes of leaving it |
| `ParserFrames.DeliveryIsPrinted` | examples/serial_ota/parser.hpp:188-225 | a byte that makes the parser hand over a message completes exactly the printed frame of that message |
| `ParserFrames.DeliveriesWerePrinted` | examples/serial_ota/parser.hpp:188-225 | over every run, whenever a message is handed over the input so far ends with its printed frame |
| `ParserFrames.ShapedOutcome` | examples/serial_ota/parser.hpp:243-299 | what an idle parser does with any string that has a header and a fitting length: idle again, handed over exactly if tail and CRC are right, one error counted otherwise |
| `ParserFrames.ParseOfPrint` | examples/serial_ota/parser.hpp:243-299 | feeding a printed frame of at most 256 data bytes to an idle parser hands over exactly that message, once, and ends idle |
| `ParserFrames.LongFrameIsRefused` | examples/serial_ota/parser.hpp:134-140 | a longer message is refused at its length field |
| `ParserFrames.CorruptByteIsRefused` | examples/serial_ota/parser.hpp:188-225 | a frame with one byte changed among class, command, data and CRC is never handed over, for every message and position: one CRC error, idle again |
| `ParserFrames.CorruptPairIsRefused` | examples/serial_ota/parser.hpp:188-225 | likewise for any change confined to two neighbouring bytes of class, command and data |
| `ParserFrames.CorruptLastPair` | examples/serial_ota/parser.hpp:188-225 | a changed last covered byte and low CRC byte are refused with one CRC error, except for the one pair of changes that cancel, which hands over the changed message |
| `ParserFrames.CorruptCrcIsRefused` | examples/serial_ota/parser.hpp:188-225 | any change of the CRC field is refused with one CRC error |
| `FrameParser.FrameParser.Act` | examples/serial_ota/parser.hpp:93-205 | every row action changes the context as its function says and nothing else |
| `FrameParser.FindTransition` | include/osp/hsm_table.hpp:187-197 | the loop finds the first row of the state and event whose guard passes |
| `FrameParser.FrameParser.Dispatch` | include/osp/hsm_table.hpp:130-144 | nothing before the start, afterwards the move of the machine |
| `FrameParser.FrameParser.PutByte` | examples/serial_ota/parser.hpp:328-332 | one byte is one step of the machine |
| `FrameParser.FrameParser.PutData` | examples/serial_ota/parser.hpp:334-338 | a block of bytes is the run over them; before the start they are only counted |
| `FrameParser.FrameParser.DoReset` | examples/serial_ota/parser.hpp:340 | a reset returns to Idle and keeps the counters |
| `OtaWire.StartRoundTrip` | examples/serial_ota/protocol.hpp:137-141 | the device reads back what the host packed into START |
| `OtaWire.DataRoundTrip` | examples/serial_ota/protocol.hpp:144-147 | the device reads back offset, length and chunk of DATA |
| `OtaWire.AckRoundTrip` | examples/serial_ota/protocol.hpp:150-155 | the host reads back status and size of an acknowledgement |
| `OtaWire.VerifyRoundTrip` | examples/serial_ota/protocol.hpp:158-163 | the host reads back status and CRC of a verify reply |
| `OtaWire.RequestLayout` | examples/serial_ota/protocol.hpp:137-147 | the requests byte for byte, with their class and command numbers |
| `OtaWire.ReplyLayout` | examples/serial_ota/protocol.hpp:150-163 | the replies byte for byte |
| `OtaDevice.RefusalChangesNothing` | examples/serial_ota/device.hpp:419-478 | exactly the short requests, misplaced chunks, early ENDs and unknown commands are refused, with their status and without any change; everything else is answered with success, or with the verdict |
| `OtaDevice.OnlyResetEnds` | examples/serial_ota/device.hpp:217-241 | a session that has ended stays as it is under every event but a reset, which makes the device idle |
| `OtaDevice.SessionFailsIff` | examples/serial_ota/device.hpp:156-215 | an event takes the session to Error exactly if erasing failed, a chunk is out of place or does not fit, the session is ended at another size than its total, or the CRCs disagree at VERIFY |
| `OtaDevice.ChunkIsPadded` | examples/serial_ota/parser.hpp:93-97 | a chunk longer than its frame is filled up with the zeros of the cleared frame buffer |
| `OtaErase.AlignedIsMultiple` | examples/serial_ota/device.hpp:47 | the start of the sector of an address is a multiple of the sector size |
| `OtaErase.EraseBlanksTheSpan` | examples/serial_ota/device.hpp:46-52 | the erase loop succeeds exactly if flash holds the sectors it visits, and then blanks those and nothing else |
| `OtaErase.SpanCovers` | examples/serial_ota/device.hpp:142-153 | they cover the region exactly if the region and the bytes before it in its first sector need no more sectors than the region alone |
| `OtaErase.StartBlanksIff` | examples/serial_ota/device.hpp:142-163 | START on an idle device begins the session exactly if the sectors are there; then the region is all 0xFF exactly if what lies behind them was |
| `OtaErase.RegionKeepsByte` | examples/serial_ota/device.hpp:144-145 | the region of two bytes from address 1 with sectors of two keeps its second byte |
| `OtaDevice.DeviceHandler.constructor` | examples/serial_ota/device.hpp:256-260 | a new device is idle with blank flash |
| `OtaDevice.DeviceHandler.Write` | examples/serial_ota/device.hpp:39-44 | the bytes are stored at the address, or they do not fit and nothing changes |
| `OtaDevice.DeviceHandler.EraseSector` | examples/serial_ota/device.hpp:46-52 | the sector of the address is blank, or it is not in flash and nothing changes |
| `OtaDevice.DeviceHandler.EraseSectors` | examples/serial_ota/device.hpp:144-152 | the loop erases the sectors of the stretch in turn and stops at the first that is not in flash |
| `OtaDevice.DeviceHandler.EraseRegion` | examples/serial_ota/device.hpp:142-153 | on entry to Erasing the region of the session is erased, and whether all of it was is kept |
| `OtaDevice.DeviceHandler.OnReceiving` | examples/serial_ota/device.hpp:165-196 | data is stored at the received size, the end is checked against the total, a failure leads to Error |
| `OtaDevice.DeviceHandler.DoDispatch` | examples/serial_ota/device.hpp:125-241 | one event is one step of the session machine |
| `OtaDevice.DeviceHandler.DoHandleOta` | examples/serial_ota/device.hpp:419-478 | new state and reply of every OTA command, short, misplaced and overlong frames included |
| `OtaHost.HostRunner.DoStart` | examples/serial_ota/host.hpp:300-316 | the start is refused without a callback or firmware; otherwise the CRC is computed over the firmware |
| `OtaHost.HostRunner.DoSendStart` | examples/serial_ota/host.hpp:91-134 | state, status and frame of the start action; without a callback it fails and changes nothing |
| `OtaHost.HostRunner.DoSendChunks` | examples/serial_ota/host.hpp:137-191 | state, status and frame of the chunk action, rewinds and retries included, for every chunk size that fits the frame |
| `OtaHost.HostRunner.DoSendEnd` | examples/serial_ota/host.hpp:194-237 | state, status and frame of the end action, rejection included |
| `OtaHost.HostRunner.DoSendVerify` | examples/serial_ota/host.hpp:240-274 | state, status and frame of the verify action |
| `OtaHost.HostRunner.DoSequence` | include/osp/bt.hpp:332-347 | the actions in order, each on the state the one before left, until one does not succeed |
| `OtaHost.HostRunner.DoTick` | examples/serial_ota/host.hpp:309-318 | a tick of the upgrade is its sequence of start, chunks, end and verify |
| `OtaHost.HostRunner.DoOnResponse` | examples/serial_ota/host.hpp:320-361 | what each reply changes, foreign and short frames changing nothing |
| `OtaHost.ProgressIsOffsetIff` | examples/serial_ota/host.hpp:137-191 | a tick keeps the count of bytes sent equal to the offset if and only if no NAK asks to skip ahead and no refused END rewinds |
| `OtaHost.NakIsCountedOnce` | examples/serial_ota/host.hpp:141-150 | a NAK is looked at once START is acknowledged, and counted exactly once as a retry and as a drop |
| `OtaHost.ForeignIsIgnored` | examples/serial_ota/host.hpp:320-361 | frames of another class, requests and short replies change nothing |
| `OtaTrack.StartHandled` | examples/serial_ota/device.hpp:419-431 | a device in any state acknowledges START with success; an idle one begins the session, any other stays in its own |
| `OtaTrack.ChunkOnTrack` | examples/serial_ota/device.hpp:434-450 | a chunk arriving at any time stores its own part of the firmware in place or changes nothing, spills at most once, and loses nothing received |
| `OtaTrack.EndOnTrack` | examples/serial_ota/device.hpp:451-461 | END keeps the session on its track: only with its total received is the flash checked |
| `OtaTrack.VerifyOnTrack` | examples/serial_ota/device.hpp:462-473 | VERIFY ends a checked session by its CRCs and changes nothing else |
| `OtaSafety.TickKeeps` | examples/serial_ota/host.hpp:91-274 | whatever device the upgrade began with, a tick keeps the protocol invariant and succeeds only when the session has its total and is closed |
| `OtaSafety.TickFailure` | examples/serial_ota/host.hpp:141-150 | a tick fails only when the retries ran out, when END was refused although the last size reported is the whole firmware, or when the CRCs of a closed session disagree; start never fails |
| `OtaSafety.ToDeviceKeeps` | examples/serial_ota/device.hpp:419-478 | any frame under way may arrive at any time |
| `OtaSafety.ToHostKeeps` | examples/serial_ota/host.hpp:320-361 | any reply under way, stale ones included, may arrive at any time |
| `OtaSafety.RunKeeps` | examples/serial_ota/host.hpp:91-361 | over every run, from a device in any state: what the host believes and what the replies under way say of the device is true |
| `OtaLanding.ChunkRefused` | examples/serial_ota/device.hpp:434-450 | a chunk out of place changes nothing and makes the host go on from what the device has |
| `OtaLanding.Transfer` | examples/serial_ota/host.hpp:165-191 | chunk after chunk in order takes the session along its track to any size its chunks lead to |
| `OtaLanding.FailedVerifyIsForgotten` | examples/serial_ota/host.hpp:264-274 | after a verify reply the tick reports the verdict, and the tick after it reports success whatever the verdict was |
| `OtaUpgrade.SafeIsLanding` | examples/serial_ota/device.hpp:125-241 | the condition on the device before START says that the session after START, if chunks of this firmware bring it to its total, then has the firmware in flash |
| `OtaUpgrade.SuccessMeansLanded` | examples/serial_ota/host.hpp:91-274 | over every run, from a device in any state: a reported success means that the session has its total and its flash is the landed one |
| `OtaUpgrade.FirstSuccessMeansAgreed` | examples/serial_ota/host.hpp:264-274 | if no tick failed before, a reported success also means that the device's own check came out well |
| `OtaUpgrade.LandingRun` | examples/serial_ota/host.hpp:91-274 | every session that chunks of this firmware bring to its total has a run without failure that lands it and brings the verdict; in order and without losses if the total is not less than the firmware |
| `OtaUpgrade.WrittenIffSafe` | examples/serial_ota/host.hpp:91-274 | for every firmware and every device: over all runs success implies that the firmware is in flash, if and only if the device is safe to upgrade, a condition on its state, sizes and flash before START |
| `OtaUpgrade.FirstReportWrittenIff` | examples/serial_ota/main.cpp:282-304 | likewise for a driver that stops at the first failure, by the cases of the device before START: idle, or a session that this firmware does not bring to its total, or whose check comes out badly there, or that then has the firmware in flash |
| `OtaUpgrade.FirstSafeIsLanding` | examples/serial_ota/device.hpp:125-241 | that condition says of the session after START: if it lands and its check can come out well, the firmware is in flash |
| `OtaUpgrade.SuccessMeansWritten` | examples/serial_ota/host.hpp:91-274 | from an idle device, over every run with losses, delays and reordering: if the host reports success, the flash region equals the firmware byte for byte |
| `OtaUpgrade.ReceivedIsWritten` | examples/serial_ota/device.hpp:164-185 | from an idle device, in every reachable state flash and firmware agree on the first received bytes |
| `OtaUpgrade.IdleTickFailure` | examples/serial_ota/host.hpp:141-150 | from an idle device a tick fails only when the retries ran out or END was refused although the last size reported is the whole firmware: the verification never fails |
| `OtaUpgrade.ReceivedNeverShrinks` | examples/serial_ota/device.hpp:164-185 | once START is handled, what is received never shrinks and a closed session stays as it is |
| `OtaReuse.FirstUpgrade` | examples/serial_ota/host.hpp:309-318 | an idle device with room for the firmware is upgraded in order and without a loss, and is then complete |
| `OtaReuse.SecondUpgradeStoresNothing` | examples/serial_ota/device.hpp:419-431 | a completed device takes no second upgrade: the host of a firmware that is not longer reports success, the device is untouched, and the firmware is in flash if and only if it is the beginning of the first one |
| `OtaReuse.ResumeIsSafeIff` | examples/serial_ota/device.hpp:164-185 | a session of the same size and place can be taken up again if and only if what it has received is the beginning of the firmware |
| `OtaReuse.RestartMixes` | examples/serial_ota/device.hpp:419-473 | a host started with another firmware of the same size after k bytes leaves a mixture, is judged by the CRC of the old firmware, and reports success at the latest one tick after the verdict |
| `OtaReuse.RestartFailsThenReports` | examples/serial_ota/host.hpp:264-274 | the run in which a verification fails, the next tick reports success, and the firmware is not in flash |
| `OtaReuse.SmallSecondUpgrade` | examples/serial_ota/device.hpp:419-431 | a device with two bytes of flash and any two different firmwares of two bytes: the second upgrade reports success, and flash still has the first |
| `OtaReuse.SmallRestart` | examples/serial_ota/host.hpp:264-274 | the same device and firmwares that differ in both bytes: a restart after one byte fails the verification, then reports success, and the firmware is not in flash |
| `OtaStandstill.FrameFair` | examples/serial_ota/device.hpp:419-478 | any frame at any time: the device never loses what it has received, reports exactly that, refuses END at full size only if the session cannot come to its total, and a session that cannot does not become one that can |
| `OtaStandstill.CutStays` | examples/serial_ota/host.hpp:122-124 | once a START, END or VERIFY is lost with its answer, the host waits for it in every state that follows, and it is never sent again |
| `OtaStandstill.StuckStays` | examples/serial_ota/host.hpp:226-236 | a host whose END was refused with nothing to send again stays so unless a refusal of a chunk with bytes missing is under way |
| `OtaStandstill.SuccessWasHopeful` | examples/serial_ota/host.hpp:91-274 | a state from which some run reports success meets the three conditions of the next result |
| `OtaRecovery.CanSucceedIff` | examples/serial_ota/host.hpp:91-361 | in every state of every run, from a device in any state: some continuation reports success if and only if no awaited START, END or VERIFY is lost with its answer, the device can come to its total, and a host whose END was refused with nothing to send again has a refused chunk to hear of |
| `OtaRecovery.CanSucceedAtAllIff` | examples/serial_ota/host.hpp:309-318 | before the first tick a success is possible if and only if chunks of the firmware, or none, bring the device's session to its total |
| `OtaRecovery.IdleCanSucceedIff` | examples/serial_ota/host.hpp:217-218 | for an upgrade that found the device idle and with room, only what is under way and the phases count |
| `OtaRecovery.LostStartRunsForever` | examples/serial_ota/host.hpp:122-124 | after a lost START every tick of every run is Running, sends nothing and changes nothing |
| `OtaRecovery.LostStart` | examples/serial_ota/host.hpp:91-124 | the run that loses START leads there |
| `OtaRecovery.EarlyEndSticks` | examples/serial_ota/host.hpp:226-236 | for every firmware of one chunk, a run without loss and without a failing tick that puts all of it into flash and after which no success can be reported any more |
| `OtaCompletion.DeviceStep` | examples/serial_ota/device.hpp:419-478 | a device with room answers every frame of the script, in order, with success |
| `OtaCompletion.TickAt` | examples/serial_ota/host.hpp:91-274 | a host in step with the script sends its next frame, waits, or reports success, and never fails |
| `OtaCompletion.EveryOrderlyScheduleCompletes` | examples/serial_ota/host.hpp:309-318 | for every firmware that fits an erasable region and every chunk size: every schedule in order and without losses that has enough rounds never fails, ends in success, and leaves the firmware in flash |
| `Bits.OrAdds` | include/osp/breaker.hpp:192-201 | bitwise or is addition where the bits do not overlap |
| `Breaker.PackIsWeighted` | include/osp/breaker.hpp:192-201 | the word of a state whose fields fit is its mixed-radix value |
| `Breaker.PackRoundTrip` | include/osp/breaker.hpp:192-213 | unpacking gives the packed state back if and only if every field fits its bits |
| `Breaker.NextInRange` | include/osp/breaker.hpp:215-220 | no event takes a field out of its bits |
| `Breaker.Breaker.Update` | include/osp/breaker.hpp:224-234 | an event moves the packed word as the five-state machine moves the state |
| `Breaker.Breaker.HealthyWindowPassed` | include/osp/breaker.hpp:467-477 | the query holds if and only if the level is Normal: its second branch is never taken |
| `BreakerHistory.LevelIsHistory` | include/osp/breaker.hpp:267-445 | after any events the level is the one told by counting the events since it was entered: third timeouts since the last qualifying call, third samples in a row above 80 or below 50, cycles of the cooldown, healthy windows; remaining cooldown and windows are those counts too |
| `BreakerHistory.FirstTrip` | include/osp/breaker.hpp:267-384 | a breaker that has never left Normal leaves it exactly at a third timeout, a third high sample in a row, an overflow or an exhausted reserve, and for which level |
| `BreakerRecovery.EntryState` | include/osp/breaker.hpp:246-265 | an event that enters a broken or safe level leaves a full cooldown and cleared metrics |
| `BreakerRecovery.BrokenStep` | include/osp/breaker.hpp:326-369 | what is known since an entry into a broken level is kept by every event that is not another entry |
| `BreakerRecovery.RecoveryFromBroken` | include/osp/breaker.hpp:403-418 | from the last entry into BrokenL1 or BrokenL2 to Normal there are at least cooldown + 3 cycles, three consecutive low samples and three probe successes |
| `BreakerRecovery.RecoveryFromSafe` | include/osp/breaker.hpp:439-445 | from the last entry into Safe to Normal there are an external restore, at least max(cooldown, 1) + 2 cycles and three probe successes |
| `BreakerRecovery.BrokenBoundIsTight` | include/osp/breaker.hpp:403-418 | for every cooldown some run recovers with exactly cooldown + 3 cycles |
| `BreakerRecovery.SafeBoundIsTight` | include/osp/breaker.hpp:403-418 | for every cooldown some run recovers from Safe with exactly max(cooldown, 1) + 2 cycles |
| `BreakerRecovery.HealthyWindowIsNormal` | include/osp/breaker.hpp:467-477 | after any events the healthy window has passed if and only if the level is Normal |
| `BreakerConcurrent.StepKeeps` | include/osp/breaker.hpp:224-234 | every atomic step of every thread keeps the word equal to the replayed history and each update logged at most once |
| `BreakerConcurrent.EveryUpdateOnce` | include/osp/breaker.hpp:224-234 | in every interleaving, with any spurious failures, the word is the packed state the pure machine reaches on the logged events, and every completed update is logged exactly once, with its own event |
| `BreakerConcurrent.EarlierUpdatesFirst` | include/osp/breaker.hpp:224-234 | an update completed before another began comes before it in that history |
| `BtSemantics.NestedSequenceFlattens` | include/osp/bt.hpp:332-347 | a sequence inside a sequence can be spliced in, without any difference in answer, effects, counters or leaves ticked |
| `BtSemantics.NestedSelectorFlattens` | include/osp/bt.hpp:355-370 | likewise for selectors |
| `BtSemantics.InvertedSelectorIsSequence` | include/osp/bt.hpp:413-427 | inverting a selector of inverted children is a sequence of the children, in answer, effects, counters and leaves ticked |
| `BtSemantics.ParallelAnswers` | include/osp/bt.hpp:380-406 | a parallel node ticks every child and leaves the world after all of them; it succeeds exactly when enough succeed and fails exactly when the rest can no longer be enough, so a threshold above the number of children never fails |
| `BtSemantics.OthersCountersStay` | include/osp/bt.hpp:436-465 | ticking a tree leaves alone the counters of the repeat nodes it does not contain |
| `BtSemantics.RepeatCounts` | include/osp/bt.hpp:436-465 | over any child and any number of ticks: the counter is the number of successes since the last failure, less whole rounds, and the node succeeds exactly at the ticks that complete a round |
| `BtSemantics.RepeatTakesCountTicks` | include/osp/bt.hpp:436-465 | over any child that keeps succeeding a repeat node is running for count - 1 ticks, succeeds at the next, and has started over |
| `BtLeaves.SequenceOfLeaves` | include/osp/bt.hpp:332-347 | a sequence of leaves calls their functions in order, each in the context the one before left, up to the first that fails or is running, gives its answer and leaves its context; otherwise it calls all and succeeds |
| `BtLeaves.SelectorOfLeaves` | include/osp/bt.hpp:355-370 | likewise for a selector, up to the first that succeeds or is running |
| `BtLeaves.LeafNode` | include/osp/bt.hpp:300-304 | ticking a leaf of the array answers what its function answers and leaves the context the function leaves |
| `BtLeaves.SequenceNode` | include/osp/bt.hpp:296-347 | ticking a sequence node over leaves is that of the leaf functions in the order of the children |
| `BtLeaves.SelectorNode` | include/osp/bt.hpp:296-370 | likewise for a selector node |
| `BtLeaves.ParallelNode` | include/osp/bt.hpp:296-406 | a parallel node over leaves calls all functions and compares the counts of their answers with its threshold |
| `BtLeaves.TickIsChain` | include/osp/bt.hpp:296-465 | a tick of any tree is a chain of calls of some of its leaves from left to right, none twice, each in the context the one before left, and nothing else touches the context |
| `BehaviorTree.BehaviorTree.AddNode` | include/osp/bt.hpp:473-504 | a new node at the end, registered as the last child of its parent, all other nodes as before; a full tree takes none; parents stay before their children if and only if the node is not made its own parent |
| `BehaviorTree.WithNodeOrderedIff` | include/osp/bt.hpp:492-498 | adding a node to an array of parents before children gives such an array if and only if the node's parent is not its own index |
| `BehaviorTree.BehaviorTree.AddParallel` | include/osp/bt.hpp:226-232 | a parallel node with its threshold |
| `BehaviorTree.BehaviorTree.AddRepeat` | include/osp/bt.hpp:247-253 | a repeat node with its count |
| `BehaviorTree.CompleteRuns` | include/osp/bt.hpp:296-324 | an array whose leaves have functions and whose decorators have one child can be ticked from any node in any world |
| `BehaviorTree.LaterNumbers` | include/osp/bt.hpp:473-504 | the repeat nodes below a node have higher numbers, so no child touches its parent's counter |
| `BehaviorTree.BehaviorTree.TickLeaf` | include/osp/bt.hpp:300-304 | the function's answer and context, and its name among those ticked |
| `BehaviorTree.BehaviorTree.TickNode` | include/osp/bt.hpp:296-324 | wherever evaluation reaches no unfinished node, ticking ends and equals the evaluation of the tree in answer, context, counters and leaves ticked |
| `BehaviorTree.BehaviorTree.TickSequence` | include/osp/bt.hpp:332-347 | the loop over the children is the evaluation of the sequence |
| `BehaviorTree.BehaviorTree.TickSelector` | include/osp/bt.hpp:355-370 | the loop over the children is the evaluation of the selector |
| `BehaviorTree.BehaviorTree.TickParallel` | include/osp/bt.hpp:380-406 | all children are ticked and counted against the threshold, in 32-bit arithmetic |
| `BehaviorTree.BehaviorTree.TickInverter` | include/osp/bt.hpp:413-427 | the answer of the child is inverted |
| `BehaviorTree.BehaviorTree.TickRepeat` | include/osp/bt.hpp:436-465 | the counter of the node and its answer follow the child |
| `BehaviorTree.BehaviorTree.Tick` | include/osp/bt.hpp:270-277 | a tick evaluates the root, or fails without one |
| `FileTransfer.ChunksAddUp` | examples/net_stress/file_transfer.hpp:255-261 | the chunks add up to the file if and only if the chunk count does not wrap around |
| `FileTransfer.SuccessIsComplete` | examples/net_stress/file_transfer.hpp:278-282 | a transfer succeeds exactly when every chunk was acknowledged |
| `FileTransfer.SucceedsIff` | examples/net_stress/file_transfer.hpp:352-380 | a transfer of n chunks succeeds if and only if the network never fails four times in a row before it has accepted n attempts |
| `FtTable.AbortFailsTransfers` | examples/net_stress/file_transfer.hpp:216-217 | an abort fires exactly in a transfer, by way of the state above its two inner ones, and fails it |
| `FtTable.TableIsMachine` | examples/net_stress/file_transfer.hpp:200-231 | the first row that fires, in the state or above it, is the move of the machine in every state, for every event and retry count |
| `FileTransfer.FtCtx.TransitionTo` | include/osp/hsm_table.hpp:226-248 | the states on the way are entered from the top, and the end states are flagged exactly when they are the target |
| `FileTransfer.FtCtx.ActSend` | examples/net_stress/file_transfer.hpp:243-283 | an accepted chunk moves the counters on, anything else leaves them; which failure is recorded, and the drops counted |
| `FileTransfer.FtCtx.Dispatch` | examples/net_stress/file_transfer.hpp:213-231 | scanning the table and the states above equals the machine: target state, action and flags for every event |
| `FileTransfer.FtCtx.Drive` | examples/net_stress/file_transfer.hpp:352-380 | the loop ends and has made exactly the attempts of the simple form: every chunk in turn, up to four tries |
| `FileTransfer.FtCtx.RunFileTransfer` | examples/net_stress/file_transfer.hpp:319-389 | for every pattern of losses: at most eight turns a chunk, at most four tries a chunk, given up exactly after four failures in a row, drops and acknowledgements counted, and on success chunks 0 to n-1 acknowledged in order, with bytes sent equal to the file size exactly when the count did not wrap |

## Left out

- Weak memory orders, cache-line alignment, prefetching and back-off: the transition systems are sequentially consistent.
- Wrap-around of 32-bit positions, tags and generations after 2^32 operations: they are unbounded naturals here.
- A bus of depth 1: every threshold is 0 there and nothing is ever admitted; the model takes depth 2 and more.
- `ProcessBatchWith`, subscriptions, callbacks, topic hashing and the error callback of the bus: they see the same envelopes as `ProcessBatch`.
- `SharedSpinLock`: its nested upgrade would need a restriction to depth one.
- A fan-out pipeline running while the same block is reclaimed, references added to a reclaimed block at step level, and handlers that call back into the dispatcher.
- Consumer slots and their masks: at step level a dead consumer's reaper is a release on an arbitrary block.
- Shared-memory stores and notification of other processes.
- Frames.BuildFrame: the buffer is assumed to hold the bytes stored, which the size check alone does not ensure when the 16-bit length field wraps.
- OtaDevice.DeviceHandler.DoHandleOta: a chunk that would be read from behind the 256-byte frame buffer is excluded, and addresses are naturals, so sums of 32-bit addresses are assumed not to wrap.
- OtaHost.HostRunner.DoSendChunks: a chunk that does not fit the payload buffer, and a chunk size of 0 or one that makes the progress figure divide by zero, are excluded.
- OtaUpgrade.WrittenIffSafe: the link loses, delays and reorders frames but does not duplicate them.
- SYS and SPI commands of the device, progress figures and logging.
- BehaviorTree.BehaviorTree.AddNode: unless the tree is full, a parent that already has eight children is excluded, as the source asserts; likewise for AddParallel and AddRepeat.
- BehaviorTree.BehaviorTree.Tick: a tree with a node that is its own child is excluded; the recursion of the source does not end there.
- OtaRecovery.CanSucceedIff: stated for a driver that goes on after a failed tick; one that stops at the first failure has fewer ways on, so for it the condition is necessary only.
- Names of nodes are numbers, and leaves are functions from the context to a status and a context.
- FileTransfer.FtCtx.RunFileTransfer: the outcome of connecting and of each attempt is given by the environment; delays, heartbeats and the contents of the chunks are not modelled.
- `app.hpp`, `async_log.hpp`, `connection.hpp`, `config.hpp`, the other state machines, transports, shells, demos and tools: they would add members whose properties are easy counting or input and output.
