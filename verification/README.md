# A verified model of the PDP-11 emulator

This project models four connected parts of the emulator and proves what they promise.
`dafny verify dfyconfig.toml` checks all of it.

**Unibus priority arbitration** (`BusStreams`, `ArbitrationCore`, `Signals`, `PriorityBus`,
`BusArbiter`, `PriorityChain`, `ChainSafety`, `ChainPolls`, `ChainTraffic`, `ChainBudget`,
`MarkedBus`, `GrantTiming`, `GrantSteps`, `GrantMoves`, `GrantSafety`, `SackSharing`,
`BusPermission`, `GrantWords`, `LoneAsker`, `LostPermission`, `RequestLaws`, `ArbiterLaws`). The
arbiter and a daisy chain of any number of devices exchange BR, BG, SACK and BBSY over FIFO queues.
`PriorityDevice` and `Arbiter` are the two programs as objects; each of their methods is proved
equal to functions on a value, in which every write to a neighbour is a step of its own.
`PriorityChain` puts the steps of all devices and the arbiter into one relation with arbitrary
interleaving. The safety proof reads the queues as two words, the letters still on their way to the
arbiter and the letters on their way down, and carries one invariant over both. It gives mutual
exclusion of devices although several devices can hold SACK at once. `MarkedBus` adds the BR and BG
letters to the words, and the four modules behind it show what their order gives: no grant is
answered while a master is left, and no grant that arrives is lost. The four modules from
`BusPermission` on count the one permission to be master over every place it can be: it can be lost,
which is the end of the bus, and they say when. The last two say what becomes of a request and what
the arbiter believes.

**Data bus** (`MemoryDevice`, `DataBus`, `DataBusLaws`, `DataBusSystem`, `DataBusRefinement`,
`DataBusProgress`). A master's main thread, its bus thread, the memory's bus thread and the memory's
main thread pass a request round through shared slots. Every locked block is one step, a wait ends
only by a signal, and a signal nobody waits for is lost. The four threads refine an atomic byte
memory, and a call can return exactly if none of its signals was lost.

**RX11 disk controller** (`Rx11`, `DiskProtocol`, `DiskCompletion`, `DiskEmpty`, `DiskImage`). The
controller's loop, one step for every access to its two registers, against a host that polls. Above
the handshake the drive is an atomic object, and above that the file is a map from track and sector
to blocks.

**Instruction execution and program loading** (`AtticMemory`, `AtticEffects`, `RegisterFile`,
`AtticJsr`, `AtticOperands`, `CallTrees`, `CallsInMemory`, `Cpu`, `CpuOperands`, `CountedLoop`,
`WordFiles`, `Assembler`, `Loader`, `AssembleAndLoad`, `ObjReader`, `TextLaws`). The older emulator
keeps its registers in main memory, where some cells react to accesses; trees of JSR and RTS run
over that, given as trees or as code in memory. The newer processor's loop runs a whole counted
loop. The octal assembler is paired with its loader, and the object reader with well-formed object
files.

Words and bytes are integers with the 16-bit and 8-bit cuts written out; the disk's status register
is a 16-bit vector. `uint16_t` files are written and read low byte first, as on the hosts the
emulator runs on.

## Assumptions

- Arbitration: the arbiter's only neighbour is device 0, and the arbiter signs its messages with the
  name device 0 has for its left neighbour. As written, `init_arb` signs with the placeholder "cpu"
  (src/libunibus/bus_arb.c:112-119); chain positions stand for names here, -1 for the arbiter.
- Arbitration: a write that has been started succeeds. Receiving a message and the first write it
  causes are one step; every further write is another.
- Loading: what a read leaves in a header word that the file ends in the middle of, and what an unread
  variable holds, are parameters.
- Data bus: the processor is its master throughout and the memory never is. `master` is written
  under one mutex and read under another; those blocks are taken to exclude each other. The processor
  has no device addresses of its own to translate. There are two nodes on the bus. Words at 65534 and
  65535, where the C code leaves its array, are excluded; beyond 65535 nobody answers.
- Disk: after GO the host waits for a transfer request before anything else, writes the data register
  only when it has seen one, issues the next GO only after it has seen DONE, and uses the commands
  fill, write and read. The lock around a write and its side effect is kept.
- The newer processor reaches the memory through the data bus; its memory is the atomic one that the
  refinement justifies. Registers are 16 bits and operand addresses 32 bits wide (src/cpu/cpu.c:95-113).

## Where the code and its comments differ

- `byte_advance_r` and `byte_decrease_r` move by one, not by two as the first comment says
  (attic/src/memory.c:281-295); the model moves by one.
- An object block's length does not count its checksum in the reader, while the notes count it; the
  model follows the reader.
- Two devices can assert SACK at the same time. `SackSharing.SackExclusiveExactly` says when that cannot
  happen: exactly when at most one device of the chain ever asks for the bus.
- Any two devices that ask can end the bus. When the SACK of one reaches the arbiter after the other has
  had the bus and given it back, the arbiter believes in a holder that waits for a grant it never negates
  (src/libunibus/bus_arb.c:326-340). `LostPermission.PermissionKeptExactly` says when this cannot happen,
  `BusPermission.DeadForever` that nobody becomes master afterwards.
- A sector number of 26 or more names a block of the next track; `DiskImage.SlotsDisjoint` says
  exactly which addresses share a block.
- A listing without `.end` leaves a size of zero, and a comment the file ends in is never left;
  `AssembleAndLoad.UnclosedLoadsNothing` and `AssembleAndLoad.UnendedCommentHangs` say so.
- At the end of an object file the reader tests a type byte it has not read. What a file without a text
  block then does depends on what that variable held; `ObjReader.NoTextLoadsNothing` says how.
- The newer processor can reach only addresses below 01000; `Cpu.OnlyLowMemoryAnswers` says so.

## Model

| member | source | states |
|---|---|---|
| ChainSafety.MutualExclusion | src/libunibus/priority_bus.c:303-387 | for any number of devices and every interleaving of their single writes, reads and the arbiter's answers, no reachable state has two devices that are master |
| ChainSafety.MasterSeesItself | src/libunibus/priority_bus.c:346-387 | in every reachable state a master still has its own BBSY and SACK set, and a release that has negated SACK always goes on to negate BBSY |
| ChainSafety.ReleaseCompletes | src/libunibus/priority_bus.c:721-741 | in every reachable state in which a release can start, running it through writes SACK then BBSY negated on both sides and clears both flags, mastership and the release request |
| ChainSafety.StepKeeps | src/libunibus/priority_bus.c:144-218 | every step of any device or of the arbiter keeps the invariant on the two words of letters, the phases of the devices and the routes of the messages |
| ArbitrationCore.GrantIsSafe | src/libunibus/priority_bus.c:505-552 | a device that can take a BG-negated, because it does not see BBSY, finds no device holding the bus or leaving it, nothing on its way to it from the devices beyond it, of the letters on their way down only that negated grant, and at most one BBSY-negated on its way to the arbiter, which sees SACK |
| ChainPolls.PollIsRun | src/libunibus/priority_bus.c:196-214 | a whole poll of one device is a run of its single steps, which starts exactly what is due: a request or else a release, and reading one message if there is one |
| RequestLaws.PendingUntilSettled | src/libunibus/priority_bus.c:707-718 | in every run a main thread's request stays pending until the second of its two BRs is written, the device becomes master, or it gives up SACK or BBSY |
| RequestLaws.PendingStays | src/libunibus/priority_bus.c:707-718 | no step but those four ends a request; in particular serving it under BBSY does not |
| RequestLaws.RequestServed | src/libunibus/priority_bus.c:707-718 | serving a request under BBSY changes nothing at all, and otherwise puts one BR on the queue to the left |
| RequestLaws.AskedUntilSettled | src/libunibus/priority_bus.c:707-718 | the same from the moment the main thread asks |
| RequestLaws.OnlyRequestsHalfAsk | src/libunibus/priority_bus.c:222-257 | only serving a pending request, with BBSY not seen, leads to where the second BR is due |
| RequestLaws.SecondHalf | src/libunibus/priority_bus.c:222-257 | the second BR goes to the neighbour on the right, if there is one, and the request is done with |
| RequestLaws.HalvesMatch | src/libunibus/priority_bus.c:222-257 | in every run the BRs a device has written to the left are those it has written to the right, but for one that is half way |
| RequestLaws.PassRequests | src/libunibus/priority_bus.c:196-214 | a pass of the loop with a request due leaves BR on both sides and the request done, or under BBSY everything as it was |
| RequestLaws.PassReleases | src/libunibus/priority_bus.c:196-214 | a pass of the loop with a release due writes the four negations in order and clears all flags of a master |
| RequestLaws.ReleaseGoes | src/libunibus/priority_bus.c:721-741 | a release of any device negates each of SACK and BBSY that it has asserted on both sides, SACK first, and nothing else |
| RequestLaws.PassWakes | src/libunibus/priority_bus.c:543-552 | a pass signals a waiting thread for a release, and for a BG-negated that finds SACK asserted, and for nothing else |
| RequestLaws.Directions | src/libunibus/priority_bus.c:447-470 | an answer goes to the neighbour the message came from, anything else to the other one or nowhere, at the ends of the chain as well |
| RequestLaws.NpgLikeBg | src/libunibus/priority_bus.c:599-649 | an NPG is to a non-processor request what an asserted BG is to a bus request |
| ArbiterLaws.BelievesTheLatest | src/libunibus/bus_arb.c:326-354 | after any messages the arbiter believes the last it heard of SACK and BBSY, and a grant is outstanding exactly if the last it said of it was to assert it |
| ArbiterLaws.SaysNext | src/libunibus/bus_arb.c:220-340 | what the arbiter says next, given only what it has heard and said: grants exactly while SACK was last heard negated, one grant ended by a SACK, a bus grant before a non-processor grant |
| ArbiterLaws.ArbiterIsHeard | src/libunibus/bus_arb.c:172-217 | in every run the arbiter is what the messages it has read make of it |
| ChainPolls.TokenConserved | src/libunibus/bus_arb.c:326-340 | between polls, [arbiter's SACK negated] + SACK-negated letters on their way up + BG-negated letters on their way down + masters is at most 1 |
| GrantSafety.NoGrantWhileMaster | src/libunibus/bus_arb.c:220-243 | in every reachable state of the single steps, while a device is master, is taking a grant, or has its BBSY still to negate towards the arbiter, the arbiter writes nothing for the message it reads next |
| GrantSafety.GrantsAlwaysTake | src/libunibus/priority_bus.c:543-552 | in every reachable state of the single steps, a BG-negated about to be read by a device with SACK finds it not seeing BBSY: no such grant is lost, and the signal wakes a thread whose device becomes master |
| GrantSafety.WokenExactly | src/libunibus/priority_bus.c:543-552 | in every reachable state a message read signals the main thread exactly if it makes the device master |
| GrantSafety.TimedStep | src/libunibus/priority_bus.c:144-218 | every step of any device or of the arbiter keeps the timing invariant: which answers, SACKs and BBSYs can be on their way ahead of a BR or a grant |
| GrantTiming.AnswersAlone | src/libunibus/bus_arb.c:220-243 | when the arbiter sees SACK negated and what it reads leads to a grant, no device is active and nothing of the last master is still on its way to it |
| ChainTraffic.PassedOn | src/libunibus/priority_bus.c:447-478 | a message that is not answered goes on in the direction it came from, signed with this position, with one hop less, and is dropped exactly by the last device, at its last hop |
| ChainTraffic.ReadsPerMessage | src/libunibus/priority_bus.c:481-502 | from any reachable state on, the messages a run reads plus the hops left at its end are at most the hops in flight before it plus one per node for every message originated in it |
| ChainBudget.BusQuiesces | src/libunibus/priority_bus.c:144-218 | from any reachable state on, a run puts at most 7 messages on the bus for each request of a main thread and 4 for each release, besides those already owed, and reads at most what is in flight and one message per node for each of these |
| ChainBudget.RequestsBoundTraffic | src/libunibus/priority_bus.c:707-741 | in every run from the start all messages read, plus the hops left, are at most n times 7 per request and 4 per release: without main threads asking the bus falls silent |
| ChainBudget.StepDue | src/libunibus/priority_bus.c:393-430 | every step that puts a message on the bus uses up one that was owed; only the main threads add to them |
| ChainTraffic.NoMasterWithoutRequest | src/libunibus/priority_bus.c:505-572 | in every run from the start a device becomes master at most as often as it completed a bus request |
| ChainTraffic.NprPathDead | src/libunibus/priority_bus.c:575-649 | in every reachable state no NPR or NPG is in any queue, no device has one issued and the arbiter has none outstanding |
| SackSharing.SackExclusiveExactly | src/libunibus/bus_arb.c:220-243 | in all runs in which only the devices of a set ask for the bus, never two devices assert SACK, if and only if at most one device of the chain is in the set |
| SackSharing.TwoDevicesAssertSack | src/libunibus/priority_bus.c:505-541 | for any two devices of a chain of any length there is a run in which only they ask and after which both assert SACK |
| BusPermission.AtMostOne | src/libunibus/bus_arb.c:326-340 | in every reachable state of the single steps, [arbiter's SACK negated] + SACK-negated on their way up + BG-negated on their way down + devices that hold a grant is at most 1 |
| BusPermission.DeadForever | src/libunibus/bus_arb.c:220-243 | from a reachable state in which that sum is 0, in every continuation it stays 0, no device becomes master, and the arbiter answers nothing whatever it reads; a device still master is giving the bus back |
| LostPermission.PermissionKeptExactly | src/libunibus/bus_arb.c:326-340 | in all runs in which only the devices of a set ask for the bus the sum stays 1, if and only if at most one device of the chain is in the set |
| LostPermission.TwoDevicesLosePermission | src/libunibus/bus_arb.c:326-340 | for any two devices of a chain of any length there is a run in which only they ask and after which the sum is 0 |
| LoneAsker.PermissionKept | src/libunibus/priority_bus.c:505-572 | with at most one asking device in the chain the sum is 1 in every reachable state |
| LoneAsker.RunKeepsLone | src/libunibus/priority_bus.c:144-218 | every run keeps where the permission is: with the arbiter and every acknowledgement or grant on its way for an outstanding grant, as the last grant on its way down to a device that keeps SACK, with the device, or last on its way up |
| PriorityBus.FinishRelease | src/libunibus/priority_bus.c:303-387 | the steps of an uninterrupted release are SACK negated left and right, then BBSY negated left and right, and nothing else |
| PriorityBus.FinishGrant | src/libunibus/priority_bus.c:260-300 | the steps of an uninterrupted grant are BBSY left and right and then mastership |
| PriorityBus.PriorityDevice.AssertBr | src/libunibus/priority_bus.c:222-257 | refuses exactly when BBSY is seen and no BR is issued; otherwise writes BR left then right and marks it issued |
| PriorityBus.PriorityDevice.AssertBbsy | src/libunibus/priority_bus.c:260-300 | does nothing when BBSY is seen; otherwise writes BBSY left then right and becomes master |
| PriorityBus.PriorityDevice.NegateSack | src/libunibus/priority_bus.c:303-343 | does nothing without SACK; otherwise writes its negation left then right and gives up mastership and the master request |
| PriorityBus.PriorityDevice.NegateBbsy | src/libunibus/priority_bus.c:346-387 | does nothing without BBSY; otherwise writes its negation left then right and clears all four flags |
| PriorityBus.PriorityDevice.HandleBg | src/libunibus/priority_bus.c:505-572 | the object ends in the state, and has written the messages, of all single steps that a BG causes, and has signalled its main thread exactly for a BG-negated that meets SACK, whether or not BBSY is seen |
| PriorityBus.PriorityDevice.HandleNpg | src/libunibus/priority_bus.c:599-649 | the same for an NPG |
| PriorityBus.PriorityDevice.HandleBbsy | src/libunibus/priority_bus.c:676-704 | the same for a BBSY, which always sets or clears the flag and is passed on |
| PriorityBus.PriorityDevice.RequestMaster | src/libunibus/priority_bus.c:707-718 | the object does all single steps of a request |
| PriorityBus.PriorityDevice.ReleaseMaster | src/libunibus/priority_bus.c:721-741 | the object does all single steps of a release and signals the thread that waits for it |
| PriorityBus.PriorityDevice.ProcessPrEvents | src/libunibus/priority_bus.c:393-430 | exactly the oldest message is taken from the queue and handled; with none, nothing happens |
| PriorityBus.PriorityDevice.PollOnce | src/libunibus/priority_bus.c:196-214 | one pass of the loop: a request or else a release if one is due, then one message, with the signals of both |
| BusArbiter.Arbiter.AssertBusGrant | src/libunibus/bus_arb.c:220-245 | a BR is dropped while SACK is asserted and otherwise granted and remembered |
| BusArbiter.Arbiter.NegateBusGrant | src/libunibus/bus_arb.c:248-270 | the outstanding grant is taken back and its negation written |
| BusArbiter.Arbiter.AssertNpGrant | src/libunibus/bus_arb.c:273-298 | an NPR is dropped while SACK is asserted and otherwise granted and remembered |
| BusArbiter.Arbiter.HandleSack | src/libunibus/bus_arb.c:326-340 | only a new SACK negates the grant, bus grant before non-processor grant; a negated SACK clears the flag |
| BusArbiter.Arbiter.HandleBbsy | src/libunibus/bus_arb.c:343-354 | the flag follows the message and a change is reported |
| BusArbiter.Arbiter.Dispatch | src/libunibus/bus_arb.c:172-217 | for every message the object's new state and what it writes are those of the arbiter's step |
| DataBusRefinement.RefinesAtomicMemory | src/libunibus/data_bus.c:470-597 | in every run each returned call was completed, each read returned the word the earlier completed calls left, and with no call under way the store is exactly what they make of it |
| DataBusRefinement.OneOutstanding | src/libunibus/data_bus.c:232-284 | in every run all slots, buffers and messages together hold at most one transaction, and none while the master is free |
| DataBusRefinement.CallConserved | src/libunibus/data_bus.c:232-284 | in every run a call for an address of the memory is in exactly one slot, buffer or message until its result lies in the master's slot |
| DataBusProgress.ReturnsExactly | src/libunibus/device_bus_mgr.c:210-232 | in every reachable state with such a call under way it can still return, within 25 events, if and only if none of its three signals was given to a thread that did not wait; if one was, it never returns |
| DataBusProgress.EveryCallCanReturn | src/libunibus/device_bus_mgr.c:210-295 | from every reachable state with the main thread free, every read, word write and byte write in the memory has a run that returns it |
| DataBusProgress.ExpectsResponse | src/libunibus/data_bus.c:385-437 | in every run the bus thread expects a response exactly from sending its request to having dealt with the response |
| DataBusLaws.PostedMoves | src/libunibus/data_bus.c:232-262 | for every operation in the slot: reads and writes of a word or byte move to the buffer, data only for writes; everything but an uncollected result leaves the slot |
| DataBusLaws.CallIsSent | src/libunibus/data_bus.c:287-382 | posting a call, loading it and sending it gives one request with its kind, address and data |
| DataBusLaws.SlotDataStay | src/libunibus/device_bus_mgr.c:217-232 | posting a read and taking a result leave the data in the slot as they were |
| DataBusLaws.OnlyThreeAreSent | src/libunibus/data_bus.c:354-382 | a request is sent exactly for a word read and the two writes; a posted byte read is never sent |
| DataBusLaws.SixteenBits | src/libunibus/data_bus.c:440-447 | the memory takes requests for addresses below 0x10000 |
| DataBusLaws.RequestIsServed | src/libunibus/data_bus.c:470-583 | a request at the memory, wire to wire: the store read or written, one acknowledged answer with the word for a read, the slot free |
| DataBusLaws.OthersNotServed | src/libunibus/data_bus.c:450-506 | a request of another kind is left alone; an operation that is not done is answered without acknowledgement and data and stays |
| DataBusLaws.OthersDropped | src/libunibus/data_bus.c:385-437 | a response nobody expects, and anything at the memory but a request for one of its addresses, is dropped |
| DataBusRefinement.AlwaysCompleted | src/libunibus/device_bus_mgr.c:210-295 | a woken caller finds R_DONE, every answer on the wire is acknowledged, the memory's bus thread finds its demand done, and a woken memory finds a demand inside its store, so no failure branch is taken |
| DataBusRefinement.ReadAfterWrite | src/libunibus/device_bus_mgr.c:210-267 | a read that returns after a write of its word, with only reads between, returns the word written |
| DataBusRefinement.StepKeeps | src/libunibus/data_bus.c:173-284 | every block of every thread keeps the invariant that says where the one transaction is |
| DataBus.BusState.PostRead | src/libunibus/device_bus_mgr.c:217-220 | the slot is that of a posted word read, as in the step relation |
| DataBus.BusState.PostWrite | src/libunibus/device_bus_mgr.c:246-250 | the same for a word write |
| DataBus.BusState.PostWriteByte | src/libunibus/device_bus_mgr.c:274-278 | the same for a byte write |
| DataBus.BusState.TakeResult | src/libunibus/device_bus_mgr.c:227-232 | the value and status found are returned and the slot is freed, as in the step relation |
| DataBus.BusState.DataBusReply | src/libunibus/device_bus_mgr.c:442-458 | the slot shows the reply as done and the caller's record is emptied |
| DataBus.DataBusThread.PollMaster | src/libunibus/data_bus.c:232-262 | a posted word or byte request moves from the shared slot to the buffer, with its data only for writes; a block operation is cleared without moving; nothing posted, or a result not collected, stays |
| DataBus.DataBusThread.ProcessOp | src/libunibus/data_bus.c:354-382 | exactly one request is sent for a read, word write or byte write, none for anything else, and the buffer is emptied |
| DataBus.DataBusThread.HandleResp | src/libunibus/data_bus.c:416-437 | a response of the three kinds fills the slot as done, ends the request and wakes the caller; others change nothing |
| DataBus.DataBusThread.PostDemand | src/libunibus/data_bus.c:470-485 | the slave slot holds the demand of the request's kind, address and data |
| DataBus.DataBusThread.SendAnswer | src/libunibus/data_bus.c:488-506 | one acknowledged answer is sent, with data only for a finished read, and a finished slot is emptied |
| DataBus.ServeDemand | src/mem/mem.c:172-199 | the memory performs the demand in its store and replies, or leaves everything alone when woken for nothing |
| MemoryDevice.PutWordReads | src/mem/mem.c:121-146 | a stored word reads back, and every word it does not overlap is unchanged |
| MemoryDevice.PutWordsReads | src/mem/mem.c:77-91 | words stored one after the other all read back and nothing outside them has changed |
| MemoryDevice.MemDevice.WriteWord | src/mem/mem.c:121-129 | the store changes in exactly the word |
| MemoryDevice.MemDevice.WriteByte | src/mem/mem.c:132-137 | the store changes in exactly the low byte's cell |
| MemoryDevice.MemDevice.ReadWord | src/mem/mem.c:140-146 | the little-endian word at the address |
| MemoryDevice.MemDevice.LoadAout | src/mem/mem.c:77-91 | all words of the text are in the store from the offset on and everything else is as before |
| DiskProtocol.FillHandshake | attic/src/disk.c:12-39 | for every interleaving, while the controller fills, its buffer up to the index is exactly the prefix of the bytes handed over, the last possibly still to be fetched; DONE shows only when all 128 are in the buffer in order |
| DiskProtocol.CommandsExactlyOnce | attic/src/disk.c:244-285 | commands are taken up in the order issued, each once and with the code it carried; the host never sees the end of one not taken up; when the host is free the commands taken are those completed |
| DiskProtocol.RefinesAtomicDrive | attic/src/disk.c:69-156 | whenever the host is free, buffer and image are what the completed fill, write and read commands make of the initial ones, one after the other |
| DiskProtocol.NeverOverrun | attic/src/disk.c:12-39 | the host is never asked for more than 128 bytes, for a sector command two, and a fill's index is exactly the bytes handed over so far |
| DiskCompletion.OfferComes | attic/src/disk.c:12-39 | from every reachable state in which the host owes bytes and polls, its request is shown within 8 steps of the controller alone |
| DiskCompletion.EndComes | attic/src/disk.c:244-310 | from every reachable state in which all bytes are handed over, DONE is shown within 8 steps of the controller alone, and the next poll completes the command |
| DiskCompletion.EveryCommandCompletes | attic/src/disk.c:239-311 | from every reachable state with the host free, every fill, write and read with its bytes has a run that completes it |
| DiskCompletion.BufferEnds | attic/src/disk.c:12-64 | a buffer dealt with is reported by DONE two passes later, whatever else the status shows, with the controller at rest |
| DiskCompletion.BlockEnds | attic/src/disk.c:69-156 | the same for a block moved, with track and sector forgotten |
| DiskCompletion.ReadsAfterWrite | attic/src/disk.c:89-136 | every byte read after one block was written: the block's, the file's, zero in a gap, or what the buffer held beyond the end |
| DiskEmpty.EmptyHandsOverIndices | attic/src/disk.c:44-64 | EMPTY, read out by a polling host, hands over 0 to 127 and not the buffer, then DONE, with buffer and file unchanged |
| DiskEmpty.UnusedCode | attic/src/disk.c:271-283 | a function code without a command only clears the status |
| DiskProtocol.NextKeeps | attic/src/disk.c:239-311 | every step of the controller, the host and the side effect keeps the invariant by stages |
| DiskImage.SlotsDisjoint | attic/src/disk.c:89-94 | two addresses overlap if and only if they have the same block number; for real tracks and sectors that is the same address, and the block lies inside 256256 bytes |
| DiskImage.SectorPastTrackAliases | attic/src/disk.c:89-94 | sector 26 of a track is sector 0 of the next |
| DiskImage.ReadsLastWritten | attic/src/disk.c:115-156 | a read leaves in the buffer what the buffer held at the last write of its block, whatever the file size and the other commands between |
| DiskImage.ControllerReadsLastWritten | attic/src/disk.c:115-156 | the same of the controller's own buffer after any interleaving of its thread with the host |
| DiskImage.RefinesBlockMap | attic/src/disk.c:69-156 | on a whole floppy any sequence of commands for its tracks and sectors acts as on a map from addresses to blocks |
| Rx11.PassIsSteps | attic/src/disk.c:239-311 | an undisturbed pass of the loop is a sequence of the single steps |
| Rx11.Registers.HostWriteData | attic/src/disk.c:225-232 | writing the data register stores the byte and withdraws only the transfer request |
| Rx11.Controller.FillBuffer | attic/src/disk.c:12-39 | the object after filling one byte, waiting or finishing is the undisturbed pass |
| Rx11.Controller.EmptyBuffer | attic/src/disk.c:44-64 | the same for emptying, which hands over the index as the code does |
| Rx11.Controller.WriteSector | attic/src/disk.c:69-110 | the same for the three phases of a write, with the block in the file at its offset |
| Rx11.Controller.ReadSector | attic/src/disk.c:115-156 | the same for the three phases of a read |
| Rx11.Controller.PassOnce | attic/src/disk.c:239-311 | the object's whole pass, command dispatch included, is the undisturbed pass |
| RegisterFile.RefinesRegisterFile | attic/src/memory.c:268-357 | any sequence of register operations, register operands, accesses by address that do not cut a register in two, and device activity, leaves in the cells what it leaves in nine separate 16-bit registers |
| RegisterFile.UnnamedKept | attic/src/memory.c:334-357 | a register no operation names keeps its value through any such sequence |
| RegisterFile.MemoryKept | attic/src/memory.c:268-357 | register operations and register operands change no byte outside the register cells |
| AtticMemory.EffectsStayInDevices | attic/src/memory.c:376-417 | a reaction to an access changes device cells only |
| AtticEffects.DataWritten | attic/src/disk.c:225-232 | writing RXDB clears bit 7 of RXCS and nothing else |
| AtticEffects.DataRead | attic/src/disk.c:211-220 | reading RXDB also zeroes it |
| AtticEffects.KeyRead | attic/src/tty.c:89-98 | reading TKB leaves TKB and TKS zero and nothing else changed |
| AtticEffects.PrinterRead | attic/src/tty.c:58-63 | reading TPB zeroes it and sets bit 7 of TPS, and changes nothing else |
| AtticEffects.NothingElse | attic/src/tty.c:89-98 | no other location reacts |
| AtticEffects.HostWriteShows | attic/src/disk.c:225-232 | where the cells show the controller's registers, a byte written to RXDB leaves them showing the byte and the status without XFER, as the host's write in the disk model does |
| AtticEffects.HostWordShows | attic/src/disk.c:225-232 | the same for a word |
| AtticEffects.HostReadShows | attic/src/disk.c:211-220 | the same for a read |
| AtticMemory.TablesReady | attic/src/tty.c:89-98 | tables filled in the order the devices start find each of the four handlers at its location and nothing elsewhere |
| AtticMemory.RegisterEffect | attic/src/memory.c:363-374 | the first unused slot, and no other, takes the handler; without one nothing changes and false is returned |
| AtticMemory.FindEffect | attic/src/memory.c:379-387 | the search returns the first slot for the location, or none |
| AtticMemory.Memory.InstallDevices | attic/src/disk.c:316-320 | after the devices have started, both tables are complete |
| AtticMemory.Memory.DirectReadWord | attic/src/memory.c:92-98 | the word before the read, and the memory after its reaction |
| AtticMemory.Memory.DirectWriteWord | attic/src/memory.c:139-148 | the memory with the word stored and the reaction to the write |
| AtticMemory.Memory.DirectWriteByte | attic/src/memory.c:153-161 | the same for a byte |
| AtticMemory.Memory.WriteWord | attic/src/memory.c:43-52 | the same through the operand address |
| AtticMemory.Memory.WordInPlace | attic/src/memory.c:268-279 | the word at a location, changed by a constant modulo 2^16, and nothing else |
| AtticMemory.Memory.WriteRegister | attic/src/memory.c:334-343 | the register's two cells hold the value, low byte first |
| AtticMemory.Memory.ReadRegister | attic/src/memory.c:350-357 | the value of the register's two cells; nothing changes |
| AtticMemory.Memory.RunClearRXDB | attic/src/disk.c:211-220 | the data register is zero and only the transfer request is withdrawn |
| AtticMemory.Memory.ProcessRead | attic/src/memory.c:379-387 | the handler found for the location has run, nested accesses included |
| AtticMemory.Memory.ProcessWrite | attic/src/memory.c:409-417 | the same for writes |
| AtticJsr.Processor.SetupDest | attic/src/handlers.c:182-195 | the operand address and the memory after addressing, for every mode and register, unhandled modes included |
| AtticJsr.Processor.SetupPcDest | attic/src/handlers.c:8-42 | the same for the program counter's modes |
| AtticJsr.Processor.SetupSpDest | attic/src/handlers.c:44-103 | the same for the stack pointer's modes |
| AtticJsr.Processor.SetupGeneralDest | attic/src/handlers.c:105-180 | the same for the other registers |
| AtticJsr.Processor.JSR | attic/src/handlers.c:1348-1365 | the handler computes the call as a function of memory: link stored at the stack pointer, which then moves, link set, program counter set |
| AtticJsr.Processor.RTS | attic/src/handlers.c:1367-1377 | the handler computes the return |
| AtticOperands.PcOperand | attic/src/handlers.c:8-42 | for every mode of PC, the operand's address and the new PC on words of plain memory: PC, #X, @#X, and X counted from behind the offset |
| AtticOperands.SpOperand | attic/src/handlers.c:44-103 | the same for every mode of SP |
| AtticOperands.RegisterOperand | attic/src/handlers.c:112-147 | the same for the general registers' modes without memory; -(Rn) names the word before the register moves |
| AtticOperands.DeferredOperand | attic/src/handlers.c:132-154 | the same for @(Rn)+ and @-(Rn), which move the word the register points at and not the register |
| AtticOperands.IndexedAddress | attic/src/handlers.c:156-179 | the same for X(Rn) and @X(Rn), each with one read more than its name says |
| AtticOperands.CallGoes | attic/src/handlers.c:1348-1365 | with the operand at a: PC is the word at a, the link is PC, the old link is at the old SP, other registers stay |
| AtticOperands.RelativeCall | attic/src/handlers.c:1348-1365 | a relative call at pc with offset x loads PC from the word at pc + 4 + x modulo 2^16 |
| AtticOperands.ReturnGoes | attic/src/handlers.c:1367-1377 | PC is the link, the link is the word above SP, other registers stay |
| AtticOperands.Encodings | attic/src/handlers.c:1435-1453 | the words of JSR are exactly 0x800 to 0x9FF, those of RTS 0x80 to 0xBF |
| AtticOperands.JsrFields | attic/src/handlers.c:1435-1453 | link, mode and register of every JSR word |
| CallTrees.NestedCallsRestore | attic/src/handlers.c:1348-1377 | for every tree of calls and bodies that keep their frame, and an operand without register side effects: stack pointer, link, callers' links and all words above the stack pointer are restored and execution resumes behind the call |
| CallsInMemory.CallsRestore | attic/src/handlers.c:1348-1377 | whenever memory holds a call of any tree of subroutines, each one a row of JSR link,#target and then RTS link, above the stack and clear of special cells, the loop makes exactly two passes for every call of the tree, whatever the devices do between passes, and restores stack pointer, link and all words above the stack pointer, with PC behind the call's two words |
| CallTrees.LeafCall | attic/src/machine.c:94-110 | two passes, a call and the return at its target, restore all of that by themselves, whatever the devices do between |
| CallTrees.CallRestores | attic/src/machine.c:94-110 | the same for every operand, relative to the state its addressing left |
| CallTrees.BodyRestores | attic/src/machine.c:94-110 | a body of any work and calls keeps its frame: by induction over the tree |
| CallTrees.PlainOperand | attic/src/handlers.c:8-180 | the addressing modes that change nothing but the program counter, by how much, and device cells |
| CountedLoop.FillsMemory | src/cpu/cpu.c:262-270 | with r0 = n of at least 1, after exactly 3n instructions r0 is 0, the program counter is behind the loop, n words hold the constant, zero is set and negative clear, and every other register, flag and byte is unchanged |
| CountedLoop.LeavesNoEarlier | src/cpu/cpu.c:1337-1343 | after fewer than 3n instructions the program counter is still in the loop |
| CountedLoop.RunLoop | src/cpu/cpu.c:262-270 | the processor object, run from there, ends in such a state |
| CountedLoop.FlagsOf | src/cpu/cpu.c:1022-1053 | after a result, zero and negative tell its two facts and all other bits of the status word are kept |
| CpuOperands.PcOperand | src/cpu/cpu.c:757-786 | for every mode of PC, the operand's address and the new PC on words of memory: PC, #X, @#X, and X counted from behind the offset |
| CpuOperands.SpOperand | src/cpu/cpu.c:789-836 | the same for every mode of SP |
| CpuOperands.RegisterOperand | src/cpu/cpu.c:844-879 | the same for the general registers' modes without memory; -(Rn) names the word before the register moves |
| CpuOperands.DeferredOperand | src/cpu/cpu.c:864-889 | the same for @(Rn)+ and @-(Rn), with the extra read and the write of the code |
| CpuOperands.IndexedOperand | src/cpu/cpu.c:890-906 | the same for X(Rn) and @X(Rn) |
| CpuOperands.MoveDelivers | src/cpu/cpu.c:1572-1582 | MOV with any two operands: the word that is at the source after both are found is at the destination, zero and negative tell about it, everything else stays |
| CpuOperands.DecrementDelivers | src/cpu/cpu.c:1464-1477 | DEC with any operand, likewise |
| CpuOperands.BranchGoes | src/cpu/cpu.c:1337-1343 | a BNE word goes its offset in words from behind itself, forward below 0200 and backward from there, unless zero is set |
| CpuOperands.HaltStops | src/cpu/cpu.c:262-270 | at a zero word the loop stops, for however long it is watched |
| CpuOperands.LoopHalts | src/cpu/cpu.c:262-270 | the counted loop with HALT behind it, watched beyond its 3n instructions: all words filled and the processor stopped behind the HALT |
| CpuOperands.RelativeMove | src/cpu/cpu.c:1572-1582 | MOV X,Rn gives Rn the word that lies X behind both words of the instruction, and changes no other register and no memory |
| CpuOperands.PushPop | src/cpu/cpu.c:1572-1582 | a register pushed and popped into another, then HALT: the word has moved, SP is back, the processor has stopped |
| CpuOperands.OnlyTheseHaveResults | src/cpu/cpu.c:465-690 | of the modelled dispatch, only the words of MOV, DEC, BNE and HALT have a result |
| CpuOperands.Translated | src/cpu/cpu.c:396-403 | a translated address has bits 15 to 17 set and its other bits kept |
| CpuOperands.RegisterAddresses | src/cpu/cpu.c:703-754 | each register has its own bus address and no other address names one |
| Cpu.OnlyLowMemoryAnswers | src/cpu/cpu.c:396-403 | an access to memory is answered if and only if its address is below 01000 |
| Cpu.Processor.SetupPcAddressing | src/cpu/cpu.c:757-786 | the operand address and new state for the program counter's modes |
| Cpu.Processor.SetupSpAddressing | src/cpu/cpu.c:789-836 | the same for the stack pointer's modes |
| Cpu.Processor.SetupGeneralAddressing | src/cpu/cpu.c:839-906 | the same for the other registers, all eight modes |
| Cpu.Processor.Store | src/cpu/cpu.c:430-442 | a store reaches exactly the register or the memory word its address names |
| Cpu.Processor.MOV | src/cpu/cpu.c:1572-1582 | the handler computes the move: source addressed before destination, then fetched, delivered, flags set |
| Cpu.Processor.DEC | src/cpu/cpu.c:1464-1477 | the handler computes the decrement |
| Cpu.Processor.BNE | src/cpu/cpu.c:1337-1343 | the handler computes the branch, with the signed offset in words |
| Cpu.Processor.ExecInstruction | src/cpu/cpu.c:465-690 | the dispatch reaches the handler of each modelled instruction |
| Cpu.Processor.Execute | src/cpu/cpu.c:262-270 | the loop, watched for n passes, does exactly the first n instructions, fewer if it halts |
| AssembleAndLoad.RoundTrip | attic/src/asm.c:33-69 | any listing of octal lines of up to 7 digits and comments, closed by .end, assembled and loaded where it fits clear of registers and RXDB, stores exactly its words, sets PC and changes nothing else |
| AssembleAndLoad.ListingAssembles | attic/src/asm.c:40-67 | a well-formed listing in front of any text adds exactly its words to the file and to the count and leaves the rest of the text to be assembled |
| AssembleAndLoad.WordsHaveListing | attic/src/asm.c:64-66 | any list of words is what its octal lines stand for |
| AssembleAndLoad.FileLoads | attic/src/machine.c:33-56 | the file of some words at an offset loads as those words and PC |
| AssembleAndLoad.UnclosedLoadsNothing | attic/src/asm.c:38-39 | a listing without .end gives a file whose loading only sets PC |
| AssembleAndLoad.UnendedCommentHangs | attic/src/asm.c:42-44 | a comment the file ends in is never left |
| TextLaws.ScanReads | attic/src/asm.c:64-66 | a line is leading space, a sign, octal digits and anything: its number is theirs modulo 2^16, complemented for a minus, and none without digits |
| TextLaws.OneLine | attic/src/asm.c:51-67 | any line of fewer than eight characters adds its number, or the one before it again if it has none; a blank line is one with the next |
| TextLaws.LongLine | attic/src/asm.c:51-57 | eight characters or more without an end mark leave what is read undetermined |
| Assembler.Run | attic/src/asm.c:29-72 | the program's loop writes the file, or ends, as the recursive reading of the text says, for every text |
| Assembler.ReadLine | attic/src/asm.c:51-57 | the buffer holds the line up to its newline or the eighth character, and the file is positioned behind that |
| Assembler.SkipComment | attic/src/asm.c:42-44 | the comment is skipped to behind its newline, or has none |
| Loader.LoadProgram | attic/src/machine.c:33-56 | for every file the loop leaves what its header and bytes say, the byte before the end repeated past it, and zeros for a header or body the file ends before |
| TextLaws.LoadedBytes | attic/src/machine.c:33-56 | every byte of memory after loading any file: the file's from the fifth on, its last repeated, zero, or unchanged, with the end of the program cut to 16 bits |
| ObjReader.LoadsFirstText | attic/src/objreader.c:74-83 | for any run of well-formed other blocks before a text block, and anything behind it: the words are in memory from the load offset on, PC is set to it, and nothing else has changed; with an odd number of bytes the last word takes the byte behind the block |
| ObjReader.FindsText | attic/src/objreader.c:12-30 | the search passes over exactly the other blocks, whatever the type byte's variable held |
| ObjReader.IsTextBlock | attic/src/objreader.c:12-30 | for every file and place: a text block is announced and left to be read, another is skipped with its checksum, and the end of the file is noticed, inside a block's first five bytes included |
| ObjReader.LoadTextBlock | attic/src/objreader.c:32-72 | header and data give the memory that the reading of the block says, for every length word |
| ObjReader.LoadProgram | attic/src/objreader.c:74-85 | the whole reader does so from the first block on, for every file whose text block reaches its load offset |
| ObjReader.NoTextLoadsNothing | attic/src/objreader.c:12-30 | a file of other blocks only loads nothing if and only if it is empty or the variable for the type byte does not happen to hold 3 before anything is read into it |
| ObjReader.CutBlockLoadsNothing | attic/src/objreader.c:12-30 | other blocks and then one to four bytes load nothing, whatever that variable held, if and only if no block came before or the rest does not start with 3 |
| TextLaws.ShortLengthOverruns | attic/src/objreader.c:54-66 | a length word below eight wraps around and runs past the end of memory |
| TextLaws.ShortBlock | attic/src/objreader.c:22-26 | another block with a length word below five takes six bytes |
| TextLaws.TinyFile | attic/src/objreader.c:12-30 | a file of fewer than five bytes loads nothing, and is announced as text only by its first byte |
| WordFiles.LoadedHolds | attic/src/machine.c:47-55 | words stored clear of the registers, then PC: every word reads back and only PC has changed besides |

## Left out

- Sockets, file descriptors, connecting and closing, paths, sleeps, signals, thread creation and
  shutdown: channels are FIFO sequences and waits are states.
- Liveness under fair schedules: the arbiter drops a BR while SACK is asserted, the permission to be
  master can be lost, and condition signals can be missed. What is stated is safety, a bound on the
  traffic, when the permission is lost, and from which states calls and commands can complete.
- The processor as a bus master among the devices: it sets itself master once and never gives it up
  (src/libunibus/device_bus_mgr.c:373), so exclusion is stated among devices.
- More than one memory or master on the data bus, and the forwarding of data-bus messages past a node.
- src/disk/disk.c, the newer disk: its transfer flag is kept instead of cleared and its pending
  requests never load one; the older controller is modelled instead.
- EMPTY BUFFER in `DiskProtocol`: it hands over the index, not the data (attic/src/disk.c:57), so its
  host never issues it, nor the unused codes; `DiskEmpty` runs EMPTY on whole passes instead.
- Failing or short writes to the disk's file; reads past its end leave the buffer as it was.
- The OR-write of a word (attic/src/memory.c:195-203) outside the disk's registers, where `Rx11` models
  it on bit vectors.
- The older emulator's instructions other than JSR and RTS: in `CallTrees` they are work that is known
  only by what it keeps. Addresses past the end of its array, where the C code is undefined, have no
  result.
- Device threads inside an instruction of the older emulator: in `CallTrees` device cells change
  between passes and inside work.
- Cpu.Processor.ExecInstruction: dispatches MOV, DEC, BNE and HALT; the newer processor's other
  instructions and its byte addressing have no result.
- Cpu.Processor.Execute: watches a given number of passes, because the loop itself need not end.
- The assembler's messages and its command line; a source byte 0xFF, which reads as the end of the
  file where characters are signed, is not told apart from other characters.
- ObjReader.LoadTextBlock: a text block that the file ends in before its load offset is complete has no
  result, because the C code then uses what its variables held.
- ObjReader.LoadProgram: the same for a file with such a text block.
- The console terminal (attic/src/tty.c) beyond its read side effects, a.out reading, state dumps.
