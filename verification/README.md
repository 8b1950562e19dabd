# Verification of packetcomms

A Dafny model of the packet multiplexing library and proofs about it: packets posted by any number of
threads are queued by type, framed onto one byte stream by a send thread (`PacketMuxer`), read back in
arbitrary chunks by a receive thread (`PacketDemuxer`), passed through a Hello gate and handed to the
subscribers of their type; and a two-party ready handshake (`Sync`) on top.

`dafny verify dfyconfig.toml` checks everything.

## How it is put together

- `Packets.dfy`, `Codec.dfy`, `IdManager.dfy`: packets and `ComPacket` objects, the frame format and its
  decoder, the name/id tables.
- `MuxProtocol.dfy`, `DemuxProtocol.dfy`: each side as a state machine. A step is one mutex section, one
  transport call, one look at the error flag outside a lock, or one iteration decision, so every
  interleaving of the posting threads, the subscribers, the destructors and the two loops is a run, with
  every fragmentation of writes and reads, time-outs, zero-byte transfers, spurious wake-ups and errors.
- `MuxSafety.dfy`, `DemuxSafety.dfy`: invariants of those machines and theorems over all runs.
- `HelloFirst.dfy`: which packet the sender sends first, and exactly when that is Hello.
  `QueueEmpty.dfy`: exactly when `sendAll` empties its queue.
- `Ownership.dfy`: the subscription handles of all threads around the demuxer, with reference counts.
- `PacketMuxer.dfy`, `PacketDemuxer.dfy`: the classes in the form of the source, with loops and mutable
  fields. Each atomic action of the code is also recorded as a step of the state machine, and `Valid()`
  says that the fields are those of a reachable state. So a method that skipped, reordered or
  duplicated an action would not verify, and what is proved of all runs holds of the objects.
- `Pipeline.dfy`: both ends and the stream between them; the end-to-end results. `Gate.dfy`: the Hello
  gate over such runs. `Survival.dfy`: when the receive thread dies.
- `MuxRuns.dfy`, `DemuxRuns.dfy`: how a whole packet is sent and received in a run, and particular runs in
  which a promise is broken.
- `Sync.dfy`: the handshake over two counters. `SyncOverComms.dfy`: the same over a muxer and a demuxer in
  each direction, refining it; `SyncRun.dfy`: a run of that in which both sides return.

What stands for the environment: a transport returns any number of bytes it could, or an error; its
`patience` bounds how often in a row it transfers nothing, which is what makes the transfer loops
terminate. Other threads act, arbitrarily, wherever the code gives up a lock or looks at a shared flag.
How often a transport failed, what it said when polled and whether a wait timed out is recorded, so that the
contracts can say exactly what an error flag was set by (`Accounted()`).
The muxer's `horizon` says after how many waits its destructor runs, which is what makes the send loop
end. A pointer to a subscriber is a value with the number of its registration; the reference counts of
`shared_ptr` are kept explicitly. An assertion or uncaught exception of the receive thread is the phase
`Aborted`, one of the send thread the state `Crashed`. Reading the message byte of an empty control
packet, which the source does without a check, is an abort too. The two halves of the demuxer's
destructor, `Shutdown` and `Destroy`, stand on either side of its join: the second needs the receive
thread to have ended, which `JoinReturns` shows it does.

## Where the code says something else than its comments

- The queues are in an `unordered_map`, so "priority order" (`src/PacketMuxer.cpp:84`) is any order, and
  other threads may post before the send thread first takes the lock. So "the first packet will always
  be Hello" (`src/PacketDemuxer.cpp:224`) is not so: `HelloComesSecond` is a run in which a user's packet
  goes first and the receiver closes its gate. `HelloFirstIff` and `GateIff` say exactly when it is so.
- If the greeting times out the Hello check is skipped, so a first packet that is not Hello can reach its
  subscriber (`HelloSkipped`). `RejectedIff`: the gate closes exactly if the first poll found something.
- `sendAll` can leave packets in the queue after an error (`QueueLeft`), although its comment says otherwise
  (`src/PacketMuxer.cpp:97`). `QueueEmptiedIff` says exactly when it empties the queue.
- `ok &= writeBytes(...)` goes on writing after a failed field. The wire is then a prefix of the real
  frames only if the transport takes nothing more of that frame (`PrefixIffClean`); otherwise a packet
  that nobody posted can reach a subscriber (`ForgedReceived`).
- The size field is a `uint32_t` and the receiver's buffer size an `int`: a frame round-trips exactly if
  the payload is shorter than 2^31 bytes (`FrameRoundTrip`). From 2^31 on the receive thread dies; from
  2^32 on framing is lost and packets can be forged (`WrappedSizeForges`).
- No read ever treats zero bytes as an error (`src/PacketDemuxer.cpp:155` announces it, line 160 passes
  `false`): `Accounted()` says what sets the flag.
- The destructor sets the receiver's error flag without a lock, so bytes can be read with the flag set
  (`ReadAfterShut`): one read more, or one packet more, and no further (`NothingMore`), in exactly the
  states that `ReadAfterShutIff` and `ReceivedAfterShutIff` name.
- With 2^32 packets queued the posted and sent counters agree and the sender sleeps (`FullBacklogSleeps`).
- A handle may outlive the demuxer, but `isSubscribed` on it then calls the destroyed demuxer; a destroyed
  demuxer can be called exactly if some handle still holds a subscriber when it ends (`DanglingIff`). Its
  destructor looks at the reference count first, so that calls a destroyed demuxer exactly if the two
  destructors overlap (`DestructorDanglesIff`, `Overlap`).
- An empty control packet that is received first ends the receive thread (`EmptyControlKills`), and nothing
  else does as long as payloads fit and write failures are sticky (`NeverAborts`, `NeverDiesIff`).
- The handshake is free of deadlock exactly when no ready message from before is under way
  (`DeadlockFreeIff`), and one handshake may leave some behind for the next (`LeavesStale`).

## Model

| member | source | states |
|---|---|---|
| Packets.ComPacket.MoveFrom | src/ComPacket.h:45-49 | moving out of a packet leaves it invalid and empty |
| Packets.ComPacket.MoveAssign | src/ComPacket.h:51-55 | a move assignment exchanges the two packets |
| Packets.Swap | src/PacketDemuxer.cpp:181 | std::swap through one move construction and two swap-based assignments exchanges the packets, losing nothing |
| Codec.FrameLayout | src/PacketMuxer.cpp:128-140 | byte by byte, a frame is the type and the payload size modulo 2^32, each four bytes with the most significant first, and then the payload |
| Codec.ParsedLayout | src/PacketDemuxer.cpp:152-181 | what is read off a stream has that layout; a frame is complete exactly if its size is below 2^31 and all of it is there, and an oversize exactly from 2^31 on |
| Codec.ControlFrames | src/PacketMuxer.cpp:62-79 | the bytes of a Hello and of a heart beat on the wire |
| Codec.FrameRoundTrip | src/PacketMuxer.cpp:128-140 | a frame followed by anything parses back to its packet if and only if the payload is shorter than 2^31 bytes; between 2^31 and 2^32 it is an oversize the receiver cannot allocate |
| Codec.ParsedIsEncoded | src/PacketDemuxer.cpp:152-181 | whatever parses as a frame is the encoding of the packet it parses to |
| Codec.DecodePrefix | src/PacketDemuxer.cpp:147-185 | decoding any prefix of an encoded packet list yields exactly the packets whose frames lie wholly inside it |
| Codec.EncodingInjective | src/PacketMuxer.cpp:116-143 | two lists of receivable packets with the same encoding are equal |
| Codec.FramesArePrefix | src/PacketDemuxer.cpp:147-185 | whole frames read off a stream that starts as the encoding of a list are a prefix of that list |
| Codec.WrappedSizeForges | src/PacketMuxer.cpp:134-140 | a payload of 2^32 bytes has size field 0, so its bytes are taken for further frames: any packet can appear that was never posted |
| IdTables.IdManager.constructor | src/IdManager.h:18-31 | the tables hold the reserved names and the list in order, each name's id its position cut down to 32 bits |
| IdTables.IdManager.Reserved | src/IdManager.h:12-31 | the reserved names have ids 0 and 1 and the i-th name of the list i+2, cut down to 32 bits |
| IdTables.IdManager.InverseIff | src/IdManager.h:35-36 | toId and toString are mutual inverses onto 0..n+1 if and only if the ids fit in 32 bits; toId knows exactly the listed names |
| MuxProtocol.PrefixIffClean | src/PacketMuxer.cpp:131-142 | for a pattern of accepted bytes, the damaged frame is a prefix of the real one for every packet of that size if and only if nothing was accepted after a field was cut short |
| MuxSafety.StepKeeps | src/PacketMuxer.cpp:59-169 | every step of every thread keeps counters, queue order, thread state and wire consistent |
| MuxSafety.CounterConservation | src/PacketMuxer.cpp:68 | in every run posted minus sent is the number of queued packets modulo 2^32, so below 2^32 packets the counters agree exactly when every queue is empty |
| MuxSafety.WaitsIff | src/PacketMuxer.cpp:67-72 | in every run the send loop waits at its head exactly if the number of queued packets is a multiple of 2^32, and otherwise goes on |
| MuxSafety.NoLostWakeup | src/PacketMuxer.cpp:65-82 | a sender blocked in the wait with no notification pending has no error to see and, below 2^32 packets, nothing to send |
| MuxSafety.FullBacklogSleeps | src/PacketMuxer.cpp:68-72 | a run in which the sender sleeps with 2^32 packets queued, so that bound is sharp |
| MuxSafety.ErrorLatch | src/PacketMuxer.cpp:108-142 | in every run, once the error flag is set it stays set and no packet is popped and no byte written any more |
| MuxSafety.PassDrains | src/PacketMuxer.cpp:88-90 | whatever the iteration order, a pass ends with the error flag set or with every queue empty |
| MuxSafety.PopOrder | src/PacketMuxer.cpp:107-114 | in every run the packets sent are, type by type, a prefix of those posted and the rest is what is queued |
| MuxSafety.WireShape | src/PacketMuxer.cpp:107-164 | in every run the wire is whole frames in sending order, then at most one frame made of a prefix of the type, of the size and of the payload |
| MuxSafety.StickyWire | src/PacketMuxer.cpp:125-164 | with a transport that stays failed, the wire is at all times a prefix of the frames of the packets being sent |
| MuxSafety.StickyIff | src/PacketMuxer.cpp:131-142 | the transport has been sticky in a run if and only if no frame got bytes after a field that was cut short |
| MuxSafety.StartedValid | src/PacketMuxer.cpp:125-126 | no packet of the invalid type is ever sent, though any may be posted: the send thread dies of its assertion first |
| HelloFirst.FirstSentIff | src/PacketMuxer.cpp:62-90 | for any set of control packets: whatever is posted later and in whatever order the queues are visited, the first packet sent is one of them if and only if, when the send loop first takes the lock, all queues of valid types have one in front and the counters differ (or the flag is set) |
| HelloFirst.HelloFirstIff | src/PacketMuxer.cpp:62-90 | in particular it is always Hello if and only if Hello is then in front of the control queue, the queues of other valid types are empty and the counters differ (or the flag is set) |
| HelloFirst.HelloVisitedFirst | src/PacketMuxer.cpp:84-90 | if nothing has been sent when the iteration reaches the control queue, Hello is first from there on if and only if no other control packet was posted before it (or the flag is set) |
| MuxRuns.ServesFront | src/PacketMuxer.cpp:107-143 | any valid packet at the front of the queue being served can be sent whole in some continuation |
| QueueEmpty.QueueEmptiedIff | src/PacketMuxer.cpp:96-114 | whatever the transport does, sendAll leaves the queue empty whenever it returns if and only if the queue was empty before, or the flag was clear and it held one packet (or packets of the invalid type, with which it does not return) |
| QueueEmpty.QueueLeft | src/PacketMuxer.cpp:96-114 | a run in which sendAll returns with a packet left in the queue |
| MuxRuns.DamageForges | src/PacketMuxer.cpp:131-140 | a run in which only the type field fails and the wire ends with the whole frame of a packet nobody posted |
| Muxer.PacketMuxer.EmplacePacket | src/PacketMuxer.h:95-100 | an unknown name changes nothing; otherwise, reserved names included, the packet joins the end of its type's queue, the counter wraps at 2^32 and a waiting sender is notified |
| Muxer.PacketMuxer.Close | src/PacketMuxer.cpp:30-35 | sets the error flag and notifies a waiting sender, nothing else |
| Muxer.PacketMuxer.WriteBytes | src/PacketMuxer.cpp:152-164 | terminates; the bytes taken are a prefix of the buffer, size is what remained, it succeeds exactly when nothing did, and it fails exactly by one failed write: a write of no bytes is tried again |
| Muxer.PacketMuxer.SendPacket | src/PacketMuxer.cpp:125-143 | the wire grows by a prefix of each of the three fields, and the flag becomes true exactly when one was cut short, which is exactly when a write failed |
| Muxer.PacketMuxer.SendAll | src/PacketMuxer.cpp:107-114 | sends a prefix of the queue in order and removes just that; all of it unless the transport fails; nothing after an earlier failure; dies of the assertion only on the queue of the invalid type |
| Muxer.PacketMuxer.SendPass | src/PacketMuxer.cpp:84-90 | visits every queue once in any order; without an error sends exactly what was queued, queue by queue, and empties them; with one, a prefix of that; dies only if a packet of the invalid type is queued |
| Muxer.PacketMuxer.AwaitWork | src/PacketMuxer.cpp:68-82 | waits once if the counters agree and not otherwise; after what other threads posted meanwhile it posts a heart beat if and only if that wait timed out, and goes on to a pass over the queues as they are then |
| Muxer.PacketMuxer.SendLoop | src/PacketMuxer.cpp:59-94 | posts Hello first and ends only when a write has failed or another thread has closed the muxer, or by the assertion with an invalid packet still queued; everything posted was sent in order or is still queued; the wire holds the frames of what was sent |
| DemuxProtocol.WithoutIff | src/PacketDemuxer.cpp:74-79 | removal takes out exactly the given subscriber and keeps the order of all others: it is the only sequence of the others in the order of subscription |
| DemuxSafety.StepKeeps | src/PacketDemuxer.cpp:54-217 | every step of every thread keeps framing, gate, flow, registry and each subscriber's history consistent |
| DemuxSafety.FrameAlignment | src/PacketDemuxer.cpp:147-217 | between two packets without an error, the bytes read are exactly the frames of the packets received |
| DemuxSafety.NothingMore | src/PacketDemuxer.cpp:198-217 | in every run, after the error flag is set at most one more read takes bytes, one the thread had already decided on, and nothing is received except a packet whose last check had passed; so a frame given up is never resumed |
| DemuxSafety.ReadAfterShutIff | src/PacketDemuxer.cpp:199-200 | once the flag is set, bytes are still read in some continuation if and only if the look at the flag has been taken and the read it allows has not |
| DemuxSafety.ReadAfterShut | src/PacketDemuxer.cpp:28-29 | such a state is reached when the destructor sets the flag between the look and the read |
| DemuxSafety.ReceivedAfterShutIff | src/PacketDemuxer.cpp:211-217 | once the flag is set, a packet is still received in some continuation if and only if all bytes of its frame were there at the last look and it has a valid type and size |
| DemuxSafety.JoinReturns | src/PacketDemuxer.cpp:34-38 | with the flag set every step of the receive thread brings its end nearer, whatever others do, and it always has one, so the join returns |
| DemuxSafety.CallbacksInSequence | src/PacketDemuxer.cpp:128-136 | in every run a subscriber's callbacks are a gapless stretch of the packets received under its type, and between two packets, while it is subscribed, all of them from its registration on |
| DemuxSafety.Quiescence | src/PacketDemuxer.cpp:66-80 | in every run, after unsubscribe the subscriber's callback never runs again |
| DemuxSafety.RejectedIff | src/PacketDemuxer.cpp:235-253 | in every run that received a first packet other than Hello and did not die, the gate was closed if and only if the first poll found something to read in time |
| DemuxSafety.RejectedSilence | src/PacketDemuxer.cpp:248-251 | once the gate was closed, the error flag stays set and no callback ever runs, before or after |
| DemuxRuns.Receives | src/PacketDemuxer.cpp:147-185 | from any state in which the receive thread polls, the frame of any valid packet below 2^31 bytes can be received as that packet |
| DemuxRuns.HelloSkipped | src/PacketDemuxer.cpp:235-236 | a run in which the greeting times out and then any given packet that is not Hello reaches its subscriber |
| Demuxer.RemoveIf | src/PacketDemuxer.cpp:74-76 | compacts the other subscribers to the front in their order |
| Demuxer.EraseIff | src/PacketDemuxer.cpp:74-79 | erasing the one element remove_if points at removes the subscriber and no one else if and only if it was there exactly once |
| Demuxer.PacketDemuxer.ReadBytes | src/PacketDemuxer.cpp:198-217 | terminates, other threads acting also between its look at the flag and the read; data are the next bytes of the stream; success means all the bytes wanted, failure that the flag is set, by another thread or by a failed read (or, only if asked for, by a read of no bytes) |
| Demuxer.PacketDemuxer.ReceivePacket | src/PacketDemuxer.cpp:147-185 | polls once and reads nothing if that times out; otherwise takes exactly one frame and returns its packet, or leaves the packet unchanged with the flag set (by another thread or a failed read, never by a read of no bytes), or the process dies of an oversize or an invalid type; the handles own what they owned |
| Demuxer.PacketDemuxer.ReceiveHelloMessage | src/PacketDemuxer.cpp:235-253 | the gate closes exactly for a received first packet that is not a control packet starting with Hello; the flag is set exactly by that, by another thread or by a failed read |
| Demuxer.PacketDemuxer.Dispatch | src/PacketDemuxer.cpp:130-135 | one callback for each subscriber of that type registered at the lock, in the order of subscription, and none else |
| Demuxer.PacketDemuxer.ReceiveLoop | src/PacketDemuxer.cpp:111-141 | over its whole life: it ends only by another thread, a failed read or a rejected greeting; bytes read are the frames received plus a partial one, each subscriber's callbacks are a gapless stretch, none follow a rejected greeting, and the handles own what they owned |
| Demuxer.PacketDemuxer.Register | src/PacketDemuxer.cpp:57-59 | a new subscriber, known nowhere before, joins the end of its type's queue |
| Demuxer.PacketDemuxer.Remove | src/PacketDemuxer.cpp:70-79 | takes exactly that subscriber out; the assertion that it was found cannot fail |
| Demuxer.PacketDemuxer.Subscribe | src/PacketDemuxer.cpp:54-64 | an unknown name changes nothing; otherwise a handle to a new queued subscriber, owned by the queue and the handle, with all other ownership kept |
| Demuxer.PacketDemuxer.Unsubscribe | src/PacketDemuxer.cpp:66-80 | the unchecked name lookup is in bounds, the subscriber leaves its queue and one reference is released |
| Demuxer.PacketDemuxer.IsSubscribed | src/PacketDemuxer.cpp:85-101 | true exactly for live subscribers |
| Demuxer.PacketDemuxer.WarnAboutSubscribers | src/PacketDemuxer.cpp:264-272 | names exactly the types with subscribers; the lookups are in bounds although dispatch adds entries for unknown types |
| Demuxer.PacketDemuxer.HandlesKept | src/PacketSubscription.cpp:21-25 | whatever leaves the registration of the clients' subscribers alone, as every action of the receive and other threads does, leaves the reference counts of their handles right |
| Demuxer.PacketDemuxer.Shutdown | src/PacketDemuxer.cpp:28-32 | sets the flag, changes nothing else, and warns of exactly the types with live subscribers |
| Demuxer.PacketDemuxer.Destroy | src/PacketDemuxer.cpp:34-39 | once the receive thread has ended, the queues release one reference to each subscriber in them and no other, and ownership by the remaining handles is kept |
| Demuxer.PacketSubscription.MoveFrom | src/PacketSubscription.cpp:8-10 | the new handle takes the subscriber over, the old one is null, ownership is kept |
| Demuxer.PacketSubscription.MoveAssign | src/PacketSubscription.cpp:12-15 | the two handles, of whatever demuxers, exchange subscribers |
| Demuxer.PacketSubscription.SwapKeepsOwned | src/PacketSubscription.cpp:12-15 | after that exchange every demuxer's subscribers are still owned rightly, by the handles that have them now |
| Demuxer.PacketSubscription.Destroy | src/PacketSubscription.cpp:21-25 | the demuxer is called if and only if it lives and still has the subscriber queued, which is what use_count tells; no reference to the subscriber is left, all others and their ownership are kept |
| Ownership.StepKeeps | src/PacketSubscription.cpp:4-25 | subscribing, moving, swapping and destroying handles, the receive thread and the destructor all keep single ownership, right counts and a handle for every queued subscriber |
| Ownership.OwnersCounted | src/PacketDemuxer.cpp:78 | in every run no two handles hold a subscriber, every count is the number of its owners, every queued subscriber has a handle, and the assertion in unsubscribe never fires |
| Ownership.DepartUnsubscribes | src/PacketSubscription.cpp:21-25 | in every run the call that a handle's destructor makes takes its subscriber, and no other, out of its queue and leaves nothing owning it |
| Ownership.HandlesSwapped | src/PacketSubscription.cpp:8-15 | a run in which two handles are swapped, one is moved on and all but the other are destroyed: the other's subscriber stays queued |
| Ownership.UseCountTells | src/PacketSubscription.cpp:21-25 | in every run a handle that holds a subscriber sees a count above one exactly if the demuxer lives and has it queued |
| Ownership.DanglingIff | src/PacketSubscription.cpp:22-35 | a destroyed demuxer can be called if and only if some handle still holds a subscriber when the demuxer's destructor ends: isSubscribed on that handle does it |
| Ownership.DestructorDanglesIff | src/PacketSubscription.cpp:21-25 | by the destructor of a handle, if and only if some handle's destructor has then looked at the count but not yet called |
| Ownership.Overlap | src/PacketDemuxer.cpp:28-39 | a run in which the two destructors overlap like that |
| Ownership.DemuxSide | src/PacketDemuxer.cpp:54-80 | the demuxer's part in any such run is one of its own runs, so all that is proved of those holds with these handles |
| Pipeline.Sides | src/PacketDemuxer.cpp:200 | each side of a run is a run of that side, and the receiver has read a prefix of the wire |
| Pipeline.EndToEnd | src/PacketMuxer.h:94-100 | in every interleaving and fragmentation, a subscriber's callbacks are a gapless stretch of the packets posted under its type, from its registration on; a prefix if it was registered before the first |
| Pipeline.EndToEndObjects | src/PacketDemuxer.cpp:128-136 | the same for a muxer object and a demuxer object that reads its wire |
| Pipeline.AllDelivered | src/PacketMuxer.cpp:107-114 | once the sender sleeps and the receiver has read everything, every live subscriber has had every packet posted under its type since it registered |
| Pipeline.HelloOpensGate | src/PacketDemuxer.cpp:235-253 | if the first packet sendPacket is called on is a Hello, the receiver's gate never closes, whatever the fragmentation |
| Gate.GateIff | src/PacketDemuxer.cpp:224-227 | as long as the payloads posted so far fit in an int and the first control packet has a message byte: in every run of both ends from there on (write failures sticky) the gate stays open if and only if only Hellos are in front of the queues of valid types when the send loop first takes the lock and the counters differ (or the flag is set) |
| Gate.GateOnVisit | src/PacketMuxer.cpp:84-90 | the gate stays open if the iteration reaches the control queue before anything was sent and the first control packet posted is a Hello |
| Gate.HelloComesSecond | src/PacketMuxer.cpp:62-65 | a run in which a packet posted before the send loop takes the lock goes first and the gate closes |
| Gate.ForgedReceived | src/PacketMuxer.cpp:131-142 | a run in which a packet that nobody posted reaches a subscriber after a proper greeting |
| Survival.NeverAborts | src/PacketDemuxer.cpp:174-182 | the receive thread never dies of an exception or assertion if every payload sent is shorter than 2^31 bytes and the first packet sent is not an empty control packet |
| Survival.NeverDiesIff | src/PacketDemuxer.cpp:258-262 | as long as payloads are shorter than 2^31 bytes it never dies, whatever is posted after the send loop first takes the lock, if and only if the first control packet posted before that has a message byte (or the flag is set) |
| Survival.EmptyControlKills | src/PacketDemuxer.cpp:258-262 | a run in which an empty control packet posted before Hello ends the receive thread |
| Sync.AckNotLost | src/Sync.cpp:34-52 | in every run the single acknowledgement is in flight only while the server's subscription is live, and is never dropped |
| Sync.Causality | src/Sync.cpp:18-28 | if the server has left its loop, the client has seen a ready message of the server's and has answered |
| Sync.Finish | src/Sync.cpp:13-52 | from every state the invariant allows there is a continuation in which both sides return |
| Sync.DeadlockFreeIff | src/Sync.cpp:13-52 | from every reachable state both sides can still return if and only if no ready message from before was under way in either direction |
| Sync.LeavesStale | src/Sync.cpp:25-28 | a finished handshake can leave any number of ready messages under way |
| SyncOverComms.Refinement | src/Sync.cpp:13-52 | every run of the two functions over two muxers and two demuxers, with all their threads, fragmentation and (sticky) failures, is a run of the handshake over two counters |
| SyncOverComms.AckNotLost | src/Sync.cpp:34-52 | so over the real channels the acknowledgement is never dropped: while it is between the client's muxer and the server's callback, the server is subscribed |
| SyncOverComms.Causality | src/Sync.cpp:18-28 | and a server past its loop has been answered by a client that had received one of its ready messages |
| SyncRun.BothReturn | src/Sync.cpp:13-52 | a run over two muxers and two demuxers in which both functions return |

## Left out

- src/network: system calls, polling, addresses; only the contract of read, write and readyForReading is modelled.
- Serialisation: payloads are opaque bytes; src/Serialisation.h, src/PacketSerialisation.h and src/VectorStream.h would add only easy members, and so would src/SimpleQueue.h.
- The memory model: plain flags and counters are read and written atomically, in one order.
- Real time: every time-out, heart-beat interval and sleep is a free choice.
- Logging, `setBlocking`, exceptions from joining the threads and allocation failure other than of an oversized payload.
- What a client does with the reference getDemuxer returns, and isSubscribed on a handle that was moved from, which dereferences null.
- Callbacks that subscribe or unsubscribe (they would deadlock on the subscriber lock), and what callbacks do with a packet.
- Shared ownership of packets: a queued or dispatched packet is a value, as nobody changes it.
- Sync.Causality: the two functions of src/Sync.cpp are modelled as steps and not also as methods with loops, because their loops end only with the other side's help, which a terminating method cannot express.
- SyncOverComms.Refinement: carries the safety of the handshake over to the real channels; that both sides can still return is stated over the counters, as over the channels it needs threads and transports that have not failed.
- Demuxer.PacketDemuxer.OtherThreads: at the level of the objects other threads subscribe and unsubscribe only with subscribers of their own, whose counts are not kept; Ownership has the handles and counts of all threads.
- Demuxer.PacketDemuxer.ReceiveLoop: stops when the transport has been idle as often as its patience allows and then fails, so a receive loop that idles for ever is covered only up to any finite point.
- Muxer.PacketMuxer.SendLoop: likewise, the destructor runs after some finite number of waits.
