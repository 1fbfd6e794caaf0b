# Proofs about the IOCP network core

This project models the parts of the library where threads meet and where bytes become packets, and proves
what they keep. It covers session slots and their recycling, the send gate and its ticket queue, the tagged
lock-free stack over its node pool, the thread-local bucket allocator, send-buffer reference counts, the
packet pipeline from `operator<<` to `operator>>`, and the group queues with the release of a session that is
in a group.

The byte-level parts are classes over arrays (`CRingBuffer`, `CSendBuffer`, `CRecvBuffer`, `Nodes`) whose
methods are proved against sequences. The concurrent parts are state machines: shared fields, one program
counter per thread, and one step per Interlocked or atomic operation, per plain shared read and per
completion. `Run` takes any schedule, so a lemma about `Run` is about every interleaving. Fields called
history record what happened and are never read by a step.

Each machine has theorems of two kinds. Those over all interleavings say what every run keeps, and what a call
answers whatever the others do meanwhile. Those about an operation that is left alone, in any good state and with the
others standing still wherever they are, say that it comes to its end and with exactly which result.

| file | subject |
|---|---|
| `Arithmetic.dfy`, `Bytes.dfy`, `Cipher.dfy` | division; bytes, exclusive or, little endian; wire format and cipher |
| `RingBuffer.dfy`, `SendBuffer.dfy`, `Fields.dfy` | ring buffer, serialisation, fields |
| `Framing.dfy` | receive loop of a base-group session |
| `RecvHandoff.dfy`, `HandoffRounds.dfy` | hand-off of received bytes to a group; rounds that nobody disturbs |
| `HandoffRuns.dfy` | runs on which the hand-off fails |
| `EncodeOnce.dfy` | encoding of a shared buffer |
| `SlotLifetime.dfy`, `SlotCalls.dfy` | `_refCount`, RELEASE_FLAG, FindSession, accept, recycling; what each call answers |
| `SendGate.dfy`, `SendCalls.dfy` | `_isSending`; what CanSend answers, sends and completions left alone |
| `StalePost.dfy` | a posted send that outlives its session |
| `TicketQueue.dfy`, `BurnedTicket.dfy` | `LockFreeFixedQueue`; what a rejected Enqueue leaves |
| `TaggedStack.dfy`, `StackCalls.dfy` | `LockFreeStack` over `MultiThreadObjectPool`; its calls and their effects |
| `TagWrap.dfy` | 2^17 pushes between a read and its exchange |
| `BucketPool.dfy`, `PoolCalls.dfy` | `TlsPool` over `SingleThreadObjectPool`; where a node comes from and goes to |
| `BufferRefs.dfy`, `BufferCalls.dfy` | reference counts of send buffers; what each operation does to them |
| `BufferOverrun.dfy` | a queue that is overrun |
| `GroupRunner.dfy` | a group's runner |
| `GroupLeave.dfy`, `GroupCalls.dfy` | leaving a group and releasing a session; moves, releases and runners left alone |
| `ConcurrentMoves.dfy` | moves by several threads |
| `UnsafeMoves.dfy` | moves that break it |
| `Agents.dfy`, `Wrappers.dfy` | counting threads; optional values |

## What is assumed, and what turned out to be false

The theorems name their hypotheses as predicates.

- `SlotLifetime.FewAlong`: fewer than 2^20 references to a slot at a time. Above that the count runs into
  RELEASE_FLAG.
- `TaggedStack.RecentAlong`: fewer than 2^17 pushes on a list between a thread's read of its top word and its
  exchange. The bound is sharp: `TagWrap.TagWrapBreaks` is a run of two threads in which exactly 2^17 pushes succeed
  meanwhile, the exchange succeeds, and a value that was pushed once has been popped twice. `CurrentIsExact` is
  the exact condition: lists, ownership and linearizability hold all along a run if and only if every exchange
  of a pop that succeeds finds the link, and the value, that it read before.
- `TicketQueue.TameAlong`, `crowded` in `BufferRefs`: the queue never has more tickets out than its 512 slots.
  `SendGate` has the list of tickets in place of the queue and so rests on the same hypothesis: with 513 tickets
  out, "none twice and none skipped" is false. `BufferOverrun.OverrunLosesCount` is a run that gets there without a
  rejection or a `__debugbreak`: two producers are past the test of one slot, both write it, and one buffer is
  being sent and in the queue a second time while the other keeps a count that nobody holds. `NothingBreaks` proves that two
  producers past one test (`clashed`) need more tickets out than slots, and that nothing goes wrong before;
  `ClashIsFatal` that as soon as it happens a `__debugbreak` can be reached.
- `Enqueue` takes its ticket before it looks at the slot, so a rejected call burns an index for ever:
  `DrainedIffNoRejection` says that an emptied queue reports size 0 if and only if nothing was ever rejected.
  When the consumer comes to a burned ticket, `BurnedTicketBlocks` proves that nothing comes out any more, although
  `Size()` is positive, until a ticket a whole buffer later is taken; RealSend spins meanwhile
  (src/Session.cpp:453-466). `LateTicketOvertakes` proves that this ticket's item then comes out before those in
  between, and `RejectionReorders` is a run that gets there.
- `GroupLeave.SafeAlong`: when a move writes the session's group, the destination has no unhandled Leave of
  the session, no runner is between the reads of `CheckPostRelease` for it, and none but the destination's own is
  before the assertion in `GetRefCount`. Without this the promise of one PostRelease per lifetime is false: the
  code queues the Leave before it writes the new group, and `CheckPostRelease` reads group, id, count and id
  again one after the other. `ReentryIsUnsafe`, `RaceIsUnsafe` and `LateAssertionIsUnsafe` are runs that get
  there. `UnsafeMoveFails` goes on to two PostReleases of one session, or to an assertion that meets the next
  session, from every unsafe move, and so `SafeMoveIsExact` proves that the condition is exact.
- `ConcurrentMoves.ApartAlong`: when a thread in `MoveSession` is about to read the session's group, no other is
  between its own read and EnterSession, moves from the base group to itself aside. `GroupLeave` has a single
  mover, and `RunSim` proves that with any number of movers every run on which moves do not overlap is one of
  its runs. That every Leave finds its session needs this condition and no other. The code does not establish it
  (the group lock is taken shared, after the read): `UnsafeMoves.DoubleMoveLosesSession` is a run of two movers to the
  `__debugbreak` of HandleJob, and `ApartIsExact` proves that the condition is exact.
- `RecvHandoff`: hand-off works in a lifetime that starts with `_isHandled` clear, and `ClearStartIsExact` proves
  that it works only then. `Reset` does not clear the flag (src/Session.cpp:391-426), and the runner drops the
  Recv job of a session that is released already without clearing it (src/Group.cpp:178-183).
  `DroppedJobSetsFlag` proves that this is the only way to a set flag, and `SecondSessionStrands` is a run in
  which the second session of a slot strands its first packet.
- `RecvHandoff.WholeAlong`: `RecvNotIncrease` reads the front three times while the group's runner may consume
  (src/Session.cpp:161-167). A pair of readings is torn if the second finds room that the first did not and the first
  region does not end at the end of the array. `TornIsExact` proves that received bytes follow those in the ring
  on every run without torn readings, and that after one a completion can misplace them. `ConsumedBetweenReadings` is
  a run that gets there and writes over bytes that were received and not yet handed over.
- A group session that is closed for a bad checksum keeps the deciphered packet in its ring (src/Group.cpp:374-385), and
  a Recv job that is still queued makes the runner look at it again. So `RecvHandoff.ClosesExactly` gives the deliveries
  at the step that closes, and afterwards `ClosedAsTheStream` proves that they are the first of those made.
- Room for the next receive, which the code asserts (src/Session.cpp:181). A session in the base group always has
  it if and only if its packet limit is at most 8186 (`Framing.RoomIsExact`). A session in a group fails the
  assertion exactly when the runner is a whole ring of 8191 bytes behind (`RecvHandoff.NoRoomIsExact`), and
  `RunnerBehindLeavesNoRoom` is a run that gets there.
- `SetWstr` checks characters where it writes bytes: the write is right if and only if two bytes per character
  fit, and runs past the buffer if and only if the characters fit but the bytes do not.
- `GroupRunner.ForgettingIsExact`: a queued job can be left with no thread about to look at it, namely when it
  was queued without asking for an update or when its producer saw `_isRun` set by a runner that had left its
  loop. `JobForgotten` is a run of two threads in which this happens to a job queued with `update` set, and
  `ForgottenUntilUpdate` says what ends it. `UpdateHandlesAll` proves, for every schedule, that an Update that
  runs its loop to the end has handled every job that was queued before.
- `HandleJob` is meant to come back after 1000 jobs so that the clock is looked at. A Recv job whose session is gone is
  counted but skips the test of the count (src/Group.cpp:178-183, 204-209), and the test is for exactly 1000.
  `LongPassIsExact` proves that a pass goes on after 1000 jobs if and only if its 1000th was such a job; then it ends
  only with an empty queue. `LimitIsPassed` has a run of that kind for every longer queue.
- `SendPacket` posts its SendExecutable without a reference of its own (src/NormalIOCP.cpp:322-331). `SendGate`
  treats one lifetime and lets a posted send run within it. `StalePost.StalePostBreaks` is a run on which the slot
  changes hands first: RealSend then finds the next session's queue empty, which is a `__debugbreak`.
- Content handlers read their payload to the end, as the receive loop asserts.

## Model

| member | source | states |
|---|---|---|
| `Cipher.CipherRoundTrip` | src/CSendBuffer.cpp:69-91 | for all keys, texts, positions and carried bytes, deciphering what was enciphered gives the text back |
| `Bytes.XorFlips` | src/CSendBuffer.cpp:84-85 | exclusive or, bit by bit: a bit of the result differs from that of the first operand if and only if it is set in the second |
| `Cipher.WireAt` | src/CSendBuffer.cpp:69-91 | the whole wire image, place by place: code, length and random key in clear, then each cell as the mixed byte combined with the cell before it, the key and the place |
| `Cipher.EncodedAt` | src/CSendBuffer.cpp:80-90 | the same recurrence for any text, keys and carried bytes |
| `Cipher.AnyRandomKey` | src/CRingBuffer.cpp:28-57 | the receiver deciphers with the random key of the header it received, whatever it is |
| `Cipher.SumIsTotal` | src/CSendBuffer.cpp:13-33 | the checksum byte is the sum of all payload bytes modulo 256 |
| `Cipher.PacketHeader` | include/Protocol.h:14-20 | a receiver reads code, length and random key of an encoded packet as the sender meant them |
| `Cipher.PacketRoundTrip` | src/CRingBuffer.cpp:20-59 | decoding an encoded packet restores header, checksum and payload exactly, for all keys and payloads |
| `RingBuffer.IndexAdvance` | include/CRingBuffer.h:91-122 | a counter that wraps at 2^32 still names the right cell |
| `RingBuffer.CRingBuffer.Size` | src/CRingBuffer.cpp:7-18 | the size is the distance from the front cell round to the rear cell and below 8192 |
| `RingBuffer.CRingBuffer.DirectEnqueueSize` | src/CRingBuffer.cpp:85-126 | the contiguous free space: within the array, no more than what is free, and less only if it ends at the end of the array |
| `RingBuffer.CRingBuffer.DirectDequeueSize` | src/CRingBuffer.cpp:166-176 | the same for live bytes |
| `RingBuffer.CRingBuffer.Peek` | src/CRingBuffer.cpp:202-226 | returns the first live bytes in order, across the end of the array, or refuses when there are fewer |
| `RingBuffer.CRingBuffer.Dequeue` | src/CRingBuffer.cpp:178-200 | drops exactly the requested bytes from the front, or all if fewer are there, which is a `__debugbreak` unless the ring is empty |
| `RingBuffer.CRingBuffer.MoveRear` | include/CRingBuffer.h:100-103 | appends exactly the bytes in the cells after the live data |
| `RingBuffer.CRingBuffer.Clear` | include/CRingBuffer.h:81-85 | empties the ring |
| `RingBuffer.RegionsAreRight` | src/Session.cpp:161-167 | with three readings of a moving front, the regions are right if and only if the first ends at the end of the array or nothing was consumed between the first two readings |
| `RingBuffer.WrongRegionIsLive` | src/Session.cpp:164-167 | when they are wrong and the rear is before the front, the second region overlaps live bytes |
| `RingBuffer.NoRegionIffFull` | src/Session.cpp:161-181 | both regions are empty if and only if the ring is full at the first two readings |
| `RingBuffer.CRingBuffer.CompleteRecv` | src/RecvExecutable.cpp:14-14 | bytes spread over offered regions and published by MoveRear are appended in order, also if bytes were dequeued since the regions were taken |
| `RingBuffer.CRingBuffer.Decode` | src/CRingBuffer.cpp:20-59 | deciphers the packet at the front in place at every ring position; every other cell of the array keeps its byte |
| `RingBuffer.CRingBuffer.ChecksumValid` | src/CRingBuffer.cpp:61-82 | true if and only if the payload bytes of the front packet add up to its checksum |
| `SendBuffer.CSendBuffer.Clear` | include/CSendBuffer.h:106-112 | an empty, unencoded buffer |
| `SendBuffer.CSendBuffer.PutBytes` | include/CSendBuffer.h:212-222 | appends exactly the bytes, or refuses and changes nothing, exactly when they do not fit |
| `SendBuffer.CSendBuffer.SetWstr` | src/CSendBuffer.cpp:120-125 | appends the characters, refuses, or runs past the end, each under its exact condition |
| `SendBuffer.CSendBuffer.PutString` | src/CSendBuffer.cpp:112-118 | length and characters, or what is left behind when they do not fit |
| `SendBuffer.CSendBuffer.WriteNetHeader` | src/CSendBuffer.cpp:13-33 | code, length, random key and the checksum of the content before the unchanged content |
| `SendBuffer.CSendBuffer.WriteLanHeader` | src/CSendBuffer.cpp:7-11 | the wire image is the length and the unchanged content |
| `SendBuffer.CSendBuffer.Encode` | src/CSendBuffer.cpp:69-91 | enciphers checksum and payload in place and leaves the clear header |
| `SendBuffer.CSendBuffer.TryEncode` | src/CSendBuffer.cpp:35-49 | the wire image becomes the encoded packet; further calls change nothing |
| `EncodeOnce.EncodedExactlyOnce` | src/CSendBuffer.cpp:35-49 | with any number of threads, Encode is entered at most once, and a call that has returned leaves the complete encoded packet, which nobody rewrites |
| `EncodeOnce.CallAlone` | src/CSendBuffer.cpp:35-49 | a call begun while nobody has the lock ends with the encoded packet and the lock given back: after a single read if the buffer was encoded already |
| `EncodeOnce.CallEnds` | src/CSendBuffer.cpp:35-91 | the same from any place inside the call, with the number of steps |
| `EncodeOnce.StepInv` | src/CSendBuffer.cpp:35-91 | every step, down to single bytes, keeps lock, flag and half-encoded bytes consistent |
| `Fields.ParseInverts` | include/CRecvBuffer.h:94-105 | reading the same types off written fields returns the fields and stops right after them |
| `Fields.PutFields` | include/CSendBuffer.h:212-222 | any list of fields whose bytes fit in 2048 is serialised to its image |
| `Fields.CRecvBuffer.GetBytes` | include/CRecvBuffer.h:94-105 | pops exactly the requested bytes or nothing, and keeps the count of what is left |
| `Fields.CRecvBuffer.GetField` | src/CRecvBuffer.cpp:13-27 | one field as parsed from the bytes, at any wrap position, or the failure |
| `Fields.CRecvBuffer.GetFields` | src/CRecvBuffer.cpp:13-39 | a list of fields as parsed from the bytes; only the packet's bytes are consumed |
| `Fields.ReadBack` | src/CRecvBuffer.cpp:13-39 | written fields come back unchanged through the ring and the reader ends with nothing left to pop |
| `Framing.FramesSplit` | src/RecvExecutable.cpp:34-110 | for every byte stream and cipher, the loop on a later piece continues exactly where it stopped on the earlier one |
| `Framing.ChunkingIndependence` | src/RecvExecutable.cpp:10-32 | deliveries, rest and closing do not depend on how the stream is cut into completions |
| `Framing.FirstPacketIsJudged` | src/RecvExecutable.cpp:43-109 | exactly when the loop closes: a foreign code byte, a length over the limit, or payload bytes that do not add up to the deciphered checksum byte; what it waits for; every other packet is delivered |
| `Framing.FramesStream` | src/RecvExecutable.cpp:34-110 | a stream of encoded payloads is delivered payload by payload, in order |
| `Framing.Reassembly` | src/RecvExecutable.cpp:34-110 | any cutting of encoded packets and a beginning of one more delivers exactly the payloads, never closes, and keeps that beginning |
| `Framing.RoomIsExact` | src/Session.cpp:181-181 | a base-group session that stays open has room for the next receive, whatever it receives, if and only if its packet limit is at most 8186 |
| `Framing.HandlerTurn` | src/RecvExecutable.cpp:43-109 | one turn of the loop waits, closes or delivers as the stream semantics says |
| `Framing.RecvHandler` | src/RecvExecutable.cpp:34-116 | the loop on the ring computes the stream semantics, at every ring position |
| `Framing.Execute` | src/RecvExecutable.cpp:10-32 | a completion is appended and the loop run on all of it; with a packet limit of at most 8186 the next receive has room |
| `Framing.Connection` | src/RecvExecutable.cpp:10-116 | a whole connection delivers, keeps and closes as one pass over the uncut stream would |
| `RecvHandoff.NoLostHandoff` | src/RecvExecutable.cpp:14-31 | in every lifetime that began with `_isHandled` clear and every interleaving of I/O thread and runner, a whole packet in the ring of a session at rest has a Recv job queued; and there are never two |
| `RecvHandoff.TornIsExact` | src/Session.cpp:161-173 | along every run without torn readings received bytes follow those in the ring; after torn readings a completion can misplace them |
| `RecvHandoff.NoRoomIsExact` | src/Session.cpp:161-181 | the assertion on the size of the next receive fails if and only if the ring holds 8191 bytes at the second reading |
| `HandoffRuns.ConsumedBetweenReadings` | src/Session.cpp:161-167 | a run on which the runner consumes between two readings and the next completion writes over live bytes |
| `HandoffRuns.RunnerBehindLeavesNoRoom` | src/Session.cpp:181-181 | a run on which the first receive fills the ring and the next one finds no room |
| `RecvHandoff.HandoffDelivers` | src/Group.cpp:314-390 | at rest without a job, the group was given exactly the packets of the stream, in order, and the ring holds the rest |
| `RecvHandoff.ClosedAsTheStream` | src/Group.cpp:342-386 | on every run a closed session is one that the stream semantics closes on the bytes received so far, with every packet before the refused one delivered |
| `RecvHandoff.ClosesExactly` | src/Group.cpp:342-386 | the step that closes a session has delivered exactly the packets before the refused one |
| `RecvHandoff.GroupReassembly` | src/Group.cpp:314-396 | on every run on which the bytes received are encoded payloads and a proper beginning of one more, the session is never closed, is given nothing but these payloads in order, and at rest all of them |
| `HandoffRounds.RunnerAlone` | src/Group.cpp:314-396 | from any place in its loop a runner left alone ends it with exactly what the stream semantics makes of the ring |
| `HandoffRounds.HandsOver` | src/RecvExecutable.cpp:17-21 | after a completion a job is queued if and only if `_isHandled` was clear, and the flag is set |
| `HandoffRounds.ReceivesNext` | src/Session.cpp:145-181 | the next receive is offered all the free space from the rear on; a closed session gets none |
| `HandoffRounds.JobsAreTaken` | src/Group.cpp:172-193 | which jobs start the loop, which are dropped, and which Leave lets the slot go |
| `HandoffRounds.RoundDelivers` | src/RecvExecutable.cpp:10-32 | from rest, completion, hand-off, next receive and runner give the group what the stream semantics makes of ring and new bytes, and all is at rest again |
| `HandoffRounds.NextSession` | src/Session.cpp:391-426 | the next session of the slot starts with an empty ring and with `_isHandled` as the old one left it |
| `RecvHandoff.ClearStartIsExact` | src/Session.cpp:391-426 | whatever went before, hand-off works on all runs of a lifetime if and only if it starts with `_isHandled` clear |
| `RecvHandoff.DroppedJobSetsFlag` | src/Group.cpp:172-183 | a lifetime starts with the flag set if and only if an earlier session of the slot had its Recv job dropped after its release |
| `HandoffRuns.SecondSessionStrands` | src/Group.cpp:176-183 | a run in which that happens and the next session strands its first packet |
| `SlotLifetime.RefCountIsExact` | src/Session.cpp:81-118 | `_refCount` is RELEASE_FLAG, when set, plus the outstanding references |
| `SlotLifetime.SlotPinning` | src/NormalIOCP.cpp:1193-1211 | from a successful FindSession to its Release, flag, id, resets, releases and free stack leave the slot alone |
| `SlotLifetime.FindReturnsTheSession` | src/NormalIOCP.cpp:1203-1210 | FindSession returns a slot only while it belongs to the id asked for and is not flagged |
| `SlotCalls.LookupCounts` | src/NormalIOCP.cpp:1193-1211 | in every good state the count of FindSession goes up by one and the lookup is turned away there if and only if the flag is set |
| `SlotCalls.LookupChecks` | src/NormalIOCP.cpp:1205-1210 | a counted lookup is turned away if and only if the slot has another id |
| `SlotCalls.FindFindsTheSession` | src/NormalIOCP.cpp:1193-1211 | on every run a lookup that counted itself while the slot was unflagged and held the id gets the slot, whatever the others do before its second read |
| `SlotCalls.FindAlone` | src/NormalIOCP.cpp:1193-1211 | a lookup left alone returns the slot with one reference more if it is unflagged and holds the id; otherwise null, and nothing has changed |
| `SlotCalls.TouchAlone` | src/Session.cpp:438-448 | the same for the reference that RealSend and CheckTimeout take |
| `SlotCalls.ReleaseCounts` | src/Session.cpp:81-97 | Release goes on to the exchange if and only if it gave back the last reference of an unflagged slot |
| `SlotCalls.ReleaseExchanges` | src/Session.cpp:92-97 | the exchange succeeds if and only if nobody has a reference and nobody else has succeeded |
| `SlotCalls.ReleaseAlone` | src/ReleaseExecutable.cpp:6-19 | a Release left alone takes one reference; if it was the last the slot is flagged, reset once and on top of the free stack |
| `SlotCalls.AcceptTakesTheTop` | src/NormalIOCP.cpp:989-1020 | an accept left alone takes the index on top, gives it the next serial number, resets it once, clears the flag and has a reference |
| `SlotLifetime.OneReleasePerLifetime` | src/Session.cpp:92-115 | the exchange of 0 for the flag succeeds once per OffReleaseFlag, however late a thread tries it |
| `SlotLifetime.IndicesPartition` | src/ReleaseExecutable.cpp:6-19 | each of the 15000 indices is at any time free once, with one recycling thread, or in use |
| `SlotLifetime.IdsOnlyGrow` | src/NormalIOCP.cpp:999-1011 | a slot never gets an earlier serial number back |
| `SlotLifetime.OldWordIsStale` | include/SessionTypes.h:14-28 | nor, until 2^48 sessions have been accepted since, an earlier 64-bit session id |
| `SlotLifetime.StepInv` | src/Session.cpp:81-118 | every step of lookup, release, accept and recycling keeps the slot invariant |
| `SlotLifetime.ClearsFlag` | src/Session.cpp:293-296 | resetting bit 20 takes exactly the flag away |
| `SlotLifetime.InitInv` | src/NormalIOCP.cpp:36-39 | the indices pushed at start-up satisfy the invariant |
| `TicketQueue.RefinesFifo` | include/LockFreeFixedQueue.h:39-82 | within the buffer and without rejections, items come out once each in ticket order and no `__debugbreak` is reached |
| `TicketQueue.SizeAccounts` | include/LockFreeFixedQueue.h:31-37 | on every run Size() is live items plus producers in flight plus all rejections so far |
| `TicketQueue.DrainedIffNoRejection` | include/LockFreeFixedQueue.h:39-54 | an emptied queue reports 0 if and only if no Enqueue was ever rejected |
| `TicketQueue.SizeOfWords` | include/LockFreeFixedQueue.h:31-37 | the signed difference of the index words is the true one, of either sign, as long as it fits an `int` |
| `TicketQueue.BreaksExactly` | include/LockFreeFixedQueue.h:48-51 | on every run the `__debugbreak` of Enqueue is reached exactly by a producer that finds its slot marked after its test; that of Dequeue never |
| `TicketQueue.EnqueueAlone` | include/LockFreeFixedQueue.h:39-54 | an Enqueue left alone takes the next ticket, and either marks its slot with the item or, if the slot is in use, changes nothing else |
| `TicketQueue.DequeueAlone` | include/LockFreeFixedQueue.h:56-82 | a Dequeue left alone takes the item of the slot at the head, or changes nothing if that is not in use |
| `BurnedTicket.BurnedTicketBlocks` | src/Session.cpp:453-466 | whatever the threads do, at a burned ticket nothing comes out, with a positive size, until a ticket a whole buffer later is taken |
| `BurnedTicket.LateTicketOvertakes` | include/LockFreeFixedQueue.h:56-82 | that ticket's item then comes out before those of all tickets in between |
| `BurnedTicket.RejectionReorders` | include/LockFreeFixedQueue.h:39-82 | a run with one rejection and one producer after which items come out of ticket order |
| `TicketQueue.SlotsDiffer` | include/LockFreeFixedQueue.h:43-43 | tickets less than a buffer apart never share a slot, across the wrap of the index word |
| `SendGate.GateExclusive` | src/Session.cpp:39-74 | `_isSending` is set exactly while its token is in one place: a thread past CanSend, a posted send, RealSend, an outstanding send or its completion, or given up for good by a failed send or a flagged session |
| `SendCalls.ClosedIsRefused` | src/Session.cpp:39-54 | in every interleaving a CanSend that begins when the session is disconnected or flagged changes nothing, never has the token, and ends after one or two reads |
| `SendCalls.NoSendAfterClose` | src/Session.cpp:42-54 | after a disconnect, or once the release has begun, every CanSend that begins is refused, on every run |
| `SendCalls.YesIsRight` | src/Session.cpp:39-74 | in every interleaving: a CanSend that says yes began on a connected session, saw the flag clear later, found the token free and took it, and leaves with the queue not empty |
| `SendCalls.NoIsRight` | src/Session.cpp:39-74 | and one that says no had a reason at some moment of the call |
| `SendCalls.CanSendAlone` | src/Session.cpp:39-74 | left alone it says yes if and only if the session is connected, unflagged, has something queued and nobody has the token |
| `SendCalls.SendPacketAlone` | src/NormalIOCP.cpp:301-333 | SendPacket left alone queues its buffer, and posts a send if the session is open and nobody sends |
| `SendCalls.RealSendAlone` | src/Session.cpp:438-525 | RealSend left alone hands all buffers that are ready, 512 at most, to the socket in queue order; nothing of a flagged session or when the send fails |
| `SendCalls.CompletionAlone` | src/PostSendExecutable.cpp:7-30 | a completion left alone releases every buffer of the send, gives the token back, and takes it again if more is queued |
| `SendCalls.AbortKeepsToken` | src/NormalIOCP.cpp:879-942 | a send that completes with an error releases nothing and leaves the token taken |
| `SendCalls.PacketGoesOut` | src/NormalIOCP.cpp:301-333 | a packet sent on an open session with nothing queued reaches the socket, is released, and leaves the gate open |
| `SendGate.ArrayIntactWhileOutstanding` | src/Session.cpp:438-525 | while a send is outstanding nobody is in RealSend or a completion, and `_sendingQ` and `dataNotSend` still describe it |
| `SendGate.NoStrandedPacket` | src/Session.cpp:46-72 | unless a send or its completion failed, a queued packet of a connected session always has a posted or outstanding send or a thread still on it |
| `SendGate.WireInTicketOrder` | src/PostSendExecutable.cpp:7-30 | with at most 512 tickets out, also when sends fail: buffers reach the socket and are released in queue order, none twice and none skipped; RealSend never finds the queue empty |
| `StalePost.StalePostBreaks` | src/NormalIOCP.cpp:322-331 | a run on which a posted send crosses into the next lifetime and finds its queue empty |
| `SendGate.NobodyStrands` | src/NormalIOCP.cpp:301-333 | whoever stops looking at the queue leaves it empty, closed, or with the token held |
| `SendGate.StepInv` | src/Session.cpp:39-74 | every step of senders, completions and producers keeps the gate |
| `TaggedStack.PushWord` | include/LockFreeStack.h:41-43 | the 64-bit masking of Push raises the tag by one modulo 2^17 |
| `TaggedStack.PopWord` | include/LockFreeStack.h:69-72 | the masking of Pop keeps the tag |
| `TaggedStack.PackInjective` | include/LockFreeData.h:5-7 | comparing words compares pointer and tag |
| `TaggedStack.ExchangeComparesWords` | include/LockFreeStack.h:41-72 | on every run all words fit, so each exchange of 64-bit values compares pointer and tag |
| `TaggedStack.PopFindsTop` | include/LockFreeStack.h:59-72 | a successful exchange found the list as it was read, although nodes are recycled meanwhile |
| `TaggedStack.PushLinearizes` | include/LockFreeStack.h:30-53 | a successful Push exchange is an atomic push of the value given |
| `TaggedStack.PopLinearizes` | include/LockFreeStack.h:55-84 | a successful Pop exchange is an atomic pop of the value Pop returns |
| `TaggedStack.RestLinearizes` | include/LockFreeStack.h:55-66 | no other step changes the abstract stack, and Pop reports empty only when it is |
| `TaggedStack.Linearizable` | include/LockFreeStack.h:30-84 | on every run a sequential stack accepts all operations in the order of their exchanges, with the same values |
| `StackCalls.CallsLinearize` | include/LockFreeStack.h:30-84 | on every run each operation takes effect exactly once between its call and its return, with the value it was given or returns, and a sequential stack accepts these effects in their order |
| `StackCalls.CallsTakeEffectOnce` | include/LockFreeStack.h:30-84 | whatever the tags do, a thread shows a call, the effect of that call, the return of that value, and so on; an operation that has not taken effect has not returned |
| `StackCalls.LogIsEffects` | include/LockFreeStack.h:30-84 | every event of the log is that of exactly one operation of one thread, in the thread's order |
| `StackCalls.LeftAloneItEnds` | include/LockFreeStack.h:30-84 | from any place in Push or Pop an operation left alone ends, with the effect and result of the sequential operation; an exchange that failed is tried again |
| `TaggedStack.NodeOwnership` | include/MultiThreadObjectPool.h:62-121 | each node is in exactly one of the free list, the stack, or the hands of one thread |
| `TaggedStack.CurrentIsExact` | include/LockFreeStack.h:59-72 | on every run, lists, ownership and linearizability hold throughout if and only if each successful exchange of a pop finds the link and value it read |
| `TagWrap.TagWrapBreaks` | include/LockFreeData.h:5-7 | a reachable state 2^17 pushes after a read in which the exchange succeeds and a value pushed once is popped twice |
| `BucketPool.Nodes.MakeControl` | include/TLSPool.h:191-209 | the loop builds one list of exactly `localPoolSize` fresh nodes |
| `BucketPool.Nodes.CutFirst` | include/TLSPool.h:170-180 | the loop finds the last node to cut, cuts behind it and returns the new head |
| `BucketPool.PoolConserves` | include/TLSPool.h:97-209 | on every run of any threads: whole buckets, exact list lengths of at most twice the size, no fallback allocation, and AllocatedCount equal to live plus cached nodes when nobody is inside |
| `BucketPool.AllocGivesUnused` | include/TLSPool.h:134-152 | every address Alloc returns is one no caller has |
| `PoolCalls.AllocsLocally` | include/TLSPool.h:134-152 | an Alloc with a nonempty list takes its first node, and no other thread can tell |
| `PoolCalls.AllocsFromStack` | include/TLSPool.h:97-118 | with an empty list the bucket on top of the stack becomes the list, and no memory is taken |
| `PoolCalls.AllocsFromMemory` | include/TLSPool.h:97-118 | only with list and stack empty are nodes made: two buckets, one for the stack |
| `PoolCalls.FreesAlone` | include/TLSPool.h:154-189 | a freed node heads the list; a list of more than twice the size gives its first bucket to the stack |
| `PoolCalls.StartsStocked` | include/TLSPool.h:44-51 | the constructor puts exactly the given number of whole buckets of new nodes on the stack |
| `BucketPool.StepInv` | include/TLSPool.h:97-189 | every step, with threads interleaved at counters and stack, keeps every chain whole and in one place |
| `BucketPool.TakeKeeps` | include/SingleThreadObjectPool.h:34-52 | the local Alloc takes the head of a nonempty list, which no caller has, and never reaches `new Node` |
| `BucketPool.PutKeeps` | include/SingleThreadObjectPool.h:140-170 | any thread may free any live node: it joins that thread's list |
| `BucketPool.CutKeeps` | include/TLSPool.h:165-188 | the nodes cut off are one bucket of the right size and more than that stays |
| `BufferRefs.RefCountsConserved` | include/CSendBuffer.h:29-66 | on every run, rejections and failures included, on which no two producers were past the test of one slot at once, the count is handles plus queue slots plus sending arrays plus calls, and the buffer is in or on its way to the pool if and only if that is 0 |
| `BufferRefs.NothingBreaks` | include/LockFreeFixedQueue.h:39-54 | a reference is overwritten, or a Release or `__debugbreak` goes wrong, only after two producers were past the test of one slot, and that only with more tickets out than slots |
| `BufferRefs.ClashIsFatal` | include/LockFreeFixedQueue.h:43-52 | as soon as a second producer is past the test of a slot, the two can reach a `__debugbreak` |
| `BufferOverrun.OverrunLosesCount` | include/LockFreeFixedQueue.h:39-54 | a run of 513 tickets, all out at once, with no rejection and no `__debugbreak`, after which one buffer is in the sending array and in the queue again, and the other has a count of two and a single holder |
| `BufferRefs.ResetDropsEverything` | src/Session.cpp:409-423 | after Reset, of a session whose send failed or was aborted too, no reference is left in queue or array, unless its queue was overrun |
| `BufferRefs.StepInv` | src/PostSendExecutable.cpp:18-22 | every step of handles, producers, sender, completion and Reset, with test, write and mark of a slot apart, keeps where references are |
| `BufferRefs.AssignReplaces` | src/SendBuffer.cpp:29-35 | assignment drops the old reference and adds the new one, for null, equal and self assignment too |
| `BufferRefs.CallOk` | src/SendBuffer.cpp:5-27 | alloc, copy, move, swap and destruction of handles keep the counts exact |
| `BufferCalls.CopyPoints` | src/SendBuffer.cpp:19-22 | a copy points at the same buffer, which counts one reference more |
| `BufferCalls.MovePoints` | src/SendBuffer.cpp:14-17 | a move leaves null behind and every count as it is |
| `BufferCalls.SwapPoints` | src/SendBuffer.cpp:24-27 | a swap exchanges what the two point at, null or not |
| `BufferCalls.AllocPoints` | include/CSendBuffer.h:29-35 | a new buffer has one reference, that of its variable |
| `BufferCalls.DestroyPoints` | src/SendBuffer.cpp:62-68 | a destructor takes one reference; the buffer is on its way to the pool if and only if it was the last |
| `BufferCalls.BufferReturns` | include/CSendBuffer.h:51-66 | with its last handle a buffer goes back to the pool with a count of 0 |
| `BufferCalls.SendAlone` | src/NormalIOCP.cpp:301-333 | SendPacket left alone puts one more reference into the slot of its ticket, or is turned away with all references as before |
| `BufferCalls.OverwriteLosesReference` | include/LockFreeFixedQueue.h:43-48 | a write to a slot that another producer marked meanwhile leaves that buffer with a count of one more than it has holders |
| `BufferCalls.SendHandsOver` | src/Session.cpp:458-505 | the array goes to WSASend exactly when it is full or the next slot is not ready |
| `BufferCalls.SendReleases` | src/PostSendExecutable.cpp:7-30 | a send left alone takes the buffer at the head off the queue and releases it when it completes |
| `BufferCalls.ResetReleases` | src/Session.cpp:409-423 | a Reset left alone ends, also after a failed send, with no reference of the session left unless its queue was overrun |
| `BufferCalls.FailedSendReleases` | src/Session.cpp:409-423 | a send that fails or completes with an error releases nothing, and the Reset that follows everything |
| `BufferRefs.SlotIsFree` | include/LockFreeFixedQueue.h:43-52 | with no more tickets out than slots no Enqueue is rejected and no other producer is past the test of its slot |
| `GroupRunner.OneRunnerInOrder` | src/Group.cpp:76-119 | at most one thread runs a group, and it handles the jobs once each in queue order |
| `GroupRunner.ForgettingIsExact` | src/Group.cpp:53-69 | on every run a queued job is left with nobody about to look at it if and only if one of two kinds of step occurs |
| `GroupRunner.JobForgotten` | src/Group.cpp:62-69 | a run that leaves a job behind, queued with `update` set, with all threads idle |
| `GroupRunner.ForgottenUntilUpdate` | src/Group.cpp:53-81 | exactly an Update, or another job queued with `update` set, makes a thread look again |
| `GroupRunner.ForgetfulRunnerHasLeft` | src/Group.cpp:87-118 | when a producer leaves a job to a running thread in vain, that thread was past its loop |
| `GroupRunner.UpdateHandlesAll` | src/Group.cpp:76-119 | for every schedule, a thread that runs the loop to its end has handled, or seen handled, every job queued when it began |
| `GroupRunner.EnqueueAlone` | src/Group.cpp:53-69 | a job queued with `update` set while nobody runs the group is handled by its producer, with all before it; otherwise it is queued and nothing more |
| `GroupRunner.PassEndsExactly` | src/Group.cpp:121-213 | whatever the producers do, a pass ends exactly when it finds no job or has handled its 1000th, unless that was a Recv that was dropped |
| `GroupRunner.LongPassIsExact` | src/Group.cpp:178-209 | on every run a pass goes on after 1000 jobs if and only if its 1000th job was a dropped Recv |
| `GroupRunner.LimitIsPassed` | src/Group.cpp:204-209 | for every queue of more than 1000 jobs there is a run in which one pass handles all of it |
| `GroupRunner.NextUpdateDrains` | src/Group.cpp:76-119 | an Update with nobody else running comes to an end, with every job handled in order |
| `ConcurrentMoves.LeaveFindsSession` | src/Group.cpp:142-155 | with any number of movers whose moves do not overlap, on every run every handled Leave finds its session in `_sessions` |
| `ConcurrentMoves.ReleasedExactlyOnce` | src/NormalIOCP.cpp:1127-1140 | the same runs, if the moves are safe as well, release each lifetime exactly once |
| `ConcurrentMoves.RunSim` | src/GroupManager.cpp:6-40 | every run on which moves do not overlap is a run of a single mover |
| `ConcurrentMoves.ApartIsExact` | src/GroupManager.cpp:8-27 | a mover's read of the group keeps membership right on all continuations if and only if it does not overlap another move |
| `UnsafeMoves.DoubleMoveLosesSession` | src/Group.cpp:147-150 | a run of two movers after which a Leave does not find its session |
| `GroupLeave.LeaveFindsSession` | src/Group.cpp:142-155 | with a single mover every handled Leave finds its session, however moves and checks interleave |
| `GroupLeave.ReleasedExactlyOnce` | src/NormalIOCP.cpp:1127-1140 | with safe moves of a single mover each lifetime gets exactly one PostRelease, in order, the id assertion after the read of the count holds, and a released session's Leave stays pending until then |
| `GroupCalls.MoveAlone` | src/GroupManager.cpp:6-40 | MoveSession left alone: a Leave in the old group, the session in the new, an Enter there |
| `GroupCalls.AnyMoverAlone` | src/GroupManager.cpp:6-40 | the same for each of several movers, wherever the others stand |
| `GroupCalls.ReleaseAlone` | src/Session.cpp:92-115 | the release of a session in the base group posts at once, that of another queues its Leave |
| `GroupCalls.RunnerDrains` | src/Group.cpp:121-155 | a runner left alone handles all its jobs: the members are those its Enters and Leaves say, and it posts once for each Leave of the flagged session of this group |
| `GroupCalls.WaitingEnds` | src/NormalIOCP.cpp:1127-1140 | on any run with safe moves a released session that waits is posted once by its group's runner alone, and the slot goes on to its next lifetime |
| `GroupLeave.OnlyTheFinalLeavePosts` | src/GroupManager.cpp:67-83 | only the base-group releaser or the runner of the session's own group posts, after OnLeave and with nothing of the session left there; stale Leaves never post |
| `GroupLeave.SafeMoveIsExact` | src/GroupManager.cpp:6-40 | a move keeps one PostRelease per lifetime and the id assertion on all continuations if and only if it is safe |
| `GroupLeave.UnsafeMoveFails` | src/GroupManager.cpp:19-35 | after any unsafe move there is a run with two PostReleases of the session, or with an id assertion that meets the next session |
| `UnsafeMoves.ReentryIsUnsafe` | src/GroupManager.cpp:19-35 | a reachable move back into a group that still holds a Leave of the session |
| `UnsafeMoves.RaceIsUnsafe` | src/NormalIOCP.cpp:1127-1140 | a reachable move while the old group's runner is between the reads of CheckPostRelease |
| `UnsafeMoves.LateAssertionIsUnsafe` | src/Session.cpp:318-324 | a reachable move while that runner has read the count and not yet the id for its assertion |
| `GroupLeave.StepSafe` | src/Session.cpp:92-115 | every step of mover, releaser, runner and recycling keeps the release invariant |
| `GroupLeave.StepMembers` | src/Group.cpp:129-155 | with a single mover every step keeps `_sessions` and the queued Enter and Leave jobs consistent |

## Left out

- Sockets, completion ports, thread start-up and shutdown, accept filtering: operating-system input and output; completions are steps that may happen at any time.
- Weak memory ordering, placement new and C++ object lifetime: sequential consistency and type-stable nodes are assumed.
- The LAN receive loop (src/RecvExecutable.cpp and src/Group.cpp with LANHeader): the same loop with a two-byte header and without code, limit, cipher and checksum; each of its branches is one of the NET loop.
- GetClientSession (client connect): it ignores a failed GetFreeIndex; only the accept path is modelled.
- Timeouts: CheckTimeout is one more increment and release on the slot, its durations are not modelled.
- Sessions in groups within `SlotLifetime`: that module keeps to the base group; the group path of a release is in `GroupLeave`, for one slot.
- Jobs of other sessions in `GroupLeave`, and Recv jobs there: they do not touch the session's membership or its release.
- The Move job type of a group (src/Group.cpp:158-171): nothing queues it.
- Handlers that throw or leave bytes unread: the content code is taken to read its payload to the end.
- `LPWSTR` and C-string writers and the matching readers: they copy a caller's buffer as `PutBytes` and `GetBytes` do, with the length fixed by the caller and not on the wire.
- TlsPool statistics (`_pooledNodeSize`, `_poolEmptyCount`) and thread exit: local lists of ended threads are not modelled.
- LockFreeQueue, TLSLockFreeQueue, TLSLockFreeStack, LockPool, SpinLockPool, MemoryPool, LockStack, SPSCQueue and the like: not used on the session or group path.
- DBConnection, RedisConnection, WebHook, SettingParser, SubnetManager, monitors, logger, profiler, console: wrappers, configuration and reporting.
- RingBuffer.CRingBuffer.Peek: the source rethrows with nothing to rethrow when too few bytes are there, which ends the process; the model returns a refusal.
- SendGate.WireInTicketOrder: the queue is the list of its tickets, which is what `TicketQueue.RefinesFifo` proves for at most 512 tickets out.
- RecvHandoff.HandoffDelivers: a session enters its group before its first receive and stays there; moves between receives are not modelled.
- GroupLeave.SafeMoveIsExact: which moves are safe is proved exact for a single mover, that is for moves that do not overlap.
