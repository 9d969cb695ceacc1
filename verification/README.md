# Proofs about the MO_MiniGames server's network layer

The server moves bytes between clients and a game loop through four connected
pieces of code: a wrap-around byte ring, a receive path that cuts
length-prefixed packets out of a byte stream, a send protocol in which any
number of threads share one outstanding `WSASend`, and a table of session slots
that the game layer sees only through an event queue. This project models those
pieces and proves what they keep in every run.

`dafny verify dfyconfig.toml` checks everything.

## How it is laid out

| file | what it holds |
|---|---|
| `Arithmetic.dfy`, `Bytes.dfy` | remainders, bytes, the 16-bit size field, concatenation |
| `RingModel.dfy` | the ring as a value, its operations, its zero-copy views, and its refinement to a bounded queue |
| `RingBuffer.dfy` | `CRingBufferT` as a class over an array, proved to perform those operations in place |
| `Framing.dfy` | what cutting frames off a byte string means |
| `Receive.dfy` | `PostRecv`, `ProcessRecv`, `ParsePackets` over the class; byte streams in arbitrary chunks |
| `SendProtocol.dfy` | the send protocol as a transition system with one program counter per thread |
| `SendSafety.dfy`, `SendStream.dfy`, `SendStranding.dfy` | its inductive invariants |
| `SendTheorems.dfy` | its main results about every reachable state |
| `SendRuns.dfy`, `SendProgress.dfy`, `SendWitness.dfy` | how runs are put together; what some run can always still do; runs that show the exceptions are real |
| `SendSession.dfy` | the four methods as code, proved equal to their threads of the transition system |
| `Echo.dfy` | echo mode: the receive worker and the send protocol composed |
| `EchoRuns.dfy`, `EchoProgress.dfy`, `EchoWitness.dfy` | the same three for echo sessions |
| `SessionId.dfy` | the packed 16/48-bit ids, as arithmetic and as the shifts and masks of the source |
| `Lifecycle.dfy`, `GameView.dfy`, `GameTheorems.dfy` | slots, ids, events and the player map over whole runs |
| `CentralStream.dfy` | centralized mode: the byte streams of all sessions and the event queue composed |
| `Server.dfy` | the session table and the dispatcher as classes, proved against `Lifecycle.dfy` |
| `RoomList.dfy` | the frame arithmetic of the room list message |

Three classes stand for `CSession`: the receive path, the send path and the
slot table each work on different fields of it, and each class has exactly the
fields its part touches.

### The send protocol

A state is what the threads share (`_valid`, `_sending`, the socket, the send
ring, the sends the kernel still owns) and a map from threads to program
counters. Every atomic access, every locked ring call and every socket call is
one step of `SendProtocol.ThreadStep`, named after its source line. New threads
may enter `RequestSendMsg` or `DisconnectSessionInternal` at any time, the
kernel may transmit any part of an outstanding send at any time (reading the
ring's memory at that moment), and a completion may be partial or failed. A
state is reachable if some finite run of a fresh session, over a ring of any
capacity of at least one, ends in it; all results are about every reachable
state. Closing the socket (lines 806-810) and resetting the flag (line 812) are
separate steps, and the proofs rest on their order.

That no queued byte is ever left without a sender is **false** of the code.
`PostSend`'s empty branch (lines 692-696) releases the flag without looking at
the ring again, so an enqueue between the snapshot and the release, whose own
exchange found the flag taken, is left behind. `SendWitness.StrandingHappens`
constructs such a run, and `EchoWitness.EchoStrandingHappens` one of echo mode.
`SendTheorems.StrandedExactlyWhenOvertaken` says in which states bytes are
stranded, and `OnlyTheEmptyReleaseStrands` which step gets there: the empty
release, if and only if at that moment the ring is not empty, the session is
valid and no other thread is on its way to the exchange or to a disconnect.
`NextWinnerSendsStrandedBytes` and `LaterRequestRescues` say what ends it, and
`RestMeansDelivered` and `Echo.EchoAtRest` what it means for a session at rest.

Invariants only say that nothing bad is reached, and a session that closes or
stops at the first opportunity would keep all of them. So the invariants have
counterparts that say what does happen: exactly which steps lead to a disconnect
(`SendProgress.WhatDisconnects`, `EchoProgress.WhatClosesEcho`); that the session
can go on, still open, after a partial completion, with any message that fits and
with any chunk that holds no invalid length (`PartialCompletionGoesOn`,
`EveryMessageCanArrive`, `ArrivalsCanBeEchoed`); and exactly which events and
slot changes an accept, a request to disconnect and a turn of the parse loop
bring about (`AcceptStartsLife`, `RequestEndsLife`, `TurnLog`). The results
called "can" give a run; how threads are scheduled is up to the system.

### What is assumed of the environment

- One Start-to-Disconnect run of the server.
- At most 65535 clients, because `Start` loops with a `uint16_t` index; fewer
  than 2^48 accepts, so the 48-bit counter does not wrap.
- A completion reports at most the bytes requested and, for a send, exactly the
  bytes the kernel transmitted. Socket calls on a closed socket fail; on an open
  one they may fail.
- In the slot and event model `ReleaseSession`, `ProcessAccept` and
  `DisconnectSessionInternal` are each one step.
- All completions of a slot's old life are drained before the slot is reused.
- Disconnects and receives happen only on sessions that were bound to the
  completion port and published. Unused slots and slots whose bind failed also
  have `_valid` set, so free, live and pending are defined by membership in the
  queue and the stack, not by that flag.

### Where the source disagrees with itself

- `Protocol.h:31` comments out the `type` field of `MsgHeader`, but
  `CentralizedServer.cpp` still uses it. The model has the two-byte header.
- `MAX_PACKET_SIZE` is 65536, which a 16-bit size field never exceeds; the
  check against it in `ParsePackets` never fires. In echo mode the correction
  `size += 2` wraps, so sizes 65534 and 65535 are the ones refused there
  (`Framing.InvalidLengths`).

## Model

| member | source | states |
|---|---|---|
| `RingModel.RingRefinesFifo` | MO_MiniGames_Server/RingBuffer.h:55-221 | For every capacity of at least one and every sequence of operations, the ring gives exactly the replies of a plain queue of at most capacity-1 bytes and ends standing for the same queue. |
| `RingModel.StepRefinesFifo` | MO_MiniGames_Server/RingBuffer.h:325-483 | Each single operation, successful or refused, is the queue operation: all-or-nothing append, exact prefix, exact drop, never more than capacity-1 bytes. |
| `RingModel.SizesAddUp` | MO_MiniGames_Server/RingBuffer.h:273-287 | Data size plus free size is capacity-1 in every state. |
| `RingModel.PutQueue` | MO_MiniGames_Server/RingBuffer.h:74-84 | The two-segment write followed by the move of the write position appends the bytes to the queue, across the wrap. |
| `RingModel.OverwriteAt` | MO_MiniGames_Server/RingBuffer.h:75-82 | Which byte each slot of the buffer holds after the two-segment write: the data by distance from the start, everything else untouched. |
| `RingModel.DropQueue` | MO_MiniGames_Server/RingBuffer.h:158-181 | Moving the read position drops exactly that many bytes from the front. |
| `RingModel.AdvanceQueue` | MO_MiniGames_Server/RingBuffer.h:183-206 | Moving the write position appends exactly the bytes already lying behind the queue. |
| `RingModel.SnapshotSpellsQueue` | MO_MiniGames_Server/IOCPServer.cpp:705-718 | The buffers built from one `GetSendInfo` lie in the ring, are as long as the queue, spell it, and are none exactly when it is empty. |
| `RingModel.SnapshotStable` | MO_MiniGames_Server/RingBuffer.h:551-565 | After any later sequence of enqueues, successful or not, those buffers still spell the same bytes, and the bytes are still the front of the queue. |
| `RingModel.PutKeepsSegments` | MO_MiniGames_Server/RingBuffer.h:343-352 | A write behind the queue changes nothing in any buffer that touches only queued bytes. |
| `RingModel.RecvSegmentsCoverFreeSpace` | MO_MiniGames_Server/IOCPServer.cpp:478-502 | The receive buffers lie in the ring, are disjoint, avoid every queued byte and the sentinel slot, total exactly the free size, and are none exactly when the ring is full. |
| `RingModel.ZeroCopyIsEnqueue` | MO_MiniGames_Server/IOCPServer.cpp:448-502 | Filling those buffers in order and moving the write position by the count leaves the very ring that `Enqueue` of the same bytes leaves; the fill alone changes no queued byte. |
| `RingModel.ScatterIsOverwrite` | MO_MiniGames_Server/RingBuffer.h:249-255 | The kernel's fill of the direct segment and the wrapped one is the two-segment write at the write position. |
| `RingBuffers.CopyBytes` | MO_MiniGames_Server/RingBuffer.h:76 | A copy sets exactly the destination range and nothing else. |
| `RingBuffers.RingBuffer.constructor` | MO_MiniGames_Server/RingBuffer.h:33-43 | A new ring is empty; it has no buffer exactly when the capacity is zero or the allocation fails. |
| `RingBuffers.RingBuffer.DataSize` | MO_MiniGames_Server/RingBuffer.h:273-279 | The size reported is the length of the queue. |
| `RingBuffers.RingBuffer.FreeSize` | MO_MiniGames_Server/RingBuffer.h:281-287 | Queue and room together are capacity-1; with capacity zero the `size_t` subtraction wraps to its largest value. |
| `RingBuffers.RingBuffer.DirectWriteSize` | MO_MiniGames_Server/RingBuffer.h:249-255 | The contiguous room is that of the ring value. |
| `RingBuffers.RingBuffer.WriteWrapped` | MO_MiniGames_Server/RingBuffer.h:74-82 | Two copies in place perform the wrap-around write. |
| `RingBuffers.RingBuffer.Enqueue` | MO_MiniGames_Server/RingBuffer.h:55-88 | Appends all of the data or nothing, and returns the size or zero, also for null data, no buffer and no room. |
| `RingBuffers.RingBuffer.ReadWrapped` | MO_MiniGames_Server/RingBuffer.h:109-117 | Two copies read the bytes that follow the read position across the wrap and leave the rest of the destination alone. |
| `RingBuffers.RingBuffer.Dequeue` | MO_MiniGames_Server/RingBuffer.h:90-123 | Takes the exact prefix off the queue, or nothing when there is less. |
| `RingBuffers.RingBuffer.Peek` | MO_MiniGames_Server/RingBuffer.h:125-156 | Returns the exact prefix and changes nothing in the ring. |
| `RingBuffers.RingBuffer.Consume` | MO_MiniGames_Server/RingBuffer.h:158-181 | Drops exactly that many bytes, or none when there are fewer. |
| `RingBuffers.RingBuffer.MoveWritePtr` | MO_MiniGames_Server/RingBuffer.h:183-206 | Takes in the bytes behind the queue, or refuses when they exceed the room. |
| `RingBuffers.RingBuffer.Clear` | MO_MiniGames_Server/RingBuffer.h:208-221 | Empties the queue. |
| `RingBuffers.RingBuffer.GetSendInfo` | MO_MiniGames_Server/RingBuffer.h:551-565 | One consistent snapshot, whose buffers spell the whole queue; a ring without a buffer reports zero bytes. |
| `Framing.ParseIsTheOnlySplit` | MO_MiniGames_Server/IOCPServer.cpp:528-575 | Any list of frames followed by a remainder that begins with no complete frame is parsed into exactly that list and that remainder. |
| `Framing.ParseSplits` | MO_MiniGames_Server/IOCPServer.cpp:528-575 | The parse loses nothing, every piece is one frame, and it stops for the reason it reports. |
| `Framing.ParseContinues` | MO_MiniGames_Server/IOCPServer.cpp:528-575 | Bytes that arrive later change nothing about what was already cut; the parse of the whole is the parse of the rest continued; a bad length stays bad. |
| `Framing.InvalidLengths` | MO_MiniGames_Server/IOCPServer.cpp:547-559 | Exactly which size fields are refused: 0 and 1, and in echo mode, where the 16-bit sum wraps, 65534 and 65535. |
| `Framing.ResidueFits` | MO_MiniGames_Server/IOCPServer.cpp:561-565 | What waits for more bytes is at most 65534 bytes long. |
| `Receive.ParsedAfterCut` | MO_MiniGames_Server/IOCPServer.cpp:567-587 | Cutting one packet off the ring and parsing on is parsing the whole ring. |
| `Receive.ParsedQueue` | MO_MiniGames_Server/IOCPServer.cpp:526-598 | After parsing, the ring holds exactly the unparsed rest. |
| `Receive.Session.PeekFrameSize` | MO_MiniGames_Server/IOCPServer.cpp:538-550 | The header read is that of the front packet, with the wrapping echo correction; the failed-peek branch is dead. |
| `Receive.Session.TakePacket` | MO_MiniGames_Server/IOCPServer.cpp:567-595 | The front packet leaves the ring whole and, in echo and centralized mode, is handed on behind those before it; the failed-dequeue branch is dead. |
| `Receive.Session.ParseTurn` | MO_MiniGames_Server/IOCPServer.cpp:528-597 | A turn that goes on removes at least two queued bytes and leaves the parse of the ring what it was; one that stops has completed the parse. |
| `Receive.Session.ParsePackets` | MO_MiniGames_Server/IOCPServer.cpp:526-598 | The loop ends on every ring content and performs the parse: packets in order, the rest in the ring, disconnected exactly on an invalid length. |
| `Receive.Session.PostRecv` | MO_MiniGames_Server/IOCPServer.cpp:466-523 | A receive is posted over exactly the free space exactly when the session is valid, there is room and the call is accepted; otherwise the session is closed. |
| `Receive.Session.ProcessRecv` | MO_MiniGames_Server/IOCPServer.cpp:437-463 | A completion moves the write pointer, parses and posts again, with all its failure branches, among them a full ring and a refused `WSARecv`. |
| `Receive.Session.DisconnectSessionInternal` | MO_MiniGames_Server/IOCPServer.cpp:796-810 | The first caller wins and closes the socket; later ones change nothing. |
| `Receive.ReceiveOneChunk` | MO_MiniGames_Server/IOCPServer.cpp:437-463 | One completion parses what was left over together with what arrived; echo and centralized mode hand on its frames, the other two modes nothing. |
| `Receive.ChunkingIndependence` | MO_MiniGames_Server/IOCPServer.cpp:437-523 | However a stream is split into receives that fit, each completion ending with an accepted `WSARecv`: in echo and centralized mode the packets handed on are exactly the frames of one parse of the whole stream, up to the first invalid length, and in the other two modes none are; with the 65536-byte ring the session closes exactly when there is one, and a smaller ring, which may also fill up, does the same while it is open. |
| `Receive.EveryStreamCanArrive` | MO_MiniGames_Server/IOCPServer.cpp:478-502 | With the 65536-byte ring every byte stream has a split into receives that fit: one byte at a time. |
| `Receive.FramingRoundTrip` | MO_MiniGames_Server/IOCPServer.cpp:538-587 | Frames of 2 to 65535 bytes that carry their own length, received in any chunking in centralized mode into the 65536-byte ring, come out as exactly that list, and the session stays open. |
| `Receive.EchoRoundTrip` | MO_MiniGames_Server/IOCPServer.cpp:546-583 | In echo mode, where the size field counts the payload alone, frames two bytes longer than their field come out of any chunking as exactly that list, and the session stays open. |
| `Receive.DeliveredPacketsAreFrames` | MO_MiniGames_Server/CentralizedServer.cpp:118-131 | Over any run of receives, every packet delivered in centralized mode passes the dispatcher's length checks. |
| `Receive.ReceiveNeverStalls` | MO_MiniGames_Server/IOCPServer.cpp:486-510 | With the 65536-byte ring, a parse that leaves the session open leaves at least one free byte, in every mode, so the buffer-full branch is dead. |
| `SendProtocol.NextWellFormed` | MO_MiniGames_Server/IOCPServer.cpp:705-718 | Every buffer handed to the kernel, and every one a thread is about to hand over, lies inside the ring, after every action. |
| `SendSafety.CloseStep` | MO_MiniGames_Server/IOCPServer.cpp:796-815 | Every action keeps: the flag is reset only after the socket is closed, and only one thread closes. |
| `SendSafety.TokenStep` | MO_MiniGames_Server/IOCPServer.cpp:601-746 | Every action keeps: until a disconnect resets the flag, at most one thread or outstanding send stands behind it, and then it is set. |
| `SendSafety.CarrierStep` | MO_MiniGames_Server/IOCPServer.cpp:601-672 | Every action keeps: at most one send is outstanding or completed and not yet consumed, even after a disconnect. |
| `SendStream.DataStep` | MO_MiniGames_Server/IOCPServer.cpp:608-672 | Every action keeps the stream: consumed and queued bytes are the accepted ones, the wire carries a prefix, outstanding buffers spell the front of the ring. |
| `SendStream.DataConsume` | MO_MiniGames_Server/IOCPServer.cpp:608-619 | A consume always succeeds and keeps the stream. |
| `SendStranding.LiveStep` | MO_MiniGames_Server/IOCPServer.cpp:663-696 | Every action keeps: a set flag has somebody behind it, and queued bytes with a free flag have somebody on the way or were overtaken at the empty release. |
| `SendStranding.WonStep` | MO_MiniGames_Server/IOCPServer.cpp:686-736 | Every action keeps: whoever won the flag still has the bytes it won it for at the front of what it will send. |
| `SendTheorems.AtMostOneSend` | MO_MiniGames_Server/IOCPServer.cpp:686-746 | In every interleaving at most one `WSASend` is outstanding; two threads stand behind the flag at once only when the socket is closed, and then their next step gives the kernel nothing. |
| `SendTheorems.SubmitFindsNone` | MO_MiniGames_Server/IOCPServer.cpp:649-746 | Whenever an action gives the kernel a send, none was outstanding, the socket was open and the flag set. |
| `SendTheorems.SendStreamConservation` | MO_MiniGames_Server/IOCPServer.cpp:608-672 | Consumed bytes followed by the ring's content are the accepted messages in lock order; the wire carries a prefix of them; an outstanding send's buffers spell the front of the ring. |
| `SendTheorems.ConsumeNeverMismatches` | MO_MiniGames_Server/IOCPServer.cpp:608-616 | The consume-mismatch branch is never taken, and after the consume exactly the transmitted bytes are consumed. |
| `SendTheorems.SnapshotNeverEmptyHanded` | MO_MiniGames_Server/IOCPServer.cpp:720-734 | With bytes queued, a snapshot always yields non-empty buffers that spell the queue; the defensive branches are dead. |
| `SendTheorems.ClosedExactlyOnce` | MO_MiniGames_Server/IOCPServer.cpp:801-815 | However many threads race, the session is handed over at most once, and exactly once when all have finished and it is closed; the flag is reset only after the socket is closed. |
| `SendTheorems.StrandedExactlyWhenOvertaken` | MO_MiniGames_Server/IOCPServer.cpp:663-696 | In an open session with bytes queued and the flag free, some thread is on its way to the exchange or about to disconnect, or an enqueue overtook the empty release; with no such thread, bytes are stranded if and only if one did. |
| `SendTheorems.OnlyTheEmptyReleaseStrands` | MO_MiniGames_Server/IOCPServer.cpp:692-696 | From a reachable state where nothing is stranded, an action strands bytes if and only if it is the release in the empty branch, the ring is not empty, the session is valid and nobody else is on the way to send or to disconnect. |
| `SendTheorems.RestMeansDelivered` | MO_MiniGames_Server/IOCPServer.cpp:663-696 | When an open session has come to rest, everything accepted is on the wire if and only if no enqueue overtook the empty release. |
| `SendTheorems.StrandedBytesWait` | MO_MiniGames_Server/IOCPServer.cpp:686-696 | Until somebody wins the flag or the session is closed, stranded bytes stay at the front of the ring. |
| `SendTheorems.NextWinnerSendsStrandedBytes` | MO_MiniGames_Server/IOCPServer.cpp:686-736 | The next `PostSend` to win the flag cannot reach the empty branch, and what it submits begins with every stranded byte. |
| `SendProgress.WhatDisconnects` | MO_MiniGames_Server/IOCPServer.cpp:384-396 | Exactly what leads a thread to a disconnect, in every reachable state: a call of it, a completion that failed or carried no bytes, a message that does not fit the ring, a `WSASend` that failed. Every other completion, partial ones included, goes on to `ProcessSend`. |
| `SendProgress.PartialCompletionGoesOn` | MO_MiniGames_Server/IOCPServer.cpp:601-672 | From every reachable state of an open session with a send outstanding, a worker that takes a completion of any non-empty part of it can consume exactly what was transmitted, the session staying open, and leaves one outstanding send of exactly the remaining queue, or none if nothing remains. |
| `SendProgress.RestCanBeReached` | MO_MiniGames_Server/IOCPServer.cpp:601-746 | From every reachable state of an open session in which no thread brings a new message or is about to close it, a run leads to rest with the session open and everything accepted on the wire, unless an enqueue overtook an empty release. |
| `SendProgress.EveryMessageCanArrive` | MO_MiniGames_Server/IOCPServer.cpp:750-769 | From the same states, a message that fits the free space can be accepted and carried to the wire behind every accepted byte, stranded ones included, with the session open and at rest. |
| `SendWitness.StrandingHappens` | MO_MiniGames_Server/IOCPServer.cpp:692-696 | A run in which every thread finishes and a message is left in the ring of an open session. |
| `SendWitness.TwoHoldersHappen` | MO_MiniGames_Server/IOCPServer.cpp:802-812 | A run in which two threads stand behind the flag after a close. |
| `SendWitness.LaterRequestRescues` | MO_MiniGames_Server/IOCPServer.cpp:750-769 | From any stranded state one later request that fits can reach `WSASend` with the stranded bytes followed by its own. |
| `SendSession.AloneIsARun` | MO_MiniGames_Server/IOCPServer.cpp:678-769 | A thread running to its end undisturbed is one of the transition system's runs. |
| `SendSession.Session.constructor` | MO_MiniGames_Server/IOCPServer.cpp:12-24 | A fresh session is the transition system's initial state. |
| `SendSession.Session.DisconnectSessionInternal` | MO_MiniGames_Server/IOCPServer.cpp:796-834 | The method leaves the session as its thread, running alone, does; the caller who finds it valid wins. |
| `SendSession.Session.BuildSegments` | MO_MiniGames_Server/IOCPServer.cpp:702-718 | The buffer array built by hand is that of the snapshot, and is empty exactly when there is nothing to send. |
| `SendSession.Session.PostSend` | MO_MiniGames_Server/IOCPServer.cpp:678-746 | The method leaves the session as its thread does, on every branch. |
| `SendSession.Session.RequestSendMsg` | MO_MiniGames_Server/IOCPServer.cpp:750-769 | The method leaves the session as its thread does, on every branch. |
| `SendSession.Session.ProcessSend` | MO_MiniGames_Server/IOCPServer.cpp:601-672 | The method leaves the session as its thread does, on every branch. |
| `Echo.EchoInvNext` | MO_MiniGames_Server/IOCPServer.cpp:526-598 | Every action of the receive worker, the send threads and the kernel keeps the invariants of both sides and the balance between them. |
| `Echo.EchoEndToEnd` | MO_MiniGames_Server/IOCPServer.cpp:750-776 | In echo mode the bytes sent are always a prefix of the bytes received, also across an overflow or a disconnect; while the session is valid every received byte is accounted for, in order. |
| `Echo.EchoReceiveNeverStalls` | MO_MiniGames_Server/IOCPServer.cpp:448-510 | In every echo run the receive-overflow and the buffer-full branch are dead. |
| `Echo.EchoWorkerServes` | MO_MiniGames_Server/IOCPServer.cpp:437-523 | While an echo session is valid its receive worker has not stopped, and a worker inside a disconnect of a valid session is the one about to close it. |
| `Echo.EchoAtRest` | MO_MiniGames_Server/IOCPServer.cpp:772-776 | At rest in a valid session, what was sent and a tail without a complete packet make up everything received if and only if no enqueue overtook an empty release. |
| `EchoProgress.IncompletePacketsWait` | MO_MiniGames_Server/IOCPServer.cpp:459-462 | From every reachable open state whose worker finds no complete packet, whatever the residue, a run leads to the same state with a receive posted behind it. |
| `EchoProgress.WhatClosesEcho` | MO_MiniGames_Server/IOCPServer.cpp:384-523 | An action turns an open echo session to closing if and only if it is a failed receive, a refused length, a refused `WSARecv` or a closing send thread. |
| `EchoProgress.DoomedForGood` | MO_MiniGames_Server/IOCPServer.cpp:796-810 | Once the session is closed or its receive worker has turned to closing it, every later run leaves it so. |
| `EchoProgress.ArrivalsCanBeEchoed` | MO_MiniGames_Server/IOCPServer.cpp:437-598 | From every reachable rest of an open session with the default send ring and nothing stranded, whatever chunk arrives, a run puts exactly the frames of leftover and chunk on the wire, in order, and keeps exactly the unparsed rest; it comes to rest again, or, if the rest begins with an invalid length, closes the session once every frame before it was echoed. |
| `EchoWitness.EchoStrandingHappens` | MO_MiniGames_Server/IOCPServer.cpp:577-583 | A run of an echo session in which four packets arrive at once and the last is left in the send ring with every thread finished. |
| `SessionId.MakeExtractRoundTrip` | MO_MiniGames_Server/IOCPServer.h:63-76 | Index and counter come back for every 16-bit index, including those that set the sign bit, and every counter, modulo 2^48. |
| `SessionId.ExtractMakeRoundTrip` | MO_MiniGames_Server/IOCPServer.h:63-76 | Index and counter determine the id. |
| `SessionId.MakeIsBits` | MO_MiniGames_Server/IOCPServer.h:73-76 | The arithmetic used everywhere else is what the shift, mask and or compute. |
| `SessionId.ExtractIsBits` | MO_MiniGames_Server/IOCPServer.h:63-71 | Likewise for the two extractors, with the signed shift. |
| `Lifecycle.StartedInv` | MO_MiniGames_Server/IOCPServer.cpp:66-78 | After `Start` every slot is free exactly once, in ascending order, so none is live or pending. |
| `Lifecycle.FreshId` | MO_MiniGames_Server/IOCPServer.cpp:324-331 | The next id carries the front index and the counter and was never given out before. |
| `Lifecycle.AcceptedSlots` | MO_MiniGames_Server/IOCPServer.cpp:313-368 | An accept, bound or refused, keeps every slot in exactly one place. |
| `Lifecycle.ClosedInv` | MO_MiniGames_Server/IOCPServer.cpp:796-826 | A disconnect keeps ids and slots consistent. |
| `Lifecycle.ReleasedTopInv` | MO_MiniGames_Server/IOCPServer.cpp:194-205 | One turn of the release loop keeps ids and slots consistent. |
| `GameView.ReplayIsConnectedNotDisconnected` | MO_MiniGames_Server/CentralizedServer.cpp:54-67 | In an ordered log, replay holds exactly the ids connected and not disconnected. |
| `GameView.FindMeansCurrent` | MO_MiniGames_Server/IOCPServer.cpp:874-887 | An id that was given out is found only while its slot still carries it. |
| `GameView.WorldStep` | MO_MiniGames_Server/IOCPServer.cpp:313-368 | Every accept, refusal, disconnect, request, release, receive and dispatch keeps the invariant over both layers. |
| `GameTheorems.SlotConservation` | MO_MiniGames_Server/IOCPServer.cpp:313-344 | In every reachable state each index is in exactly one of the free queue, the live set and the pending stack, at most once, and a pending slot still holds its id. |
| `GameTheorems.SlotsAddUp` | MO_MiniGames_Server/IOCPServer.cpp:67-78 | Free, pending and live always add up to the number of slots. |
| `GameTheorems.ReleaseGivesBackAll` | MO_MiniGames_Server/IOCPServer.cpp:192-206 | `ReleaseSession` empties the stack and gives back the index of every entry, top first, none dropped and none added. |
| `GameTheorems.IdsAreFresh` | MO_MiniGames_Server/IOCPServer.cpp:327-334 | All ids given out in a run differ, and `FindSession` of one returns its slot if the slot still carries it and null once it was reused. |
| `GameTheorems.AcceptStartsLife` | MO_MiniGames_Server/IOCPServer.cpp:313-354 | In every reachable world an accept with a free index puts a new id into the front slot: bound, it is live, found and announced once; not bound, it is neither, and the index goes to the back. No other session is touched; without a free index nothing changes. |
| `GameTheorems.RequestEndsLife` | MO_MiniGames_Server/IOCPServer.cpp:860-870 | In every reachable world, after a request to disconnect a published id it is not live: if it was, its socket is closed, it waits on top of the pending stack and exactly one DISCONNECTED was added; if not, nothing changed. No other id's liveness changes. |
| `GameTheorems.ReplayAgreement` | MO_MiniGames_Server/CentralizedServer.cpp:81-106 | Applying the queued events to the player map gives exactly the ids of the live slots; the map never exceeds the number of slots. |
| `GameTheorems.EventOrder` | MO_MiniGames_Server/IOCPServer.cpp:352-354 | A published id has exactly one CONNECTED, before all its other events, and at most one DISCONNECTED. |
| `GameTheorems.DispatchIsSound` | MO_MiniGames_Server/CentralizedServer.cpp:91-131 | CONNECTED meets an unknown id, DISCONNECTED a known player, and RECEIVED is handled exactly between the two; one that trails DISCONNECTED is dropped, and none fails a length check. |
| `GameTheorems.DrainedPlayersAreLive` | MO_MiniGames_Server/CentralizedServer.cpp:54-68 | From every reachable state, one pass of the inner loop dispatches every queued event, touches no slot, and leaves exactly the live sessions as players. |
| `GameTheorems.PlayersKnowTheirIds` | MO_MiniGames_Server/CentralizedServer.cpp:81-89 | In every reachable world a player carries the id it is filed under. |
| `CentralStream.CentralInvNext` | MO_MiniGames_Server/IOCPServer.cpp:526-598 | Every receive, every turn of the parse loop and every other action of the server, in any order, keeps each session's stream in step with its events. |
| `CentralStream.ReceivedEventsAreTheStream` | MO_MiniGames_Server/IOCPServer.cpp:584-587 | In every run of the server the RECEIVED payloads of an id, in order, followed by the frames still in its ring, are the frames of one parse of all bytes received for it; with the loop at rest they are exactly those, and the session was refused if and only if the stream holds an invalid length. |
| `CentralStream.RefusedIsClosed` | MO_MiniGames_Server/IOCPServer.cpp:552-559 | A session whose stream held an invalid length is announced as disconnected and is not live. |
| `CentralStream.TurnLog` | MO_MiniGames_Server/IOCPServer.cpp:528-597 | A turn of the parse loop adds exactly the RECEIVED of the packet it cut, or the DISCONNECTED of a live session whose next length is invalid, or nothing; unless the length is invalid it touches no slot. |
| `CentralStream.TurnsFinish` | MO_MiniGames_Server/IOCPServer.cpp:526-598 | From every state inside the loop its turns alone lead out of it, announce exactly the frames in the ring, in order, and then, if an invalid length follows, the disconnect; the loop then waits or is refused for good. |
| `CentralStream.CentralRunsAreWorldRuns` | MO_MiniGames_Server/CentralizedServer.cpp:118-131 | Those runs are runs of the slot and event model: that delivered packets are frames, which that model demands, is what the parser guarantees. |
| `Server.ThreadSafeQueue.Push` | MO_MiniGames_Server/IOCPServer.h:153-157 | Appends one item. |
| `Server.ThreadSafeQueue.TryPop` | MO_MiniGames_Server/IOCPServer.h:159-169 | Takes the oldest item, or reports that there is none. |
| `Server.NetworkServer.constructor` | MO_MiniGames_Server/IOCPServer.cpp:66-78 | The slots and the index queue as `Start` leaves them. |
| `Server.NetworkServer.FindSession` | MO_MiniGames_Server/IOCPServer.cpp:874-887 | The session object found is that of the slot the id resolves to, or null. |
| `Server.NetworkServer.ProcessAccept` | MO_MiniGames_Server/IOCPServer.cpp:313-354 | The whole new state of an accept: no free index, bind failure, or a published session. |
| `Server.NetworkServer.DisconnectSessionInternal` | MO_MiniGames_Server/IOCPServer.cpp:796-834 | The whole new state of a disconnect; only the caller who finds the session valid changes anything. |
| `Server.NetworkServer.RequestDisconnectSession` | MO_MiniGames_Server/IOCPServer.cpp:860-870 | Closes the session the id resolves to; reports success exactly when that slot was found and valid. |
| `Server.NetworkServer.ReleaseSession` | MO_MiniGames_Server/IOCPServer.cpp:192-206 | The loop performs the release of the whole pending stack. |
| `Server.NetworkServer.PushReceived` | MO_MiniGames_Server/IOCPServer.cpp:584-587 | A parsed packet is queued as a RECEIVED event of the session's current id, behind everything queued before. |
| `Server.NetworkServer.PopNetworkEvent` | MO_MiniGames_Server/IOCPServer.cpp:785-788 | Takes the oldest event and changes nothing else. |
| `Server.CentralizedServer.DispatchClientConnected` | MO_MiniGames_Server/CentralizedServer.cpp:81-89 | The player is added under its id. |
| `Server.CentralizedServer.DispatchClientDisconnected` | MO_MiniGames_Server/CentralizedServer.cpp:91-106 | A known player is removed; an unknown id changes nothing. |
| `Server.CentralizedServer.DispatchDataReceived` | MO_MiniGames_Server/CentralizedServer.cpp:108-131 | Which of the dispatcher's branches a packet takes. |
| `Server.CentralizedServer.DispatchNext` | MO_MiniGames_Server/CentralizedServer.cpp:54-67 | One turn pops the oldest event and dispatches it by its kind, or finds none and changes nothing. |
| `Server.CentralizedServer.DispatchEvents` | MO_MiniGames_Server/CentralizedServer.cpp:54-68 | The inner loop dispatches every queued event in order and ends with an empty queue. |
| `RoomList.TruncatedListIsNeverSent` | MO_MiniGames_Server/CentralizedServer.cpp:240-262 | The 16-bit size field is the message's length exactly up to 851 rooms; beyond that the message fits no default ring, so sending it closes the session and no wrong size ever enters the stream. |
| `RoomList.BuildRoomList` | MO_MiniGames_Server/CentralizedServer.cpp:239-260 | The loop lays the rooms out behind the header, in order, filling the buffer exactly. |
| `RoomList.MessageReadsBack` | MO_MiniGames_Server/CentralizedServer.cpp:239-262 | A reader who knows the layout gets back the room count and every room's record, in order. |

## Left out

- Winsock and the completion port: socket options, the listen socket, error codes, thread creation and joining. `WSASend`, `WSARecv` and completions are nondeterministic steps; a bind, an allocation and a socket call take their outcome as a parameter.
- Server shutdown and restart: `Disconnect` refills the free queue without clearing the pending stack, so it lies outside the runs considered.
- Slot reuse with I/O of the old life outstanding. The id comparison at IOCPServer.cpp:415 reads an id that `Initialize` overwrites, and failed completions (line 385) bypass it, so it is not claimed to catch every stale completion.
- Data races on the pending stack and the free-index queue, which have no lock, and the second read of the id after the push (lines 815-825).
- `FindSession` of id 0 or of another id with counter bits 0: it finds a never-used slot. No such id is given out, and only ids that were given out are requested in the runs.
- `RequestSendMsg` with null data or a negative length. A negative length, or null data with a length other than zero, makes `Enqueue` return zero, so the call takes the overflow branch that the model has for data that does not fit; null data with length zero goes on to `PostSend` like the model's empty message.
- Destructors, `IsValid`, `GetReadPtr`, `GetWritePtr` and `GetDirectReadSize` as separate calls; the offsets and sizes they give are part of `SendSegments` and `RecvSegments`.
- Capacities so large that a position plus a size exceeds `size_t`; the free size of a ring without capacity is the one wrap-around that is modelled.
- `SendSession.Session.ProcessSend`: states what the method does when no other thread interferes; interference is what the transition system covers.
- `SendSession.Session.DisconnectSessionInternal`: likewise states the undisturbed call; races to close are in `SendTheorems.ClosedExactlyOnce`.
- `SendSession.Session.PostSend`: likewise states the undisturbed call.
- `SendSession.Session.RequestSendMsg`: likewise; the lookup of the id is in `Server.NetworkServer.FindSession`.
- `SendWitness.LaterRequestRescues`: states that the rescuing run exists, because the thread must also be scheduled and win; that any winner rescues is `NextWinnerSendsStrandedBytes`.
- `SendProgress.RestCanBeReached`, `SendProgress.EveryMessageCanArrive` and `EchoProgress.ArrivalsCanBeEchoed`: state that such a run exists, because scheduling, the kernel's pace and the answers of `WSASend` and `WSARecv` belong to the environment.
- `Server.NetworkServer.ProcessAccept`: the first `PostRecv` that follows is in `Receive.dfy`; its failure appears in the runs as a disconnect of the new session.
- `Server.CentralizedServer.DispatchClientConnected`: leaves out the room list sent to the new player; that message is in `RoomList.dfy` and its sending in the send protocol.
- `Server.CentralizedServer.DispatchClientDisconnected`: leaves out leaving the room, which is the room manager's.
- `Server.CentralizedServer.DispatchDataReceived`: stops at the length checks; message kinds are not modelled because the header shown has none.
- `RoomList.BuildRoomList`: takes each room's record as 77 given bytes; titles and counts come from the room manager.
- Rooms, `CRoomManager`, `CRoom` and the inside of `CPlayer`: no property there that the player map does not already carry.
- `Receive.ChunkingIndependence`: its runs have every `WSARecv` accepted; a refused one closes the session at once, as `Receive.Session.ProcessRecv` states, and nothing is received after it.
- Echo mode lets only the receive worker request sends, as no game layer runs beside it.
- The partitioned mode and the commented-out hooks of the unified mode, in which a packet is cut and dropped; `NetworkCommand`, which nothing uses; the client; `main.cpp`.
