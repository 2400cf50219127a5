# A verified model of the reactor and its WebSocket chat framing

The server is a reactor (`mymuduo/`) with a WebSocket chat server on top (`src/`). This project models the
parts in which bytes, functors, timers and connections are handed on, and proves what they keep over every run.
`dafny verify dfyconfig.toml` checks it.

| file | what it models |
|---|---|
| `Bytes.dfy` | bytes, exclusive or, concatenation |
| `Buffer.dfy` | the in-place byte buffer, and whole runs of it against a byte queue |
| `Frames.dfy`, `WebSocket.dfy` | the wire format of section 5.2 of RFC 6455, `parseFrame`, `encodeFrame` |
| `Deframer.dfy` | the deframing loop of `onMessage` over the buffer |
| `Poller.dfy` | channels, the poller and the kernel interest set |
| `Connection.dfy`, `TcpConnection.dfy` | the output stream as a state machine, and the connection object that refines it |
| `EventLoop.dfy` | the cross-thread hand-off as interleaved steps, and the loop object |
| `Timers.dfy`, `TimerQueue.dfy` | the timer queue as a state machine, and the two-set object that refines it |
| `Lifecycle.dfy`, `LifecycleSteps.dfy` | connections across the main loop and the I/O loops, the server object, and what each step does on which loop |

How the parts are built. Objects that the source changes in place (`Buffer`, `Channel`, `EPollPoller`,
`TcpConnection`, `TcpServer`, `EventLoop`, `TimerQueue`, the receiving side of `ChatServer`) are classes. Each of their methods
is tied to a function or an action of a state machine on values, and the properties of whole runs are lemmas about
that machine. What other code or the system does is a parameter or an action: `write`, `readv`, `epoll_ctl`, the
eventfd, the timerfd, the clock, the bytes a client sends, what a callback adds or cancels, and the order in which
threads take their steps.

Points where the model has to say something about the code:

- `parseFrame` XORs an unmasked payload with a key array it never set (src/WebSocketHandler.cpp:126-134, 148). The
  content of that array is the parameter `stale`. `ParseDeterminedExactly` says exactly when it matters.
- The parser answers "not yet" for a fragment and for any opcode other than text and close
  (src/WebSocketHandler.cpp:98-101, 152), so such a frame stops the stream for good; `ParseRejects` and
  `DeframeMeaning` state this.
- Expiry is strict because the sentinel entry carries a null pointer (mymuduo/TimerQueue.cpp:105-106).
- A hangup with urgent data, no input and an end of file runs `handleClose` twice (mymuduo/Channel.cpp:122-135).
  `DownOnceExactly` and `EventExactly` state this of one event (the second close even puts the descriptor back into
  the kernel set), `UpThenDownExactly` of whole runs, and `DownTwice` gives the run. The
  other results on the lifecycle are for runs without that event, except `NamesFresh`, which holds of all.
- A `sendInLoop` that comes after `shutdown` may leave output pending behind a shut write side
  (mymuduo/TcpConnection.cpp:172-207); `SendFitsExactly` says exactly when. `send` only gets there from another thread.
- The event mask is kept bit by bit (`Epoll.Events`), and XOR is defined bit by bit on numbers below 256.

## Model

| member | source | states |
|---|---|---|
| Buffers.CopyForward | mymuduo/Buffer.cpp:124 | the forward copy onto an overlapping earlier range carries the whole source content; callers must place the destination strictly before the source |
| Buffers.Buffer.constructor | mymuduo/Buffer.cpp:11-14 | an empty queue in a storage of 8 plus the initial size |
| Buffers.Buffer.ReadableBytes | mymuduo/Buffer.cpp:16-18 | the length of the queue |
| Buffers.Buffer.WritableBytes | mymuduo/Buffer.cpp:20-22 | exactly what is left of the storage behind the reader index and the content |
| Buffers.Buffer.PrependableBytes | mymuduo/Buffer.cpp:24-26 | prepend, readable and writable areas make up the storage |
| Buffers.Buffer.ReadCapacity | mymuduo/Buffer.cpp:79-90 | one scatter read can always take at least 65536 bytes, and 131072 or more only if the storage alone has that room |
| Buffers.Buffer.Peek | mymuduo/Buffer.cpp:28-30 | the queue content |
| Buffers.Buffer.Retrieve | mymuduo/Buffer.cpp:38-43 | drops that many bytes from the front, or all of them |
| Buffers.Buffer.RetrieveAll | mymuduo/Buffer.cpp:45-47 | empties the queue |
| Buffers.Buffer.RetrieveAsString | mymuduo/Buffer.cpp:49-53 | hands out the front and keeps the rest |
| Buffers.Buffer.RetrieveAllAsString | mymuduo/Buffer.cpp:55-57 | hands out everything |
| Buffers.Buffer.Resize | mymuduo/Buffer.cpp:120-121 | a larger storage of the given size with the same content, within the space bound |
| Buffers.Buffer.MakeSpace | mymuduo/Buffer.cpp:119-128 | keeps the content, makes the room, never shrinks the storage, and keeps the space bound; compaction happens only with the reader past the prepend area |
| Buffers.Buffer.EnsureWritableBytes | mymuduo/Buffer.cpp:59-62 | room for the request, content unchanged |
| Buffers.Buffer.Append | mymuduo/Buffer.cpp:64-68 | appends to the queue within the space bound |
| Buffers.Buffer.ReadFd | mymuduo/Buffer.cpp:78-102 | a two-segment read appends exactly the delivered bytes; an error changes nothing |
| BufferRuns.Drive | mymuduo/Buffer.cpp:38-68 | every run of append, retrieve, take and read hands out and leaves what the byte queue does, with storage between its first size and 8 + max(initial size, twice the peak content) |
| Bytes.XorAt | src/WebSocketHandler.cpp:144-150 | a bit of the exclusive or is set exactly where the two bytes differ |
| Bytes.XorUnique | src/WebSocketHandler.cpp:144-150 | only the exclusive or has those bits |
| Frames.HeaderRoundTrip | src/WebSocketHandler.cpp:92-123 | reading a header back gives the first byte, mask flag, length form and length, for all three forms |
| Frames.HeaderReadBack | src/WebSocketHandler.cpp:92-123 | the bytes a header was read from are the encoding of what was read |
| Frames.TopBit | src/WebSocketHandler.cpp:115-123 | the top bit of the length field tells whether the length is below half the range |
| Frames.MaskInvolution | src/WebSocketHandler.cpp:144-150 | unmasking undoes masking |
| WebSocket.FoldLength | src/WebSocketHandler.cpp:109-123 | the shift-and-or loop on a 64-bit word computes the big-endian value; nothing is shifted out |
| WebSocket.ReadLength | src/WebSocketHandler.cpp:103-123 | succeeds exactly when the header is complete, with its mask flag, length and end |
| WebSocket.TakePayload | src/WebSocketHandler.cpp:125-150 | succeeds exactly when the payload is complete; then the unmasked payload and the exact frame length |
| WebSocket.LengthTestExactly | src/WebSocketHandler.cpp:136-139 | with header and key received, the 64-bit completeness test is right if and only if the end of the payload is a 64-bit number |
| WebSocket.ParseFrame | src/WebSocketHandler.cpp:84-153 | the code with its loops and 64-bit addition answers as the specification `Parse`, whenever the end of the payload is a 64-bit number |
| WebSocket.ParseMonotone | src/WebSocketHandler.cpp:84-153 | a successful parse is unchanged by appending bytes |
| WebSocket.ParseComplete | src/WebSocketHandler.cpp:84-153 | every understood masked frame is parsed to its opcode, payload and exact length, whatever follows |
| WebSocket.ParseSound | src/WebSocketHandler.cpp:84-153 | a successful parse consumed exactly the wire form of one understood frame |
| WebSocket.ParseExact | src/WebSocketHandler.cpp:84-153 | parsing succeeds if and only if the data starts with an understood frame |
| WebSocket.ClientRoundTrip | src/WebSocketHandler.cpp:84-153 | the client encoding of any message below 2^63 bytes, any key and any trailing data parses to that message, opcode 1 and that length |
| WebSocket.ParseHello | src/WebSocketHandler.cpp:84-153 | the masked "Hello" of section 5.7 of RFC 6455 parses to those five letters, whatever follows |
| WebSocket.ParseControl | src/WebSocketHandler.cpp:92-101 | an empty close frame parses with opcode 8, a ping does not parse |
| WebSocket.LengthExamples | src/WebSocketHandler.cpp:103-123 | lengths of 256 and 65536 bytes read as section 5.7 of RFC 6455 writes them |
| WebSocket.ParseNeedsWholeFrame | src/WebSocketHandler.cpp:109-139 | no proper prefix of a frame is parsed |
| WebSocket.ParseRejects | src/WebSocketHandler.cpp:92-101 | a fragment or a frame of another opcode is never parsed, whatever follows |
| WebSocket.ParseDeterminedExactly | src/WebSocketHandler.cpp:125-150 | the answer depends on the data alone if and only if the frame is not a complete, final, supported, unmasked, non-empty one |
| WebSocket.StaleKeyShows | src/WebSocketHandler.cpp:125-150 | a one-byte unmasked text frame parses to two messages under two contents of the unset key array |
| WebSocket.EncodeFrame | src/WebSocketHandler.cpp:155-184 | the unmasked final text frame of the message in the shortest length form |
| WebSocket.EncodeHello | src/WebSocketHandler.cpp:155-184 | the server frame of "Hello" is the unmasked one of section 5.7 of RFC 6455 |
| WebSocket.DecodePrefix | src/WebSocketHandler.cpp:155-184 | any prefix of concatenated server frames decodes to a prefix of the messages, and all of it to all of them |
| WebSocket.UniquelyDecodable | src/WebSocketHandler.cpp:155-184 | two message lists with the same concatenated frames are equal |
| WebSocket.ShortestEncoding | src/WebSocketHandler.cpp:163-179 | no other length form gives a shorter frame |
| Deframer.DeframeSplit | src/ChatServer.cpp:153-179 | two reads do together what one read of the joined bytes does |
| Deframer.ChunkingIndependence | src/ChatServer.cpp:153-179 | for every way of cutting the stream, handled payloads, residual buffer and close request are those of one read |
| Deframer.ClosingStays | src/ChatServer.cpp:168-172 | a close frame stays at the head; later passes handle nothing and leave everything |
| Deframer.LegalPrefix | src/ChatServer.cpp:153-179 | what has been received of a legal stream is legal |
| Deframer.FramesAreLegal | src/ChatServer.cpp:153-179 | every stream of valid masked frames is legal |
| Deframer.DeframeMeaning | src/ChatServer.cpp:153-179 | of any frames and an unfinished one exactly the leading understood text frames are handled, in order, without empty ones; the rest stays; closing starts exactly at a close frame |
| Deframer.MessagesArrive | src/ChatServer.cpp:153-179 | for all messages and keys, the client frames of the messages are handled as exactly the non-empty messages, in order, with nothing left over |
| Deframer.NextFrame | src/ChatServer.cpp:156-162 | one parser call on a legal stream gives the next step of the deframer whatever the key array held |
| Deframer.Receiver.TakeFrame | src/ChatServer.cpp:156-177 | one turn of the loop consumes one text frame, or stops with nothing changed |
| Deframer.Receiver.OnMessage | src/ChatServer.cpp:153-179 | the loop ends and leaves handled payloads, buffer and close request as the specification says |
| Deframer.Receiver.OnReadable | mymuduo/TcpConnection.cpp:115-119 | a read followed by the message callback |
| Deframer.Serve | src/ChatServer.cpp:153-179 | for every legal stream and every list of read sizes, each read delivers its size, the rest of the stream or at least 65536 bytes, and the code's outcome is that of the reads and of the bytes they add up to |
| Poller.Channel.EnableReading | mymuduo/Channel.cpp:62-65 | the read bits join the mask and the poller follows |
| Poller.Channel.DisableReading | mymuduo/Channel.cpp:67-70 | the read bits leave the mask and the poller follows |
| Poller.Channel.EnableWriting | mymuduo/Channel.cpp:72-75 | the write bit joins the mask and the poller follows |
| Poller.Channel.DisableWriting | mymuduo/Channel.cpp:77-80 | the write bit leaves the mask and the poller follows |
| Poller.Channel.DisableAll | mymuduo/Channel.cpp:82-85 | the mask becomes empty and the poller follows |
| Poller.Channel.Remove | mymuduo/Channel.cpp:111-113 | the descriptor is in neither the poller's map nor the kernel set |
| Poller.EPollPoller.Update | mymuduo/EPollPoller.cpp:93-109 | one permitted `epoll_ctl` call; the kernel set is the replay of all calls so far |
| Poller.EPollPoller.UpdateChannel | mymuduo/EPollPoller.cpp:50-71 | adds only an absent descriptor, modifies and deletes only a present one; afterwards map, marks, masks and kernel set agree for every channel |
| Poller.EPollPoller.RemoveChannel | mymuduo/EPollPoller.cpp:73-83 | deletes from the kernel set only what is there, and agreement is kept |
| PollerRuns.Perform | mymuduo/Channel.cpp:62-85 | each request moves the channel's mark and mask as the per-descriptor reference does |
| PollerRuns.DeletedWantsNothing | mymuduo/EPollPoller.cpp:61-70 | after any operations a deleted channel has an empty mask |
| PollerRuns.WatchedAsAsked | mymuduo/Channel.cpp:62-85 | after any operations the mask is what the last requests about reading and writing said; a channel in use that wants something is watched, one out of use is not, and a watched one that is silenced leaves the kernel set |
| PollerRuns.Drive | mymuduo/EPollPoller.cpp:50-83 | after every run on channels with distinct descriptors, the kernel set holds exactly the added channels with their current masks |
| OutputStream.SendAllOrNothing | mymuduo/TcpConnection.cpp:172-207 | a message is accepted whole, or changes nothing at all: exactly when not connected, or nothing is pending and the peer is gone |
| OutputStream.SendFitsExactly | mymuduo/TcpConnection.cpp:172-207 | a `sendInLoop` in any state keeps the invariant if and only if the connection is up or closed, the peer is gone, or a shutdown has been asked for and either the write side is still open or nothing is left over |
| OutputStream.StepKeepsInv | mymuduo/TcpConnection.cpp:129-158 | conservation, exact write interest, shutdown discipline and real crossings are kept by every event |
| OutputStream.EveryRun | mymuduo/TcpConnection.cpp:129-237 | they hold after every run of sends, partial writes, errors, shutdown and close |
| OutputStream.StreamConserved | mymuduo/TcpConnection.cpp:129-207 | after every run the bytes on the wire followed by the pending ones are the accepted messages in order |
| OutputStream.WireIsWhatWasTaken | mymuduo/TcpConnection.cpp:129-207 | after every run the wire is the first n bytes of the accepted messages, n being the sum of what all issued `write` calls reported, and the rest is pending |
| OutputStream.GracefulClose | mymuduo/TcpConnection.cpp:129-237 | after every run write interest is on exactly while output is pending; the write side is shut at most once, never while connected, and once shutdown was asked exactly when every accepted byte is on the wire |
| OutputStream.ShutdownCarriedOut | mymuduo/TcpConnection.cpp:209-237 | after a `shutdown` made while connected no message is accepted, and unless the connection closes it is disconnecting with the write side shut once exactly when every accepted byte is on the wire |
| OutputStream.StateExactly | mymuduo/TcpConnection.cpp:94-153 | the state after every run, told from which of establishment, `shutdown` after it, and close occurred |
| OutputStream.ClosedForGood | mymuduo/TcpConnection.cpp:150-153 | after a close no later event changes anything |
| OutputStream.AcceptedWasSent | mymuduo/TcpConnection.cpp:172-230 | what a run accepts is a subsequence of what was sent |
| OutputStream.NothingAfterShutdown | mymuduo/TcpConnection.cpp:129-148 | once the write side is shut down every accepted byte is on the wire, nothing more is accepted or written, and there is no second shutdown |
| OutputStream.NoticeExactly | mymuduo/TcpConnection.cpp:199-206 | a notification is queued exactly on crossing the mark, with the length then pending |
| OutputStream.DrainExactly | mymuduo/TcpConnection.cpp:129-135 | a drain is noted exactly when the socket took something, with the length left |
| OutputStream.NoticesSeparated | mymuduo/TcpConnection.cpp:129-135 | between any two notifications of a run, a drain left less than the mark |
| FramedOutput.WireDecodes | src/ChatServer.cpp:138-143 | on a connection that accepted a preamble such as the handshake response and then frames, the preamble goes out first, the complete frames behind it decode to a prefix of the accepted messages, and to all of them once nothing is pending |
| FramedOutput.AcceptedFrames | src/WebSocketHandler.cpp:155-184 | if a preamble and then frames were sent, what was accepted is a subsequence of the preamble and the frames of a subsequence of the messages |
| TcpConnections.TcpConnection.constructor | mymuduo/TcpConnection.cpp:24-47 | starts as the fresh connection, unregistered |
| TcpConnections.TcpConnection.ConnectEstablished | mymuduo/TcpConnection.cpp:94-100 | connected and reading |
| TcpConnections.TcpConnection.SendInLoop | mymuduo/TcpConnection.cpp:172-207 | in every state, on a real buffer, channel and poller: the stream machine's send; the object stays usable whenever the send fits |
| TcpConnections.TcpConnection.WriteOrBuffer | mymuduo/TcpConnection.cpp:182-206 | the direct write and the queueing of the rest, with poller and channel in step |
| TcpConnections.TcpConnection.BufferRemaining | mymuduo/TcpConnection.cpp:199-206 | the unwritten rest is pending, write interest on, crossing noted |
| TcpConnections.TcpConnection.Send | mymuduo/TcpConnection.cpp:214-221 | sends only while connected |
| TcpConnections.TcpConnection.ShutdownInLoop | mymuduo/TcpConnection.cpp:209-212 | shuts the write side only without write interest |
| TcpConnections.TcpConnection.Shutdown | mymuduo/TcpConnection.cpp:232-237 | the stream machine's shutdown |
| TcpConnections.TcpConnection.HandleWrite | mymuduo/TcpConnection.cpp:129-148 | the stream machine's drain, with interest off and a due shutdown done when all is out |
| TcpConnections.TcpConnection.HandleClose | mymuduo/TcpConnection.cpp:150-153 | disconnected with an empty mask |
| TcpConnections.TcpConnection.ConnectDestroyed | mymuduo/TcpConnection.cpp:102-109 | the descriptor has left the kernel set and the poller's map |
| TcpConnections.TcpConnection.KernelInterest | mymuduo/TcpConnection.cpp:129-148 | while connected or disconnecting, the kernel waits for writability exactly while output is pending |
| HandOff.DoKeepsNeverLost | mymuduo/EventLoop.cpp:96-111 | no step of any thread loses the wakeup for queued functors or for quit |
| HandOff.DoKeepsFifo | mymuduo/EventLoop.cpp:136-151 | every step keeps executed, running and queued functors equal to the pushes in lock order |
| HandOff.NoLostWakeup | mymuduo/EventLoop.cpp:55-111 | in every interleaving, when the loop is about to block with functors queued or quit set, the eventfd is readable or some thread still has its write to do |
| HandOff.WakeupsAreReal | mymuduo/EventLoop.cpp:106-134 | the wakeup channel is reported exactly if there was a write since the last read |
| HandOff.FifoExactlyOnce | mymuduo/EventLoop.cpp:96-151 | in every reachable state the pushes are executed, running and queued functors in order |
| HandOff.BatchExact | mymuduo/EventLoop.cpp:136-151 | a call that has taken its batch ends with exactly what had been pushed at the swap run, whatever is queued meanwhile |
| HandOff.NextRoundServes | mymuduo/EventLoop.cpp:61-68 | everything queued when the loop goes to poll has been run when that round ends |
| HandOff.QuitStops | mymuduo/EventLoop.cpp:61-78 | after `quit` from any thread the loop completes at most the round it is in |
| EventLoops.EventLoop.Wakeup | mymuduo/EventLoop.cpp:106-111 | is the write a push or a quit owes, a step of the hand-off that leaves the eventfd readable |
| EventLoops.EventLoop.HandleRead | mymuduo/EventLoop.cpp:129-134 | is the hand-off's read of the eventfd, possible only after the channel was reported |
| EventLoops.EventLoop.Quit | mymuduo/EventLoop.cpp:74-78 | extends the run of the hand-off by setting quit, deciding and waking, or by setting quit alone on the loop thread; no call is left unfinished |
| EventLoops.EventLoop.QueueInLoop | mymuduo/EventLoop.cpp:96-104 | extends the run of the hand-off by push, decision and wake from another thread, by push and decision on the loop thread, with a wake exactly during a batch; no call is left unfinished |
| EventLoops.EventLoop.RunInLoop | mymuduo/EventLoop.cpp:89-94 | calls at once on the loop thread, with exactly the steps the functor asks for; otherwise queues |
| EventLoops.EventLoop.Perform | mymuduo/EventLoop.cpp:74-104 | any list of calls of `queueInLoop` and `quit` made on the loop thread, as steps of the hand-off |
| EventLoops.EventLoop.DoPendingFunctors | mymuduo/EventLoop.cpp:136-151 | a run of the hand-off that calls exactly the functors present at the swap, whatever they queue or quit; what they queue waits, with a wakeup left |
| EventLoops.EventLoop.Round | mymuduo/EventLoop.cpp:61-68 | one round is a run of the hand-off: handlers with the eventfd read exactly if reported, then exactly what was queued before the swap is called in order |
| EventLoops.EventLoop.Loop | mymuduo/EventLoop.cpp:55-72 | a round for every poll until quit is set; called and queued functors are all pushes in order, and something queued leaves a wakeup |
| Timers.Truncate | mymuduo/Timestamp.h:23-26 | the whole part of a non-negative number of microseconds |
| Timers.Arm | mymuduo/TimerQueue.cpp:19-40 | the deadline is the later of the expiration and 100 microseconds from now |
| Timers.DoKeepsAccounts | mymuduo/TimerQueue.cpp:72-139 | every action keeps each inserted timer in exactly one place |
| Timers.DoKeepsCovered | mymuduo/TimerQueue.cpp:72-145 | every action keeps the timerfd armed early enough |
| Timers.DoKeepsRate | mymuduo/TimerQueue.cpp:89-139 | every action keeps the spacing of runs |
| Timers.ReachKeepsInv | mymuduo/TimerQueue.cpp:72-145 | so does every mix of add, cancel, fire and additions and cancellations inside callbacks |
| Timers.NoStrandedTimer | mymuduo/TimerQueue.cpp:72-101 | between batches, whatever timer is queued, the timerfd is armed for no later than its expiration or 100 microseconds after it was armed |
| Timers.ArmedForTheEarliest | mymuduo/TimerQueue.cpp:72-145 | the timerfd is armed only for a timer that is queued or was cancelled since; with nothing cancelled, for exactly the earliest |
| Timers.TimerAccounting | mymuduo/TimerQueue.cpp:78-139 | every inserted timer is in exactly one of active, running batch, finished and cancelled |
| Timers.TimerFate | mymuduo/TimerQueue.cpp:72-139 | an added timer keeps its interval and first expiration; only a timer that was asked to be cancelled is among the cancelled, only a one-shot one that ran exactly once among the finished; so an uncancelled repeating timer is queued or running for good, and an uncancelled one-shot timer until it has run |
| Timers.TimerRate | mymuduo/TimerQueue.cpp:89-139 | only a repeating timer runs twice, and its i-th and j-th batch times differ by more than (j - i) intervals |
| Timers.NextDueExactly | mymuduo/Timer.cpp:16-21 | a queued timer that has run is due exactly one truncated interval after its last batch |
| Timers.NeverEarly | mymuduo/TimerQueue.cpp:103-117 | no callback runs in a batch at or before its timer's expiration |
| Timers.CancelActive | mymuduo/TimerQueue.cpp:78-84 | a timer cancelled while active never runs again |
| Timers.CancelInBatch | mymuduo/TimerQueue.cpp:85-100 | a timer cancelled while its batch is running runs in no later batch |
| Timers.BatchUnique | mymuduo/TimerQueue.cpp:103-109 | there is one listing of the due timers in order |
| TimerQueues.SetInsert | mymuduo/TimerQueue.cpp:126 | ordered insertion adds the entry and nothing else |
| TimerQueues.SetErase | mymuduo/TimerQueue.cpp:82 | ordered removal drops the entry and nothing else |
| TimerQueues.UpperBound | mymuduo/TimerQueue.cpp:105-106 | the sentinel splits the entries into those strictly before now and the others |
| TimerQueues.HowMuchTimeFromNow | mymuduo/TimerQueue.cpp:19-29 | seconds and nanoseconds that add up to the deadline exactly |
| TimerQueues.TimerQueue.ResetTimerfd | mymuduo/TimerQueue.cpp:31-40 | through seconds and nanoseconds, arms for the later of the expiration and 100 microseconds from now |
| TimerQueues.SplitDue | mymuduo/TimerQueue.cpp:103-109 | the part before now is the plain filter by expiration, in order |
| TimerQueues.TimerQueue.Insert | mymuduo/TimerQueue.cpp:119-129 | both sets gain the timer and agree; the flag tells whether it is earlier than all others |
| TimerQueues.TimerQueue.AddTimerInLoop | mymuduo/TimerQueue.cpp:72-76 | is the machine's addition |
| TimerQueues.TimerQueue.CancelInLoop | mymuduo/TimerQueue.cpp:78-87 | is the machine's cancellation |
| TimerQueues.TimerQueue.GetExpired | mymuduo/TimerQueue.cpp:103-117 | takes exactly the due timers out of both sets and returns them in order |
| TimerQueues.TimerQueue.BeginBatch | mymuduo/TimerQueue.cpp:89-95 | is the machine's fire |
| TimerQueues.TimerQueue.RunNext | mymuduo/TimerQueue.cpp:97-98 | is the machine's callback |
| TimerQueues.TimerQueue.RunCallback | mymuduo/TimerQueue.cpp:97-98 | one callback and everything it adds and cancels, step by step of the machine |
| TimerQueues.TimerQueue.Reset | mymuduo/TimerQueue.cpp:131-145 | restarts exactly the uncancelled repeating timers and arms for the new head if it is valid |
| TimerQueues.TimerQueue.EndBatch | mymuduo/TimerQueue.cpp:99-100 | is the machine's end of a batch |
| TimerQueues.TimerQueue.HandleRead | mymuduo/TimerQueue.cpp:89-101 | a whole batch is exactly the machine's fire, each due timer's callback in order followed by what that callback asks for, and the finish; the log grows by one entry for each due timer and by no other |
| Lifecycle.MoveUp | mymuduo/TcpConnection.cpp:94-100 | establishing keeps the protocol's invariant: the descriptor joins the kernel set, the one up callback is given |
| Lifecycle.MoveDown | mymuduo/TcpConnection.cpp:150-158 | closing keeps the protocol's invariant: the descriptor leaves the kernel set, the one down callback is given, one removal is queued |
| Lifecycle.MoveClosed | mymuduo/TcpConnection.cpp:150-155 | the first half of a close: down, off the kernel set, called back, with nothing queued yet |
| Lifecycle.MoveAway | mymuduo/TcpServer.cpp:105-107 | the close callback completes a close on either kind of loop and restores the invariant |
| Lifecycle.MoveOut | mymuduo/TcpServer.cpp:105-115 | removal keeps the invariant: off the map, one destruction queued on the connection's loop |
| Lifecycle.MoveEnd | mymuduo/TcpConnection.cpp:102-109 | destruction keeps the invariant and leaves nothing queued |
| Lifecycle.AcceptKeepsInv | mymuduo/TcpServer.cpp:78-103 | accepting keeps the protocol's invariant, on the main loop and on an I/O loop |
| Lifecycle.DoKeepsInv | mymuduo/TcpServer.cpp:78-115 | so does every step of every loop, other than the event that closes twice |
| Lifecycle.UpThenDown | mymuduo/TcpServer.cpp:78-115 | in every run without such an event each connection comes up at most once and then goes down at most once, and has come up once established |
| Lifecycle.UpThenDownExactly | mymuduo/Channel.cpp:119-141 | a run gives every connection at most one up and then one down callback if and only if no event in it closes twice |
| Lifecycle.DownTwice | mymuduo/Channel.cpp:122-135 | one connection, a hangup with urgent data and end of file: up, down, down |
| Lifecycle.DestroyedAfterClose | mymuduo/TcpServer.cpp:109-115 | `connectDestroyed` runs only after `handleClose`, on its own loop, with the connection off the map |
| Lifecycle.ReleasedAfterRemoval | mymuduo/TcpConnection.cpp:102-109 | when no reference is left, no kernel set holds the connection |
| Lifecycle.NamesFresh | mymuduo/TcpServer.cpp:80-95 | in every run whatsoever the next name is unused, so the map never overwrites |
| Lifecycle.CallsAccepted | mymuduo/EPollPoller.cpp:50-83 | no `epoll_ctl` call is refused, and the map holds only connections that exist |
| TcpServers.TcpServer.NewConnection | mymuduo/TcpServer.cpp:78-103 | is the accept step, keeps the invariant, and adds a name not in the map |
| TcpServers.TcpServer.RemoveConnection | mymuduo/TcpServer.cpp:105-107 | removes at once on the main loop, queues the removal to it otherwise; called on a connection that has just closed it restores the protocol's invariant |
| TcpServers.TcpServer.RemoveConnectionInLoop | mymuduo/TcpServer.cpp:109-115 | takes the connection off the map and queues its destruction on its own loop; on a closed connection with nothing queued this restores the invariant |
| TcpServers.TcpServer.RunRemoval | mymuduo/TcpServer.cpp:105-115 | running the queued removal is a step of the protocol and takes exactly that name off the map |
| Lifecycle.DownOnceExactly | mymuduo/Channel.cpp:119-141 | an event on a live connection gives at most one down callback if and only if it is not a hangup with urgent data, no input and end of file |
| LifecycleSteps.EventExactly | mymuduo/Channel.cpp:119-141 | on a live connection an event gives no, one or two down callbacks as neither, one or both of hangup without input and readable end of file hold; none changes nothing, one leaves the connection down, out of the kernel set and its removal queued, two put it back in the kernel set with an empty mask |
| LifecycleSteps.DownForGood | mymuduo/TcpConnection.cpp:102-158 | a connection that has gone down gets no later callback and is never registered again |
| LifecycleSteps.AcceptExactly | mymuduo/TcpServer.cpp:78-103 | the new connection belongs to the given loop and descriptor: up at once on the main loop, its establishment queued to an I/O loop |
| LifecycleSteps.TrafficExactly | mymuduo/TcpConnection.cpp:199-237 | traffic sets the write bit of the kernel's mask and no other; `shutdown` moves only a connected connection |
| LifecycleSteps.OwnLoopOnly | mymuduo/TcpServer.cpp:102-115 | a connection's state, mask, mark and callbacks are changed only by steps of its own loop |
| LifecycleSteps.MapOnMainLoop | mymuduo/TcpServer.cpp:105-115 | the server's map is changed only on the main loop |
| LifecycleSteps.AllSettled | mymuduo/TcpServer.cpp:78-115 | with all queues empty each connection is listed, up and registered, or off the map, out of the kernel sets and unreferenced after one up and one down callback |

## Left out

- WebSocket.ParseFrame: takes only frames whose payload ends at a 64-bit position, which every length allowed by section 5.2 of RFC 6455 does; `LengthTestExactly` states that the code's test is right exactly then.
- Buffers.Buffer.RetrieveAsString: takes only lengths within the readable bytes, since the source reads past them otherwise.
- TcpConnections.TcpConnection.Send: models callers on the owning loop; the cross-thread form captures raw pointers, so this code does not fix which bytes it later sends.
- The loop object's calls run uninterrupted; calls of several threads that overlap are the interleaved steps of `HandOff`.
- The lifecycle across loops is modelled on values, as interleaved steps; only the server's own map and counter are fields of a class there.
- Timer objects live in a store by address; addresses are not reused within a run, and intervals are real numbers.
- Clock readings are after the epoch; the timerfd deadline is stated on the wall clock it was computed from, so drift between the wall clock and the monotonic clock is not captured.
- `size_t`, `int64_t` and connection-number overflow, except the 64-bit frame length.
- Failure of `epoll_ctl` for lack of memory or watches, and of `timerfd_settime`; the source ends the process then.
- `quit` issued before `loop` starts, the `TcpServer` destructor, thread start and join, `getNextLoop`.
- Write-complete callbacks, `handleError`, logging.
- HTTP files, the handshake and its digest, sessions and login, JSON, the database, the web pages.
