# Verified model of the libquic send path

This project models the send path of libquic (`src/stream.cpp`, `include/quic/stream.hpp`, `src/connection.cpp`,
`src/endpoint.cpp`, `src/udp.cpp`) together with the stream table and the network's job queue
(`src/network.cpp`, `include/quic/network.hpp`), and proves what these promise over whole runs. Check it with
`dafny verify dfyconfig.toml` (Dafny 4.11).

## How it is organised

| file | models |
|---|---|
| `Common.dfy`, `Datagrams.dfy` | bytes, datagrams packed back to back, decoding a batch buffer |
| `Callbacks.dfy` | the queue of writeable callbacks, and who put what on the shared wire |
| `Gso.dfy`, `Udp.dfy`, `Socket.dfy` | `UDPSocket::send` with its GSO, `sendmmsg` and `sendmsg` back ends; the writeable-callback queue |
| `Endpoint.dfy` | `Endpoint::send_packets`, including the in-place compaction after a partial send |
| `ConnState.dfy` | the abstract state of a connection, with its histories |
| `Flush.dfy`, `FlushProps.dfy`, `FlushRun.dfy` | `flush_streams` as a turn-by-turn machine, and its properties |
| `StreamBuffer.dfy`, `Stream.dfy` | the stream's buffers, cursors and chunk senders |
| `Connection.dfy` | the connection object: batch arrays, open and pending stream objects, the flush loop as code, proved equal to the machine |
| `EndpointRun.dfy` | any run of events on several connection objects and one-shot packets sharing one socket, served by the code of the classes |
| `StreamTable.dfy` | local stream credit, the pending queue, the life of each stream up to and beyond the end of its connection |
| `JobQueue.dfy` | `call`, `call_soon`, `process_job_queue` and the waker, interleaved |
| `Retransmit.dfy` | the retransmit timer's rounding |

Code that changes state is imperative: classes with `modifies` clauses, arrays for the batch buffer and its sizes, loops
with invariants. Fixed-size stack arrays (the GSO tables) are sequences of fixed length updated at an index, so every
index is still checked. Protocols are state machines over their steps.

ngtcp2, the kernel and user callbacks are oracles that may answer anything their interface allows. They are total
functions of the call number, and an answer that asks for more than is on offer is cut down to it, so the properties
hold for every answer sequence:

- the packet writer returns a packet of 1 to 1452 bytes and consumes some prefix of the offered bytes, or reports
  congestion, WRITE_MORE (everything offered was consumed) or an error;
- the kernel takes some number of datagrams from the front and then reports an errno; with GSO it takes whole segments;
- `next_chunk` is the sequence of its answers; a `done` callback is a script that may send and may start further chunked
  sends, as `tests/005-chunked-sender.cpp` does;
- `ngtcp2_conn_open_bidi_stream` succeeds exactly when local stream credit is left.

## Points where the reading matters

- The list assertion, the entry assertions of `send` and `send_packets` and the three assertions of the GSO count are
  proved.
- `acknowledge` reads the front buffer before it tests whether anything is left to acknowledge (`src/stream.cpp:95`),
  which touches an empty deque when everything is popped; the model tests first. `get_buffer_it` keeps the source's order
  of tests: its caller guarantees that the iterator never reaches the end, and that is proved.
- The loop in `acknowledge` ends although each popped chunk may append another: only a non-empty buffer can append.
- `flush_streams` stops when the packet count *equals* the budget (`src/connection.cpp:482`), so a budget of zero is no
  budget; `ZeroBudgetNeverEnds` shows the loop running on, and every other property takes a budget of at least one, for
  which the loop is total.
- `io_ready` is called on every append to a ready stream and on every close, so that a flush follows and the writer is called. While packets are
  left over that flush is skipped, and the resend callback flushes once it has sent them; but when the resend meets a
  hard error it drops the packets and returns (`src/connection.cpp:300-302`). `LostWakeup` is such a run: bytes are left
  with neither the trigger active nor a callback queued, and only the retransmit timer or another event brings the
  flush. `ServeResend` gives the exact condition, and `RunEndpoint` the promise for all runs without such an error.
- `sent_fin` is set before the write (`src/connection.cpp:395-400`). A FIN the writer answers with 0 or an error is
  therefore not tried again; `FinExactly` says when it is written, `FinTurn` and `FinAcceptedIff` when it is accepted.
- The header says a serious error always zeroes `n_pkts` (`include/quic/endpoint.hpp:197-199`); the branch of
  `send_packets` for a missing socket leaves it, and `SendPackets` follows the code. Nothing in the repository leaves an
  endpoint without its socket after construction, so connections are modelled with one.
- The 64-bit stream credit is narrowed to `int` (`src/connection.cpp:170`). `NarrowingStarves` is a credit for which a
  waiting stream stays behind; `ReleaseSuffices` and `ExtendMaxLocalStreams` give the exact condition.
- A remote stream turned away by the open callback never gives its credit back, because `stream_closed` does not find
  it: over every run, credit is returned for a remote stream exactly if it was not refused and `stream_closed` was called
  for it (`RunTable`).
- The `sendmsg` loop treats an interrupted call as a hard error; the `sendmmsg` back ends retry it, and report a refusal
  after a partial send as a short count only.

## Model

| member | source | states |
|---|---|---|
| Datagrams.SplitOfPacked | include/quic/connection.hpp:142-145 | packets packed back to back into the batch buffer are read back unchanged from the sizes, whatever lies behind them |
| Datagrams.PackedOfSplit | include/quic/connection.hpp:142-145 | the inverse: repacking the decoded packets gives the occupied bytes and the same sizes |
| Datagrams.SplitDrop | src/endpoint.cpp:361-364 | skipping the bytes of the first k sizes leaves exactly the remaining packets |
| Datagrams.SplitAppend | src/connection.cpp:467-468 | writing one more packet behind the occupied bytes appends exactly that packet to the decoded batch |
| Callbacks.ResendLeaves | src/connection.cpp:285-303 | a resend callback that is run was the only one of its connection and finds packets to send |
| Callbacks.ResendJoins | src/connection.cpp:294-306 | a connection that blocks gets exactly one callback, and the pairing of all others is kept |
| Callbacks.OneShotPairs | src/endpoint.cpp:379-402 | a one-shot packet waits or is settled, never both |
| Callbacks.OnceEach | src/udp.cpp:568-572 | no connection waits twice, and exactly those with packets left over wait |
| Callbacks.OnlyByAppend | src/udp.cpp:386-566 | what one sender adds to the shared wire is appended to its own datagrams and leaves everybody else's alone |
| Gso.GroupingUnique | src/udp.cpp:416-433 | a size list has only one decomposition into maximal runs of equal size |
| Gso.GroupingKeepsDatagrams | src/udp.cpp:403-449 | cutting the grouped messages into segments yields the same datagrams, in order, as sending the packets one by one |
| Gso.SentCountCorrect | src/udp.cpp:456-488 | for every whole-segment prefix the kernel may take, the computed count is the number of packets in it, those packets are what left, and their sizes sum to the accepted bytes |
| Gso.ExpandLength | src/udp.cpp:438-441 | groups are no more numerous than packets, and strictly fewer when some group has two or more, which keeps the control index in range |
| Udp.KernelLensWhole | src/udp.cpp:451-488 | whatever number of datagrams the kernel takes, its byte counts form a whole-segment prefix and the count derived from them is that number |
| Udp.GroupingStep | src/udp.cpp:416-432 | one packet either extends the open run or closes it, keeping the runs maximal and the covered sizes exact |
| Udp.CloseGroup | src/udp.cpp:427-448 | the vector of a finished group starts where the previous one ended, and a multi-packet group gets a control slot of its own holding its segment size |
| Udp.BuildGroups | src/udp.cpp:403-449 | the grouping loop covers exactly the packets by maximal runs whose vectors tile the buffer, with control slots in range and pairwise distinct |
| Udp.HeadersDenote | src/udp.cpp:427-448 | the message headers read through the arrays and control slots are those of the grouping |
| Socket.UdpSocket.RetrySendmmsg | src/udp.cpp:451-454 | interrupted calls are retried and put nothing on the wire; the final answer decides |
| Socket.UdpSocket.CountSent | src/udp.cpp:456-488 | the counting loop computes the sent count, and its three assertions hold |
| Socket.PlainSendmmsg | src/udp.cpp:490-515 | without GSO the return value of sendmmsg is the number of packets sent |
| Socket.UdpSocket.SendGso | src/udp.cpp:401-488 | the GSO back end puts exactly the first `sent` packets on the wire, unchanged and in order, and reports the kernel's refusal only if nothing was taken |
| Socket.UdpSocket.SendBatch | src/udp.cpp:490-515 | the sendmmsg back end meets the same specification |
| Socket.UdpSocket.SendLoop | src/udp.cpp:536-562 | the sendmsg loop puts the same packets on the wire and reports the refusal that stopped it |
| Socket.UdpSocket.Send | src/udp.cpp:386-566 | one specification for whichever back end is compiled in |
| Socket.UdpSocket.WhenWriteable | src/udp.cpp:568-572 | the callback goes to the back of the queue and the write event is armed |
| Socket.UdpSocket.TakeCallbacks | src/udp.cpp:175-180 | the write event is spent and the queue moves out whole, in order, before any callback runs |
| Endpoint.AttemptConserves | src/endpoint.cpp:345-376 | a send attempt loses, repeats or reorders nothing unless it fails, and then drops exactly the tail behind the sent prefix |
| Endpoint.Compact | src/endpoint.cpp:357-366 | in-place compaction leaves exactly the unsent packets, decodable from the front of both arrays |
| Endpoint.SendPackets | src/endpoint.cpp:330-377 | the arrays afterwards encode what the attempt keeps, the wire grew by what it sent, and blocked and failure say which case it was |
| Flush.QueueableTail | src/connection.cpp:383-387 | taking the head keeps the list well formed; the sentinel is the head only when it is alone |
| Flush.QueueFrame | src/connection.cpp:467-480 | queueing a packet, with or without a batch send, leaves streams and list alone and leaves room in the batch |
| Flush.TurnKeepsSchedule | src/connection.cpp:376-502 | every turn keeps the list (each live stream once, sentinel last), the batch bound and the budget, and the measure (budget left, list length) drops |
| FlushProps.TailDropped | src/endpoint.cpp:345-350 | the packets a hard error drops are the whole rest of their batch, all with that error |
| FlushProps.SendWire | src/connection.cpp:285-318 | a send attempt adds to the wire exactly the packets whose recorded fate says so |
| FlushProps.SendConserves | src/connection.cpp:285-318 | `send` accounts for every packet: sent, kept for the queued resend, or dropped by a hard error |
| FlushProps.TurnCounts | src/connection.cpp:376-502 | every turn keeps packet conservation, counts one packet against the budget, and queues a resend only when it returns blocked |
| FlushProps.ConsumeKeepsStreams | src/connection.cpp:391-465 | a write keeps "written then unsent equals appended" per stream, and FIN stays final |
| FlushProps.TurnKeepsStreams | src/connection.cpp:376-502 | every turn keeps the byte and FIN accounting of all streams |
| FlushProps.FinAcceptedIff | src/connection.cpp:391-406 | a stream has one FIN write at most, so its FIN is ever accepted exactly when that write was |
| FlushProps.FinTurn | src/connection.cpp:395-400 | after the turn of a stream that wants FIN, sent_fin is set whatever the answer, and FIN is accepted exactly if the writer took it |
| FlushProps.FinExactly | src/connection.cpp:395-400 | the turn of a live stream sets sent_fin exactly if the stream is closing and has nothing unsent, and no turn sets it for another stream |
| FlushProps.JoinKeeps | src/connection.cpp:192-200 | a stream that joins with bytes appended while it waited keeps the byte and FIN accounting |
| FlushProps.RoundRobinStep | src/connection.cpp:383-385 | taking the head's turn and putting it back or not keeps the round-robin relation for every queued stream |
| FlushProps.EvenStep | src/connection.cpp:488-501 | it keeps turn counts rising along the queue and within one of each other |
| FlushProps.ExactlyOneTurnBetween | src/connection.cpp:488-501 | when a stream comes up again every other queued stream has had exactly one turn since |
| FlushProps.TurnDrains | src/connection.cpp:376-502 | while nothing went wrong every listed stream is still queued or completely written |
| FlushRun.InitialListOk | src/connection.cpp:342-370 | the list starts with every unfinished stream exactly once, walking the ids upwards from the drawn one and around, then the sentinel |
| FlushRun.RunKeepsAll | src/connection.cpp:376-502 | the loop, for every answer sequence, ends and keeps all of the above |
| FlushRun.EveryTurnKeepsAll | src/connection.cpp:376-502 | so does every intermediate state |
| FlushRun.TurnTakes | src/connection.cpp:428-465 | a turn takes from its stream exactly the bytes the writer consumed: all of them on WRITE_MORE, a prefix with a packet, none otherwise |
| FlushRun.TurnRequeues | src/connection.cpp:488-501 | a stream comes up again in the same flush exactly if its packet left bytes behind; only congestion, not an error, costs the other streams their turns |
| FlushRun.CongestionEndsStreams | src/connection.cpp:448-460 | after a stream meets congestion only the sentinel writes for the rest of the flush |
| FlushRun.RunSendsFull | src/connection.cpp:472-480 | every batch the loop sends and survives was full: a batch is sent when it is full and not before |
| FlushRun.RunWrites | src/connection.cpp:376-502 | the loop calls the writer at least once; unless it stops at the budget or at a failed send, its last call is the sentinel's and makes no packet; it stops for the budget only at the budget |
| FlushRun.RoundRobinFairness | src/connection.cpp:342-501 | fairness at every point of every flush |
| FlushRun.FlushCorrect | src/connection.cpp:324-510 | a flush conserves packets and bytes, produces at most the budget, does nothing while packets are left over, calls the writer otherwise, and queues one resend exactly when packets remain |
| FlushRun.CompleteDrain | src/connection.cpp:376-502 | without congestion, errors, failed batch sends or a reached budget every listed stream is written completely |
| FlushRun.ResumeCorrect | src/connection.cpp:299-303 | the resend callback keeps the same promises; once everything was sent the writer is called again, and whatever follows comes on top of the send attempt |
| FlushRun.ResumeDrains | src/connection.cpp:299-303 | the flush after a resend writes every unfinished stream completely unless congestion, an error, a failed send or the budget stops it |
| FlushRun.FirstPacketBlocks | src/connection.cpp:294-306 | a first packet that finds the socket full stays, and one callback is queued |
| FlushRun.ZeroBudgetNeverEnds | src/connection.cpp:482-486 | with a budget of zero the loop makes any number of packets and is still running |
| StreamBuffer.RestBytes | src/stream.cpp:76-107 | the buffers hold exactly the appended bytes from the acknowledged offset on |
| StreamBuffer.TailGrows | src/stream.cpp:76-107 | behind a fixed write cursor, a longer history adds to the unsent bytes exactly what it adds in all |
| StreamBuffer.RestTrim | src/stream.cpp:102-104 | removing a prefix of the front buffer advances the acknowledged offset by that much and nothing else |
| StreamBuffer.SourcedChunk | include/quic/stream.hpp:199-202 | a new chunk is the next answer in call order, behind everything logged before |
| StreamBuffer.SourcedFinish | include/quic/stream.hpp:189-197 | an empty answer ends the sender: no later call, done run exactly once |
| StreamBuffer.SourcedStart | include/quic/stream.hpp:129-135 | a sender started by a done callback begins behind all chunks of the sender it follows |
| StreamBuffer.TracedDone | include/quic/stream.hpp:193-195 | bytes sent by a done callback are the next action of its script, behind everything it did before |
| StreamBuffer.TracedStart | include/quic/stream.hpp:193-195 | so is a chunked send it starts |
| StreamBuffer.DoneRanExactly | include/quic/stream.hpp:193-195 | what a finished sender's done callback appended and started is exactly its script, in order; an unfinished sender's did nothing |
| StreamBuffer.ChunksBeforeDone | include/quic/stream.hpp:222-224 | every chunk lies before everything its done callback appends, and before the chunks of the sends that callback starts |
| StreamBuffer.WindowedChunk | include/quic/stream.hpp:226-229 | queueing a chunk restores the window of its sender and touches no other |
| StreamBuffer.WindowedPop | src/stream.cpp:98 | popping a chunk lowers exactly its own sender's live count by one |
| StreamBuffer.ChunksNonEmpty | include/quic/stream.hpp:184-197 | a chunk in the log is never empty, which bounds the acknowledge loop |
| Streams.Stream.AppendBuffer | src/stream.cpp:76-84 | appends at the back, and activates the connection's trigger exactly when the stream is ready |
| Streams.Stream.Send | src/stream.cpp:157-163 | extends the unsent bytes by the data |
| Streams.Stream.QueueNextChunk | include/quic/stream.hpp:176-203 | asks the source once, or not at all when it has finished, raises the sender's window by one or finishes it, and leaves cursors and other senders alone |
| Streams.Stream.RunDone | include/quic/stream.hpp:189-197 | the done callback runs from where it got to up to its end, each action once and in order, also when it starts senders that finish at once; no other callback moves |
| Streams.Stream.StartSender | include/quic/stream.hpp:129-135 | fills the window of a new sender |
| Streams.Stream.Enroll | include/quic/stream.hpp:129-135 | the new sender is the next action of the callback that started it |
| Streams.Stream.SendChunks | include/quic/stream.hpp:230-238 | refuses fewer than one simultaneous chunk, otherwise starts the sender |
| Streams.Stream.PopFront | src/stream.cpp:95-100 | drops exactly the front buffer even though destroying a chunk appends the next one |
| Streams.Stream.TrimFront | src/stream.cpp:102-104 | a partly acknowledged front buffer loses exactly the acknowledged bytes and keeps its keep-alive |
| Streams.Stream.Acknowledge | src/stream.cpp:86-107 | exactly the given bytes leave the front under re-entrant appends; buffers are released exactly when fully acknowledged; all windows are full again or finished |
| Streams.Stream.Close | src/stream.cpp:52-74 | takes effect once, changes no bytes, and wakes the connection in any case |
| Streams.Stream.Apply | src/stream.cpp:52-163 | whatever the user does, what is appended shows up behind the unsent bytes and in the history alike, and the trigger is activated exactly by a close or by an append to a ready stream |
| Streams.Stream.Size | include/quic/stream.hpp:67-75 | the loop sums the buffered bytes |
| Streams.Stream.Unsent | include/quic/stream.hpp:79-83 | the number of bytes appended and not yet written |
| Streams.Stream.Wrote | src/stream.cpp:109-114 | the unsent bytes lose exactly the written prefix |
| Streams.Take | src/stream.cpp:109-155 | the writer takes as many of the pending bytes as it wants and there are, and they are the stretch its cursor moves over |
| Streams.Stream.GetBufferIt | src/stream.cpp:116-128 | finds the buffer and offset of the first unwritten byte without running off the end |
| Streams.Stream.Pending | src/stream.cpp:130-155 | the vectors flatten to exactly the unsent bytes, and there are none exactly when there are no such bytes |
| Streams.RunStream | src/stream.cpp:76-163 | over every run of sends, chunked sends, writes and acknowledgements, each moving exactly its own cursor, the consumed bytes are the next stretch of everything appended, and the done callbacks of finished senders have run exactly their scripts |
| Connections.RoomForOne | src/connection.cpp:409-420 | a batch that is not full leaves room for a packet of maximum size |
| Connections.Connection.Send | src/connection.cpp:285-318 | arrays, wire and callback queue change as the abstract send says; a block queues exactly one callback and arms the event; only this connection's part of the wire grows |
| Connections.Connection.PushPacket | src/connection.cpp:467-470 | the arrays encode the batch with the packet appended, and the write position is the sum of the recorded sizes |
| Connections.Connection.Offer | src/connection.cpp:391-406 | FIN exactly when the stream is closing, has not sent it and has nothing unsent; skipped exactly when there is nothing to say |
| Connections.Connection.CallWriter | src/connection.cpp:381-465 | the stream objects after the writer call are the machine's |
| Connections.Connection.PacketOut | src/connection.cpp:467-501 | queueing, batch send, budget stop and re-insertion are the machine's |
| Connections.Connection.OneTurn | src/connection.cpp:376-502 | one loop iteration is one turn of the machine |
| Connections.Connection.BuildList | src/connection.cpp:342-370 | the two list loops build the machine's initial list |
| Connections.Connection.RunLoop | src/connection.cpp:376-502 | the while loop computes the machine's run |
| Connections.Connection.FinalSend | src/connection.cpp:504-508 | the send after the loop is the machine's |
| Connections.Connection.FlushStreams | src/connection.cpp:324-510 | the code on arrays, stream objects and callback queue computes exactly what the machine does |
| Connections.Connection.OnWriteable | src/connection.cpp:299-303 | on the objects, the resend callback is the machine's: the send, and after a complete one the flush |
| Connections.Connection.Join | src/connection.cpp:192-200 | a stream object joins the table under its id, ready, with the bytes appended while it waited; every other stream is untouched |
| Connections.Connection.OpenStream | src/connection.cpp:544-566 | a new stream joins with nothing appended |
| Connections.Connection.NewPending | src/connection.cpp:214-220 | a stream without credit waits at the back, not ready |
| Connections.Connection.ServePending | src/connection.cpp:190-201 | the stream at the head leaves the queue and joins the table |
| Connections.Connection.Apply | src/stream.cpp:52-163 | bytes sent on a stream, or a close, change that stream and its history only, and activate the trigger |
| Connections.Connection.ApplyPending | src/stream.cpp:76-84 | the same on a stream that waits: its history grows by the data, a close is remembered, and it stays fit to join |
| Connections.Connection.StreamAck | src/connection.cpp:597-605 | an unknown id is an error; otherwise the cursor gives up exactly the bytes, and whatever freed chunks append shows up in the unsent bytes and the history alike |
| Connections.Connection.EraseStream | src/connection.cpp:568-595 | the stream leaves the table, the records of what was written stay sound, and the connection is woken |
| EndpointRuns.InOrder | src/connection.cpp:342-361 | the map walk lists every key once in rising order |
| EndpointRuns.ServeIo | src/connection.cpp:241-246 | a flush on the objects is the machine's on the streams in map order; it keeps coherence, queues a callback exactly when it leaves packets over, touches only its own part of the wire, and calls the writer unless a resend will flush again |
| EndpointRuns.ServeResend | src/connection.cpp:299-303 | a resend callback is the machine's; the writer has been called, or a flush is coming, for everything appended or closed exactly when the resend met no hard error, or the trigger is active, or there was nothing new |
| EndpointRuns.ServeUser | src/stream.cpp:52-163 | a user's send, chunked send or close reaches its stream, with exactly the data sent; an unknown id changes nothing |
| EndpointRuns.ServeAssign | src/connection.cpp:185-205 | the first pending stream takes the id and leaves the queue |
| EndpointRuns.ServeReceived | src/endpoint.cpp:288-297 | every report ngtcp2 makes while it reads a packet takes effect, in order, and the connection is woken |
| EndpointRuns.ServeHappening | src/connection.cpp:162-246 | every event of one connection has its effect and keeps coherence, pairing, the others' part of the wire, and the pledge of a flush |
| EndpointRuns.TakeOut | src/endpoint.cpp:330-377 | connections share no objects, so serving one leaves the others as they are |
| EndpointRuns.PutBack | src/endpoint.cpp:330-377 | and a connection that was served by itself fits among the others again |
| EndpointRuns.SendOne | src/endpoint.cpp:379-402 | a one-shot packet is tried once and queued exactly when the socket is full |
| EndpointRuns.LocalEndpoint.Connect | src/connection.cpp:843-860 | a new connection starts awake, with nothing on the wire and no callback |
| EndpointRuns.LocalEndpoint.At | src/connection.cpp:162-246 | an event of one connection has its effect on that one, none on the others, and keeps the whole endpoint in order |
| EndpointRuns.LocalEndpoint.Resume | src/connection.cpp:299-303 | a resend callback does what the machine's does to its connection and nothing to the others; only a hard error can leave bytes without a flush coming |
| EndpointRuns.LocalEndpoint.SendOrQueue | src/endpoint.cpp:379-402 | a one-shot packet that the kernel takes follows the earlier ones on the wire; it is settled unless the socket was full, and waits otherwise |
| EndpointRuns.LocalEndpoint.Fire | src/udp.cpp:175-180 | the write event moves the queue to its handler without losing a callback |
| EndpointRuns.LocalEndpoint.Writeable | src/udp.cpp:175-180 | the handler runs every callback it took: each resend on its connection with the kernel's answer to it, each one-shot packet in order; a kernel that takes whole batches gets every packet that was left over |
| EndpointRuns.EverythingLeaves | src/udp.cpp:175-180 | if the kernel takes whole batches, the leftover packets of every connection follow on its part of the wire |
| EndpointRuns.CoherentDatagrams | src/connection.cpp:285-340 | packets produced are those that left followed by what the arrays decode to; they are the connection's part of the shared wire and the arrays exactly when nothing was dropped; drops come with a hard error and take the rest of their batch |
| EndpointRuns.CoherentStream | src/stream.cpp:109-114 | the bytes the writer took from a stream are exactly those before the object's write cursor, and sent_fin is set only on a closing stream |
| EndpointRuns.Promises | src/connection.cpp:285-510 | all of this for each connection of an endpoint in order, with one queued callback exactly while packets are left over |
| EndpointRuns.RunEndpoint | src/connection.cpp:285-510 | over every run of connections, streams, packets read, flushes, timers, one-shot packets and write events on real arrays, stream objects and one socket: every event had its effect; conservation, byte and FIN accounting, pairing, an armed event, one-shot packets settled or waiting, and a flush coming for everything new while resends meet no hard error |
| EndpointRuns.LostWakeup | src/connection.cpp:294-318 | a run after which bytes wait with no trigger active and no callback queued, because a resend met a hard error |
| StreamTable.ReleaseSuffices | src/connection.cpp:169-170 | after an extension nobody waits while credit is left, exactly when the credit survives the narrowing or the narrowed value covers everybody waiting |
| StreamTable.NarrowingStarves | src/connection.cpp:169-170 | a credit that narrows to zero leaves a waiting stream behind |
| StreamTable.ServeFirst | src/connection.cpp:192-200 | moving the head of the queue to the table keeps every stream in exactly one place under its own fresh id |
| StreamTable.OrderFirst | src/connection.cpp:190-201 | and keeps ids rising in creation order |
| StreamTable.EraseReturned | src/connection.cpp:588-592 | peer credit goes back once for a remote stream that is erased, and never for a local one |
| StreamTable.MissedReturned | src/connection.cpp:573-576 | a stream that ended but is not in the table was found before or had been refused, so nothing is due |
| StreamTable.OrphanOnce | src/stream.cpp:36-45 | a stream that loses its connection keeps close-once: destroyed with it, it has had its one call unless it was closed here |
| StreamTable.OrphanKeeps | include/quic/connection.hpp:156-160 | letting go of one held stream, from the queue or the table, keeps every stream where its state says |
| StreamTable.Table.GetNewStream | src/connection.cpp:207-229 | opens at once with the next id if there is credit, waits at the back otherwise; order is kept |
| StreamTable.Table.ServeOne | src/connection.cpp:192-200 | the stream at the head gets the next id and is ready; nothing else about it, and no other stream, changes |
| StreamTable.Table.CheckPendingStreams | src/connection.cpp:185-205 | serves from the front exactly as many as the argument, the queue and the credit allow, with the next ids in order; whatever else happened to a stream while it waited is kept, and every other stream is unchanged |
| StreamTable.Table.ExtendMaxLocalStreams | src/connection.cpp:162-173 | releases exactly what the narrowed credit covers, leaving all else about all streams alone; order survives exactly under the stated condition |
| StreamTable.Table.StreamOpened | src/connection.cpp:544-566 | an accepted stream joins the table; a refused one is closed, never reported and never entered |
| StreamTable.Table.StreamClosed | src/connection.cpp:568-595 | ends the stream, erases it and returns peer credit once; an unknown id changes nothing |
| StreamTable.Table.Close | src/stream.cpp:52-74 | takes effect once and never runs the close callback |
| StreamTable.Table.Destroy | src/stream.cpp:36-45 | a stream nobody holds any more, be it erased, refused or left behind by its connection, runs the close callback exactly if it was not closing |
| StreamTable.Table.Teardown | src/endpoint.cpp:185-196 | erasing the connection empties queue and table and lets go of exactly the streams held there; those without a user handle are ended and destroyed on the spot |
| StreamTable.RunTable | src/connection.cpp:162-229 | over every run, with the connection destroyed at any point: every event had its effect; a stream on which close() took effect never has its callback run, any other that is destroyed has had exactly one call; peer credit returned once exactly for remote streams not refused and ended; ids in creation order and no waiting beside credit while the credit ever granted fits an int |
| JobQueue.StepKeepsInv | src/network.cpp:196-227 | every atomic step keeps the order of jobs and the waker's promise: a queued job means an active waker, a producer about to activate it, or a loop about to swap |
| JobQueue.CallsAreKept | include/quic/network.hpp:85-97 | a call that may go ahead runs at once on the loop thread and joins the back of the queue from any other |
| JobQueue.RunInOrder | src/network.cpp:207-227 | over every interleaving the jobs that ran are the first ones enqueued, in order, each once, on the loop thread |
| JobQueue.QuietMeansDone | src/network.cpp:196-227 | when nothing is under way every enqueued job has run exactly once |
| JobQueue.LoopDrains | src/network.cpp:207-227 | from any reachable state the loop alone gets there once no producer is inside call_soon |
| JobQueue.Network.CallSoon | src/network.cpp:196-205 | pushes at the back and activates the waker, as the two steps of the machine |
| JobQueue.Network.Call | include/quic/network.hpp:85-97 | runs at once on the loop thread, queues from any other, and is a run of the machine |
| JobQueue.Network.ProcessJobQueue | src/network.cpp:207-227 | is a run of the machine: exactly the jobs queued at the swap run, in order, on the loop thread; what they queue waits, and the waker is active for it |
| Retransmit.NeverEarly | src/connection.cpp:524-535 | the timer is never early, less than a microsecond late, with its microsecond field in range |
| Retransmit.WhenItFires | src/connection.cpp:512-537 | the timer is stopped exactly without an expiry and fires at once exactly when the expiry has passed |

## Left out

- ngtcp2, packet encryption, congestion control and header decoding: only the oracle contracts above.
- TLS credentials and sessions, connection ids, addresses, logging, option contexts.
- Receiving: `recvmsg`, `stream_receive`, packet dispatch in the endpoint, version negotiation.
- The ECN value (`send_ecn`, `set_ecn`): it does not influence which packets are sent.
- Windows branches of `UDPSocket`.
- Shutdown (`close_connection`, `close_conns`, `Network::close`, `close_all`): unfinished in the source.
- Draining (`drain_connection`, `check_timeouts`): would only add easy members.
- Object lifetime: a stream, connection or socket destroyed with callbacks or chunks outstanding, and calls made off the loop thread that race with it; each public operation is one atomic step.
- The completion callback of `send_or_queue_packet`.
- `pkt_tx_timer_updater`: a call into ngtcp2 with no effect on packets or streams.
- Connections.Connection: the random starting point of a flush is a parameter, and credit and close callbacks are in `StreamTable.dfy`.
- EndpointRuns.RunEndpoint: a connection is not destroyed during a run; the end of a connection is in `StreamTable.dfy`. The retransmit timer may fire at any time, so when ngtcp2 sets it is not modelled.
- StreamTable.Table: stream objects are records in creation order, so user code running inside the close and open callbacks is not interleaved.
- JobQueue.Network: one call at a time; interleaving is in the step machine of the same module, of which every call is a run.
- Streams.Stream: a chunk sender is a table entry rather than a shared object, and a `done` callback is a finite script.
