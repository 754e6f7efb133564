# Mothra networking: verification model

A Dafny model of the parts of Mothra's network layer that keep state under concurrency of events,
with proofs about all inputs and all runs.

- **The RPC protocol handler** (`Handler*.dfy`). The per-connection state machine: lifecycle, dial
  queue with a cap and IO-error retry, two maps of substreams, two timer queues, queued responses,
  and a poll with nested loops and early returns. `HandlerModel` gives each method as a function on
  the values of the fields; the class in `Handler` works in place and is proved equal to it.
  `HandlerRuns` puts the handler into a world with a history of submissions, reports, messages and
  dials, in which the application, the peer, the timers and the connection act in any order.
  `HandlerTheorems`, `HandlerSilence` and `HandlerKeepAlive` state what every run keeps.
  `HandlerOutcomes` reads off what a poll finds what it returns, sends and leaves, and
  `HandlerDelivery`, `HandlerDials` and `HandlerInbound` lift that to runs: requests of the peer reach
  the application, its answers reach the sinks, its requests are dialed in order, and what comes back
  is what it is told. `HandlerWitnesses` gives runs in which these things happen. The timers that expire, the order of the hash maps and what
  the substreams answer are inputs, and the results hold for all of them. Of the connection it is
  assumed only that a dial is answered at most once. The number of responses a request expects is a
  parameter, so that multi-chunk responses are covered.
- **The streaming codecs** (`Varint`, `SnappyFrame`, `FrameGrammar`, `Codec*.dfy`). A pure parser that looks at all
  bytes, the incremental decoders as functions of a remembered code and length, and the codec objects
  over byte buffers. Lengths follow the multiformats unsigned-varint specification; frames follow
  sections 4.1 to 4.3 of the Snappy framing format, over an abstract block compression of which only
  `decompress(compress(x)) == x`, its output bound and a four-byte checksum are used. `FrameGrammar`
  and `CodecLimits` say of the bytes alone what is read and what is refused. `EndToEnd` joins the
  handler of the answering peer over the bytes of a substream to the application of the asking one.
- **Peer bookkeeping** (`HashSetDelay`, `PeerDB`, `PeerManager*.dfy`, `Discovery*.dfy`). A set with
  expiring members, the book of peers with its counter and eviction, the manager with its ping and
  status timers driven by swarm events, and the discovery queue. Time is an abstract number.

Where the code and its documentation disagree, the model follows the code:

- A retried dial does not give back its slot. A handler that ever retried keeps its connection alive
  for good, and after eight retries it never dials again.
- The keep-alive decision is not made again when a queued event or error is handed out. A handler with
  nothing left to do may therefore keep its connection alive without any retry, for instance after a
  goodbye of the peer or after a stream timed out; `GracePeriod` and `IdleGracePeriod` say exactly when.
- A stream that is closing keeps its timer, so a timeout may follow the last report of a request.
- The response encoder clears the buffer it is given, in which no run of the handler leaves anything,
  and leaves the response code in it when the payload is too large. An empty success payload can be encoded but not decoded, and a metadata
  request encodes to nothing.
- `update_timeout` does not refresh the instant stored with an entry; deadlines are those of the queue,
  and `StoredInstant` says exactly when the two differ.
- `connect_peer` swaps the directions. Connections we dialed do not pass through it, so that every
  connection of a run is booked as outgoing. One we dialed by address starts no timers. A dial event
  for a peer that is connected takes it off the book of connected peers: the failure of a dial during
  which the peer connected to us, or a dial by someone else than the manager, which itself dials
  disconnected peers only. After a failed one a status message starts a timer for a peer that is
  booked as disconnected.
- `QueryType::expired` compares the wrong way round: sanitizing the discovery queue keeps the
  out-of-date subnet queries and drops the others. No subnet query is queued in this version.

## Model

| member | source | states |
|---|---|---|
| `HandlerTheorems.RequestsAreNeverLost` | core/network/src/rpc/handler.rs:299-338 | In every reachable state the number of times a request identifier was submitted equals the number of places it is in: dial queue, dials in flight, waiting streams, queued errors, reported for good, or done in silence. |
| `HandlerTheorems.ResultsAreReports` | core/network/src/rpc/handler.rs:654-1115 | Over every run, the number of results of `poll` that carry a response to a request identifier or an error about it equals its last reports, its late timeouts and its chunks before the last report, so that "reported for good" is about what the application is handed. |
| `HandlerReports.PollReports` | core/network/src/rpc/handler.rs:654-1115 | A result of `poll` tells of a request exactly when a report for it is noted, and a late report is a timeout. |
| `HandlerReports.PollEmits` | core/network/src/rpc/handler.rs:654-1115 | Apart from chunks that leave their stream waiting and from late timeouts, a poll takes from the handler's load exactly what its result tells of, or dials. |
| `HandlerReports.RejectionIsQueued` | core/network/src/rpc/handler.rs:962-984 | A stream that stops waiting in a poll that does not report on it leaves the rejection of its request in the queue of errors. |
| `HandlerTheorems.ErrorsAreHandedOut` | core/network/src/rpc/handler.rs:654-674 | An error leaves the queue only as the result of a poll. |
| `HandlerTheorems.EndedIffNotWaiting` | core/network/src/rpc/handler.rs:960-1101 | The last report of a stream is made or queued exactly when it does not wait any more. |
| `HandlerSilence.AnswerableRequestsAreReported` | core/network/src/rpc/handler.rs:534-648 | Over every run no more requests are done in silence than were submitted to expect no response; once nothing of an identifier is queued, in flight or waiting, it was reported for good at least as often as it was submitted to be answered, and never more often than submitted. |
| `HandlerTheorems.LateTimeouts` | core/network/src/rpc/handler.rs:728-756 | A report after the last one is made exactly when nothing waits to be handed out, the inbound timers do not fail, and the outbound timer that expires first belongs to a stream that is closing. Its result is a timeout of that request; the last report of that very stream was made or queued before, and the queue is empty; and there is a last report for each such timeout. |
| `HandlerWitnesses.LateTimeoutHappens` | core/network/src/rpc/handler.rs:728-756 | A run in which a ping is answered and then reported as timed out. |
| `HandlerTheorems.OneMessagePerInboundStream` | core/network/src/rpc/handler.rs:761-958 | At most one message is ever handed to an inbound substream over a run; it is the first response the application gave or the timeout error, and the stream is flushing with `closing` set, closing or gone afterwards. |
| `HandlerTheorems.InboundStreamsOnlyMoveOn` | core/network/src/rpc/handler.rs:343-457 | No step of any kind moves an inbound stream back on its way from idle over sending and flushing to closing and gone. |
| `HandlerTheorems.NoIdleStreamLeaks` | core/network/src/rpc/handler.rs:514-525 | An idle inbound stream has nothing queued and a live timer that names it; a busy one will close after its send; none is ever left poisoned. |
| `HandlerTheorems.ChunkCountdown` | core/network/src/rpc/handler.rs:991-1040 | For a waiting stream, chunks delivered plus chunks still expected equal the number the request expects, for any number. |
| `HandlerTheorems.NoChunkTooMany` | core/network/src/rpc/handler.rs:554-582 | Over a run no stream delivers more chunks than its request expects. |
| `HandlerTheorems.NoChunkAfterTheEnd` | core/network/src/rpc/handler.rs:991-1040 | A chunk, or a last report, comes only from a stream without a last report so far; a stream gets one by being reported on or by having its rejection queued, and its record never changes afterwards. |
| `HandlerTheorems.NoChunksToday` | core/network/src/rpc/protocol.rs:254-261 | In every run with requests of this version the chunk-countdown branch is never taken. |
| `HandlerTheorems.TodaysRequests` | core/network/src/rpc/protocol.rs:254-261 | Every request of this version expects at most one response, and only a goodbye expects none. |
| `HandlerTheorems.TimeoutsAreNotEarly` | core/network/src/rpc/handler.rs:728-756 | A stream is reported as timed out only when its request, or its latest chunk, is at least `RESPONSE_TIMEOUT` old. |
| `HandlerTheorems.DialAccounting` | core/network/src/rpc/handler.rs:600-620 | `dial_negotiated` equals dials in flight plus retries made, is at most 8, and is positive whenever a dial is answered; retries are at most twice the failures plus the current count, and at most 8 in a life. |
| `HandlerTheorems.AnswersAreExpected` | core/network/src/rpc/handler.rs:534-539 | An answer can be processed without underflow of the counter exactly if there is such a dial in flight. |
| `HandlerTheorems.EightRetriesStopDialing` | core/network/src/rpc/handler.rs:1103-1113 | A handler that made eight retries has no dial in flight and never dials again, in any continuation of its run. |
| `HandlerTheorems.DialsIffSlotLeft` | core/network/src/rpc/handler.rs:1103-1113 | A poll dials only the oldest queued request; one that has nothing else to return dials exactly if a request is queued and dials in flight and retries ever made are fewer than eight together. |
| `HandlerWitnesses.EightRetriesHappen` | core/network/src/rpc/handler.rs:600-620 | A run of four requests whose dials fail with IO errors, which reaches eight retries with a request left in the queue. |
| `HandlerTheorems.KeepAliveSound` | core/network/src/rpc/handler.rs:464-487 | Whenever keep-alive is `Until`, the dial queue and both substream maps are empty, no dial is in flight and the counter is 0, although not every change calls `update_keep_alive`. |
| `HandlerKeepAlive.GracePeriod` | core/network/src/rpc/handler.rs:464-487 | After every run keep-alive is `Until` exactly if that can be read off the steps of the run, what they found and what they left, starting from none. |
| `HandlerKeepAlive.KeepAliveStep` | core/network/src/rpc/handler.rs:464-487 | The rule of one step: responses, peer requests after shutdown, polls that hand something out and polls with nothing on the network leave the decision as it was; any other step makes it afresh, from what is left and from whether a dial was ever retried. A failed dial makes it before its error is queued. |
| `HandlerKeepAlive.IdleGracePeriod` | core/network/src/rpc/handler.rs:464-487 | A step that leaves nothing to do leaves the documented grace period running exactly if no dial was ever retried, when the step updates the decision, and exactly if it ran before, when it does not. |
| `HandlerKeepAlive.UpdateDecides` | core/network/src/rpc/handler.rs:464-487 | `update_keep_alive` starts the period when there is nothing to do, lets one that runs go on, calls it off otherwise, and changes nothing else. |
| `HandlerWitnesses.GoodbyeKeepsTheConnection` | core/network/src/rpc/handler.rs:502-532 | A run in which the peer says goodbye, and the handler has nothing to do, never retried and keeps its connection alive. |
| `HandlerWitnesses.TimeoutKeepsTheConnection` | core/network/src/rpc/handler.rs:693-726 | The same after a stream of the peer timed out and was closed in one poll. |
| `HandlerTheorems.OneRetryForEver` | core/network/src/rpc/handler.rs:608-617 | A handler that retried a dial never has keep-alive `Until` again, in any continuation of its run. |
| `HandlerWitnesses.OneRetryKeepsTheConnection` | core/network/src/rpc/handler.rs:608-617 | A run with one retried dial after which nothing is left to do and the connection is kept alive. |
| `HandlerTheorems.ShutdownDrains` | core/network/src/rpc/handler.rs:299-321 | After leaving Active: never back, no new inbound stream, nothing added to the dial queue and one dial in it at most, and a weighted count of dials and stream stages never increases. |
| `HandlerTheorems.OnlyTheFinalMessage` | core/network/src/rpc/handler.rs:299-321 | After `shutdown`, in any continuation, the dial queue holds the final message it was given or nothing. |
| `HandlerTheorems.DeactivatedIsSilent` | core/network/src/rpc/handler.rs:679-691 | A deactivated handler stays so and starts no message in any later step. |
| `HandlerTheorems.ReachableRun` | core/network/src/rpc/handler.rs:490-1116 | Every continuation of a run from a reachable state ends in a reachable state, with at least as many retries. |
| `HandlerTheorems.StreamsServeSubmissions` | core/network/src/rpc/handler.rs:534-591 | Over every run each outbound stream, each dial in flight and each queued dial is for a request that was submitted, unchanged. |
| `HandlerOutcomes.PollReturns` | core/network/src/rpc/handler.rs:654-1115 | What a poll returns, for every state and every answer of timers and streams: the oldest error or request that waits; else a failed inbound timer; else the timeout of the outbound stream whose timer expired first; else a failed outbound timer; else the error of the first sink that fails; else what the first waiting outbound stream yields, told about the request it was opened for; else the oldest dial; else nothing. And the stream it reports on is that one. |
| `HandlerOutcomes.PollLifecycle` | core/network/src/rpc/handler.rs:679-691 | A poll deactivates the handler exactly if it has nothing to hand out and the deadline of the shutdown has come. |
| `HandlerOutcomes.InboundFates` | core/network/src/rpc/handler.rs:758-958 | A poll that gets to the inbound streams takes each as far as its sink lets it: exactly if the sink is ready, the message the stream holds is started, alone; then the stream flushes, closes or goes. Otherwise streams are left alone, but for those whose timer expired. |
| `HandlerOutcomes.OutboundFates` | core/network/src/rpc/handler.rs:960-1101 | In a poll without a result about an outbound stream, a stream that waits goes on waiting unless the handler is dead, and a closing one goes exactly if it is closed. |
| `HandlerOutcomes.StreamIsReported` | core/network/src/rpc/handler.rs:991-1060 | A stream whose response is told waits for one chunk fewer, or is to be closed after the last one or an error; one that broke or ended is dropped. |
| `HandlerOutcomes.PollQueues` | core/network/src/rpc/handler.rs:693-984 | The errors a poll leaves in the queue: timeouts of the expired inbound streams, in order, and rejections of the streams of a dead handler. |
| `HandlerDelivery.LifecycleStep` | core/network/src/rpc/handler.rs:299-321 | The lifecycle changes in two ways only: an active handler is told to shut down within 15 seconds, and the first poll after these that has nothing to hand out deactivates it. |
| `HandlerDelivery.RequestsReachTheApplication` | core/network/src/rpc/handler.rs:502-532 | Over every run the requests handed to the application, followed by those that wait to be, are exactly those accepted from the peer while active: in order, once each, unchanged, whether or not a stream is kept. |
| `HandlerDelivery.IdentifiersAreFresh` | core/network/src/rpc/handler.rs:526-531 | The requests of the peer are numbered from zero, without repetition. |
| `HandlerDelivery.AcceptedStream` | core/network/src/rpc/handler.rs:502-532 | A request that expects responses gets an idle stream under its number, with its protocol and a timer of its own due in ten seconds; one that expects none gets no stream; the other streams are unaffected. |
| `HandlerDelivery.ReadySinkGetsMessage` | core/network/src/rpc/handler.rs:783-850 | In every reachable state, a poll that gets to the ready sink of a stream with a message starts that message and no other on it; the stream is flushing or further afterwards exactly as the sink took or refused it. |
| `HandlerDelivery.ReadySinkGetsTimeout` | core/network/src/rpc/handler.rs:693-726 | The same for an idle stream whose timer expires, with the timeout error. |
| `HandlerDelivery.TheFirstAnswerIsSent` | core/network/src/rpc/handler.rs:343-457 | The answer given to an idle stream waits for its sink or was handed to it, in every continuation of the run, unless the handler was deactivated or the connection closed. |
| `HandlerDelivery.TheApplicationIsTold` | core/network/src/rpc/handler.rs:728-1101 | Whenever a poll reports on an outbound stream, its result is what that stream yielded, or a timeout, about the request the stream was opened for, with the identifier and protocol it was submitted with. |
| `HandlerDelivery.AnswersAreReported` | core/network/src/rpc/handler.rs:985-1076 | A poll that has nothing else to return reports on the first stream in the order of the hash map that has something for the application, with what it yielded. |
| `HandlerDelivery.StepQueues` | core/network/src/rpc/handler.rs:299-648 | The errors each call other than poll queues: rejections of a cleared queue from its end, of a request or a negotiated dial that came too late, an error response with its code and text, and the cause of a failed dial, each of its kinds as the RPC error it is. |
| `HandlerDials.StepDials` | core/network/src/rpc/handler.rs:299-338 | A shutdown replaces the dial queue by its final message; otherwise a request or a retried dial is added at its end, and a poll takes its head. |
| `HandlerDials.RequestsAreDialedInOrder` | core/network/src/rpc/handler.rs:324-338 | As long as no shutdown clears the queue, what was dialed, followed by what waits, is exactly what was queued, in order. |
| `HandlerInbound.AnswersReachIdleStreams` | core/network/src/rpc/handler.rs:343-457 | An answer changes the stream it is for if that is idle and the handler not deactivated, and no other stream, timer or state. |
| `HandlerInbound.PollKeepsStreams` | core/network/src/rpc/handler.rs:693-958 | In every poll the streams of the peer that stay keep their protocol, and their timer with its deadline unless it expired; none is new. |
| `HandlerWitnesses.AnAnswerIsSent` | core/network/src/rpc/handler.rs:783-850 | A run in which the peer asks for a status, is answered, and the answer is handed to the sink. |
| `HandlerRuns.RunInv` | core/network/src/rpc/handler.rs:490-1116 | After every legal run: the invariant as long as the connection is open, and no poisoned stream and the outbound bijection even when it was closed; request accounting, late timeouts, dial accounting, message history and chunk history. |
| `HandlerInvariant.PollInv` | core/network/src/rpc/handler.rs:654-1115 | One poll that does not close the connection, whatever timers, sinks and streams answer, keeps the invariant: timers and streams in bijection, stream states, keep-alive, lifecycle. |
| `HandlerInvariant.PollClean` | core/network/src/rpc/handler.rs:654-1115 | Every poll, including those that return early to close the connection, leaves no stream poisoned and outbound streams and timers in bijection. |
| `HandlerInvariant.ShutdownInv` | core/network/src/rpc/handler.rs:299-321 | `shutdown` keeps the invariant. |
| `HandlerInvariant.SendRequestInv` | core/network/src/rpc/handler.rs:324-338 | `send_request` keeps the invariant. |
| `HandlerInvariant.SendResponseInv` | core/network/src/rpc/handler.rs:343-457 | `send_response` keeps the invariant in every stream state. |
| `HandlerInvariant.InjectInboundInv` | core/network/src/rpc/handler.rs:502-532 | A new inbound stream gets a fresh timer; the invariant is kept. |
| `HandlerInvariant.InjectOutboundInv` | core/network/src/rpc/handler.rs:534-591 | A negotiated outbound stream gets a fresh timer and is never a duplicate; the invariant is kept. |
| `HandlerInvariant.InjectDialErrorInv` | core/network/src/rpc/handler.rs:600-648 | A failed dial keeps the invariant, retried or not. |
| `HandlerInvariant.FireInboundsInv` | core/network/src/rpc/handler.rs:693-726 | Expired inbound timers always name a live stream; the invariant is kept. |
| `HandlerInvariant.FireOutboundsInv` | core/network/src/rpc/handler.rs:728-756 | An expired outbound timer takes its stream with it; the invariant is kept. |
| `HandlerInvariant.DriveStreamsInv` | core/network/src/rpc/handler.rs:758-958 | Driving all inbound streams keeps the invariant unless the connection is closed on the way. |
| `HandlerInvariant.DriveOutboundsInv` | core/network/src/rpc/handler.rs:960-1101 | Driving all outbound streams keeps the invariant, whichever result ends the loop. |
| `HandlerModel.DriveOnceProgress` | core/network/src/rpc/handler.rs:766-957 | A turn of the inbound drive loop that asks for another one takes a queued response or brings the stream closer to its end, even for sends with `closing` unset: the loop ends. |
| `HandlerAccounting.PollBalanced` | core/network/src/rpc/handler.rs:654-1115 | What one poll notes as reported, or dials, for a request identifier is exactly what the handler lets go of; `PollReports` ties the notes to the results. |
| `HandlerAccounting.ShutdownGains` | core/network/src/rpc/handler.rs:299-321 | `shutdown` turns every queued dial into one queued error and takes on the final message, nothing else. |
| `HandlerAccounting.SendRequestGains` | core/network/src/rpc/handler.rs:324-338 | A request is queued for dialing or rejected: one more place for its identifier. |
| `HandlerAccounting.InjectOutboundGains` | core/network/src/rpc/handler.rs:534-591 | A negotiated dial becomes a waiting stream, a rejection, or nothing if it expects no response. |
| `HandlerAccounting.InjectDialErrorGains` | core/network/src/rpc/handler.rs:600-648 | A failed dial is queued again or reported: one place for its identifier. |
| `HandlerStreams.FireInboundCommits` | core/network/src/rpc/handler.rs:205-251 | Expiry of an inbound timer, in any state, leaves its stream closing or committed to close after its send, and reports one timeout. |
| `HandlerStreams.PollInbound` | core/network/src/rpc/handler.rs:693-958 | In one poll no inbound stream moves back, at most one message starts on each, only from streams before their flush, and none when deactivated. |
| `HandlerStreams.PollEvolves` | core/network/src/rpc/handler.rs:728-1101 | In one poll a chunk report counts its stream down and renews its timer, a last report ends a waiting stream, a late timeout removes a closing one, and no other stream's countdown or deadline changes. |
| `HandlerStreams.PollDials` | core/network/src/rpc/handler.rs:1103-1113 | A poll dials only from the queue, within the cap, and counts it. |
| `HandlerStreams.SendResponseSinks` | core/network/src/rpc/handler.rs:343-457 | Responding moves only the stream it is for, and only forward; what it holds is the first response given. |
| `Handler.RPCHandler.Shutdown` | core/network/src/rpc/handler.rs:299-321 | When active, every queued dial becomes a rejection, the final message alone is queued and the shutdown timer starts; the fields end up as the specification function says, and `Valid` is kept. |
| `Handler.RPCHandler.SendRequest` | core/network/src/rpc/handler.rs:324-338 | Queued for dialing when active, rejected with an error otherwise; equal to the specification function, `Valid` kept. |
| `Handler.RPCHandler.SendResponse` | core/network/src/rpc/handler.rs:343-457 | An error is reported back; an idle stream takes the response, a busy one queues it or is told to close, a deactivated handler drops it. The state is taken out and put back: no stream stays poisoned. Equal to the specification function, `Valid` kept. |
| `Handler.RPCHandler.UpdateKeepAlive` | core/network/src/rpc/handler.rs:464-487 | Sets only the keep-alive decision, as the specification function says. |
| `Handler.RPCHandler.InjectFullyNegotiatedInbound` | core/network/src/rpc/handler.rs:502-532 | Registers an inbound substream with its timer unless it needs no response, and hands on the very request under the number of its stream; nothing when not active. Equal to the specification function, `Valid` kept. |
| `Handler.RPCHandler.InjectFullyNegotiatedOutbound` | core/network/src/rpc/handler.rs:534-591 | Gives back the slot and registers the stream with its timer and countdown, or rejects it when deactivated; the duplicate-identifier branch is dead. Equal to the specification function, `Valid` kept. |
| `Handler.RPCHandler.InjectDialUpgradeError` | core/network/src/rpc/handler.rs:600-648 | An IO error is retried twice without giving back the slot; anything else is reported. Equal to the specification function, `Valid` kept. |
| `Handler.RPCHandler.CloseInbound` | core/network/src/rpc/handler.rs:205-251 | `InboundSubstreamState::close` on a stream and its queue. |
| `Handler.RPCHandler.PollInboundTimers` | core/network/src/rpc/handler.rs:693-726 | The loop over expired inbound timers; every one names a stream in the books. |
| `Handler.RPCHandler.PollOutboundTimers` | core/network/src/rpc/handler.rs:728-756 | The loop over expired outbound timers, up to the first report. |
| `Handler.RPCHandler.ApplyQueuedResponses` | core/network/src/rpc/handler.rs:1119-1141 | Takes the oldest queued response, or lets the stream rest. |
| `Handler.RPCHandler.DriveInboundStream` | core/network/src/rpc/handler.rs:761-958 | The drive loop of one stream terminates and does what the specification function says, whose sends and stages are the subject of `InboundFates` and `ReadySinkGetsMessage`. |
| `Handler.RPCHandler.DriveInboundStreams` | core/network/src/rpc/handler.rs:758-958 | All inbound streams in hash-map order, up to a failed sink; `InboundFates` says what becomes of each. |
| `Handler.RPCHandler.DriveOutboundStream` | core/network/src/rpc/handler.rs:961-1101 | One outbound stream: when it waits, the handler is not dead and it has something, the result is exactly that, about its request; otherwise none. |
| `Handler.RPCHandler.DriveOutboundStreams` | core/network/src/rpc/handler.rs:960-1101 | All outbound streams in hash-map order, up to the first that has something for the application, of which the result is. |
| `Handler.RPCHandler.EstablishOutbound` | core/network/src/rpc/handler.rs:1103-1114 | Dials the oldest queued request if a slot is free. |
| `Handler.RPCHandler.Poll` | core/network/src/rpc/handler.rs:654-1115 | The whole poll, with every early return, is total and equals the specification function: no unreachable arm is reached. Its result is the one that `PollReturns` reads off the state and the answers. It ends in a valid state unless it closes the connection, and even then no stream is poisoned and outbound streams and timers agree. |
| `Methods.CodeRoundTrip` | core/network/src/rpc/methods.rs:174-241 | The wire code tells success from error, and an error response is rebuilt from its code and text. |
| `CodecLimits.ChunkIsRead` | core/network/src/rpc/codec/base.rs:116-149 | A chunk of any code and any payload within the limit, whatever follows, is read as the response that code and protocol announce, 0 for success, 1, 2 and anything else for the three errors, or refused as invalid if it is an empty success or has no response. |
| `CodecLimits.RequestIsRead` | core/network/src/rpc/codec/snappy.rs:83-157 | The same for requests: empty ones are invalid except on the metadata protocol, where only empty ones are valid. |
| `CodecLimits.FirstByte` | core/network/src/rpc/methods.rs:176-183 | The first byte of an encoded response is 0, 1, 2 or 255, as its kind demands. |
| `CodecLimits.LengthDigits` | core/network/src/rpc/codec/snappy.rs:62-66 | A length is written in its digits to the base 128, least significant first, with the highest bit set in every byte but the last. |
| `CodecLimits.LengthRead` | core/network/src/rpc/codec/snappy.rs:84-92 | A length is malformed if and only if nine bytes all say that more follow or the last one adds nothing, and incomplete if and only if fewer bytes all say so. |
| `CodecLimits.LengthOutcome` | core/network/src/rpc/codec/snappy.rs:84-92 | A malformed length is an IO error, and an incomplete one waits for more bytes. |
| `CodecLimits.FrameOutcome` | core/network/src/rpc/codec/snappy.rs:100-156 | Behind a length within the limit the frame decides: its data, more bytes needed, or an IO error. |
| `CodecLimits.OversizedChunkIsRefused` | core/network/src/rpc/codec/snappy.rs:240-243 | Over all cuts of the bytes: of a stream in which a chunk that announces more bytes than the limit follows faithful responses, exactly these are yielded, and then it fails as invalid data, whatever follows. |
| `CodecLimits.OversizedRequestIsRefused` | core/network/src/rpc/codec/snappy.rs:96-99 | A request that announces more bytes than the limit is refused as invalid data, over all cuts. |
| `CodecLimits.RefusedAtOnce` | core/network/src/rpc/codec/snappy.rs:311-314 | For the refusal the code and the length are enough. |
| `CodecLimits.NothingLargerThanTheLimit` | core/network/src/rpc/codec/snappy.rs:240-293 | Whatever bytes arrive in whatever pieces, everything a decoder yields was made of a payload within the limit. |
| `FrameGrammar.ReadIffHolds` | core/network/src/rpc/codec/snappy.rs:100-108 | The reader yields the wanted bytes if and only if they are the front of the data of a stream in the framing format: an identifier first, chunks with their lengths, skippable ones skipped, every checksum right; and it takes exactly the chunks they end in. |
| `FrameGrammar.BrokenStream` | core/network/src/rpc/codec/snappy.rs:144-156 | A stream that breaks before the wanted bytes are complete is refused: no identifier, a reserved type, a chunk that is too short, too large, not decompressed or with a wrong checksum. |
| `FrameGrammar.WriteIsStream` | core/network/src/rpc/codec/snappy.rs:68-74 | What the frame encoder writes is such a stream: the identifier and the blocks of the payload, all but the last of 65536 bytes, compressed where that pays; and nothing for an empty payload. |
| `Varint.RoundTrip` | core/network/src/rpc/codec/snappy.rs:62-66 | A length that was written is read back, whatever bytes follow. |
| `Varint.Truncated` | core/network/src/rpc/codec/snappy.rs:84-92 | Part of a length asks for more bytes. |
| `Varint.Canonical` | core/network/src/rpc/codec/snappy.rs:84-92 | A length that is read has exactly one encoding, the one that was read, in at most nine bytes. |
| `Varint.Stable` | core/network/src/rpc/codec/snappy.rs:84-92 | Bytes that come later change neither a length nor an error. |
| `SnappyFrame.ReadStable` | core/network/src/rpc/codec/snappy.rs:100-156 | Bytes that come later change neither data that was read nor a corrupt stream; only an early end is provisional. |
| `SnappyFrame.ReadSize` | core/network/src/rpc/codec/snappy.rs:100-108 | A read yields as many bytes as asked for and takes no more than there are. |
| `SnappyFrame.WriteRead` | core/network/src/rpc/codec/snappy.rs:68-74 | What the frame encoder wrote is read back, taking exactly what was written. |
| `CodecProofs.BodyRefines` | core/network/src/rpc/codec/snappy.rs:83-157 | One call of a decoder that may have read the length in an earlier call does what the one-shot parser does on all bytes of the body. |
| `CodecProofs.ResponseRefines` | core/network/src/rpc/codec/base.rs:116-149 | One call of the response decoder, with its remembered code and its refusal to look at a single byte, does what the one-shot parser does on all bytes of the chunk. |
| `CodecProofs.DrainRefines` | core/network/src/rpc/codec/base.rs:116-149 | Calling the decoder as long as it yields responses reads all responses at the front of the bytes at hand. |
| `CodecProofs.ParseAllAppend` | core/network/src/rpc/codec/base.rs:116-149 | Reading bytes in two goes yields what reading them at once yields. |
| `CodecProofs.FragmentationIndependence` | core/network/src/rpc/codec/base.rs:116-149 | However a response stream is cut into pieces, the decoder yields the responses of one look at all bytes, up to the first error, that error, and the same bytes left over. |
| `CodecProofs.CutsDoNotMatter` | core/network/src/rpc/codec/base.rs:116-149 | Two ways to cut the same bytes yield the same responses and the same error. |
| `CodecProofs.ParseResponseStable` | core/network/src/rpc/codec/snappy.rs:227-334 | Once a response or an error is recognised, later bytes do not change it. |
| `CodecRoundTrips.BodyRoundTrip` | core/network/src/rpc/codec/snappy.rs:45-75 | A body of at most `max_packet_size` bytes is parsed back, using exactly its own bytes. |
| `CodecRoundTrips.ResponseRoundTrip` | core/network/src/rpc/codec/base.rs:70-78 | A response the encoder accepts is decoded to itself, using exactly its bytes, if and only if its success payload is non-empty and of the codec's protocol, or its error text is valid UTF-8; otherwise it ends in an error or as another response. |
| `CodecRoundTrips.ListRoundTrip` | core/network/src/rpc/codec/base.rs:116-149 | Responses written back to back are read as that list with nothing left over if and only if each of them meets that condition. |
| `CodecRoundTrips.ResponsesArrive` | core/network/src/rpc/codec/base.rs:116-149 | Such a list arrives under any fragmentation and leaves the decoder as new. |
| `CodecRoundTrips.RequestRoundTrip` | core/network/src/rpc/codec/snappy.rs:188-215 | A request the encoder accepts is decoded to itself if and only if it carries data and belongs to the codec's protocol; a metadata request is an empty stream and is not. |
| `CodecRoundTrips.RequestFragmentation` | core/network/src/rpc/codec/snappy.rs:83-157 | Under any fragmentation the request decoder finds what one look at all bytes finds, and leaves what follows untouched. |
| `CodecRoundTrips.RequestArrives` | core/network/src/rpc/codec/snappy.rs:83-157 | Every non-empty request of the codec's protocol arrives under any fragmentation; following bytes stay where they are. |
| `CodecRoundTrips.LengthPrefix` | core/network/src/rpc/protocol.rs:24 | The length in front of a payload of at most `MAX_RPC_SIZE` bytes takes one to three bytes. |
| `CodecRoundTrips.NetworkLimitUsable` | core/network/src/rpc/protocol.rs:173 | The limit the network gives its codecs meets the assumption of the codec results. |
| `EndToEnd.NothingIsOverwritten` | core/network/src/rpc/codec/base.rs:70-78 | In every run of the handler, whatever is flushed when, the buffer the response encoder clears is empty: nothing was written to the substream before. |
| `EndToEnd.TheAnswerArrives` | core/network/src/rpc/codec/base.rs:70-149 | Over all runs of the answering handler, all flushes and all cuts of the bytes: the message started on a substream is the first answer or the timeout error, and the decoder of the asking peer yields exactly that message and is left as new, if and only if the message is faithful. |
| `EndToEnd.RefusedAnswersDoNotArrive` | core/network/src/rpc/codec/snappy.rs:57-61 | A message that is too large leaves its response code on the wire, from which the asking peer decodes nothing. |
| `EndToEnd.WhatIsFedIsTold` | core/network/src/rpc/handler.rs:985-1076 | What the decoder makes of the bytes of an outbound stream, in whatever pieces they come, is what the poll tells the application: the first response or error under the identifier of its request, a decoding error as it is, and an incomplete stream if it ends without either. |
| `EndToEnd.TheAnswerIsTold` | core/network/src/rpc/handler.rs:1019-1040 | From the answer of one application, or the timeout, to the result of the poll that tells the other: over all runs on both sides, all flushes and all cuts, for every faithful message. |
| `EndToEnd.OversizedIsTold` | core/network/src/rpc/codec/snappy.rs:311-314 | A response that announces more bytes than the limit is told as invalid data, about the request it answers. |
| `EndToEnd.RefusedIsTold` | core/network/src/rpc/codec/snappy.rs:57-61 | A message the encoder refused is told as an incomplete stream once the stream ends. |
| `Codec.BaseInboundCodec.Encode` | core/network/src/rpc/codec/base.rs:70-78 | Empties the buffer first, losing unsent bytes, and leaves the encoding of the response; if the payload is too large, an error and the response code alone. |
| `Codec.BaseInboundCodec.Decode` | core/network/src/rpc/codec/base.rs:89-91 | Equals the request decoder of the model, which refuses lengths beyond the limit: `OversizedRequestIsRefused`. |
| `Codec.BaseOutboundCodec.Encode` | core/network/src/rpc/codec/base.rs:103-105 | Appends the encoding of the request, or leaves the buffer alone and fails. |
| `Codec.BaseOutboundCodec.Decode` | core/network/src/rpc/codec/base.rs:116-149 | State, buffer and result equal those of the response decoder of the model, which `ChunkIsRead` and `OversizedChunkIsRefused` describe. |
| `Codec.SnappyInboundCodec.Encode` | core/network/src/rpc/codec/snappy.rs:45-75 | Appends length and frame of the payload, or leaves the buffer alone and fails if it is too large. |
| `Codec.SnappyInboundCodec.Decode` | core/network/src/rpc/codec/snappy.rs:83-157 | State, buffer and result equal those of the request decoder of the model, which `RequestIsRead` and `OversizedRequestIsRefused` describe. |
| `Codec.SnappyOutboundCodec.Encode` | core/network/src/rpc/codec/snappy.rs:188-215 | Appends length and frame of the request's data, nothing for a metadata request. |
| `Codec.SnappyOutboundCodec.Decode` | core/network/src/rpc/codec/snappy.rs:227-293 | State, buffer and result equal those of the success decoder of the model; a goodbye has no response. |
| `Codec.SnappyOutboundCodec.DecodeError` | core/network/src/rpc/codec/snappy.rs:298-334 | State, buffer and result equal those of the error decoder of the model; empty texts are accepted, texts beyond the limit refused. |
| `HashSetDelay.HashSetDelay.InsertAt` | core/network/src/hashset_delay.rs:66-78 | In terms of the plain map: the member gets the deadline, whether it was there or not; map and queue stay linked. |
| `HashSetDelay.HashSetDelay.UpdateTimeout` | core/network/src/hashset_delay.rs:100-107 | Moves the deadline of a member and says whether there was one; the stored instant is not refreshed. |
| `HashSetDelay.HashSetDelay.Remove` | core/network/src/hashset_delay.rs:112-118 | Removes the member from map and queue and says whether it was there. |
| `HashSetDelay.HashSetDelay.Retain` | core/network/src/hashset_delay.rs:123-132 | Keeps exactly the members that satisfy the predicate, with their deadlines. |
| `HashSetDelay.HashSetDelay.Clear` | core/network/src/hashset_delay.rs:135-138 | Empties both. |
| `HashSetDelay.HashSetDelay.PollNext` | core/network/src/hashset_delay.rs:152-164 | Yields a member whose deadline has passed, if there is one, and removes it; the error "Value no longer exists" is unreachable. |
| `HashSetDelay.SameMembers` | core/network/src/hashset_delay.rs:22-26 | The hash map and the timer queue have the same number of members when linked. |
| `HashSetDelay.HashSetDelay.StoredInstant` | core/network/src/hashset_delay.rs:80-107 | The instant stored with a member is its deadline if and only if the call that set the deadline last gave the same one as the insertion. |
| `HashSetDelay.StaleInstant` | core/network/src/hashset_delay.rs:97-107 | A run in which they differ. |
| `HashSetDelay.HashSetDelay.YieldsInTime` | core/network/src/hashset_delay.rs:152-164 | Whatever calls an object went through, each member it yielded it yielded after the latest deadline it was given. |
| `HashSetDelay.HashSetDelay.YieldsOncePerArming` | core/network/src/hashset_delay.rs:152-164 | Between two yields of a member by an object the member was inserted again. |
| `HashSetDelay.Extend` | core/network/src/hashset_delay.rs:46-165 | A run of calls stays possible when a possible call is added, and its deadlines are those the call leads to. |
| `HashSetDelay.NeverEarly` | core/network/src/hashset_delay.rs:152-164 | In every possible run of calls a member is yielded only after the deadline that was given last. |
| `HashSetDelay.OncePerArming` | core/network/src/hashset_delay.rs:152-164 | In every possible run of calls a member was inserted again between two yields of it. |
| `PeerDB.ConnectCounts` | core/network/src/peer_manager/peer_info.rs:179-197 | Either kind of connection adds one to its own counter and leaves the other alone, and makes it the only one from any other state. |
| `PeerDB.PeerDB.Leave` | core/network/src/peer_manager/peerdb.rs:212-221 | Any move to a state other than disconnected changes the status of the peer alone: it keeps reputation and ttl, or starts with 50 and none, and other peers are untouched; the counter stays exact, and the saturating subtraction never saturates. |
| `PeerDB.PeerDB.DialingPeer` | core/network/src/peer_manager/peerdb.rs:212-221 | Books the peer as being dialed and changes nothing else of the book; the counter stays exact. |
| `PeerDB.PeerDB.ConnectIngoing` | core/network/src/peer_manager/peerdb.rs:260-267 | Books one more ingoing connection and changes nothing else of the book; the counter stays exact. |
| `PeerDB.PeerDB.ConnectOutgoing` | core/network/src/peer_manager/peerdb.rs:270-277 | Books one more outgoing connection and changes nothing else of the book; the counter stays exact. |
| `PeerDB.PeerDB.Ban` | core/network/src/peer_manager/peerdb.rs:312-323 | Books the peer as banned and changes nothing else of the book; the counter stays exact. |
| `PeerDB.PeerDB.Disconnect` | core/network/src/peer_manager/peerdb.rs:280-292 | Books a peer as disconnected unless it is banned, with reputation and ttl as they were; the counter is exact and at most 30; one peer is forgotten if there are too many and none otherwise, a disconnected one of lowest reputation in the book as it was before. |
| `PeerDB.PeerDB.ShrinkToFit` | core/network/src/peer_manager/peerdb.rs:296-309 | From any state in which the counter counts: removes exactly the surplus of disconnected peers, none that stays has a lower reputation than one that went, and a peer to drop is always found. |
| `PeerDB.ShrunkByOne` | core/network/src/peer_manager/peerdb.rs:294-309 | With at most one disconnected peer too many, at most one is forgotten and nothing else changes. |
| `PeerDB.PeerDB.UpdateMinTtl` | core/network/src/peer_manager/peerdb.rs:224-237 | Only a later time replaces the recorded one; reputation, status and other peers are untouched, and the counter is unaffected. |
| `PeerDB.PeerDB.AddReputation` | core/network/src/peer_manager/peerdb.rs:344-363 | Reputations saturate at 0 and 255; unknown peers stay unknown; the counter is unaffected. |
| `PeerDB.ClosestReputation` | core/network/src/peer_manager/peerdb.rs:344-363 | The new reputation is the one closest to what was asked for, of those a byte can hold. |
| `PeerDB.ShrunkEvicts` | core/network/src/peer_manager/peerdb.rs:280-309 | The loss of a peer, against the book as it was before: whoever stays keeps reputation and ttl, the peer that left has the status asked for, one peer is forgotten exactly if more than 30 would be disconnected, and by the old book no disconnected peer that stays has a lower reputation than it. |
| `PeerManagerBook.BookStep` | core/network/src/service.rs:255-342 | Entry by entry, what each swarm event makes of the book: a first connection or a dial changes the status of its peer alone, the loss of one parts the peer, a poll changes ttls alone. |
| `PeerManagerBook.ReputationsStay` | core/network/src/peer_manager/peerdb.rs:212-323 | No swarm event changes a reputation; a peer that is new to the book has 50. |
| `PeerManagerBook.UnreportedReputations` | core/network/src/peer_manager/peerdb.rs:22-70 | Over every run of swarm events every reputation is 50: any other comes from a report. |
| `PeerManagerBook.TtlsOnlyGrow` | core/network/src/peer_manager/peerdb.rs:224-237 | A ttl is changed by results of discovery alone, and only to a later time. |
| `PeerManagerBook.DeadlinesStep` | core/network/src/peer_manager/mod.rs:451-476 | The deadline of each timer after each event: 30 and 300 seconds from a first connection of the peer, a dial, or the poll that finds it due; a status message starts the latter; the loss of the peer ends both; nothing else touches them. |
| `PeerManagerBook.OneStatusEach` | core/network/src/peer_manager/mod.rs:549-560 | A poll adds exactly one status event for a peer whose status timer was due and none for any other. |
| `PeerManagerBook.WantedPeers` | core/network/src/peer_manager/mod.rs:416-429 | A discovered peer is wanted if and only if fewer than the target are connected or being dialed and it is disconnected, unknown or new. |
| `PeerManagerBook.DialedAsFound` | core/network/src/peer_manager/mod.rs:416-442 | A wanted peer is dialed once for each time it was found, any other not at all. |
| `PeerManagerBook.TtlsAsFound` | core/network/src/peer_manager/mod.rs:433-438 | The wanted peers of a result get its ttl, unless theirs is later; no other entry changes. |
| `PeerManagerTheorems.TimersAgree` | core/network/src/peer_manager/mod.rs:451-476 | In every world of every run of swarm events: whoever has a ping timer is connected or being dialed, a booked connection is a real one, no peer counts more than one connection, always as an outgoing one, and at most 30 disconnected peers are remembered. |
| `PeerManagerTheorems.DirectionRightIffDialed` | core/network/src/peer_manager/mod.rs:464-468 | A first connection is booked as one we dialed, which is right if and only if we dialed it. |
| `PeerManagerTheorems.StepAgreement` | core/network/src/service.rs:247-342 | Every swarm event keeps that agreement. |
| `PeerManagerTheorems.ForgottenHaveNoTimer` | core/network/src/peer_manager/mod.rs:180-187 | No event makes the book forget a peer with a ping timer, or more than one peer. |
| `PeerManagerTheorems.TimerPersists` | core/network/src/peer_manager/mod.rs:180-187 | A ping timer disappears exactly when the last connection of its peer closes or dialing it fails. |
| `PeerManagerTheorems.OnePingEach` | core/network/src/peer_manager/mod.rs:536-547 | A poll adds exactly one ping event for a peer whose ping timer was due and none for any other. |
| `PeerManagerTheorems.StatusesStep` | core/network/src/peer_manager/mod.rs:174-177 | Agreement of the status timers with the book survives a step if and only if a status message came from a peer that is connected or being dialed. |
| `PeerManagerTheorems.StatusTimersAgree` | core/network/src/peer_manager/mod.rs:549-560 | The status timers agree with the book in every run in which all status messages come from such peers. |
| `PeerManagerTheorems.StatusTimerOfDisconnectedPeer` | core/network/src/peer_manager/mod.rs:174-177 | A run in which a peer booked as disconnected has a status timer: it connected to us while our dial failed. |
| `PeerManagerTheorems.TimersStep` | core/network/src/service.rs:255-342 | That every peer that is up has a ping timer survives an event if and only if it is not the first connection, one we dialed, to a peer without a timer. |
| `PeerManagerTheorems.PingTimersComplete` | core/network/src/service.rs:255-342 | In every run without such an event every peer that is up has a ping timer. |
| `PeerManagerTheorems.DialedPeerHasNoTimers` | core/network/src/service.rs:265-275 | A run with such an event: a connected peer has neither timer. |
| `PeerManagerTheorems.BookingStep` | core/network/src/service.rs:318-341 | That every peer with a connection is booked as connected survives an event if and only if it is not a dial, or a failed dial, of a peer that has a connection. |
| `PeerManagerTheorems.ConnectionsAreBooked` | core/network/src/service.rs:255-342 | In every run without such an event every peer with a connection is booked as connected. |
| `PeerManagerModel.DialsWanted` | core/network/src/peer_manager/mod.rs:416-442 | Discovered peers are dialed exactly if there is room and they are neither up nor banned when the results come in, in the order found; dials of one batch do not count towards the target; statuses and timers are unaffected. |
| `PeerManagerModel.RearmStep` | core/network/src/peer_manager/mod.rs:536-547 | A timer that ran out and is started again is not due again in the same poll, so the loop has one fewer to go. |
| `PeerManager.PeerManager.NotifyDisconnect` | core/network/src/peer_manager/mod.rs:180-187 | Parts the peer in the book and removes both its timers. |
| `PeerManager.PeerManager.ConnectPeer` | core/network/src/peer_manager/mod.rs:451-476 | Books the connection, with directions swapped as in the source, and starts both timers. |
| `PeerManager.PeerManager.PeerStatusd` | core/network/src/peer_manager/mod.rs:174-177 | Starts the status timer of whoever sent a status message. |
| `PeerManager.PeerManager.PeersDiscovered` | core/network/src/peer_manager/mod.rs:416-442 | The loop equals the specification function. |
| `PeerManager.PeerManager.PollPings` | core/network/src/peer_manager/mod.rs:536-547 | The loop ends, keeps the set of timers, starts those that were due again, and queues exactly one ping for each. |
| `PeerManager.PeerManager.PollStatuses` | core/network/src/peer_manager/mod.rs:549-560 | The same for the status timers. |
| `PeerManager.PeerManager.PollNext` | core/network/src/peer_manager/mod.rs:525-569 | What discovery tells, pings and statuses become events; the oldest is handed out. |
| `PeerManager.PeerManager.Heartbeat` | core/network/src/peer_manager/mod.rs:500-507 | Asks discovery for peers exactly if fewer are up than wanted. |
| `PeerManager.Service.OnConnectionEstablished` | core/network/src/service.rs:255-277 | Only the first connection reaches the book, through the manager if the peer dialed us, directly if we did. |
| `PeerManager.Service.OnConnectionClosed` | core/network/src/service.rs:278-294 | Only the loss of the last connection reaches the manager. |
| `PeerManager.Service.OnUnreachableAddr` | core/network/src/service.rs:318-326 | A failed dial parts the peer, even one that is connected. |
| `PeerManager.Service.OnDialing` | core/network/src/service.rs:339-341 | A dial books the peer and starts its timers. |
| `PeerManager.Service.OnStatus` | core/network/src/peer_manager/mod.rs:174-177 | A status message starts the status timer of its sender. |
| `PeerManager.Service.OnPoll` | core/network/src/peer_manager/mod.rs:525-569 | A poll of the manager is the poll step of a run. |
| `DiscoveryModel.OneQueryAtATime` | core/network/src/discovery/mod.rs:229-241 | Over every run the flag holds exactly when the one query is active, at most one request for peers is queued, none while one is active, and a service that was not started does nothing. |
| `DiscoveryModel.EndsIff` | core/network/src/discovery/mod.rs:298-321 | From an arbitrary state the queue loop ends if and only if there is no room, the flag is unset, or no request for peers is queued. |
| `DiscoveryModel.Ends` | core/network/src/discovery/mod.rs:298-321 | Where it ends, it takes at most as many turns as the queue is long, and its effect is that of the specification function. |
| `DiscoveryModel.SanitizingIsReversed` | core/network/src/discovery/mod.rs:65-78 | Of the subnet queries with a time limit exactly those that are not out of date count as expired: the comparison is reversed, and agrees with the documentation only for requests for peers. |
| `DiscoveryModel.SanitizedKeeps` | core/network/src/discovery/mod.rs:298-300 | Sanitizing keeps exactly the requests for peers and the out-of-date subnet queries. |
| `DiscoveryModel.RequestIsQueued` | core/network/src/discovery/mod.rs:229-241 | A request for peers is queued exactly if discovery runs and none is queued or active. |
| `DiscoveryModel.RequestIsStarted` | core/network/src/discovery/mod.rs:298-321 | Working off the queue leaves a query active if and only if one was active or requested; the request is then no longer queued and the flag says so. |
| `DiscoveryModel.PeersAreHandedOut` | core/network/src/discovery/mod.rs:353-379 | A poll hands out exactly the peers the one active query found, if it is ready and found any, and ends it in any case. |
| `DiscoveryModel.RequestIsAnswered` | core/network/src/discovery/mod.rs:382-398 | A request for peers is started by the next poll and answered with what was found by the poll in which its query is ready, whatever the state before. |
| `Discovery.Discovery.DiscoverPeers` | core/network/src/discovery/mod.rs:229-241 | Queues a request for peers unless one is active or queued; keeps the invariant. |
| `Discovery.Discovery.ProcessQueue` | core/network/src/discovery/mod.rs:298-321 | The loop ends because of the invariant, and equals the specification function. |
| `Discovery.Discovery.PollQueries` | core/network/src/discovery/mod.rs:353-379 | Consumes finished queries up to the first that found peers, and clears the flag. |
| `Discovery.Discovery.Poll` | core/network/src/discovery/mod.rs:382-398 | Nothing if not started, otherwise both in turn. |

## Left out

- HandlerTheorems.RequestsAreNeverLost: request identifiers are not unique in the source, so requests are counted per identifier; reports of a single stream are the subject of `LateTimeouts`, `NoChunkAfterTheEnd` and `EndedIffNotWaiting`.
- HandlerTheorems.ShutdownDrains: the weight does not include queued errors and events, which only the application's polling empties.
- PeerManager.PeerManager.PollNext: what discovery tells is an input, so that the loop over discovery and the heartbeat's clock are not part of it; ping and metadata requests are not modelled.
- EndToEnd.TheAnswerArrives: that a sink takes a message exactly if the encoder does is an assumption on the run; the streams between the peers deliver the bytes in order.
- HashSetDelay.HashSetDelay.PollNext: an entry counts as expired once its deadline is not later than now; rounding of the timer wheel to milliseconds and its errors are not modelled.
- CodecRoundTrips.RequestRoundTrip: that a stream of the metadata protocol is recognised without reading it happens in the protocol upgrade, which is not part of this model.
- The crates `unsigned-varint`, `snap` and `tokio-util` are not part of this model; what the two formats prescribe is modelled instead. The bound on a chunk's size before it is complete, which `snap` checks early, is not.
- Overflow of `usize` and `u32` counters and identifiers; the one-byte connection counters are covered by `TimersAgree`.
- `best_peers_by_status` and `best_by_status` are a library sort and a library maximum; the other getters of the peer book are filters.
- Peer states are values that are replaced in the book, not objects: the methods that overwrite them are functions on the value.
- The handler's errors carry their reasons as bytes; their display texts are not modelled.
- Sub-second timing and real clocks, logging, the transport, key loading, ENR files, Gossipsub, Identify and Discv5.
- Reputation changes by RPC error, agent strings, goodbye reasons, `disconnect_and_ban_peer`, whose hooks in the behaviour are empty, and `PeerDB::ban` in runs of swarm events, which nothing calls there.
- The request table of `core/src/mothra.rs`, the language bindings, the command line and the examples.
