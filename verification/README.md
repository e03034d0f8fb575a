# A Dafny model of the pulsar-rs client

pulsar-rs is an asynchronous client for Apache Pulsar. This project models its stateful core (the
connection multiplexer, the consumer engine, the multi-topic consumer, the frame and batch codecs,
the batching producer, the connection manager, topic lookup and the reader) and proves what that
core keeps over every run.

`dafny verify dfyconfig.toml` verifies the whole project with Dafny 4.11.

## How the model is built

Each component that changes state is a class whose methods follow the Rust code step by step. Each
method is proved equal to a specification function over a plain datatype (`StepFrame`, `PassSpec`,
`ScanSpec`, `SendSpec`, ...), and the theorems are about those functions: over every trace, every
interleaving of a transition system, every sequence of calls, or every byte stream. Whatever the
outside world decides (what the network yields, the clock, random jitter, whether a send succeeds)
is an argument that the theorems quantify over.

Each operation is also described a second time, from its inputs alone and in other terms than its
specification function (a slot per request key instead of two tables, byte offsets instead of
parsers, positions of the deque instead of a rotating loop, the fields of a message instead of a
dispatch on its kind), and the two descriptions are proved equal for every input or over every run.

| module | component |
|---|---|
| `Multiplexer`, `Routing`, `Matching`, `RequestIds`, `Dispatch` | the receiver of a connection; its effects told from its inputs; requests meeting answers; the shared counter of request ids; the whole client, network and broker around it |
| `Wire`, `BatchCodec` | frames on the wire; batches inside a payload |
| `Engine`, `Delivery`, `Permits`, `Sessions`, `Redelivery` | the consumer engine; what it does for the application, told from the frames it reads; its flow permits against a broker; which subscription it reads, and what is lost when it reads another; its table of unacknowledged messages |
| `MultiTopic`, `Polling` | the consumer over many topics; its calls told by positions and outcomes |
| `Producer`, `Verdicts`, `Retry`, `RoundRobin` | batching and flushing; how a send is tried and judged; retries and late receipts; partitions |
| `ConnectionManagement`, `Backoff` | the shared table of connections; the dialing loop |
| `Lookup`, `Reader` | topic lookup; the acknowledging reader |

## What the proofs say about the code

- A topic message finds its consumer, in every interleaving, exactly when the receiver has taken the
  channel registration of the subscription whose Flow allowed it; it has whenever `subscribe` was
  answered. An engine whose `subscribe` timed out goes on to send Flows on the new connection
  (src/consumer.rs:841-857, 1253), so the case left over is real: `FlowAfterTimeOutCanLoseAMessage`.
- The i-th request under a key gets the i-th answer as long as neither side runs more than one
  ahead, which is also exactly when no table entry is overwritten. A CloseConsumer notice that
  carries the id of an outstanding request takes the place of its answer (the source has a FIXME
  there): `NoticeCanStealAnAnswer` gives a trace, `StolenExactlyWhenNoticeMeetsRequest` the exact
  condition.
- `reconnect` grants the broker a full batch of permits and leaves `remaining_messages` as it was,
  so permits outstanding exceed the counter by precisely what `PermitsAreConserved` lists. They are
  equal in a session without control frames and reconnects.
- A batch size below two stalls a consumer for good: the refill test `remaining < batch_size / 2`
  is then never true (`SmallBatchStarves`, `StarvesForGood`).
- `remaining_messages` is safe from underflow for frames of up to k messages exactly when k is at most
  half the batch size (`SafeExactlyUpToHalfABatch`); a control frame counts as one message.
- A reconnect at the top of the engine loop that finds a future kept from an earlier pass goes on
  reading the abandoned channel. A reconnect that fails after it replaced the connection leaves the
  engine feeding a subscription whose channel it dropped. The engine reads the subscription it feeds
  exactly when neither happened last (`ReadsExactlyAfterCleanReconnect`,
  `AttachedExactlyAfterCleanReconnect`). Otherwise what the broker sends is lost for good
  (`LostForever`), and the engine can be left waiting for ever whatever its batch size
  (`StuckExactlyWhenDetached`).
- A retry after a time-out often goes over the very connection that timed out, since a time-out
  leaves it valid. Receipts do not get mixed up all the same (`LateReceiptsNeverCross`,
  `RetryCanShareItsReceiver`).
- The engine panics when its channel closes, although the line after the panic would reconnect
  (src/consumer.rs:896); the model ends the engine there.
- The decoder reads neither magic number nor checksum (`ChecksumIsIgnored`; the source has a TODO).
- Unpacking a batch copies properties, partition key and event time of each message, and drops the
  ordering key (`PipelineRoundTrip` says which fields come from where).
- The connection manager may let several tasks dial the same broker, one of them may remove the
  entry of another, and still no waiter is ever lost.

## Model

| member | source | states |
|---|---|---|
| `Multiplexer.NeverWaitingOnBothSides` | src/connection.rs:128-184 | after any trace of registrations and frames no key is in both `pending_requests` and `received_messages` |
| `Multiplexer.RunAppend` | src/connection.rs:128-233 | splitting the queued work over several polls changes neither tables nor effects |
| `Multiplexer.Receiver.constructor` | src/connection.rs:95-113 | a receiver starts with empty tables |
| `Multiplexer.Receiver.TakeRegistration` | src/connection.rs:129-148 | one registration: a kept answer is handed over and removed, else the resolver waits; a consumer id or the ping slot is replaced |
| `Multiplexer.Receiver.TakeFrame` | src/connection.rs:159-221 | one frame: ping answered, pong resolved, answers matched, consumer traffic routed, close notices to a pending request first, the rest dropped |
| `Multiplexer.Receiver.TakeAnswer` | src/connection.rs:174-184 | an answer resolves the request pending under its key or is kept under that key |
| `Multiplexer.Receiver.TakeRegistrations` | src/connection.rs:128-155 | the loop over queued registrations is the fold of single steps, in order |
| `Multiplexer.Receiver.TakeFrames` | src/connection.rs:157-232 | the loop over received frames is the fold of single steps, in order |
| `Multiplexer.Receiver.Poll` | src/connection.rs:119-233 | a poll takes all registrations before the first frame; shutdown, closed registrations, end of stream and errors each give their own result and recorded error |
| `Routing.EffectsFollowInputs` | src/connection.rs:128-233 | over every trace each input adds exactly the effects that the inputs before it call for: a slot for each key, the last channel of each consumer id, the last ping since the last Pong |
| `Routing.SlotsFollowInputs` | src/connection.rs:130-203 | after every trace the two tables hold for each key one slot that is empty, waiting or early, moved only by the inputs under that key |
| `Routing.ChannelsFollowInputs` | src/connection.rs:140-148 | after every trace the channel of a consumer id is the last one registered, and the ping waiting is the last one since the last Pong |
| `Routing.ConsumerTrafficIsRouted` | src/connection.rs:185-213 | over every trace a frame of any kind for a consumer, and a close notice that meets no waiting request, goes to the last channel registered for that consumer, and is dropped only if there is none |
| `Routing.PingsAndPongs` | src/connection.rs:160-173 | over every trace there are as many pongs sent as pings received, and each Pong completes exactly the ping waiting for it |
| `Matching.EachAskerGetsItsOwnReply` | src/connection.rs:130-139 | in any order of arrival the i-th registration of a key gets exactly the i-th answer of that key, as many as there are of both |
| `Matching.OverwritingExactlyWhenUnbalanced` | src/connection.rs:130-184 | no entry is ever overwritten if and only if registrations and answers of the key never differ by more than one |
| `Matching.OrderIndependent` | src/connection.rs:128-184 | confluence: two interleavings of the same registrations and answers of a key give the same answers and the same table entries |
| `Matching.FreshRequestGetsItsReply` | src/connection.rs:130-184 | a key registered once and answered once gets its answer in either order and leaves nothing behind in the tables |
| `Matching.BalancedMatches` | src/connection.rs:130-184 | balance determines both table entries and all answers of a key as a function of the two subsequences |
| `Matching.UnoverwrittenMatches` | src/connection.rs:130-184 | conversely, a trace that overwrites nothing is balanced and matched |
| `Matching.StolenExactlyWhenNoticeMeetsRequest` | src/connection.rs:191-203 | on a key whose registrations and answers stay within one of each other, a request is answered by a CloseConsumer notice if and only if one arrives under its id while it is outstanding |
| `Matching.NoticeCanStealAnAnswer` | src/connection.rs:191-203 | a concrete trace in which the notice resolves the request and the real answer stays behind |
| `Matching.OnlyAskedForAnswers` | src/connection.rs:130-203 | whatever the trace, a resolver only ever gets a frame with the key it registered under, or a close notice with its request id |
| `Matching.PendingWasAsked` | src/connection.rs:130-138 | every pending resolver was registered under that very key |
| `Matching.StoredUnderOwnKey` | src/connection.rs:174-183 | every kept answer lies under its own key |
| `RequestIds.IdsAreFresh` | src/connection.rs:245-252 | in every interleaving of tasks that draw ids from the shared counter and register under them, an id is asked for at most once, apart from waits for exclusive access |
| `RequestIds.DrawnRequestGetsItsReply` | src/connection.rs:543-592 | so in every such interleaving a request answered once gets that answer, in either order, and leaves nothing behind |
| `RequestIds.ReachableCounted` | src/connection.rs:404-412 | the exact number of requests under an id: none before it is used, then one and one more for each wait for exclusive access |
| `Dispatch.TopicMessagesFindTheirConsumer` | src/connection.rs:185-190 | in every reachable state of client, queues, network, broker and receiver, a topic message read next goes to the newest channel of its consumer id, no older than that of the subscription whose Flow allowed it, if and only if that channel's registration was taken; it was unless the subscription timed out |
| `Dispatch.DroppedExactlyWhenUnregistered` | src/connection.rs:185-190 | in every reachable state a topic message is dropped if and only if no channel of its consumer id was taken so far |
| `Dispatch.FlowAfterTimeOutCanLoseAMessage` | src/consumer.rs:1253-1275 | a run in which a subscription times out, a Flow is sent for it, and the message that answers it is dropped |
| `Dispatch.AnswersDecide` | src/connection.rs:469-472 | a subscription stands exactly when its answer is a success |
| `Dispatch.InvKept` | src/connection.rs:439-473 | every step keeps: the consumer table is the newest registration taken, answers exist only for registrations taken, Flows come only from subscriptions that returned |
| `Dispatch.ReachableInv` | src/connection.rs:128-155 | that invariant holds in every reachable state |
| `Dispatch.TablesKept` | src/connection.rs:128-155 | the invariant of the consumer table and of the answers survives every step |
| `Dispatch.SubscriptionsKept` | src/connection.rs:459-473 | a subscription registers its channel before its request, an answered one had both taken, and one that returned stays as it is |
| `Dispatch.EarnedKept` | src/consumer.rs:471-547 | every Flow, grant and topic message in flight goes back to a subscription that returned |
| `Dispatch.NewestAtIsNewest` | src/connection.rs:140-145 | the registration that counts is the last one of an id |
| `Wire.BigEndianRoundTrip` | src/message.rs:239-240 | a number is read back if and only if it fits the width it was written in |
| `Wire.EncodeInto` | src/message.rs:225-266 | the encoder, checksum slot overwritten in place, appends exactly one frame, laid out to the byte as the protocol says |
| `Wire.FrameIsLaidOut` | src/message.rs:234-258 | every frame byte by byte: total and command size in big-endian bytes, command, magic number 0x0e01, checksum of all that follows it, metadata size, metadata, data |
| `Wire.PutU32IsBytes4` | src/message.rs:239-240 | sizes are written most significant byte first |
| `Wire.DecodesByOffsets` | src/message.rs:274-321 | on any bytes, well formed or not, the decoder gives the message or the error read off at the offsets of the protocol |
| `Wire.CommandFrameByOffsets` | src/message.rs:445-458 | the command parser by offsets, on any bytes |
| `Wire.PayloadFrameByOffsets` | src/message.rs:470-485 | the payload parser by offsets, on any bytes |
| `Wire.Decode` | src/message.rs:274-321 | more bytes are asked for if and only if the frame announced is incomplete; a message never takes more bytes than there are |
| `Wire.DecodeFrom` | src/message.rs:274-321 | the decoder removes exactly the frame it decoded, and leaves the buffer as it was when it needs more bytes or fails |
| `Wire.DrainFrames` | src/message.rs:274-321 | decoding in a loop yields the messages, the rest and the error of the whole buffer |
| `Wire.DecodePrefix` | src/message.rs:276-317 | what was decided on a prefix is never revised when more bytes arrive |
| `Wire.DecodeAllAppend` | src/message.rs:274-321 | decoding a concatenation is decoding the first part and carrying on |
| `Wire.ChunkingDoesNotMatter` | src/message.rs:274-321 | for every byte stream, valid or not, and every way of cutting it, the same messages and the same error come out |
| `Wire.CommandPartParses` | src/message.rs:445-458 | the command parser undoes the command part of the encoder, whatever follows |
| `Wire.PayloadPartParses` | src/message.rs:470-485 | the payload parser finds metadata and data behind any magic number and checksum |
| `Wire.ChecksumIsIgnored` | src/message.rs:292-306 | a frame with any magic number and any checksum decodes to the same message |
| `Wire.FrameRoundTrip` | src/message.rs:225-321 | a frame decodes to its message and its own length, whatever follows, if and only if its size fits in 32 bits |
| `Wire.FramesRoundTrip` | src/message.rs:225-321 | a concatenation of frames decodes to exactly those messages with nothing left |
| `Wire.StreamRoundTrip` | src/message.rs:225-321 | the same under every cutting of the stream into chunks |
| `BatchCodec.OneMessageRoundTrip` | src/message.rs:492-528 | a queued message is read back, with the bytes after it, if and only if its payload is below 2^31 bytes and its metadata below 2^32 |
| `BatchCodec.ParsesBack` | src/message.rs:492-509 | the parser undoes `serialize` on any message whose lengths are true |
| `BatchCodec.EntryIsLaidOut` | src/message.rs:522-528 | a message in a batch byte by byte: metadata size, metadata, payload |
| `BatchCodec.EntryByOffsets` | src/message.rs:492-509 | on any bytes the parser reads those offsets, and refuses a negative payload size |
| `BatchCodec.Parse` | src/message.rs:511-520 | a successful parse gives as many messages as were asked for |
| `BatchCodec.BatchRoundTrip` | src/message.rs:511-528 | a whole batch is read back in order, whatever bytes follow it |
| `BatchCodec.PipelineRoundTrip` | src/producer.rs:997-1033 | push, drain, serialize, parse and iterate gives the same payloads, properties, partition keys and event times in order with batch indices 0..n-1, even with trailing bytes |
| `BatchCodec.BatchedMessageIterator.constructor` | src/consumer.rs:1338-1354 | the iterator starts at index 0 of the parsed messages |
| `BatchCodec.BatchedMessageIterator.Next` | src/consumer.rs:1356-1389 | each call yields the next message with its index, until the announced total or the messages run out |
| `BatchCodec.Collect` | src/consumer.rs:1356-1389 | iterating to the end yields every message, numbered in order |
| `BatchCodec.Unpack` | src/consumer.rs:1191-1198 | parsing and iterating yields every message of the batch, numbered in order, or nothing if it does not parse |
| `Engine.ConsumerEngine.constructor` | src/consumer.rs:788-824 | the engine starts with a full counter and an empty table |
| `Engine.ConsumerEngine.Reconnect` | src/consumer.rs:1248-1307 | a reconnect subscribes anew and grants a full batch without touching the counter, a held future keeping the old channel; failing early it changes nothing, failing late it has replaced the connection and dropped the new channel |
| `Engine.ConsumerEngine.RefillPermits` | src/consumer.rs:841-857 | below half a batch the difference is granted and the counter refilled, once more after a reconnect; every failure ends the engine |
| `Engine.ConsumerEngine.Top` | src/consumer.rs:829-857 | connection repair, then refill |
| `Engine.ConsumerEngine.SendToConsumer` | src/consumer.rs:1229-1246 | each message the application takes is tracked with its time plus the delay; none after the first refusal |
| `Engine.ConsumerEngine.OnFrame` | src/consumer.rs:889-925 | a frame is counted first, then processed by its kind, as `Delivery` tells from the frame; errors go to the application |
| `Engine.ConsumerEngine.OnRequest` | src/consumer.rs:926-1000 | acks, negative acks, timed redelivery, connection requests and the closing of the channel |
| `Engine.ConsumerEngine.Wait` | src/consumer.rs:859-987 | what ends the wait, and that only the timer keeps the future |
| `Engine.ConsumerEngine.OnePass` | src/consumer.rs:829-987 | one pass of the loop |
| `Engine.ConsumerEngine.Run` | src/consumer.rs:826-988 | the loop is the fold of its passes, until the engine ends |
| `Delivery.EveryMessageIsHandedOver` | src/consumer.rs:1191-1227 | over every run the messages handed over are, in order, those of the frames read: a readable message itself unless it is due for the dead letter topic, a readable batch all its messages, each frame up to the first refusal |
| `Delivery.RunsShowWhatIsDue` | src/consumer.rs:909-1000 | over every run hand-overs, acknowledgements and redelivery requests are, in order, exactly those that frames read and requests served call for: each ack and each dead-lettered message one acknowledgement, each nack one request, each tick the overdue ids |
| `Delivery.WorkIsDue` | src/consumer.rs:1003-1078 | what processing a frame amounts to, from its fields |
| `Delivery.PassesEndExactly` | src/consumer.rs:829-988 | from every reachable state a pass ends the engine exactly for the reasons listed; otherwise the counter is the refilled one less what the frame counts, and a future is held exactly after the timer |
| `Delivery.TopicEndsExactly` | src/consumer.rs:909-915 | the engine ends with the topic exactly when the frame it reads is the end of the topic |
| `Permits.PermitsAreConserved` | src/consumer.rs:841-907 | in every run of a running engine and a broker, failed reconnects included: permits outstanding, permits wasted and the counter at the last reconnect add up to the counter now, what that reconnect granted, and the control and abandoned frames read since; hence the upper bound, and the lower bound on a live subscription that was granted its batch |
| `Permits.QuietPermitsAreExact` | src/consumer.rs:841-907 | inside one session of topic messages they are exactly the counter |
| `Permits.SafeExactlyUpToHalfABatch` | src/consumer.rs:902-907 | some run with frames of at most k messages underflows the counter if and only if k is more than half the batch size |
| `Permits.LightFramesNeverUnderflow` | src/consumer.rs:841-907 | no run underflows whose frames count at most half a batch each |
| `Permits.HeavyFramesUnderflow` | src/consumer.rs:841-907 | for every larger bound two frames within it underflow the counter |
| `Permits.ThriftyBrokerNeverUnderflows` | src/consumer.rs:841-907 | nor in an undisturbed session with a broker that keeps to its permits |
| `Sessions.ReadsExactlyAfterCleanReconnect` | src/consumer.rs:859-884 | in every run the channel read is that of the connection in use if and only if the last reconnect that replaced the connection succeeded and met no held future |
| `Sessions.AttachedExactlyAfterCleanReconnect` | src/consumer.rs:1051-1066 | in every run a running engine with no close notice still to read has a live subscription and reads it if and only if its last reconnect attempt, of any kind, succeeded and met no held future |
| `Sessions.AbandonedChannelIsRead` | src/consumer.rs:830-884 | a run in which a message is taken off an abandoned channel while a newer subscription is live |
| `Sessions.LostForever` | src/consumer.rs:1253-1277 | however a run goes on, no frame on a channel that was passed over is taken off it again; so all that is sent to an engine reading another channel is lost |
| `Sessions.FailedReopenLosesMessages` | src/consumer.rs:1258-1275 | a run in which a reconnect fails although the broker subscribed, a refill reaches the broker, and its message lands on a channel nobody reads |
| `Sessions.NeverWaitsWithoutPermits` | src/consumer.rs:841-857 | with a batch size of two or more, in every run, an engine waiting on the channel of a live subscription has a frame to read or a broker with permits left |
| `Sessions.StuckExactlyWhenDetached` | src/consumer.rs:841-884 | with a batch size of two or more, in every run, an engine waiting on an empty channel can be left there by a broker out of permits if and only if it has no live subscription or reads another channel |
| `Sessions.HeldReconnectCanStarve` | src/consumer.rs:830-884 | for every batch size a run that ends so, on a live subscription, after a reconnect met a held future |
| `Sessions.SmallBatchStarves` | src/consumer.rs:841-841 | with a batch size below two some undisturbed run ends up waiting with no permit outstanding |
| `Sessions.StarvesForGood` | src/consumer.rs:841-857 | and then no permit is outstanding in any undisturbed continuation |
| `Sessions.SmallBatchNeverRefills` | src/consumer.rs:841-841 | with a batch size below two no undisturbed step sends a Flow |
| `Permits.InvKept` | src/consumer.rs:829-987 | every step of engine or broker keeps the accounting |
| `Permits.ReachableInv` | src/consumer.rs:826-988 | the accounting holds in every reachable state |
| `Redelivery.TableRefinesHistory` | src/consumer.rs:990-1000 | after any run an id is tracked if and only if a delay is set, it was delivered, and since its last delivery it was neither acked nor in a timed request that was sent; its deadline is that delivery's time plus the delay |
| `Redelivery.TickAsksForTheOverdue` | src/consumer.rs:953-978 | a tick asks for exactly the ids whose last delivery is longer ago than the delay |
| `Redelivery.OneTimedRequestPerDelivery` | src/consumer.rs:953-978 | over any run an id is asked for at most as often as it was delivered |
| `MultiTopic.AgreementAndConservation` | src/consumer.rs:1974-2034 | over any polls, refreshes, discoveries and losses the deque and the map hold the same names, a running discovery skips all of them, and `messages_received` is the number of messages ever returned |
| `MultiTopic.NoConsumerIsEverMissing` | src/consumer.rs:2003-2025 | the branch for a name without consumer is unreachable |
| `MultiTopic.BoundedBypass` | src/consumer.rs:1996-2033 | a topic with i topics ahead of it is polled by one of the next i + 1 calls, whatever comes and goes meanwhile |
| `MultiTopic.PolledOrCloser` | src/consumer.rs:1996-2028 | each call polls a given topic or brings it strictly closer to the front |
| `MultiTopic.PollKept` | src/consumer.rs:1974-2034 | one call keeps the agreement and counts exactly the message it returns |
| `MultiTopic.ScanKept` | src/consumer.rs:1996-2028 | the polling loop with its removals keeps the agreement and the count |
| `MultiTopic.AddKept` | src/consumer.rs:1793-1799 | adding names that are new, even twice, keeps the agreement and changes no count |
| `MultiTopic.RemoveKept` | src/consumer.rs:1801-1813 | removal deletes exactly the given names and moves their counts over |
| `MultiTopic.DiscoveryKept` | src/consumer.rs:1975-1989 | a discovery, whatever it found, adds names at the back and changes no count |
| `Polling.PollByOutcomes` | src/consumer.rs:1974-2034 | for every call from an agreeing state: a topic leaves deque and map if and only if one of its polled positions ended or failed; the message returned is that of the first position that yields, and only that consumer's count rises |
| `Polling.ScanByOutcomes` | src/consumer.rs:1996-2033 | the same for the loop of a call |
| `Polling.LoopByOutcomes` | src/consumer.rs:1998-2027 | positions are polled up to the first that yields, and failures are those of the positions polled |
| `Polling.DiscoveryExactly` | src/consumer.rs:1975-1989 | a discovery adds exactly the names found outside its snapshot, at the back and uncounted; it ends when it found names or gave up |
| `Polling.RefreshExactly` | src/consumer.rs:1991-1994 | with a pattern a refresh leaves a discovery running that skips the names in use; without one it changes nothing |
| `MultiTopic.MultiTopicConsumer.AddConsumers` | src/consumer.rs:1793-1799 | the loop that adds consumers to map and deque |
| `MultiTopic.MultiTopicConsumer.RemoveConsumers` | src/consumer.rs:1801-1813 | the loops that remove topics and book their counts |
| `MultiTopic.MultiTopicConsumer.UpdateTopics` | src/consumer.rs:1815-1857 | with a pattern, a discovery that skips the present names is started |
| `MultiTopic.MultiTopicConsumer.PollDiscovery` | src/consumer.rs:1975-1989 | a finished discovery adds what it found, a failed one is dropped, an unfinished one stays |
| `MultiTopic.MultiTopicConsumer.Refresh` | src/consumer.rs:1991-1994 | every refresh that fires restarts the call |
| `MultiTopic.MultiTopicConsumer.PollFront` | src/consumer.rs:2002-2026 | the front topic is polled and goes to the back; it yields, fails, or neither |
| `MultiTopic.MultiTopicConsumer.Scan` | src/consumer.rs:1996-2033 | topics are polled in order until one yields; those that failed are removed |
| `MultiTopic.MultiTopicConsumer.PollNext` | src/consumer.rs:1974-2034 | the whole call |
| `MultiTopic.MultiTopicConsumer.MessagesReceived` | src/consumer.rs:1756-1762 | the sum over live consumers and departed ones |
| `Producer.BatchingConserves` | src/producer.rs:548-639 | over any calls with any outcomes the flushed batches followed by the queue are the messages accepted, in order; each flushed resolver got its own batch's result once; each batch carries its messages and their count; the n-th batch is the n-th send; the queue stays shorter than max(1, batch size); no reconnect replaced a non-empty queue |
| `Producer.ResolversAnsweredInOrder` | src/producer.rs:578-633 | the resolvers answered are the first of those accepted, in order |
| `Producer.EveryFlushUnpacks` | src/producer.rs:599-634 | every batch ever sent unpacks at the consumer into the messages that went in |
| `Producer.CallKept` | src/producer.rs:548-639 | one call keeps the conservation invariant, for the messages accepted so far |
| `Verdicts.ResultsFollowAttempts` | src/producer.rs:728-771 | over a producer's whole life a send returns Ok exactly when its last attempt was answered by a receipt, Refused exactly when by another frame, a reconnect error exactly when its only attempt was cut off; it has a second attempt exactly when the first was cut off and the reconnect succeeded |
| `Verdicts.WholeLife` | src/producer.rs:548-771 | sends happen exactly when a batch is full, on request with something queued, or for each message without batching; their attempts, connections and results follow from what the network did |
| `Verdicts.UnbatchedSends` | src/producer.rs:591-598 | without batching every message is one send, whose receipt is completed exactly when that send succeeded |
| `Verdicts.SendByLuck` | src/producer.rs:728-771 | what one send adds: its attempts, its result and its connection |
| `Producer.TopicProducer.TrySend` | src/producer.rs:733-737 | an attempt takes the next sequence id |
| `Producer.TopicProducer.Reconnect` | src/producer.rs:773-864 | a reconnect that succeeds takes whatever connection the manager gave, often the same one, and replaces the batch; one that fails may have taken the connection only |
| `Producer.TopicProducer.SendInner` | src/producer.rs:728-771 | only a disconnection or a time-out leads to a reconnect and a second attempt |
| `Producer.TopicProducer.Drain` | src/producer.rs:552-564 | draining empties the queue and serializes its messages in order beside their resolvers |
| `Producer.TopicProducer.Answer` | src/producer.rs:578-584 | every drained resolver gets the result, in order |
| `Producer.TopicProducer.FlushQueue` | src/producer.rs:552-586 | drain, send, answer; nothing at all for an empty queue |
| `Producer.TopicProducer.SendRaw` | src/producer.rs:591-639 | a message is queued and flushed when the batch is full, or sent alone without batching, and then an error is returned |
| `Producer.TopicProducer.SendBatch` | src/producer.rs:548-589 | the queue is flushed; an error without batching |
| `Retry.AttemptsAreSequenced` | src/producer.rs:728-771 | over a producer's whole life the n-th attempt carries sequence id n, and no message is attempted more than twice |
| `Retry.SequenceIdsIncrease` | src/connection.rs:245-252 | sequence ids of attempts increase strictly, reconnects included |
| `Retry.ReceiptsAnswerTheirOwnSend` | src/producer.rs:728-771 | over a producer's whole life a receipt that a send returned carries the key of one of that send's own attempts and of no attempt of another send, even when attempts share a receiver |
| `Retry.AnswerCarriesOwnKey` | src/connection.rs:287-301 | whatever a receiver hands to an attempt, in time or late, carries that attempt's producer and sequence id |
| `Retry.LateReceiptsNeverCross` | src/connection.rs:174-184 | a frame that answers one attempt, in time, late or after it was given up, is never handed to another attempt, on any connection |
| `Retry.RetryCanShareItsReceiver` | src/producer.rs:753-763 | both attempts of a send on one receiver: the late receipt goes to the attempt that timed out, the retry gets its own |
| `RoundRobin.PartitionedProducer.constructor` | src/producer.rs:945-955 | the deque starts rotated so that partition 0 comes first |
| `RoundRobin.PartitionedProducer.Next` | src/producer.rs:369-374 | the k-th pick is partition k mod n |
| `RoundRobin.RotatedFront` | src/producer.rs:369-374 | rotating k times brings partition k - 1 mod n to the front |
| `RoundRobin.FairShares` | src/producer.rs:369-374 | the exact number of times each partition is at the front of the deque in the first k picks |
| `RoundRobin.RoundsAreFair` | src/producer.rs:369-374 | any n picks in a row take each partition once, and counts never differ by more than one |
| `ConnectionManagement.WaitersAreNeverLost` | src/connection_manager.rs:223-248 | in every interleaving an unanswered waiter sits exactly once in the queue of its own broker, in no other, and the call that made that entry is still dialing and not waiting itself |
| `ConnectionManagement.ReturnedConnectionFitsKey` | src/connection_manager.rs:366-466 | every connection returned was dialed for the address asked for |
| `ConnectionManagement.NoDeadlock` | src/connection_manager.rs:219-282 | as long as some call has not returned, some call can step |
| `ConnectionManagement.EveryCallReturns` | src/connection_manager.rs:219-466 | no run takes more than four steps for each call begun, and a run that no call can extend has every call returned |
| `ConnectionManagement.StepsAreBounded` | src/connection_manager.rs:219-466 | each call takes at most four steps, and no step of another call moves it |
| `ConnectionManagement.FailuresHaveACause` | src/connection_manager.rs:370-388 | in every run a call comes back without a connection only if a dial to its own broker failed |
| `ConnectionManagement.LookUpExactly` | src/connection_manager.rs:223-240 | a stored connection is returned exactly when it is valid at that moment; a look-up waits exactly while the broker is being dialed |
| `ConnectionManagement.EnterExactly` | src/connection_manager.rs:257-276 | `connect` waits exactly behind other waiters, otherwise it dials |
| `ConnectionManagement.ResumeExactly` | src/connection_manager.rs:242-282 | what a call does with the answer it waited for |
| `ConnectionManagement.SettleExactly` | src/connection_manager.rs:366-466 | caller and waiters of its broker get the same outcome, and nobody else is touched |
| `ConnectionManagement.CleanExactly` | src/connection_manager.rs:469-486 | cleaning removes exactly the stored connections that are invalid or unused |
| `ConnectionManagement.InvKept` | src/connection_manager.rs:219-486 | every critical section of every call keeps the invariant on entries, waiters and answers |
| `ConnectionManagement.ReachableInv` | src/connection_manager.rs:219-486 | the invariant holds in every reachable state |
| `ConnectionManagement.ConnectionManager.LookUp` | src/connection_manager.rs:223-240 | a valid connection is returned, a running dial is joined, otherwise the caller must connect |
| `ConnectionManagement.ConnectionManager.Enter` | src/connection_manager.rs:257-276 | the caller waits only on an entry that already has waiters, and makes the entry if there is none |
| `ConnectionManagement.ConnectionManager.RemoveFailed` | src/connection_manager.rs:370-388 | the entry goes, and all its waiters are cancelled |
| `ConnectionManagement.ConnectionManager.Insert` | src/connection_manager.rs:445-463 | the connection is stored, and all waiters of the old entry get it |
| `ConnectionManagement.ConnectionManager.CheckConnections` | src/connection_manager.rs:469-486 | entries being dialed and connections in use stay, the others go |
| `Backoff.Dial` | src/connection_manager.rs:290-343 | at most max_retries + 1 attempts, all but the last refused or timed out; giving up only after all of them; the delays taken and the bound on their sum |
| `Backoff.BaseGrowsUpToMax` | src/connection_manager.rs:321-325 | base delays never decrease and never exceed the maximum |
| `Backoff.BaseDoubles` | src/connection_manager.rs:321-324 | the base delay starts at the minimum and doubles up to the maximum, until the factor saturates |
| `Backoff.TotalDelayBound` | src/connection_manager.rs:320-339 | n retries wait at most min(min_backoff * (2^n - 1), n * max_backoff) + 9 * n * min_backoff, saturation included |
| `Backoff.TotalDelayPow` | src/connection_manager.rs:320-325 | the exponential half of that bound |
| `Backoff.TotalDelayMax` | src/connection_manager.rs:320-325 | the linear half of that bound |
| `Lookup.LookupTopic` | src/service_discovery.rs:29-151 | the loop is the fold of its rounds and stops with its first outcome; its queries follow the accepted answers, its retries stay within their limit, and the address it finds is proxied if and only if some answer asked for that |
| `Lookup.ReplyKept` | src/service_discovery.rs:61-149 | whatever the answer, the loop's variables go on saying what all answers so far amount to |
| `Lookup.RepliesByFields` | src/service_discovery.rs:61-149 | from the fields of an answer: when it fails, is retried, redirects or ends the lookup, and the address it leads to, TLS preferred, with its port |
| `Lookup.AddressByFields` | src/service_discovery.rs:265-296 | the same for the address alone, parse errors included |
| `Lookup.RoundsByAnswers` | src/service_discovery.rs:44-59 | a round asks again exactly when the connection was lost and could be reopened, and only its last answer counts |
| `Lookup.FoundAddressIsSticky` | src/service_discovery.rs:105-133 | over any answers the address found is proxied if and only if some accepted answer asked for a proxy; it then dials the base URL, otherwise the last answer's own; its host is the last answer's |
| `Lookup.QueriesAndRetries` | src/service_discovery.rs:44-76 | each query goes to the address the accepted answers led to, with the authority flag of the last one (false at first); retries over all redirects stay within max_retries |
| `Lookup.RoundsAreRetriesAndRedirects` | src/service_discovery.rs:61-141 | a lookup still running has gone through exactly as many rounds as retries and redirects, so finitely many redirects end it when retries are limited |
| `Lookup.LookupInv` | src/service_discovery.rs:34-150 | the invariant tying the loop's variables to everything seen so far |
| `Lookup.StickyAddress` | src/service_discovery.rs:114-140 | once a proxy was asked for, every later address goes through it |
| `Reader.Reader.PollNext` | src/reader.rs:32-77 | the state is always present at entry; a call acknowledges before it yields |
| `Reader.AcksBeforeYields` | src/reader.rs:32-77 | over any polls the messages yielded are exactly those acknowledged, in order, and each message received is settled once |
| `Reader.ReturnsWhatItAcked` | src/reader.rs:32-77 | over any polls the ids returned as messages are exactly those acknowledged, in order |
| `Reader.PollsReturn` | src/reader.rs:32-77 | every poll returns what the consumer and the acknowledgement call for, from all that came before |

## Left out

- TCP, TLS, DNS, proxies and both executors: input and output, and foreign runtimes.
- Compression: a message is sent as it was built; a payload that cannot be decompressed is the flag `readable`.
- Protobuf and CRC32C internals: parameters, of which `decode(encode(x)) == x` is assumed of protobuf and nothing of the checksum.
- A frame with several sub-commands set at once: a command in the model is exactly one of them, and a control frame read by the engine carries no payload.
- Authentication, builders, options, the `messages` constructors, error conversions and the tables of error codes: they would add easy members only. `Lookup` reports a refused query with the broker's numeric code.
- Logging arguments, such as the power computed inside a trace message of the dialing loop.
- Dropping a half-finished call, and an executor that refuses a task: calls run to completion. A refused heartbeat task would leave a `Connecting` entry without its creator.
- Cumulative acks: the source does not handle them in the table of unacknowledged messages either.
- Whether a returned connection is alive: reading the recorded error clears it, so only "no error recorded at that moment" holds.
- Broker addresses inside the connection manager are names; only their equality matters there.
- The async-std copy of the codec, which repeats the tokio one.
- A connection that breaks is noticed at the top of the engine loop; what was in flight on it is counted until then. A broker ignores a Flow for a subscription it does not have.
- Wrap-around of 64-bit ids and counters, overflow of durations, and the 32-bit message counter of a batch of 2^31 messages or more.
- The wrap-around of `remaining_messages` in a build without overflow checks: the model stops the engine, as a build with them does.
- The order in which a hash map yields properties: a message's properties are a sequence.
- Message id fields other than ledger, entry, partition and batch index; timestamps of the last message received.
- Partitioned lookup, seek, unsubscribe, consumer statistics, and the producer over many topics.
- The ServiceNotReady retry inside the producer's reconnect: only its outcome is modelled.
- A broker URL without a host makes the source panic; `Lookup` ends with an error of its own.
