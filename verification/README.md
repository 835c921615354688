# Verified model of the telemetry server

This project models, in Dafny, how the fleet telemetry server takes messages from vehicles, hands
their records to data stores, and acknowledges them; and it proves what those parts promise.

* **Wire codec.** `FlatBuffers` reads tables, unions and byte vectors from a byte sequence, with
  32-bit wrap-around, with slices that may reach into the spare bytes of their buffer, and with
  panics where the Go code would panic. `FlatBuilder` is the builder that writes them back to front,
  as values and as an object. `TeslaMessages` has the envelope and stream tables, `StreamMessages`
  the messages with their setters and their parsed view.
* **Records.** `Serializer` turns bytes into records and records into responses;
  `RecordTransforms` has the messages in their payloads and normalises them; `Identity` names the
  device from its certificate.
* **Producers.** `RedisProducer` and `MqttProducer` say when a record counts as confirmed, and
  `MqttProducer` and `LoggerProducer` when a record makes them panic; `ReliableAckConfig` says which
  producer vouches for which type.
* **Connections.** `SocketManagers` is the reading loop of one connection, `SocketRegistry` finds
  connections by UUID, `AckServer` is the object that registers them and drains the channel of
  confirmed records.
* **The whole server.** `Delivery` puts these together as concurrent steps: the readers, bounded
  queues and writers of all connections, producers that confirm at once or, like Kafka, later, the
  unbuffered channel of confirmations and the loop that drains it. The modules `DeliveryQueues`,
  `DeliverySteps`, `DeliverySafety`, `DeliveryConservation`, `DeliveryOnce`, `DeliveryRouting`,
  `DeliveryProgress`, `DeliveryEndToEnd` and `DeliveryPanics` prove what holds in every run,
  `DeliveryExamples`, `DeliveryRepeats` and again `DeliveryPanics` where the promises end; `DeliveryProducers` ties the
  dispatch step to the producers as objects.

A run is any sequence of steps allowed by their guards, so a statement about every run covers every
interleaving. Looking a connection up and sending to it are separate steps: the lock of the registry
is not held while a send waits. A connection's `inputs`, `done`, `queued`, `wire` and `lost`, and the
server's `confirmed`, `routed`, `delivered` and `missed` only record what happened, and `DeliverySteps`
proves that they say no more than the steps of the run; the contents of the registry follow from its
`calls`.
Outcomes of Redis, MQTT and Kafka, arrival times and the verdicts of the rate limiter are parts of
the steps. Strings have one character per byte, as in Go.

Six expectations turned out to hold only under a condition, which the model states exactly:

* A confirmed record is acknowledged to the connection that read it exactly if, when it is looked
  up, the last call to the registry about its UUID is the one that registered this connection. If a
  later connection took the UUID, that one gets the acknowledgement; distinct UUIDs among live
  connections are not enough, since a client may come back under the UUID it had before. If the last
  call was a deregistration, be it of an older connection with the same UUID, the record is missed.
* The registry is as large as its counter exactly if each live connection's registration is the last
  call about its UUID; two that shared one are enough to break this, even after one has left.
* The server never gets stuck except over a full queue whose writer has stopped. Over such a queue
  the acknowledgement loop waits forever, for all connections.
* What is done about an accepted message is done to the end exactly if no producer panics at it,
  which can be told from the message. Two can: MQTT at a signal without a value, which the logger
  skips, and the logger at a tire location when the device id is too short to tell the model. The
  reader then unwinds, since nothing below the HTTP server recovers: the producers listed later never
  get the record, nobody acknowledges it unless its source was listed before, and the connection
  closes.
* Converting timestamps is idempotent exactly below 315576000000 * 1000.
* A response to a message whose envelope names a transaction names the same one exactly if the
  message is at most a megabyte, has a union field, and does not make the parser panic. Otherwise it
  names none: the error response to a message that is too big or panics, and the acknowledgement of
  one without a union field.

The error for an unauthorized sender is never constructed, so the branch that handles it is dead.
Records always have a serializer, so the check for one in `handleAcks` never fails; and a message that
is refused by the parser has an envelope that `guessError` can read, or none.

## Model

| member | source | states |
|---|---|---|
| `DeliveryEndToEnd.AcknowledgementsAreTrue` | server/streaming/server.go:89-101 | In every interleaving, whatever acknowledgement of a typed message a writer puts on the wire parses, in whatever buffer it is read, names the txid and topic of a stream message that this connection, or an older one with its UUID, has read, and if the topic has a reliable source, that source has confirmed that record, and a step of the run is its word: a delivery report without error, or an attempt on that record that succeeded |
| `DeliveryEndToEnd.RecordsAreRead` | server/streaming/server.go:138-145 | Every record is that of the binary message some step received, read by a serializer that knows the identity and UUID the connection was made with, and the configuration |
| `DeliverySafety.AcknowledgedIsConfirmed` | server/streaming/socket.go:273-291 | In every run, an acknowledgement queued for a record whose non-empty type is in `ReliableAckSources` implies that the configured source has confirmed that same record, and that a step of the run is its word: Kafka's report of it without error, or the attempt of another producer whose turn it was, with every selected Redis channel published, every MQTT publish timely, or no error |
| `DeliverySafety.SafeHolds` | server/streaming/server.go:89-101 | Every record waiting for Kafka, in the Kafka loop or with the acknowledgement loop belongs to a connection and carries its UUID, and whatever is on its way to be acknowledged is confirmed; kept by every step |
| `DeliverySafety.InputTasksSafe` | server/streaming/socket.go:242-281 | Whatever bytes arrive, an immediate acknowledgement is never planned for a non-empty type with a reliable source, and only records naming this connection are dispatched |
| `DeliverySafety.PassingIsConfirmed` | datastore/kafka/kafka.go:143-150 | A producer that passes a confirmation on is the source configured for the type of the record |
| `DeliverySteps.ConfirmationsAreSteps` | datastore/kafka/kafka.go:113-135 | In every run the confirmations are, in order, those its steps stand for: one for each delivery report without error, none for one with an error, and one for each successful attempt of another producer at the head of a reader's tasks |
| `DeliverySteps.ConfirmationHasStep` | datastore/kafka/kafka.go:113-135 | Every confirmation of a run has its step |
| `DeliverySteps.ConfirmsExactly` | datastore/redis/redis.go:97-120 | What counts as success of an attempt, in the terms of each store's own answers; the logger never succeeds |
| `DeliverySteps.KafkaHasSteps` | datastore/kafka/kafka.go:74-95 | Kafka has yet to report on a record exactly as often as it took it without error and has not reported, well or badly |
| `DeliverySteps.ConnectionsAreSteps` | server/streaming/socket.go:310-334 | In every run what a connection has read and been told is what the steps received and announced, in order; as many messages are written, and lost, as writes succeeded, and failed; and its writer has stopped exactly if it was told to or a write failed |
| `DeliverySteps.ConnectionsAreMade` | server/streaming/server.go:126-145 | Each connection goes by the UUID and identity of the step that made it |
| `DeliverySteps.ReadsBinary` | server/streaming/socket.go:199-204 | Only binary frames are read |
| `DeliveryConservation.ConfirmationsConserved` | server/streaming/server.go:89-101 | In every run, for every record and in total: confirmations passed on equal acknowledgements delivered, the one being delivered, misses, and those in flight; each drained record bumps exactly one of the two counters |
| `DeliveryConservation.BalanceHolds` | server/streaming/server.go:89-101 | The balance of confirmations, kept by every step of every connection and loop |
| `DeliveryConservation.CountedHolds` | server/streaming/server.go:94-97 | The two counters are the numbers of routed and of missed records |
| `DeliveryOnce.AcknowledgedAsListed` | telemetry/serializer.go:90-94 | In every run, a producer confirms a record at most as often as it is listed for the type, and the acknowledgements of a record that are delivered, under way, missed or still to be looked up are at most as many as the source of its type is listed; none if the type has no source |
| `DeliveryOnce.AcknowledgedAtMostOnce` | telemetry/serializer.go:90-94 | If only the source of its type is not listed twice for that type, a record has at most one acknowledgement |
| `DeliveryRepeats.AcknowledgedRepeatedly` | telemetry/serializer.go:90-94 | The bound is met: for every n there is a well configured server that lists the source of a type n times, with a run in which the vehicle is sent n acknowledgements of one record |
| `DeliveryOnce.UsedAsListedHolds` | datastore/kafka/kafka.go:113-135 | The tasks left to hand a record to a producer, its copies in Kafka's hands and the confirmations of it are together at most as many as the producer is listed; none before the record was read |
| `DeliveryOnce.ReportsConfirm` | datastore/kafka/kafka.go:113-135 | Kafka has confirmed a record exactly as often as it reported it delivered without error |
| `DeliveryRouting.AcknowledgedAtHome` | server/streaming/server.go:92-95 | A record that is not missed goes to a connection with the UUID of the one that read it, never an older one, and to that very connection exactly when no later connection, up to the lookup, has the same UUID |
| `DeliveryRouting.LookedUpExactly` | server/streaming/server.go:90-99 | In every run, a confirmed record that is looked up is acknowledged to the connection that read it if and only if the last call to the registry about its UUID registered that connection, goes to another if and only if it registered that other, and is missed if and only if it was a deregistration |
| `DeliveryRouting.DistinctUuidsGoHome` | server/streaming/socket.go:105-128 | If no two connections of a run share a UUID, every reliable acknowledgement reaches the connection that read the record |
| `DeliveryRouting.RegistryInEveryRun` | server/streaming/socket_registry.go:20-53 | In every run the counter is the number of connections that have not left, a UUID finds only the newest live connection that goes by it, and the registry is as large as the counter exactly when each live connection was the last to be registered or deregistered under its UUID |
| `DeliveryRouting.CounterNeverClamped` | server/streaming/socket_registry.go:33-36 | The guard against a counter of zero is never needed |
| `DeliveryRouting.CallsFitHolds` | server/streaming/server.go:139-145 | In every run the calls to the registry register each connection once and deregister it at most once after that |
| `DeliveryQueues.WireIsPrefix` | server/streaming/socket.go:310-334 | In every run the wire of a connection is a prefix of what was queued for it, the queue never exceeds 1000, and at most one message is lost, the last one tried |
| `DeliveryQueues.FifoHolds` | server/streaming/socket.go:97-98 | Queued messages are the written, the lost and the waiting ones, in this order; kept by every step |
| `DeliveryQueues.ReaderFollowsPlan` | server/streaming/socket.go:199-230 | In every interleaving, an idle reader has begun exactly what its inputs call for, up to a task that panics; one has panicked if and only if some input makes a producer panic, and if none does, everything the inputs call for is done; a busy reader has begun a prefix of that |
| `DeliveryQueues.PanicIsLastHolds` | server/streaming/server.go:139-145 | After a task that panicked a connection has stopped reading, for good, and only announces that it leaves |
| `DeliveryQueues.AccountsHold` | server/streaming/socket.go:199-230 | What is begun about the inputs of a connection, up to the first task that panics about each, is what is done and what is left to begin, in order; kept by every step |
| `DeliveryQueues.ReaderRefinesLoop` | server/streaming/socket.go:178-230 | An idle reader has had exactly the effects that the reading loop has on the same messages when nothing else goes on, and what the loop sends are the bytes of the responses the reader queued |
| `DeliveryQueues.TasksRefineLoop` | server/streaming/socket.go:178-230 | The tasks begun about a list of messages have the effects of `ProcessTelemetry` on that list |
| `DeliveryQueues.BalanceHolds` | server/streaming/socket.go:294-311 | What was queued for a connection is, as a multiset, the replies of its own reader and the acknowledgements delivered to it, and nothing else |
| `DeliveryEndToEnd.QueuedIsGenuine` | server/streaming/server.go:89-101 | Every queued response stems from a message; from another connection's only if it was routed here |
| `DeliveryEndToEnd.TracedHolds` | datastore/kafka/kafka.go:74-95 | Everything confirmed, or in Kafka's hands, was handed to that producer by the connection that made the record |
| `DeliveryEndToEnd.EventsHold` | server/streaming/server.go:149-191 | The only records that do not stem from a message are connectivity events |
| `DeliveryEndToEnd.EventRecord` | server/streaming/server.go:155-186 | The record made of the stream message that announces a connection has the connectivity type and message, and the UUID as its txid and socket id, whenever it is accepted |
| `DeliveryPanics.AnsweredIsTakenCareOf` | server/streaming/socket.go:288-291 | In every interleaving, everything queued for a vehicle, an acknowledgement from a data store included, answers a message that was taken care of: answered by its reader, or handed to the source of its type, which did not panic at it |
| `DeliveryPanics.PanicIsNeverAnswered` | telemetry/serializer.go:90-94 | A message at which a producer panics before the source of its type, if it has one, has been given the record is not answered in any run, to any connection |
| `DeliveryPanics.DoneWasBegun` | telemetry/serializer.go:90-94 | Whatever was done about a record is what its message called for before a producer panicked: no later producer is given the record in any run |
| `DeliveryPanics.PanicHappens` | datastore/mqtt/mqtt_payload.go:152-162 | There is a well configured server with a run in which an accepted message for MQTT and then Kafka, which has to confirm it, ends its connection at MQTT, and Kafka is never given the record |
| `DeliveryProgress.Progress` | server/streaming/socket.go:310-334 | As long as no full queue has a stopped writer, the server can take a step unless nothing is left to do |
| `DeliveryProgress.EveryConfirmationSettles` | server/streaming/server.go:89-101 | When the server has come to rest and no full queue has a stopped writer, nothing is in flight: for each record and in total, every confirmation passed on has become a delivered acknowledgement or a miss |
| `DeliveryProgress.HaltedExactly` | server/streaming/server.go:89-101 | The server can take no step by itself exactly when everything left waits, directly or through the acknowledgement loop, for room in a full queue whose writer has stopped |
| `DeliveryProgress.WorkDecreases` | server/streaming/server.go:89-101 | Every step the server takes by itself leaves less work, by a measure that orders readers and producers before the acknowledgement loop before the writers |
| `DeliveryProgress.ComesToRest` | server/streaming/server.go:89-101 | Left to itself, the server comes to rest within as many steps as there is work |
| `DeliveryProgress.AnnouncementsAreNotPassedOn` | server/streaming/server.go:187-189 | A connectivity event is never passed on for acknowledgement, so announcing a connection whose writer has not started cannot block |
| `DeliveryProgress.OrderlyHolds` | server/streaming/server.go:139-145 | Before it reads, a connection only dispatches its connectivity event; when it has stopped reading, be it by a panic that drops what was left, nothing is left to do |
| `DeliveryProgress.WedgedForever` | server/streaming/server.go:95-95 | Once the acknowledgement loop waits for a full queue whose writer has stopped, it waits forever: no record of any connection is acknowledged or missed any more |
| `DeliveryExamples.HangingUpWedges` | server/streaming/socket.go:320-324 | Such a state is reachable: a late Kafka report for a vehicle that takes no responses until its queue is full, and then hangs up, suffices; the writer may take the stop signal before the queue |
| `DeliveryExamples.NamesakeTakesEntry` | server/streaming/socket_registry.go:29-37 | The record of a live connection, the newest under its UUID, can be missed: an older connection with the same UUID left in between |
| `DeliveryExamples.MissHappens` | server/streaming/socket_registry.go:29-37 | There is a well configured server with such a run |
| `DeliveryExamples.ReusedUuidMisroutes` | server/streaming/socket.go:122-128 | Distinctness of live UUIDs does not suffice: a run in which UUIDs are never shared by live connections, and yet an acknowledgement goes to a connection that did not read the record |
| `DeliveryExamples.WedgeHappens` | server/streaming/socket.go:320-324 | There is a well configured server with a run after which no record is ever acknowledged again, with a thousand responses waiting for a writer that has stopped |
| `DeliveryExamples.MisroutingHappens` | server/streaming/socket.go:122-128 | There is a well configured server with a run in which live connections never share a UUID and an acknowledgement goes to the wrong connection |
| `DeliveryExamples.AcceptedIsForKafka` | server/streaming/socket.go:274-281 | Any accepted message of a type that Kafka alone receives and acknowledges can start those runs |
| `Delivery.InitServer` | config/config.go:369-490 | Every accepted configuration gives a server with these settings that meets the hypotheses of the protocol; accepted means no source for connectivity, none that is the logger or not listed for its type, no empty rule, and each listed store available; the Redis producer acknowledges exactly the types that have it as source |
| `Delivery.SocketChanges` | server/streaming/socket.go:310-334 | A connection changes only by its own steps and by an acknowledgement delivered to it |
| `AckServer.Server.HandleAcks` | server/streaming/server.go:89-101 | The loop acknowledges each record, in order, to the socket its id finds, or counts a miss; the two counters together grow by the number of records |
| `AckServer.LookupFollowsLoop` | server/streaming/server.go:89-101 | The lookup step of the concurrent system does what the loop body does with the same record |
| `AckServer.Server.RegisterSocket` | server/streaming/server.go:193-200 | The socket is in the registry before the connectivity event is dispatched |
| `AckServer.Server.DeregisterSocket` | server/streaming/server.go:202-208 | The socket is out of the registry before the connectivity event is dispatched |
| `AckServer.Server.DispatchConnectivityEvent` | server/streaming/server.go:149-191 | The event goes to each producer of its type once, in order, and nowhere if there is no rule or no record |
| `AckServer.EventGoesToEach` | server/streaming/server.go:149-191 | An event goes to each producer listed for connectivity, one by one in order |
| `AckServer.AnnouncementFollowsServer` | server/streaming/server.go:149-191 | An announcement in the concurrent system has the effects of the object's dispatch |
| `SocketRegistry.Registry.RegisterSocket` | server/streaming/socket_registry.go:20-26 | The new state of the registry; an entry under the same UUID is overwritten |
| `SocketRegistry.Registry.DeregisterSocket` | server/streaming/socket_registry.go:29-38 | The new state of the registry; the entry goes whoever it belongs to, and the counter stops at zero |
| `SocketRegistry.Registry.GetSocket` | server/streaming/socket_registry.go:40-45 | The socket registered under the UUID, if any |
| `SocketRegistry.Registry.NumConnectedSockets` | server/streaming/socket_registry.go:48-53 | The counter |
| `SocketRegistry.FindsLastRegistered` | server/streaming/socket_registry.go:20-45 | Whatever the calls, a UUID finds a socket exactly when the last call about that UUID registered it |
| `SocketRegistry.CounterIsLive` | server/streaming/socket_registry.go:20-38 | If each socket registers once and deregisters once after that, the counter is the number of live sockets and never clamped |
| `SocketRegistry.CounterExactly` | server/streaming/socket_registry.go:20-38 | Whatever the calls, the counter is the largest surplus of registrations over deregistrations in any stretch of calls up to now, and never negative |
| `SocketRegistry.FoundIsLive` | server/streaming/socket_registry.go:40-45 | Map keys are UUIDs of live sockets |
| `SocketRegistry.SizeIsFound` | server/streaming/socket_registry.go:20-53 | The map is at most as large as the counter, and as large exactly when every live socket's registration is the last call about its UUID |
| `SocketRegistry.UnsharedAreFound` | server/streaming/socket_registry.go:20-53 | If no socket registers under the UUID of a live one, every live socket is found and map and counter agree |
| `SocketRegistry.DistinctNowIsNotEnough` | server/streaming/socket_registry.go:29-38 | Distinct live UUIDs alone do not suffice for that: two sockets share a UUID, the first leaves, and the second is live but not found |
| `SocketManagers.PanicsExactly` | datastore/mqtt/mqtt_payload.go:152-162 | The processing of a message panics if and only if it is let in and accepted, its topic is that of signals, and either MQTT is listed for it and some signal of the payload has no value, or the logger is, some signal tells where tires are, and the device id is shorter than four characters |
| `SocketManagers.FrameAccounting` | server/streaming/socket.go:199-281 | For every content of a frame: dropped by the enabled limiter, nothing; too big, or failing otherwise than by type, one error response and no dispatch; accepted, each listed producer once in order, and one immediate acknowledgement exactly if the type has no reliable source, unless a producer panics: then the listed producers up to the first that panics, and no acknowledgement; no stream message, one acknowledgement and then the treatment of an accepted message of the empty type |
| `SocketManagers.AnswerBytes` | server/streaming/socket.go:294-311 | The bytes of every answer: a message that is accepted or no stream message gets bytes that parse as an acknowledgement with the txid and type of its record, and not as a stream message; any other gets a stream message with that txid, the complaint and nothing else, which is no acknowledgement |
| `SocketManagers.PlanCounts` | server/streaming/socket.go:242-281 | How many acknowledgements, errors and dispatches a processed message leads to |
| `SocketManagers.AckComesLast` | server/streaming/socket.go:266-280 | The immediate acknowledgement comes after all dispatches; only a message of an unknown type is also acknowledged before |
| `SocketManagers.NothingIsForgotten` | server/streaming/socket.go:273-280 | Under an accepted configuration a message let in is answered at once, or handed to the producer that will acknowledge it and does not panic at it, if and only if no producer panics at it, or one that is listed after the reliable source of its type does |
| `SocketManagers.StatsArePayloadBytes` | server/streaming/socket.go:342-343 | `RecordsStats` holds, by type and in total, the payload bytes of exactly the processed messages |
| `SocketManagers.SocketManager.ProcessTelemetry` | server/streaming/socket.go:178-230 | The loop has the effects of each readable frame in order, stops at the first frame that is not binary or after the first at which a producer panics, and ends with the number of frames dropped since the last one processed |
| `SocketManagers.SocketManager.ProcessFrame` | server/streaming/socket.go:209-229 | One round of the loop: the effects and the statistics of the frame, whether a producer panicked at it, and the number of frames the limiter has rejected in a row |
| `SocketManagers.SocketManager.ParseAndProcessRecord` | server/streaming/socket.go:242-281 | The effects and the statistics of one message, and whether a producer panicked at it |
| `SocketManagers.SocketManager.ProcessParsed` | server/streaming/socket.go:246-280 | The effects of a parsed message, branch by branch, including the fall-through of unknown types |
| `SocketManagers.SocketManager.ProcessRecord` | telemetry/serializer.go:90-94 | The producers listed for the type get the record, in order, up to and including the first that panics |
| `SocketManagers.SocketManager.RespondToVehicle` | server/streaming/socket.go:294-311 | One response is sent, an acknowledgement or an error, with the txid of the record |
| `SocketManagers.SocketManager.ReliableAck` | server/streaming/socket.go:283-286 | Whether the type has a reliable source |
| `SocketManagers.SocketManager.ReportMetricBytesPerRecords` | server/streaming/socket.go:342-343 | The statistics grow by the size, under the type |
| `SocketManagers.SocketManager.RecordsStatsToLogInfo` | server/streaming/socket.go:167-176 | The statistics with their total, which does not depend on the order of the map |
| `SocketManagers.SumAt` | server/streaming/socket.go:170-173 | A sum over a map is the same in every order |
| `Serializer.BinarySerializer.NewRecord` | telemetry/record.go:55-67 | The record and the error for every input, the recovered panic included; there always is a record |
| `Serializer.BinarySerializer.Deserialize` | telemetry/serializer.go:37-73 | The record is filled from the parsed message, with the delivery time replaced and the bytes re-encoded |
| `Serializer.BinarySerializer.GuessError` | telemetry/serializer.go:101-109 | The txid and type of a message that is no stream message, if its envelope can be read |
| `Serializer.Record.ApplyProtoRecordTransforms` | telemetry/record.go:152-200 | The message the payload stands for, normalised, and the payload marshalled from it; a payload that cannot be unmarshalled is left as it was, one that cannot be marshalled again is lost |
| `Serializer.Record.ApplyRecordTransforms` | telemetry/record.go:202-212 | The payload after that and, if asked for, as JSON of the message |
| `Serializer.RecordMessage` | telemetry/record.go:152-200 | The message producers are given with the record of an accepted stream message is the normal form of what its payload was unmarshalled to; messages of an unknown type have none |
| `Serializer.AcceptedExactly` | telemetry/record.go:55-67 | A message is accepted exactly when it is at most a megabyte, parses, is of a type with a dispatch rule or names the device as sender, and its payload can be unmarshalled, marshalled again and, if asked for, turned into JSON |
| `Serializer.AcceptedPayload` | telemetry/record.go:152-212 | What producers are given: the normalised message marshalled with the VIN, or its JSON if that is asked for; payloads of other types as they came |
| `Serializer.RefusedPayload` | telemetry/record.go:152-212 | What is left of the payload of a refused message that parses: all of it if the sender is not authorized or it cannot be unmarshalled, otherwise nothing |
| `Serializer.RecordIsNormal` | telemetry/record.go:152-200 | What the message of an accepted record is, by type: the unmarshalled payload with, field by field, only its first location, its scientific numbers or its millisecond timestamps rewritten |
| `Serializer.EveryMessageIsClassified` | telemetry/serializer.go:37-73 | Every message gets a record and the right kind of error; none is ever reported as an unauthorized sender, so that branch is dead |
| `Serializer.OtherTypesAreUnknown` | telemetry/serializer.go:101-109 | A message that is no stream message is reported as of unknown type, with the type and txid it names |
| `Serializer.GuessingSucceeds` | telemetry/serializer.go:101-109 | Guessing never meets an envelope, txid or type that cannot be read, so its branches for that are dead |
| `Serializer.RawBytesKeepFields` | telemetry/serializer.go:50-61 | `RawBytes` of any message that parses, in any layout, parse to the same fields with only `DeliveredAtEpochMs` replaced, by the time now in whole milliseconds; the record names transaction, type, device, client version and connection |
| `Serializer.ResponsesAreDistinct` | telemetry/serializer.go:76-87 | An acknowledgement carries txid and type of the record and nothing else, an error response its txid and "incorrect message format" and nothing else, and neither decoder accepts the other |
| `Serializer.ResponsesNameTheRequest` | telemetry/serializer.go:76-87 | For every message that parses as a stream message, both responses name its txid, and an acknowledgement its topic |
| `Serializer.ResponsesNameExactly` | telemetry/serializer.go:37-73 | Both possible responses to a message whose envelope has a txid name it if and only if the message is at most a megabyte, has a union field and does not make the parser panic; otherwise they name none |
| `Serializer.RecordNames` | telemetry/serializer.go:37-73 | The record of such a message has that txid, or none, by the same condition |
| `Serializer.UnrecognisedIsAnonymous` | telemetry/serializer.go:37-48 | Both possible responses to any message that is too big, panics or has no union field name no transaction, whatever it names |
| `Serializer.OversizedMessage` | telemetry/record.go:56-58 | For every txid there is a message that names it and fails only by its size |
| `Serializer.PanickingMessage` | telemetry/serializer.go:38-45 | For every txid of moderate length there is a message that names it and fails only by making the parser panic, which is recovered before the txid is noted |
| `Serializer.HeaderOnlyMessage` | telemetry/serializer.go:101-105 | For every txid of moderate length there is a message that names it and fails only by having no union field; it is acknowledged anonymously |
| `SocketManagers.AnswersExactly` | server/streaming/socket.go:294-311 | Whatever a reader sends about a message whose envelope has a txid, its bytes parse to a response of that txid if and only if the message is at most a megabyte, has a union field and does not make the parser panic |
| `StreamMessages.StreamRoundTrip` | messages/stream_message.go:26-52 | For all field values within the size limit, and whatever spare bytes follow in the buffer, decoding an encoded stream message gives every field back, elided defaults included |
| `StreamMessages.AnyLayoutParses` | messages/stream_message.go:26-52 | Any buffer that holds the two tables parses to the fields, whatever its padding, order and spare bytes |
| `StreamMessages.ImpostorPanics` | messages/stream_message.go:36-51 | An envelope of the stream type around a byte vector makes the parser panic, though its txid can be read |
| `StreamMessages.SettersThenEncode` | messages/stream_message.go:55-62 | After any setters, `ToBytes` decodes to the current fields of the message |
| `StreamMessages.SettersAgree` | messages/stream_message.go:89-121 | After construction or parsing, view and fields agree over any sequence of setter calls |
| `StreamMessages.SettersSet` | messages/stream_message.go:89-121 | What each setter puts into which fields, byte for byte, and that it changes no other: a sender id is split at its first dot, an identity is joined with one, and the delivery time is stored in milliseconds |
| `StreamMessages.DeliveredInMilliseconds` | messages/stream_message.go:118-121 | For every time in 64 bits of nanoseconds the stored number is the whole milliseconds, wrapping below the epoch |
| `StreamMessages.WireTypes` | messages/tesla/flatbuffers_extension.go:60-103 | The type byte is 4 for stream messages and 5 for acknowledgements |
| `StreamMessages.EveryMessageParses` | messages/stream_message.go:26-52 | For any bytes: they parse exactly if they have a union field, are of type 4 and every field can be read; they are refused exactly if there are none, there is no union field, or they are of another type and txid and topic can be read; anything else panics |
| `StreamMessages.EveryAckParses` | messages/stream_ack_message.go:18-33 | For any bytes: the same for acknowledgements, which need no union field and are of type 5 |
| `StreamMessages.NothingToParse` | messages/stream_ack_message.go:18-23 | No bytes are refused as a stream message, and make the acknowledgement parser panic |
| `StreamMessages.TooShortToParse` | messages/tesla/flatbuffers_extension.go:34-47 | One to three bytes make both parsers panic |
| `StreamMessages.EncodedParses` | messages/stream_message.go:55-62 | Encoding through the view and encoding from the fields give the same bytes |
| `StreamMessages.SettersKeepTheRest` | messages/stream_message.go:89-121 | No setter touches topic, txid, payload or creation time, and any setter drops the view |
| `StreamMessages.ParsedAgrees` | messages/stream_message.go:26-52 | A parsed message's fields are those its view reads |
| `StreamMessages.ParsedSize` | messages/stream_message.go:26-52 | No field of a parsed message is longer than the capacity of the buffer it came from, which a slice expression may reach |
| `StreamMessages.SenderIdOrIdentity` | messages/stream_message.go:89-104 | `SetSenderID` of the joined id and `SetIdentity` of the parts leave the same message exactly when the device type has no dot |
| `StreamMessages.AckRoundTrip` | messages/stream_ack_message.go:18-37 | An encoded acknowledgement is decoded to its fields, and the stream decoder rejects it |
| `StreamMessages.StreamIsNoAck` | messages/stream_ack_message.go:18-23 | The acknowledgement decoder rejects every encoded stream message |
| `StreamMessages.StreamMessage.Set` | messages/stream_message.go:89-121 | Each setter sets its own fields, as said there, and drops the view |
| `StreamMessages.StreamMessage.Encode` | messages/stream_message.go:55-62 | `ToBytes` of an agreeing message; the bytes parse to the current fields |
| `TeslaMessages.EncodeStream` | messages/tesla/flatbuffers_extension.go:60-81 | The builder calls produce the stream message the specification describes |
| `TeslaMessages.EncodeEnvelope` | messages/tesla/flatbuffers_extension.go:12-31 | The builder calls produce the envelope around a message |
| `TeslaMessages.EncodeAck` | messages/tesla/flatbuffers_extension.go:100-103 | The builder calls produce the acknowledgement |
| `TeslaMessages.AddField` | messages/tesla/FlatbuffersStream.go:197-232 | One slot writer adds one field to the open table |
| `TeslaMessages.HeaderReads` | messages/tesla/flatbuffers_extension.go:39-44 | An envelope whose union field is absent is rejected, though its other fields can be read |
| `TeslaMessages.VtablesDiffer` | messages/tesla/FlatbuffersStream.go:230-232 | The two tables of a message never have equal vtables, so the builder never finds one to share |
| `TeslaMessages.EnvelopeReads` | messages/tesla/flatbuffers_extension.go:34-47 | A buffer that holds an envelope is read back through slots 4 to 12, whatever lies between the parts |
| `TeslaMessages.StreamReads` | messages/tesla/FlatbuffersStream.go:29-191 | A buffer that holds a stream table is read back through its slot readers, elided fields as defaults |
| `TeslaMessages.StreamHeld` | messages/tesla/flatbuffers_extension.go:60-81 | The encoder's output holds an envelope and a stream table with the given fields, and is at most 512 bytes longer than they are |
| `TeslaMessages.StreamIsTidy` | messages/tesla/flatbuffers_extension.go:60-81 | The encoder's output is aligned, counted from its start: tables, references and strings to 4, the delivery time to 8; strings end with a zero byte, and numbers are stored exactly if they are not zero |
| `TeslaMessages.AckHeld` | messages/tesla/flatbuffers_extension.go:100-103 | The encoder's output holds an envelope with the given fields, of acknowledgement type |
| `TeslaMessages.EnvelopeHeld` | messages/tesla/flatbuffers_extension.go:12-31 | Closing an envelope keeps everything written before and adds a readable table |
| `TeslaMessages.StreamBodyHeld` | messages/tesla/flatbuffers_extension.go:61-77 | The inner table holds the stream fields |
| `TeslaMessages.TableHeld` | messages/tesla/FlatbuffersEnvelope.go:156-185 | Adding fields to a fresh table and closing it gives a table with a readable vtable, in any alignment |
| `FlatBuffers.OffsetReads` | messages/tesla/FlatbuffersEnvelope.go:47-53 | A slot of a held table is found through the vtable, absent and trimmed slots as 0; see the Tables part of the FlatBuffers Internals document |
| `FlatBuffers.BytesFieldReads` | messages/tesla/FlatbuffersEnvelope.go:47-53 | A byte-vector field is read back |
| `FlatBuffers.ByteVectorReads` | messages/tesla/FlatbuffersEnvelope.go:47-53 | A length-prefixed vector is read back, whatever spare bytes the buffer has; see Strings and Vectors |
| `FlatBuffers.ByteVectorExactly` | messages/tesla/FlatbuffersEnvelope.go:47-53 | A vector is read exactly if it ends within the capacity of the buffer, spare bytes included; otherwise reading it panics |
| `FlatBuffers.FieldsLieInside` | messages/tesla/FlatbuffersEnvelope.go:47-53 | A field that is not inside the buffer makes its reader panic, at each width |
| `FlatBuffers.ScalarFieldReads` | messages/tesla/FlatbuffersStream.go:29-35 | Scalar fields of 1, 4 and 8 bytes are read back, absent ones as 0 |
| `FlatBuffers.UnionFieldReads` | messages/tesla/FlatbuffersEnvelope.go:113-120 | The union table is found; see Unions |
| `FlatBuffers.TableKept` | messages/tesla/flatbuffers_extension.go:12-31 | What a buffer holds it still holds when more is put in front of it |
| `FlatBuilder.Builder.End` | messages/tesla/FlatbuffersStream.go:230-232 | Closing a table writes its vtable, trimmed, and the object's reference to it |
| `FlatBuilder.Builder.Add` | messages/tesla/FlatbuffersStream.go:200-229 | A slot writer stores a field unless it has the default value |
| `FlatBuilder.Builder.AddString` | messages/tesla/flatbuffers_extension.go:13-15 | A byte string is stored with its length and a terminating zero, aligned |
| `FlatBuilder.Builder.Close` | messages/tesla/flatbuffers_extension.go:26-30 | The finished buffer starts with the reference to the root table |
| `FlatBuilder.WriteAllStores` | messages/tesla/FlatbuffersStream.go:197-229 | After any distinct slot writers each stored field is where its slot says, and unused slots are empty |
| `FlatBuilder.StoredInOrder` | messages/tesla/FlatbuffersStream.go:197-229 | Of two stored fields the one added first is nearer to the end of the buffer |
| `FlatBuilder.WriteAllAligns` | messages/tesla/FlatbuffersStream.go:197-229 | Every stored field lies at a multiple of its width, and the alignment of the whole buffer covers it |
| `FlatBuilder.EndNotesSize` | messages/tesla/FlatbuffersStream.go:230-232 | The second entry of a vtable is the size of its object |
| `FlatBuilder.FinishAligns` | messages/tesla/flatbuffers_extension.go:26-30 | The length of the finished buffer is a multiple of the largest alignment used |
| `FlatBuilder.ObjectHeld` | messages/tesla/FlatbuffersStream.go:230-232 | A closed table can be read through its vtable |
| `Identity.AcceptedIdentitySplits` | messages/identity.go:78-96 | For every accepted certificate neither client type nor device id has a dot, and parsing the joined id gives both back |
| `Identity.ParseUndoesBuild` | messages/identity.go:128-140 | Parsing a built id gives the parts back exactly when the client type has no dot |
| `Identity.BuildUndoesParse` | messages/identity.go:128-140 | Building from a parsed id gives the id back exactly when it has a dot |
| `Identity.FirstDecidingUsage` | messages/identity.go:98-115 | The first known or excluded usage decides: accepted exactly when a known one precedes any excluded one |
| `Identity.EveryCertificateIsDecided` | messages/identity.go:78-115 | Every certificate is accepted, excluded or unauthorized, by its issuer and its first deciding usage, and which client type an accepted one gets |
| `Identity.ArcsAgree` | messages/identity.go:43-66 | The engineering and production arcs of the OID table name the same client types |
| `Identity.FirstUnitDecides` | messages/identity.go:117-125 | The first organizational unit with a client type overrides it |
| `ReliableAckConfig.ConfigureReliableAckSources` | config/config.go:492-522 | Succeeds exactly when every entry is a non-connectivity type mapped to a non-logger dispatcher listed for that type, in any map order, with the inverse of the sources as result; otherwise a refusal of a really bad entry |
| `ReliableAckConfig.ParseValidDispatchers` | config/config.go:525-533 | The dispatchers other than the logger, in order |
| `ReliableAckConfig.OneSourcePerType` | config/config.go:492-522 | Each reliable type is acknowledged by exactly one dispatcher, which is in its dispatch rule and not the logger; no other type is acknowledged, connectivity least of all |
| `ReliableAckConfig.ConfigureProducers` | config/config.go:369-490 | Success exactly when the sources are valid, every rule is non-empty and every listed store can be built; the rules then are the configured ones |
| `RedisProducer.Producer.Produce` | datastore/redis/redis.go:97-120 | Published is the longest prefix of the selected channels before the first failure, the counters say exactly that prefix, and only a complete one is passed on |
| `RedisProducer.Producer.PublishAll` | datastore/redis/redis.go:107-117 | The publishing loop with its early return and counters |
| `RedisProducer.Producer.ChannelsForRecord` | datastore/redis/redis.go:141-157 | The live subscribers, then the vehicle's channel if enabled |
| `RedisProducer.Producer.SubscriberChannels` | datastore/redis/redis.go:162-172 | Members whose lease has run out are purged, the others returned in order |
| `RedisProducer.Producer.ProcessReliableAck` | datastore/redis/redis.go:123-128 | Only reliable types are passed on |
| `RedisProducer.SelectedAreLive` | datastore/redis/redis.go:159-172 | A channel is selected exactly if a member of it has a lease at or after the purge time, or it is the enabled vehicle channel |
| `RedisProducer.SelectedInOrder` | datastore/redis/redis.go:141-172 | The channels one by one: those of the members with a running lease, each as often as it is in the set and in its order, and the vehicle's own last |
| `RedisProducer.VehiclesNeverShare` | datastore/redis/redis.go:162-176 | For one type, different vehicles have different channels and sets; and for different types, too, unless a VIN has an opening brace |
| `RedisProducer.PublishedExactly` | datastore/redis/redis.go:97-120 | A record is confirmed exactly when the subscribers could be read and every publish succeeded |
| `RedisProducer.LiveKeepsOrder` | datastore/redis/redis.go:162-172 | Purging keeps the order of what is left |
| `MqttProducer.ProcessVehicleAlerts` | datastore/mqtt/mqtt_payload.go:30-81 | One publish per name with a started alert, then one per name: as many tokens as both together, with the current alert and the whole history |
| `MqttProducer.GatherAlerts` | datastore/mqtt/mqtt_payload.go:35-47 | Histories by name, and as current alert of a name the first in list order among those that started last; none if none has started |
| `MqttProducer.CurrentIsUnique` | datastore/mqtt/mqtt_payload.go:40-46 | There is only one such alert |
| `MqttProducer.CurrentStartedLast` | datastore/mqtt/mqtt_payload.go:40-46 | By the start times themselves: an alert is current if and only if no alert of the name started later, and none before it in the list at the same time |
| `MqttProducer.CurrentBySeconds` | datastore/mqtt/mqtt_payload.go:40-46 | With nanoseconds in their range, no alert of the name has more seconds than the current one, or as many and more nanoseconds; and of those that are equal none stands earlier |
| `MqttProducer.HistoriesPartition` | datastore/mqtt/mqtt_payload.go:37-38 | The histories split the list: each alert is in the history of its name as often as in the list, and in no other |
| `MqttProducer.HistoryKeepsOrder` | datastore/mqtt/mqtt_payload.go:37-38 | A history keeps the order of the list |
| `MqttProducer.PayloadToMap` | datastore/mqtt/mqtt_payload.go:152-158 | Panics if and only if some signal has no value; otherwise one entry per field, and a repeated field keeps its last value |
| `MqttProducer.WaitForTokens` | datastore/mqtt/mqtt.go:168-182 | For any number of tokens and any delays between the waits, the waits take no longer than the timeout, and there is no error exactly when every token ends well inside its remaining budget |
| `MqttProducer.TimelyWhateverTheOrder` | datastore/mqtt/mqtt.go:168-182 | A publish answered well within the timeout counts wherever it stands in the list |
| `MqttProducer.Produce` | datastore/mqtt/mqtt.go:139-188 | Panics if and only if the client is open and some signal of the message has no value; the reliable-acknowledgement step runs exactly when the client is open, the record has a message that can be converted, each of the publishes it calls for could be made, and every one of them was timely |
| `MqttProducer.CountPublishes` | datastore/mqtt/mqtt.go:149-161 | A panic if some signal has no value; otherwise the topics of the publishes: one per field, per name with a started alert and per name, per error in order, or one |
| `MqttProducer.PublishEach` | datastore/mqtt/mqtt_payload.go:14-26 | Tokens in the order of the publishes, up to the first that cannot be marshalled |
| `MqttProducer.OnlyMessagesConfirm` | datastore/mqtt/mqtt.go:158-160 | A record is only ever confirmed if its type is one that is unmarshalled and its message can be converted |
| `LoggerProducer.PayloadToMap` | datastore/simple/transformers/payload.go:17-38 | Panics if and only if some signal tells where tires are and the VIN has fewer than four characters; otherwise one entry per field that has a value of a known kind |
| `LoggerProducer.Produce` | datastore/simple/logger.go:39-46 | The outcome of logging a message: a panic under that condition, an error for a record without a message, and success otherwise |
| `DeliveryProducers.DispatchToRedis` | datastore/redis/redis.go:97-128 | The producer object passes a record on exactly when the dispatch step of the whole server does, given the same answers and subscribers |
| `DeliveryProducers.RedisPasses` | datastore/redis/redis.go:119-128 | The dispatch step passes a record on exactly when the subscribers could be read, every publish succeeded, and the type has Redis as its source |
| `DeliveryProducers.DispatchToMqtt` | datastore/mqtt/mqtt.go:139-188 | The producer panics at a record, and confirms it, exactly when the dispatch step does, on the message the record was given when it was read |
| `DeliveryProducers.DispatchToLogger` | datastore/simple/logger.go:39-46 | The logger panics at a record exactly when the dispatch step does, and no dispatch to it confirms anything |
| `DeliveryProducers.MqttConfirmsMessages` | datastore/mqtt/mqtt.go:158-160 | No step confirms through MQTT a record whose type is not unmarshalled, or one at which MQTT panics |
| `MqttProducer.WaitTokenTimeout` | datastore/mqtt/mqtt.go:192-205 | A wait ends within its allowance |
| `RecordTransforms.TransformTimestamp` | telemetry/record.go:278-283 | In place, every alert keeps its name and both its instants, start with start and end with end |
| `RecordTransforms.ConversionKeepsInstant` | telemetry/record.go:285-293 | A timestamp of 315576000000 seconds or more becomes the one for which seconds * 1000 + nanos / 1000000 is the input; a plausible one, or none, is left alone |
| `RecordTransforms.ConversionIdempotent` | telemetry/record.go:285-293 | Converting twice changes nothing exactly for inputs below 315576000000 * 1000 |
| `RecordTransforms.TransformLocation` | telemetry/record.go:227-239 | In place, at most the first location datum is converted |
| `RecordTransforms.LocateFirstChangesOne` | telemetry/record.go:227-239 | The first location datum, and only its value, may change |
| `RecordTransforms.TransformScientificNotation` | telemetry/record.go:243-253 | In place, exactly the strings in scientific notation are rewritten |
| `RecordTransforms.RecogniserExact` | telemetry/record.go:30-30 | The recogniser accepts exactly the language of the regular expression |
| `RecordTransforms.FixedIsNotScientific` | telemetry/record.go:246-248 | The fixed-point form is never recognised again |
| `RecordTransforms.FixedReads` | telemetry/record.go:246-248 | The fixed-point form reads back as the rounded number: sign, whole part without leading zeros, five decimals |
| `RecordTransforms.SignalsAreNormal` | telemetry/record.go:227-253 | What becomes of each signal: the first location, if it parses, is a location; any other text in scientific notation is its number in fixed-point form; nothing else changes |
| `RecordTransforms.NormalisedIsNormal` | telemetry/record.go:152-200 | The same for whole messages, by kind: signals, timestamps of alerts, and no change to errors and connectivity |
| `RecordTransforms.NormaliseKeepsKeys` | telemetry/record.go:182-183 | Normalisation keeps length, order and keys |
| `RecordTransforms.NormaliseKeepsKinds` | telemetry/record.go:182-183 | Normalisation neither gives a signal a value nor takes one away, and leaves tire locations alone |
| `RecordTransforms.NormaliseMessage` | telemetry/record.go:152-200 | The in-place rewrites of a message, by its kind, give its normal form |
| `RecordTransforms.NormaliseIdempotent` | telemetry/record.go:182-183 | Normalising a normalised record changes nothing |

## Left out

- Network, TLS, ACME, HTTP handlers, control plane, profiler and health servers, files and environment: plumbing without a deep property.
- Metrics, logging and airbrake: only the counters named above are kept.
- Producers for Kinesis, Pub/Sub and ZMQ: in the protocol they are one abstract call that either confirms or does not. That Kinesis also refuses types without a stream is part of that choice.
- Rate limiter, websocket, Redis, MQTT and Kafka clients: their answers are parameters or choices of a step. A Kafka message gets at most one delivery report, and purging and reading the subscribers is one step.
- Protobuf and JSON marshalling: functions that may fail, from payloads to messages and from messages and VINs to bytes. That decoding a marshalled payload gives it back is not used anywhere.
- The value switches of the payload converters and the names of fields, which are a parameter: one-branch facts. Of the kinds of values only those are told apart that are rewritten or make a producer panic; which others the logger knows is a parameter.
- Floating-point parsing: the numeric value of a location or of a number in scientific notation is a parameter; the recogniser and the shape of the output are exact.
- RecordTransforms.NormaliseIdempotent: assumes that whatever parses as a location opens with a parenthesis, which the format string of ParseLocation demands.
- RecordTransforms.ConversionKeepsInstant: does not model overflow of Go's time values for seconds near the ends of 64-bit integers.
- FlatBuilder.Builder.End: does not look for an equal vtable written before, which the library would share; by TeslaMessages.VtablesDiffer there never is one. Growth of the buffer is not modelled either.
- StreamMessages.StreamRoundTrip: is limited to fields of 0x40000000 bytes in all, since the builder of the library refuses to grow a buffer past that; a message it can hold has no longer fields.
- FlatBuffers reads: a buffer has at most a hundred million spare bytes, many more than reading a message of a megabyte leaves.
- DeliveryOnce.AcknowledgedAtMostOnce: assumes that the source of the type is not listed twice for it, which the configuration does not check; by DeliveryRepeats.AcknowledgedRepeatedly it is needed.
- SocketManagers: the websocket identity comes from the certificate before the connection is registered; failing there ends the connection, and it is not part of a run.
- Time: deadlines of reads and writes are not modelled, so a reader may go on reading however long its writer has stopped. Statements about every run cover more runs than the deadline of 50 ms allows; no example run reads after the writer has stopped.
- Dispatcher names outside the seven constants: not modelled.
- Fields of a record that nothing here looks at, such as production and reception times.
