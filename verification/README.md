# Verified model of the Stellflow Go SDK

This project models the client side of Stellflow, a Kafka-like log service, in Dafny and proves what
the client promises: that batches are appended exactly once under retries, that bytes and messages
correspond both ways, that concurrent requests never get each other's responses, and that retries,
versions, positions and routes follow simple specifications whatever the interleaving.

`dafny verify dfyconfig.toml` checks everything. The broker, the network, timers and contexts are
environment steps: they lose, delay, repeat and reorder requests and end calls at any time. What they do to a
call of a client is a constant of the client's class or a parameter of the method (`Producer.Circumstances`,
`ProtocolClient.World`, `Consumer.FetchTrial` and the like), chosen freely, and the contracts say what the
client makes of it: when it goes on, when it gives up, and with what result.

## How the modules fit together

| Part | Modules | What they hold |
|---|---|---|
| Bytes | `Wire`, `Utf8`, `Binary`, `Frames`, `Crc32c`, `Crc32cAnswers`, `Layouts` | a grammar of formats with one parser and one serializer and their laws; text; the `Writer` and `Reader` proved against it; frames; the checksum and its known values; what stands where in batches and responses, byte by byte |
| Record batches | `RecordBatches`, `RecordBatchSets`, `RecordBatchCodec` | layouts, round trips, corruption, tiling of sets; the encoder and decoder loops |
| Responses | `Responses`, `ResponseBodies`, `Registry`, `SortedLists` | nested Metadata and Fetch decoders, whole bodies, the codec registry |
| Delivery | `Delivery`, `DeliveryInvariant`, `DeliveryLedger`, `DeliveryRuns`, `DeliverySafety`, `DeliveryOutcomes`, `DeliveryHistory`, `DeliveryProgress`, `DeliveryLoss`, `DeliveryRetry` | the state machine of any number of concurrent `produceRecords` calls, its invariant, what holds of every run, and what an acknowledgement is worth call by call |
| Producer | `ProducerOptions`, `ProducerBatches`, `Producer`, `AsyncDesk`, `AsyncOutcomes`, `AsyncProducer`, `AsyncGuarantees` | the bytes of a batch, the client's methods as moves of the state machine, the books of the background worker, its methods on top of that client, and what a completed future says about the partition |
| Transport | `Connection`, `Pool`, `CorrelationIds`, `ProtocolClient` | the multiplexer, single-flight dialing, retries, correlation ids, versions |
| Reading | `Positions`, `Consumer`, `RouteCache` | consumer positions, fetch loops, commits; the metadata route cache |

The parts are joined where the code joins them. A request of the delivery protocol carries the real
encoding of its batch, and the broker reads it with the decoder's own specification
(`DeliveryRuns.HandleReads`), so the delivery results rest on the codec's round trip. The methods of
`Producer.Client` keep the client in a state that a run of the protocol reaches, and that continues the
state they were called in (`DeliveryHistory.Arrived`), with every other caller free to step in between.
`AsyncProducer.Worker` delivers through that client. Its byte counter guarantees that every batch it sends
can be encoded and decoded (`AsyncDesk.BoundedBatchEncodes`), and every method keeps it true that a future
completed with metadata has its delivery among the client's calls (`AsyncOutcomes.Named`), from which
`AsyncGuarantees.FutureIsKept` and `FuturesInOrder` conclude where the record stands. One protocol-level
send transmits at most `Config.framesPerSend` requests, twice the attempt limit of `ProtocolClient.Client`,
as its `Send` ensures.

## What was found

- `DecodeRecordBatchSet` panics on length fields above 2^31 - 9, because the prefix is added in 32 bits
  (`RecordBatchSets.PanicsExactly`, with an eight-byte input in `PanicExample`).
- After a call has failed with its batch already appended, the next batch of the key takes the same base
  sequence and is acknowledged without being stored: from every reachable state in which the key is quiet and
  the partition holds a batch under the next identity (`DeliveryLoss.AcknowledgedButLost`). Call by call, the
  records of an acknowledged call are in the partition if and only if the one batch with its identity is its
  own; any other belongs to a call that failed after it had transmitted under the same base sequence
  (`DeliveryOutcomes.StoredOrRivalled`).
- Idempotence forces per-partition ordering only for the two defined strategies
  (`ProducerOptions.IdempotentIsOrdered`).
- `removePending` works by correlation id alone: a request can be left without anybody to answer it if and
  only if, when it is registered, an unfinished request has the same id (`Connection.RegistrationDecides`), as
  can be the case (`Connection.SharedIsReachable`).
- Overlapping `nextCorrelationID` calls can return the same id. From a counter above 0, n calls return distinct
  ids in every interleaving if and only if start + n <= 2^31, and from 0 if and only if n <= 2^31 - 1
  (`CorrelationIds.DistinctExactly`).
- `backoffDelay` is exponential for all attempts if and only if no delay of 2^62 ns or more is doubled. The
  first doubling looks at no maximum, so a maximum equal to the initial delay does not protect it
  (`ProtocolClient.DelayIsExponential`).
- A fetch can move the position past records that are never handed out, if and only if the last response holds
  no record and an attempt before it read some before failing (`Positions.SkipsExactly`, with a response that
  does it in `SecondEntryCanSkip`).
- A commit covers a partition that is no longer assigned if and only if a record of it was consumed after the
  last change of the assignment (`Positions.StraysExactly`).

## Model

| member | source | states |
|---|---|---|
| Wire.ParseSerialized | protocol/codec/binary.go:33-140 | for every format, a value that the format can carry is read back from its bytes, wherever they stand |
| Wire.ParseIsLocal | protocol/codec/binary.go:165-350 | a reader's result and end depend only on the bytes it consumed, for every format |
| Wire.SerializeParsed | protocol/codec/binary.go:73-98 | writing what was read takes exactly the same room, and gives the same bytes if and only if every null length was written as -1 |
| Wire.WritableFits | protocol/codec/binary.go:73-140 | a value written without error into fewer than 2^31 bytes has no inner length that overflows |
| Wire.SignedRoundTrip | protocol/codec/binary.go:33-56 | a two's complement integer of any width is read back from its big-endian bytes |
| Wire.SignedReverse | protocol/codec/binary.go:165-202 | the bytes of an integer are those its value is written as |
| Binary.Writer.WriteNullableString | protocol/codec/binary.go:73-88 | appends the string, or latches an error for bytes that are not UTF-8 or longer than 2^15 - 1; nothing is returned after an error |
| Utf8.ValidIsText | protocol/codec/binary.go:73-88 | the strings that are accepted are exactly the encodings of Unicode texts: no overlong forms, no surrogates, nothing above 0x10FFFF |
| Layouts.StringLimit | protocol/codec/binary.go:73-88 | a string can be written if and only if it is such a text of at most 32767 bytes |
| Layouts.IntBytes | protocol/codec/binary.go:44-50 | the four bytes of a 32-bit integer, highest first, negative ones in two's complement |
| Layouts.ByteAt | protocol/codec/binary.go:33-56 | byte i of an integer of any width |
| Layouts.NullBytes | protocol/codec/binary.go:73-98 | nulls are the bytes FF FF and FF FF FF FF |
| Binary.Writer.WriteBytes | protocol/codec/binary.go:91-98 | appends null as length -1, and other bytes with their length |
| Binary.Writer.WriteArrayLen | protocol/codec/binary.go:130-140 | appends the count or latches an error above 2^31 - 1 |
| Binary.Reader.ReadInt8 | protocol/codec/binary.go:165-172 | reads what the format says or fails where it does, without moving |
| Binary.Reader.ReadInt16 | protocol/codec/binary.go:175-182 | the same for two bytes |
| Binary.Reader.ReadInt32 | protocol/codec/binary.go:185-192 | the same for four bytes |
| Binary.Reader.ReadInt64 | protocol/codec/binary.go:195-202 | the same for eight bytes |
| Binary.Reader.ReadBool | protocol/codec/binary.go:205-218 | only 0 and 1 are booleans |
| Binary.Reader.ReadNullableString | protocol/codec/binary.go:233-251 | any negative length is null; the bytes must be valid UTF-8 |
| Binary.Reader.ReadBytes | protocol/codec/binary.go:254-269 | any negative length is null; the rest must hold the announced length |
| Binary.Reader.ReadArrayLen | protocol/codec/binary.go:334-343 | a count that is not negative, or an error |
| Binary.Reader.ReadInt32Array | protocol/codec/binary.go:300-314 | the loop reads exactly an array of 32-bit integers, or fails where the format does |
| Crc32c.ChecksumDetects | protocol/codec/record_batch.go:83-86 | two byte strings that differ only inside four consecutive bytes have different CRC32C fields |
| Crc32c.FeedFour | protocol/codec/record_batch.go:83-86 | feeding four bytes to the register is feeding one 32-bit word |
| Crc32c.UpdateInjective | protocol/codec/record_batch.go:83-86 | equal suffixes keep unequal registers unequal |
| Crc32cAnswers.CheckValue | protocol/codec/record_batch.go:17-17 | the checksum of "123456789" is 0xE3069283, the check value of CRC32C |
| Crc32cAnswers.ZeroValues | protocol/codec/record_batch.go:17-17 | the checksums of 32 and of 40 zero bytes are 0x8A9136AA and 0x595FB7DD |
| RecordBatchCodec.WriteRecord | protocol/codec/record_batch.go:185-204 | a record is written as a length-prefixed structure; a latched error inside it is an error of the batch |
| RecordBatchCodec.EncodeRecordBatch | protocol/codec/record_batch.go:20-52 | the bytes of the specification, or an error exactly when a header key cannot be written |
| Layouts.BatchLayout | protocol/codec/record_batch.go:20-52 | the bytes of any batch, field by field: offset, length of the rest, leader epoch, version with 0 written as 1, checksum of the payload, payload |
| Layouts.RecordLayout | protocol/codec/record_batch.go:185-204 | the bytes of any record, field by field |
| Layouts.EmptyBatch | protocol/codec/record_batch.go:20-52 | one whole encoding as 57 literal bytes, checksum included |
| RecordBatchCodec.EncodeRecordBatchSet | protocol/codec/record_batch.go:151-161 | the encodings one after the other, or an error if one cannot be encoded |
| RecordBatchCodec.ReadRecord | protocol/codec/record_batch.go:206-266 | a record is accepted exactly when its length prefix is met to the byte |
| RecordBatchCodec.DecodeRecordBatch | protocol/codec/record_batch.go:55-148 | length, checksum, payload and trailing-byte checks decide exactly as the specification |
| RecordBatchCodec.DecodeRecordBatchSet | protocol/codec/record_batch.go:164-183 | the offset loop computes the specification of sets, including its panic |
| RecordBatches.BatchRoundTrip | protocol/codec/record_batch.go:20-148 | decoding an encoded batch gives it back with magic 0 read as 1 and length and checksum filled in; null and empty stay distinct |
| RecordBatches.BatchReverse | protocol/codec/record_batch.go:55-148 | re-encoding an accepted batch gives the identical bytes if and only if null lengths are -1 and the magic byte is not 0 |
| RecordBatches.CorruptionDetected | protocol/codec/record_batch.go:83-86 | a change confined to four consecutive bytes from offset 17 on makes an accepted batch rejected |
| RecordBatchSets.Tiling | protocol/codec/record_batch.go:164-183 | a set is accepted with these batches if and only if it can be cut without gap into accepted batches that yield them |
| RecordBatchSets.ConcatenatedSets | protocol/codec/record_batch.go:164-183 | decoding distributes over concatenation, whatever follows an accepted set |
| RecordBatchSets.PrefixAccepted | protocol/codec/record_batch.go:164-183 | a prefix of an accepted set is accepted if and only if it ends on a batch boundary |
| RecordBatchSets.PanicsExactly | protocol/codec/record_batch.go:164-183 | the decoder panics if and only if accepted batches are followed by a length field above 2^31 - 9 |
| RecordBatchSets.PanicExample | protocol/codec/record_batch.go:171-175 | eight bytes on which it does |
| RecordBatchSets.SetRoundTrip | protocol/codec/record_batch.go:151-183 | decoding an encoded list of batches gives the batches back, completed |
| RecordBatchSets.SetReverse | protocol/codec/record_batch.go:151-183 | re-encoding an accepted set gives the identical bytes if and only if all null lengths are -1 and no magic byte is 0 |
| Frames.EncodeRequestFrame | internal/transport/frame.go:16-32 | header and body behind four bytes that read as their common length; refused above 2^31 - 1 and only there |
| Frames.Source.ReadFrame | internal/transport/frame.go:35-49 | a frame is read if and only if its four-byte length is there, is within the limit, and is followed by as many bytes, which are the frame |
| Frames.StreamIsCut | internal/transport/frame.go:16-49 | a stream of frames is cut exactly where it was joined, whatever follows |
| Frames.LongFrameEnds | internal/transport/frame.go:35-49 | a frame above the limit ends the reading after exactly the frames before it |
| Frames.DecodeResponseFrame | internal/transport/frame.go:52-63 | accepts frames of at least 12 bytes; the body is all the rest |
| Responses.DecodeMetadata | protocol/codec/metadata.go:31-59 | reads exactly the Metadata format, with error codes outside 0..27 read as 1 |
| Layouts.MetadataLayout | protocol/codec/metadata.go:31-59 | the bytes of a Metadata response, field by field |
| Layouts.BrokerLayout | protocol/codec/metadata.go:65-96 | the bytes of a broker, field by field |
| Layouts.TopicLayout | protocol/codec/metadata.go:98-134 | the bytes of a topic, field by field |
| Layouts.PartitionLayout | protocol/codec/metadata.go:136-182 | the bytes of a partition, field by field |
| Responses.DecodeBrokers | protocol/codec/metadata.go:65-96 | reads exactly an array of brokers |
| Responses.DecodeTopics | protocol/codec/metadata.go:98-134 | reads exactly an array of topics with their partitions |
| Responses.DecodePartitions | protocol/codec/metadata.go:136-182 | reads exactly an array of partitions with their three node lists |
| Responses.DecodeFetch | protocol/codec/fetch.go:42-64 | reads exactly the Fetch format |
| Layouts.FetchLayout | protocol/codec/fetch.go:42-64 | the bytes of a Fetch response, field by field |
| Layouts.FetchTopicLayout | protocol/codec/fetch.go:51-62 | the bytes of a fetched topic, field by field |
| Layouts.FetchPartitionLayout | protocol/codec/fetch.go:70-116 | the bytes of a fetched partition, field by field |
| Layouts.AbortedLayout | protocol/codec/fetch.go:118-136 | the bytes of an aborted transaction |
| Responses.DecodeFetchPartitions | protocol/codec/fetch.go:70-116 | reads exactly the partitions of a topic, with aborted transactions and record bytes |
| Responses.DecodeAbortedTransactions | protocol/codec/fetch.go:118-136 | reads exactly an array of aborted transactions |
| ResponseBodies.DecodeMetadataBody | protocol/codec/registry.go:122-136 | a whole Metadata body, with trailing bytes refused |
| ResponseBodies.DecodeFetchBody | protocol/codec/registry.go:122-136 | a whole Fetch body, with trailing bytes refused |
| ResponseBodies.MetadataRoundTrip | protocol/codec/metadata.go:31-182 | decoding inverts the specification encoder, up to unknown error codes |
| ResponseBodies.FetchRoundTrip | protocol/codec/fetch.go:42-136 | the same for Fetch |
| ResponseBodies.MetadataUnchanged | protocol/errorcode.go:39-73 | a message comes back unchanged if and only if all its error codes are known |
| ResponseBodies.CodeIsRead | protocol/errorcode.go:39-73 | an error code is read as itself if it is one of 0 to 27, and as 1 otherwise |
| ResponseBodies.FetchUnchanged | protocol/errorcode.go:39-73 | the same for Fetch |
| ResponseBodies.WholeIsPrefixFree | protocol/codec/registry.go:122-136 | in any format no accepted body is a proper prefix of another |
| ResponseBodies.MetadataPrefixFree | protocol/codec/metadata.go:31-182 | every strict prefix and every strict extension of an accepted Metadata body is rejected |
| ResponseBodies.FetchPrefixFree | protocol/codec/fetch.go:42-136 | the same for Fetch |
| Registry.Registry.SupportedVersions | protocol/codec/registry.go:88-106 | exactly the versions with codecs in both directions, strictly ascending |
| Registry.Registry.DecodeResponseBody | protocol/codec/registry.go:122-136 | an error without a registered decoder, and otherwise what the whole body decodes to |
| Registry.BodiesArePrefixFree | protocol/codec/registry.go:122-136 | whatever is registered, no accepted body stays accepted when bytes are cut off or added |
| SortedLists.Insert | protocol/codec/registry.go:104-105 | stands for the library sort: strictly ascending, same elements |
| SortedLists.AscendingIsUnique | protocol/codec/registry.go:104-105 | an ascending list is determined by its elements |
| ProducerOptions.IdempotentIsOrdered | producer/options.go:68-73 | an idempotent producer orders per partition if and only if the strategy is one of the two defined |
| ProducerOptions.NormalizedIsUsable | producer/options.go:46-98 | normalising is a projection and yields limits the protocol can run with |
| ProducerOptions.Defaults | producer/options.go:46-98 | the defaults, value by value |
| ProducerOptions.UnchangedExactly | producer/options.go:46-98 | options are left alone if and only if acknowledgements are chosen, all limits are positive, and ordering, idempotence and identity go together |
| ProducerBatches.ToProtocolRecords | producer/producer.go:595-607 | record i gets offset delta i and the key, value and headers of message i |
| ProducerBatches.RecordIsMessage | producer/producer.go:595-607 | and nothing else: attributes and timestamp delta are 0 |
| Layouts.AttemptLayout | producer/producer.go:348-360 | the bytes of an attempt, from the caller's records: last offset delta, the time twice, id, epoch, base sequence, and each record with its index and what the caller gave |
| ProducerBatches.EstimateRecordBytes | producer/async.go:127-136 | the loop computes the estimate that the size laws speak about |
| ProducerBatches.BatchSize | protocol/codec/record_batch.go:20-52 | the exact encoded size of any batch |
| ProducerBatches.CounterPredictsSize | producer/async.go:127-136 | a batch of n records with h headers encodes to exactly 57 + counter - 3n - 2h bytes, null keys included |
| ProducerBatches.AttemptDecodes | producer/producer.go:348-360 | the bytes of every attempt decode to exactly that attempt's batch, whatever the identity, epoch and time |
| DeliveryInvariant.TokensKept | producer/producer.go:476-509 | the length of every semaphore channel is the number of calls inside, within capacity |
| DeliveryInvariant.ActIsLawful | producer/producer.go:318-446 | which fields a step of a call may change: the sequence advances only in a commit, the identity only inside the initialisation |
| DeliveryRuns.HandleReads | producer/producer.go:348-367 | the broker decodes from a request exactly what its sender meant |
| DeliveryRuns.LedgerCommits | producer/producer.go:437-438 | a commit moves the undecided batch at the end of the log to the acknowledged ones |
| DeliveryRuns.LedgerReceives | producer/producer.go:340-360 | on a clean key the broker appends only the batch of the call that is delivering, and only when none is undecided |
| DeliveryRuns.ApplyKeeps | producer/producer.go:318-446 | every step of callers, broker and other producers keeps the invariant |
| DeliveryRuns.RunKeeps | producer/producer.go:318-446 | every state of every run satisfies the invariant |
| DeliverySafety.MutualExclusion | producer/producer.go:476-509 | at most one call holds a key's ordering lock or the initialisation mutex, at most MaxInFlight are inside requests to an endpoint |
| DeliverySafety.AttemptsAgree | producer/producer.go:340-360 | all requests of one call carry the same records under one producer id, epoch and base sequence |
| DeliverySafety.IdentityIsFixed | producer/transaction.go:82-117 | a producer id that is not negative never changes, nor does its epoch, and every batch with an id has that one |
| Wire.CastWraps | producer/producer.go:545-552 | a 32-bit sequence, or a 64-bit offset, is the one number of its type that is a whole number of turns away from the exact sum |
| DeliverySafety.SequencesAreContiguous | producer/producer.go:536-552 | the acknowledged calls of a key are distinct and carry base sequences 0, n1, n1 + n2, ... in 32 bits |
| DeliverySafety.AppendedAtMostOnce | producer/producer.go:318-446 | in every run no batch with a producer id is appended twice |
| DeliverySafety.ExactlyOnce | producer/producer.go:318-446 | while no call on a key has failed after transmitting, the partition holds exactly the acknowledged records in order of acknowledgement, followed by at most one undecided batch |
| DeliverySafety.AcknowledgedOffset | producer/producer.go:405-439 | on such a key the i-th acknowledged call is the i-th batch of the log, and was told the very offset at which its records stand |
| DeliverySafety.OffsetsDoNotOverlap | producer/producer.go:318-446 | batches of a partition never overlap, whatever other producers append in between |
| DeliveryOutcomes.StoredOrRivalled | producer/producer.go:405-439 | the log holds exactly one batch with the identity of an acknowledged call, at the offset the call was told; it is the call's own if and only if the call's records are there, and otherwise belongs to a call that failed after transmitting under the same base sequence |
| DeliveryOutcomes.StoredIsLogged | producer/producer.go:437-439 | whoever is told that its records were stored finds exactly them in the partition, at that offset, unless a call on the key failed after transmitting under the same base sequence |
| DeliveryOutcomes.StoredInOrder | producer/producer.go:536-552 | the batches with the identities of acknowledged calls stand in the order of the acknowledgements |
| DeliveryOutcomes.RivalsHaveFailed | producer/producer.go:334-340 | two calls of a key that transmit under one base sequence cannot both be acknowledged or under way: beside an acknowledged one the other has failed |
| DeliveryHistory.ApplyIsLater | producer/producer.go:318-446 | no step changes a call that has returned, takes a batch out of a log or reorders the acknowledgements |
| DeliveryProgress.NoDeadlock | producer/producer.go:476-593 | while a call is unfinished, some call can step without any timeout |
| DeliveryProgress.RequestsAreBounded | producer/producer.go:343-446 | in every run one batch is transmitted at most 2 * RetryMaxAttempts * MaxAttempts times |
| DeliveryProgress.EveryCallEnds | producer/producer.go:343-446 | in every run the started calls take boundedly many steps, so no call retries for ever |
| DeliveryRetry.RetriesEndStored | producer/producer.go:341-446 | whatever passing failures fewer than RetryMaxAttempts attempts meet, a run goes on in which exactly they are the call's answers before an acknowledgement, its batch is appended once, and it returns with the offset |
| Producer.AnswerDecides | producer/producer.go:378-441 | what a call does with each answer: it commits; or, below the limit, backs off after a transport failure or the codes 1, 6 to 10, 16, 17 while its context lives, or goes on when the partition is missing; or fails |
| DeliveryLoss.AcknowledgedButLost | producer/producer.go:365-393 | from every reachable state in which a key is quiet and its log has a batch under the identity of the next call, that call can be told its records were stored while nothing is appended, for any records, key and endpoint |
| DeliveryLoss.DelayedIsStale | producer/producer.go:365-393 | if a request under that identity is still on its way on a quiet key, its arrival leads to such a state |
| DeliveryLoss.StaleIsReachable | producer/producer.go:365-393 | for every id, key, endpoint and batch a single failing call leads to such a state |
| Producer.MetadataFromResponse | producer/producer.go:609-621 | record i of an acknowledged batch has the base offset plus i |
| Producer.Client.AcquireOrdering | producer/producer.go:476-493 | waits until the key's lock is free and takes it, unless the context ends first; a move of the protocol |
| Producer.Client.AwaitPlace | producer/producer.go:476-493 | the wait ends: whoever holds the place, or what its holder waits for, can go on until one is free |
| Producer.Client.ReleaseOrdering | producer/producer.go:495-509 | gives the lock back and ends the call |
| Producer.Client.EnsureProducerID | producer/transaction.go:68-80 | goes on with a known id, or initialises one; fails only without an endpoint or when none is granted |
| Producer.Client.InitProducerID | producer/transaction.go:82-117 | the double-checked initialisation under the mutex, as moves of the protocol |
| Producer.Client.BatchIdentity | producer/producer.go:536-543 | the identity of the call is the client's id and epoch with the next sequence of the key, all as of one section |
| Producer.Client.CommitSequence | producer/producer.go:545-552 | an acknowledged call commits before it leaves; others may step first |
| Producer.Client.AdvanceSequence | producer/producer.go:549-551 | the section itself: the key's counter moves by the number of records in 32 bits, no other counter moves |
| Producer.Client.Prepare | producer/producer.go:344-369 | there is a request if and only if there is a route and the batch can be encoded: for the route's endpoint, the encoding of the call's records under its identity with the route's leader epoch and the time |
| Producer.Client.AcquireInFlight | producer/producer.go:566-580 | waits for one of MaxInFlight places and takes it, unless the context ends first |
| Producer.Client.ReleaseInFlight | producer/producer.go:582-593 | gives the place back and follows the answer as the protocol does |
| Producer.Client.Attempts | producer/producer.go:341-446 | the retry loop makes the protocol's moves; an attempt is followed by another one exactly when its answer and the limit permit it, and the last one decides the result |
| Producer.Client.ProduceRecords | producer/producer.go:318-446 | one delivery among concurrent others is a new call, ends in a state that a run reaches and that continues the one it began in, with the result that what happened to the call demands, and consecutive offsets |
| AsyncDesk.Conservation | producer/async.go:58-125 | every record ever queued is in exactly one place: queued, in one position of one batch, or completed |
| AsyncDesk.TopicOf | producer/async.go:79-79 | whatever is buffered or was passed on for a key was queued for the key's topic |
| AsyncDesk.ValidAdded | producer/async.go:69-91 | routing a record keeps conservation, the counters, and that what was routed to a key is what was passed on followed by what is buffered, in dequeue order |
| AsyncDesk.ValidSettled | producer/async.go:109-125 | delivering a batch keeps all of that and completes exactly its futures |
| AsyncDesk.CompleteAllAt | producer/async.go:109-125 | each future of a batch gets its own outcome and no other result changes |
| AsyncDesk.OvershootIsBounded | producer/async.go:85-90 | the encoding of a batch that was below the byte limit before its last record exceeds it by less than that record's estimate plus 57 bytes |
| AsyncDesk.BoundedBatchEncodes | producer/async.go:85-90 | such a batch does not outgrow the 31-bit lengths |
| AsyncOutcomes.NamedSettled | producer/async.go:109-125 | delivering a batch keeps it true that every future with metadata names the call that delivered its record, a batch within the limits, the record's place in it and that call's result, and that a key's records were delivered in the order in which they were dequeued |
| AsyncOutcomes.NamedLater | producer/async.go:109-125 | it stays true whatever the client goes on to do |
| AsyncOutcomes.LaterIsAckedLater | producer/producer.go:437-438 | a delivery that begins after another one was acknowledged is acknowledged after it |
| AsyncGuarantees.FutureIsKept | producer/async.go:109-125 | a future completed with offset o has its record, with its own key, value and headers, at o in the partition it names of the topic it was queued for, in one batch of the log and no other, exactly unless the batch with the identity of its call belongs to a call that failed after transmitting under the same base sequence |
| AsyncGuarantees.FuturesInOrder | producer/async.go:69-125 | the futures of a key have increasing offsets in the order in which their records were dequeued, unless the earlier one was supplanted in that way |
| AsyncGuarantees.SentIsBounded | producer/async.go:85-90 | every batch that the worker has delivered is within the record limit, and its encoding exceeded the byte limit by less than its last record's estimate plus 57 bytes |
| AsyncProducer.Worker.Complete | producer/future.go:23-25 | a future's one-place channel is always empty when it is completed |
| AsyncProducer.Worker.CompleteBatch | producer/async.go:110-124 | future i gets base offset plus i, or all get the error; the branch for missing metadata is dead |
| AsyncProducer.Worker.FlushBatch | producer/async.go:109-125 | delivers through the producer client, completes the futures with what came of that very call, and names the call for each of them |
| AsyncProducer.Worker.AddAsyncRecord | producer/async.go:69-92 | without a partition the record fails; with one it joins the batch of that partition of its topic, which is delivered if and only if it has reached a limit; buffered batches stay non-empty and below both limits, completed futures keep their results and their calls |
| AsyncProducer.Worker.Join | producer/async.go:77-90 | the batch that the record joins was below both limits before, and is full exactly when it reaches one of them |
| AsyncProducer.Worker.DrainAsyncRecords | producer/async.go:58-67 | empties the queue even while callers go on queueing |
| AsyncProducer.Worker.FlushBatches | producer/async.go:94-107 | empties the buffer in any order and reports a failure exactly when some batch got an error; what was completed keeps its result and its call |
| AsyncProducer.Worker.Flush | producer/async.go:44-46 | when a flush is answered, every record queued before the end of its drain is completed, and with metadata only by a call of the client |
| AsyncProducer.Worker.Handle | producer/async.go:41-49 | a ready record is taken, a flush request gets one answer, by which everything queued before it is completed, a tick empties the buffer |
| AsyncProducer.Worker.RunWorker | producer/async.go:36-56 | over any events every flush request is answered, the books stay in order, the futures with metadata keep naming their calls, and when the worker exits every record queued before its last drain ended is completed |
| Connection.AtMostOneResult | internal/transport/connection.go:133-174 | each request is sent at most one result, and neither the reader nor failPending ever blocks on it |
| Connection.OwnResponse | internal/transport/connection.go:68-110 | a response that Send returns carries the request's own correlation id |
| Connection.ResponseIsFrame | internal/transport/connection.go:133-155 | a response that Send returns is the body of a frame with the request's id that was read after the request was registered; a frame answers one request at most, and a request is answered by one frame at most |
| Connection.ResponseIsReturned | internal/transport/connection.go:98-110 | a request for which a frame was read returns that frame's response, unless it could not be written, its context ended, or it saw the close |
| Connection.ClosedForever | internal/transport/connection.go:113-121 | once Close has failed the pending requests none is ever pending again, and every waiting sender can return |
| Connection.RegistrationDecides | internal/transport/connection.go:68-165 | a request that is registered is pending, being delivered to or answered in every later state while it is in flight, if and only if no unfinished request has its id when it is registered |
| Connection.SafeForever | internal/transport/connection.go:68-165 | in every run a request that shares its id with no unfinished one is never lost |
| Connection.Orphaned | internal/transport/connection.go:157-165 | if it does share its id, at most two steps leave it waiting with nobody to answer it |
| Connection.SharedIsReachable | internal/transport/connection.go:74-86 | for every id a run reaches a state in which it can be registered beside such a request |
| Connection.Multiplexer.Register | internal/transport/connection.go:74-86 | enters a request unless the connection is closed or the id is taken |
| Connection.Multiplexer.RemovePending | internal/transport/connection.go:157-165 | removes and returns the entry of an id |
| Connection.Multiplexer.Dispatch | internal/transport/connection.go:146-154 | the request pending under the frame's id is taken out and is to get the frame's body; without one the frame is dropped and nothing changes |
| Connection.Multiplexer.FailPending | internal/transport/connection.go:167-174 | every pending request gets exactly one failure and the map is empty |
| Pool.SingleFlight | internal/transport/pool.go:29-73 | a dialed key has exactly one dialer and no cached connection |
| Pool.DialEndsAlone | internal/transport/pool.go:56-72 | the branch for an existing connection is never taken; the new one is cached and the channel closed |
| Pool.WaitersWake | internal/transport/pool.go:41-53 | no channel is closed twice, and a waiter's channel is closed or still has its dialer |
| Pool.InvalidateIsExact | internal/transport/pool.go:76-87 | invalidating takes away the given connection and nothing else |
| Pool.NeverCachedAgain | internal/transport/pool.go:76-87 | an invalidated connection is never cached again, whatever dials are under way |
| Pool.CachedOnce | internal/transport/pool.go:29-73 | a connection is cached under one key at most |
| Pool.GetterIsServed | internal/transport/pool.go:29-73 | in every run a getter ends with a connection that was dialed for its own key, or its context ended while it waited, or its own dial failed |
| Pool.LookDecides | internal/transport/pool.go:32-48 | a cached connection that is not closed is the result and nothing changes; otherwise a closed one is dropped and the getter waits on the channel of the dial under way, or dials |
| Pool.ConnectionPool.Look | internal/transport/pool.go:32-48 | one turn of the loop: reuse, drop a closed connection, wait, or become the dialer |
| Pool.ConnectionPool.Finish | internal/transport/pool.go:56-72 | the section after the dial, in any reachable state |
| Pool.ConnectionPool.Invalidate | internal/transport/pool.go:76-87 | removes and closes the cached connection if it is the given one |
| Pool.ConnectionPool.CloseAll | internal/transport/pool.go:90-101 | closes every cached connection and empties the cache |
| ProtocolClient.BackoffDelay | internal/protocolclient/client.go:380-392 | the loop in 64-bit arithmetic |
| ProtocolClient.DelayIsExponential | internal/protocolclient/client.go:380-392 | the delay is min(initial * 2^(attempt - 1), max) for all attempts if and only if no delay of 2^62 or more is doubled |
| ProtocolClient.ModestMaximum | internal/protocolclient/client.go:380-392 | so it is for every maximum below 2^62 |
| CorrelationIds.IdFormula | internal/protocolclient/client.go:252-259 | successive ids run round and round through 1 .. 2^31 - 1 |
| CorrelationIds.IdsAreDistinct | internal/protocolclient/client.go:252-259 | any 2^31 - 1 consecutive calls that do not overlap return distinct positive ids |
| CorrelationIds.DistinctExactly | internal/protocolclient/client.go:252-259 | n concurrent calls return distinct ids in every interleaving if and only if start + n <= 2^31, or n <= 2^31 - 1 for a counter at 0 |
| CorrelationIds.OverlapCollides | internal/protocolclient/client.go:252-259 | whenever the counter is at its maximum, any two calls that overlap can both return 1 |
| ProtocolClient.SelectAPIVersion | internal/protocolclient/client.go:301-310 | the greatest supported version in the range, or none if there is none |
| ProtocolClient.Client.NextCorrelationID | internal/protocolclient/client.go:252-259 | one call that is not overlapped |
| ProtocolClient.Client.CanRetry | internal/protocolclient/client.go:351-363 | exactly when attempts are left, the context lives and the failure permits it |
| ProtocolClient.Client.SendWithVersion | internal/protocolclient/client.go:105-209 | attempts are made as long as, and only as long as, the failure and the context permit a retry, up to MaxAttempts, each with the next id after any number taken by others |
| ProtocolClient.StoryDecides | internal/protocolclient/client.go:105-209 | if exactly the first n attempts, fewer than the limit, meet failures that permit a retry, n + 1 attempts are made and the last one is the outcome |
| ProtocolClient.AttemptsAreDistinct | internal/protocolclient/client.go:105-209 | the attempts of one request carry distinct positive ids as long as fewer than 2^31 - 1 ids were given out to anyone meanwhile |
| ProtocolClient.Client.CacheAPIVersions | internal/protocolclient/client.go:312-324 | the last range of each known api replaces what was known |
| ProtocolClient.RangesAreLast | internal/protocolclient/client.go:312-324 | the apis kept are the known ones, 0 to 13 and 50 to 55, each with the range announced last |
| ProtocolClient.Client.CachedAPIVersion | internal/protocolclient/client.go:287-299 | the negotiated version, or none if there is none |
| ProtocolClient.Client.ResolveAPIVersion | internal/protocolclient/client.go:265-285 | the endpoint is asked if and only if nothing was negotiated before, and its answer is kept; the version is the negotiated one, or the preferred one when there is none |
| ProtocolClient.Client.Send | internal/protocolclient/client.go:82-103 | version 0 is tried exactly when another one was refused with code 2, and then the cache is dropped; at most 2 * MaxAttempts frames of the request's api go out |
| ProtocolClient.FramesOfSend | internal/protocolclient/client.go:82-209 | the frames of a request count the parts of its history: the question for versions, the first version and the default one |
| RouteCache.RoutesAreLast | internal/metadata/manager.go:136-172 | a key is routed exactly when the response has a routable entry for it, and then to the last such entry's leader |
| RouteCache.BrokersAreLast | internal/metadata/manager.go:137-143 | a leader's address is that of its last broker entry with a host |
| RouteCache.CacheIsLastResponse | internal/metadata/manager.go:136-172 | in every history the routes are those of the single last response minus topics invalidated since |
| RouteCache.Manager.Update | internal/metadata/manager.go:136-172 | the nested loops rebuild brokers and routes and swap them in together |
| RouteCache.Manager.Invalidate | internal/metadata/manager.go:248-256 | removes exactly the routes of the topic |
| RouteCache.Manager.KnownPartitionIDs | internal/metadata/manager.go:258-267 | exactly the routed partitions of the topic, strictly increasing |
| RouteCache.Manager.Refresh | internal/metadata/manager.go:94-134 | the response of the first endpoint that has one is swapped in; it fails, and changes nothing, if and only if none has |
| RouteCache.Manager.FindRoute | internal/metadata/manager.go:175-218 | a cached route as it is; otherwise exactly the route in the first response, or none |
| RouteCache.Manager.PartitionIDs | internal/metadata/manager.go:221-238 | a non-empty strictly increasing list of exactly the topic's partitions, asked for only when none is known, or an error when none is routed |
| Positions.PositionsAgree | consumer/consumer.go:210-259 | in every interleaving each consumed offset equals the next fetch offset and every assigned partition has one |
| Positions.StraysExactly | consumer/consumer.go:1001-1004 | in every interleaving the offsets to be committed include an unassigned partition if and only if one of its records was consumed, unassigned, after the last change of the assignment |
| Positions.Gapless | consumer/consumer.go:827-883 | over any rounds that hand over consecutive records and skip none, whatever failed before them, what is handed out for a partition is one run without gap or duplicate, ending just before the next offset |
| Positions.SkipsExactly | consumer/consumer.go:827-883 | a round leaves the position just behind what it handed over if and only if it hands over a record or no attempt before the last one read any |
| Positions.TriesMove | consumer/consumer.go:827-1009 | the attempts of a round move the position as all the records that any of them read |
| Positions.RecordIsHandedOut | consumer/consumer.go:985-1000 | record i of batch j comes out at its place with offset base + batch delta + record delta and timestamp base + delta in 64 bits, and its own key, value and headers |
| Positions.ProducedIsFetched | consumer/consumer.go:968-1009 | messages that were produced as one batch and are fetched from offset o come out unchanged at o, o + 1, ... and leave the position just behind the last |
| Positions.EntriesAreTheKeys | consumer/consumer.go:971-977 | the entries read are exactly those of the partition under its topic's name |
| Positions.OffsetsAreLast | consumer/consumer.go:210-228 | a partition that is assigned twice starts where its last entry says |
| Positions.FailureConsumesNothing | consumer/consumer.go:968-1009 | a failing attempt consumes nothing if and only if the entries before its first failing one hold no record |
| Positions.SecondEntryCanSkip | consumer/consumer.go:860-880 | a response with two entries for one partition with which a round moves the position past a record never handed out |
| Consumer.RebalanceAnnounced | consumer/consumer.go:945-955 | the partitions announced as revoked and assigned are exactly the difference of the assignments |
| Consumer.DiffAssignments | consumer/consumer.go:945-955 | the candidates that are not on the other side, in order |
| Consumer.Client.Assign | consumer/consumer.go:210-228 | replaces assignment and positions, the last entry of a partition winning; refuses an empty list |
| Consumer.Client.Seek | consumer/consumer.go:231-241 | moves an assigned partition and forgets its consumed offset, or changes nothing |
| Consumer.Client.AssignWithOffsets | consumer/consumer.go:533-562 | succeeds if and only if every partition has a committed offset that is not negative or a reset one; then everything is swapped at once, and each partition starts there; otherwise nothing changes |
| Consumer.Client.Pause | consumer/consumer.go:244-250 | the given partitions are paused too, assigned or not |
| Consumer.Client.Resume | consumer/consumer.go:253-259 | the given partitions are no longer paused |
| Consumer.Client.StillPaused | consumer/consumer.go:957-966 | the paused partitions that stay assigned |
| Consumer.Client.ToRecords | consumer/consumer.go:968-1009 | the nested loops hand out the records up to the first entry that fails, each moving both positions |
| Consumer.Client.FetchPartition | consumer/consumer.go:827-883 | a second attempt is made exactly when the first failed in a way that a new route may cure; the last attempt's records are handed out if its response was read to the end, and nothing otherwise |
| Consumer.Client.Poll | consumer/consumer.go:262-304 | the assigned partitions that are not paused, one round each, up to the first that brings nothing; what is handed out is what the rounds delivered |
| Consumer.SucceededIsOrderly | consumer/consumer.go:827-883 | a successful fetch meets every demand of the gapless theorem that is not the broker's |
| Consumer.Client.Commit | consumer/consumer.go:307-398 | succeeds if and only if a group is configured and nothing was consumed or the coordinator is known and acknowledges every snapshotted offset, in the first attempt or in a second that is due; nothing else is ever committed |
| Consumer.FirstCodeDecides | consumer/consumer.go:362-387 | the first entry that names the partition decides, and without one there is no answer |

## Left out

- Logging, tracing and metrics adapters, option defaults outside the producer, `admin/admin.go` and `stellflow/factory.go`: no effect on the modelled state.
- Sockets, name resolution, timers and contexts: what comes of a dial or a send, and when a context ends, is arbitrary.
- Error values carry no text; only the distinctions the code branches on are kept.
- Go panics other than the one in `DecodeRecordBatchSet`, capacity hints and memory limits.
- A nil and an empty header slice of a record are one value, as both are written as an empty array.
- Encoded sizes of 2^31 bytes and more, where lengths are cast unchecked: the round trips take batches below that size.
- The flat codecs (offset commit and fetch, groups, coordinators, offsets, topics, transactions) and all request encoders: they repeat the primitives; `EncodeRequestBody` is not part of this model, only the keys of its encoders.
- Partition choice (hashing, round robin, custom partitioners) and topic creation: an arbitrary partition or an error.
- `Send`, `SendAsync` and `Close` around the modelled core: the closed flag, validation, and records queued after the worker's last drain.
- Transaction requests (`sendTransaction`): only the initialisation they share is a job of the protocol.
- The producer without idempotence: it takes no ordering lock and sends identity -1, which the broker model appends as it comes.
- Broker offsets are unbounded; the guarantees to acknowledged calls end where the sequence numbers of their key pass 2^31.
- The group lifecycle (join, sync, heartbeat, auto-commit goroutines): only the state swap of a rebalance is modelled.
- Concurrent use of `RouteCache.Manager` and `Consumer.Client`: their methods run one at a time; `CacheIsLastResponse` and `PositionsAgree` speak about every order of their locked sections. A `Commit` that snapshots while positions move commits the snapshot.
- Buffered batches of the worker are values in a map, not shared objects: the source keeps no second pointer to them.
- The unbounded event loops of the worker and the reader are run over a finite list of events or a finite stream.
- MutualExclusion: the ordering lock, the mutex and the in-flight channels are one family of counted tokens; the sections that create a channel on first use are not separate steps.
- DeliverySafety.AcknowledgedOffset: asks that no call on the key failed after transmitting, since it numbers the batches; `DeliveryOutcomes.StoredOrRivalled` states the offset call by call.
- ProtocolClient.Client.SendWithVersion: the ids that others take between two attempts are whole calls; calls that overlap are the subject of `CorrelationIds.DistinctExactly`.
- Consumer.Client.ToRecords: no seek or rebalance steps in between two records, as it can between the source's locked sections.
- Consumer.Client.FetchPartition: none steps in between the attempts either.
- Consumer.Client.Poll: runs its rounds one after the other, without the rejoin after the maximal poll interval.
- Consumer.Client.AssignWithOffsets: the source announces the revoked partitions in an earlier locked section, before the offsets are fetched; here there is one section.
