# Verified model of lafere and protopuffer

This project models the parts of the repository in which several mechanisms have to agree, and proves that they
do. Everything is stated for all inputs, all runs and all interleavings.

**The codec** (`protopuffer`, `protopuffer-codegen`). `Schema` describes the types that can be encoded (varint
scalars, floats as bits, bytes, arrays, vectors, options, maps, structs and tuples, enums with numbers, enums with
payloads) and their values. `Encode` and `Decode` say what `encoded_size`, `encode` and `merge` do, as functions of a
type and a value; `Encoder` and `Decoder` hold the size builder, the writer and the cursor as classes whose methods
are proved to compute these functions. `RoundTrip` proves what comes back, and exactly which values come back
unchanged; `MessageLaws` proves the laws of the Protocol Buffers Encoding guide that the decoder promises for any
input ("Last One Wins", "Packed Repeated Fields", unknown fields). `Written` says, on the bytes, which fields, elements
and numbers are written and how; `Reading` says what single records are read as, in messages that nobody's encoder need
have written: payload enums, numbers cut to their width, payloads of the wrong form, broken packed records.

**The connection protocol** (`lafere/src/handler/handler.rs`). `Protocol` describes one endpoint: the two id-keyed
tables, the role that hands out ids, every branch of `send`, `to_send`, `packet_error` and `close`, and the loop of
`bg_stream`. A history (`Log`), which the program does not have, records what was asked, answered, pushed and
received. `Conversation` says what both endpoints and the two channels may hold for one id; `ConversationSteps` and
`Peers` prove that every step of either side keeps this. `Connection`, `Refusals`, `Goodbye` and `Drain` draw the
conclusions for whole runs; `Scope` shows that the one restriction on runs is what is needed. `Deeds` and `Users` do away
with the history: what is in it is a function of what users did and of the packets taken in, so the theorems about it are
theorems from user to user. `Alive` shows that the runs are not empty promises: from every state that can be reached
requests can be made and answered, everything can be read, and either side can leave. `Handler` has the same
endpoint as classes that change in place (`WaitingOnUser`, `Handler`, and `Task` for the local variables of
`bg_stream`), each method proved against its function. Which ready entry `to_send` picks, which branch of a `select`
runs and what users do is left open everywhere, so the theorems hold for every schedule.

**Frames** (`builder.rs`, `encrypted_bytes.rs`, `bytes.rs`, `stream.rs`, `packet.rs`, `message.rs`). `Frames` parses a
stream at once, with an abstract cipher whose key moves on with every segment; plain streams are the cipher that
does nothing. `PacketBuffer` is the buffer that is sealed and opened in place. `Receiver` is the resumable receiver,
which may be cancelled whenever it waits; it is proved to agree with parsing at once. `Message` is the twelve-byte
header and connects frames with the packets of the protocol: what one handler sends is what the other one is given.

**The configuration channel** (`watch.rs`). `Watch` is a state machine whose steps are the atomic accesses of any
number of senders and receivers, in any order, under sequential consistency. Besides safety it is proved that no value is
ever stuck: a receiver can always get the newest one by steps of its own.

Conventions: a map is the sequence of its entries in iteration order; floats are their bits; numbers are unbounded
where the width does not matter and reduced explicitly where it does; bit operations on a byte are written as
division and remainder by powers of two. `Scoped` runs are those in which server requests are enabled before the
client has used an id above `U32_MID`.

Where the code and its documentation differ, the model follows the code:

- `watch::Receiver::recv` is documented to return None when no sender is left. It may then also leave a value unseen:
  `Watch.NoneMayHideAValue`, and exactly when: `Watch.NoneHidesExactly` and `Watch.RecvMayHideExactly`.
- A scalar can be encoded on its own but not decoded: `RoundTrip.RoundTrip`.
- A float field holding negative zero, and a payload variant whose payload writes no record, do not survive a round
  trip: `RoundTrip.NegativeZeroIsLost`, `RoundTrip.EmptyPayloadIsLost`. `RoundTrip.RoundTripExactly` says that these
  are all exceptions.
- Enabling server requests late lets both sides hand out the same ids: `Ids.IdsApart` and `Scope.EnablingExactly` say
  exactly when, `Scope.ScopeIsNeeded` that it can happen.

## Model

| member | source | states |
|---|---|---|
| Varint.SizeIsLength | protopuffer/src/varint.rs:58-63 | The rule "bits divided by seven, rounded up, at least one" is the length of the written varint, for every number |
| Varint.AtMostTen | protopuffer/src/varint.rs:32-56 | No 64-bit number needs an eleventh byte, so the write loop always ends by itself |
| Varint.DecodeEncoded | protopuffer/src/varint.rs:7-56 | Reading after writing gives the number back and leaves exactly what follows, for every 64-bit number and any suffix |
| Varint.DecodeFromExtends | protopuffer/src/varint.rs:7-30 | A varint that was read is read the same whatever bytes follow it |
| Varint.DecodeFits | protopuffer/src/varint.rs:7-30 | Whatever the bytes, a number that was read fits 64 bits, although the tenth group is shifted over the edge |
| Varint.LowBitsKeepLength | protopuffer/src/encode.rs:129-131 | The wire type never changes the size of a tag, so the size builder may leave it out |
| Varint.LongerThan | protopuffer/src/varint.rs:32-56 | A number takes more than k bytes if and only if it has more than 7k bits |
| Varint.IsBase128 | protopuffer/src/varint.rs:32-56 | The format: the groups of seven bits make the number, lowest first, and all bytes but the last have the top bit set |
| Varint.FailsExactly | protopuffer/src/varint.rs:7-30 | Reading fails if and only if none of the bytes it may look at, ten at most, ends the varint |
| Varint.DecodesGroups | protopuffer/src/varint.rs:7-30 | Whatever the bytes, canonical or not, a varint that is read is the number its groups make, cut to 64 bits |
| Wire.RecordFormat | protopuffer/src/encode.rs:58-103 | The format of a record, for every wire type |
| Wire.CutRecord | protopuffer/src/decode.rs:78-134 | A record cut off anywhere is an error, and the error says whether a varint or bytes are missing |
| Wire.UnknownWireType | protopuffer/src/lib.rs:52-62 | The four wire types nobody uses are refused by their number |
| Wire.TagSizeIsLength | protopuffer/src/encode.rs:119-131 | The size counted for a tag is the length of the tag written, whatever its wire type |
| Wire.NextField | protopuffer/src/decode.rs:120-134 | Reading a record ends exactly at the end of the input, and every record that is read takes at least two bytes |
| Wire.NextKindOfPayload | protopuffer/src/decode.rs:78-106 | Every payload in range is read back as it was written, leaving what follows |
| Wire.NextFieldOfRecord | protopuffer/src/decode.rs:120-134 | Every record with a number below 2^61 is read back with its number and payload, leaving what follows |
| Wire.NextFieldExtends | protopuffer/src/decode.rs:120-134 | A record that was read is read the same whatever follows it |
| Schema.Insert | protopuffer/src/decode.rs:311-340 | Inserting puts the entry into the map, keeps every entry with another key, adds nothing else and leaves the keys distinct |
| Encode.SizeAgrees | protopuffer/src/encode.rs:199-222 | For every type, value and field option the counted size is the number of bytes written, through all nesting |
| Encode.NestedIsOneRecord | protopuffer/src/encode.rs:406-487 | A nested encoding, and every encoding of a type that does not repeat, is exactly one record |
| Encode.FieldIsRecords | protopuffer/src/encode.rs:406-487 | Any other encoding of a field is a run of records with the number of the field, packed or not |
| Encode.RepeatedRootIsFieldOne | protopuffer/src/encode.rs:406-487 | A vector, map or option on its own is a message that holds it as field 1 |
| Decode.Merge | protopuffer/src/decode.rs:233-237 | Merging any readable payload into a value of a type yields a value of that type or an error |
| Decode.MessageOfRecords | protopuffer/src/decode.rs:255-276 | A message loop over written records folds them one by one and then goes on with the rest |
| RoundTrip.PackedIsExpanded | protopuffer/src/decode.rs:278-296 | A packed record merges like its elements one by one |
| RoundTrip.ItemsBack | protopuffer/src/decode.rs:245-341 | The records of the first elements of a repeated value are folded back to exactly these elements |
| RoundTrip.FirstFieldsBack | protopuffer-codegen/src/decode.rs:29-119 | The first fields of a struct are read back whatever fields come after them, fields left out staying default |
| RoundTrip.OneofBack | protopuffer-codegen/src/decode.rs:199-297 | A payload enum is read back, with the one exception of a payload that writes nothing |
| RoundTrip.NestedBack | protopuffer/src/decode.rs:211-237 | Merging outside a field inverts a value written as one record, from the default |
| RoundTrip.FieldBack | protopuffer/src/decode.rs:211-237 | Merging as a field folds the records of a value back to it, from the default |
| RoundTrip.NormalIsCanonical | protopuffer/src/encode.rs:197-222 | What comes back is free of all exceptions: a second round trip changes nothing |
| RoundTrip.CanonicalIsNormal | protopuffer/src/encode.rs:197-222 | A value without the two exceptions is what comes back |
| RoundTrip.RoundTrip | protopuffer/src/lib.rs:18-32 | For every well-formed type and every value: decoding the encoding yields its normal form, and a scalar root is refused with the error of its wire type |
| RoundTrip.RoundTripExactly | protopuffer/src/lib.rs:18-32 | A value comes back unchanged if and only if its type is length-delimited and it is canonical |
| RoundTrip.NegativeZeroIsLost | protopuffer/src/encode.rs:1026-1067 | A struct field holding negative zero comes back as zero |
| RoundTrip.EmptyPayloadIsLost | protopuffer-codegen/src/encode.rs:273-426 | A variant that is not the default one and holds an empty vector comes back as the default variant |
| MessageLaws.ConcatIsMerge | protopuffer/src/decode.rs:263-276 | If a decodes fully, decoding a followed by b is decoding b into the result of a |
| MessageLaws.ConcatIsFold | protopuffer/src/decode.rs:263-276 | For complete records a, decoding a followed by b is decoding b into the result of a, or the error of a |
| MessageLaws.FieldsCommute | protopuffer-codegen/src/decode.rs:95-108 | Records of different fields of a struct may change places: if one order decodes, so does the other, to the same value |
| MessageLaws.SplitRecordsMerge | protopuffer-codegen/src/decode.rs:89-110 | Two records of a message field are one record with both contents, also inside an option of anything that is read as a message |
| MessageLaws.SubmessagesMerge | protopuffer-codegen/src/decode.rs:95-108 | A submessage may be split over two records of a struct, with any records of other fields between them, without changing the value or the error |
| MessageLaws.LastOneWins | protopuffer-codegen/src/decode.rs:95-108 | In a struct, a readable record of a scalar or byte field can be dropped if another record of the field comes anywhere later |
| MessageLaws.UnknownFieldsAreTransparent | protopuffer/src/decode.rs:266-273 | A record with an unlisted number at any record boundary never changes the result, value or error |
| MessageLaws.GroupingIsInvisible | protopuffer/src/decode.rs:278-296 | However the elements of a scalar vector are grouped into packed and single records, they are the same elements in order |
| MessageLaws.GroupingsAgree | protopuffer/src/decode.rs:278-296 | Two writers that group the same elements differently make the same struct |
| Reading.LastVariantWins | protopuffer-codegen/src/decode.rs:245-288 | In a payload enum the last record of a listed variant decides the variant, whatever complete records come before; its payload is merged into the one so far only if that is of the same variant |
| Reading.OtherVariantIsForgotten | protopuffer-codegen/src/decode.rs:245-268 | After a record of another variant, what follows is read as if nothing of this variant had come before |
| Reading.VariantPayloadsMerge | protopuffer-codegen/src/decode.rs:245-268 | The payload of a variant may be split over two records |
| Reading.ScalarFieldReads | protopuffer/src/decode.rs:504-572 | A record of a scalar field must have its wire type; numbers are cut to the width, any number but 0 is true, a number an enum does not list is its default |
| Reading.StandsForOne | protopuffer/src/decode.rs:504-572 | A payload stands for one value only |
| Reading.FlatFieldReads | protopuffer/src/decode.rs:343-385 | A record of a byte field must be length-delimited, and of the length of the array |
| Reading.MessageFieldReads | protopuffer-codegen/src/decode.rs:89-110 | A record of a message field must be length-delimited, and its error is the error of the whole |
| Reading.DefaultIsZero | protopuffer/src/decode.rs:504-572 | What decoding starts from is what a payload of zeros is read as |
| Reading.MissingFieldIsDefault | protopuffer-codegen/src/decode.rs:29-119 | A field of which there is no record keeps its default |
| Reading.BrokenPackedRecord | protopuffer/src/decode.rs:278-289 | A packed record whose last element is cut off is an error, whatever came before |
| Written.StructIsItsFields | protopuffer-codegen/src/encode.rs:100-160 | A struct is the records of its fields, in their order, without those left out |
| Written.WrittenUnlessLeftOut | protopuffer-codegen/src/encode.rs:104-110 | The bytes of a struct hold no record of a field if and only if the field holds the default of its type, and is no struct, payload enum or array with elements, or holds negative zero |
| Written.DefaultsWriteNothing | protopuffer-codegen/src/encode.rs:104-110 | A struct is written as nothing at all if and only if all its fields are left out |
| Written.NumbersAreShared | protopuffer/src/encode.rs:946-1024 | What is written for an integer is read as the same number by every wider type; a bool or an enum is written as its number |
| Written.NegativesTakeTen | protopuffer/src/encode.rs:983-1024 | A negative number takes ten bytes, whatever its type |
| Written.UnitIsEmptyRecord | protopuffer-codegen/src/encode.rs:273-426 | A variant without a payload is an empty record |
| Written.PayloadIsField | protopuffer-codegen/src/encode.rs:273-426 | A variant with a payload is the records of the payload as a field |
| Written.VectorsArePacked | protopuffer/src/encode.rs:406-487 | From two elements on a vector of scalars is one packed record; one element is a record of its own, and everything else is one record for each element |
| Encoder.SizeBuilder.EncodedSize | protopuffer/src/encode.rs:119-162 | Adds exactly the number of bytes that encoding the value writes |
| Encoder.SizeBuilder.RepeatedSize | protopuffer/src/encode.rs:356-404 | The same for vectors, options and maps, nested, packed and expanded |
| Encoder.SizeBuilder.FieldsSize | protopuffer-codegen/src/encode.rs:58-98 | The same for the inside of structs, tuples and payload enums |
| Encoder.MessageEncoder.WriteVarint | protopuffer/src/varint.rs:32-56 | The write loop appends exactly the varint, within ten rounds |
| Encoder.MessageEncoder.Encode | protopuffer/src/encode.rs:216-222 | Appends exactly the encoding; the length prefixes it takes from the size builder are right when they are written |
| Encoder.MessageEncoder.EncodeRepeated | protopuffer/src/encode.rs:406-487 | The same for vectors, options and maps |
| Encoder.MessageEncoder.EncodeFields | protopuffer-codegen/src/encode.rs:100-160 | The same for the inside of structs, tuples and payload enums: the bytes that Written.StructIsItsFields, Written.UnitIsEmptyRecord and Written.PayloadIsField describe |
| Decoder.MessageDecoder.NextVarint | protopuffer/src/varint.rs:7-30 | The read loop yields the number and leaves the rest, or fails, on every input |
| Decoder.MessageDecoder.NextKind | protopuffer/src/decode.rs:78-106 | The cursor yields the payload of the wire type and leaves the rest |
| Decoder.MessageDecoder.MaybeNextKind | protopuffer/src/decode.rs:109-118 | The same inside a packed record, with None at its end |
| Decoder.MessageDecoder.Next | protopuffer/src/decode.rs:120-134 | The cursor yields the next record and leaves the rest, with None at the end |
| Decoder.MergeValue | protopuffer/src/decode.rs:211-237 | The merge of every type computes what the specification says, for every payload |
| Decoder.MergeWholeMessage | protopuffer-codegen/src/decode.rs:89-110 | The loop over a message is the fold over its records, and ends on every input |
| Decoder.MergeIntoMessage | protopuffer-codegen/src/decode.rs:245-288 | The arms of the loop, for structs, tuples, payload enums and repeated roots, compute the merge that Reading.LastVariantWins, Reading.ScalarFieldReads and MessageLaws describe |
| Decoder.MergeIntoRepeated | protopuffer/src/decode.rs:278-341 | The loop over a packed record, and single records of vectors, options and maps |
| Decoder.EncodeThenDecode | protopuffer/src/lib.rs:18-32 | Writing with the encoder and reading with the decoder gives the value back exactly when it is a canonical message |
| Ids.IdsInRange | lafere/src/handler/handler.rs:213-240 | Ids fit 32 bits and stay in the range of the role; once they are used up there is never another one |
| Ids.IdsAreConsecutive | lafere/src/handler/handler.rs:213-240 | Ids are handed out without gaps from the counter on, also across the enabling of server requests |
| Ids.IdsIncrease | lafere/src/handler/handler.rs:213-240 | Over any run of next_id and enable_server_requests the ids handed out strictly increase |
| Ids.EnablingTwice | lafere/src/handler/handler.rs:260-279 | Enabling server requests again changes nothing |
| Ids.IdsApart | lafere/src/handler/handler.rs:260-279 | The ids of a client, before and after it enables server requests, and of its server never meet if and only if the client had handed out no id above the middle by then |
| ConversationSteps.AnswerArrives | lafere/src/handler/handler.rs:450-474 | An answer finds its requester waiting and not yet told anything, and tells it the truth |
| ConversationSteps.StreamArrives | lafere/src/handler/handler.rs:475-496 | A stream packet finds its consumer, one whose user left, or one that refused; nothing is lost or reordered |
| ConversationSteps.StreamClosedArrives | lafere/src/handler/handler.rs:497-503 | The end of a stream comes after all of its packets; to a producer it means that no more will be taken |
| ConversationSteps.EmitAnswerKeeps | lafere/src/handler/handler.rs:117-138 | An answer leaves as the one answer to its request |
| ConversationSteps.EmitDataKeeps | lafere/src/handler/handler.rs:139-160 | Stream packets leave in order, and the end only after all of them |
| ConversationSteps.CloseKeeps | lafere/src/handler/handler.rs:605-615 | Closing leaves every conversation in one of its legal shapes |
| Peers.NextIdIsFresh | lafere/src/handler/handler.rs:521-548 | The id about to be handed out is unknown to both sides and carried by no packet |
| Peers.HeadFits | lafere/src/handler/handler.rs:371-509 | What the tables hold is what the handler needs to take the next packet without an error |
| Peers.TurnKeeps | lafere/src/handler/handler.rs:666-734 | Every turn of an endpoint succeeds and keeps the invariant of the connection |
| Connection.NeverBroken | lafere/src/handler/handler.rs:354-602 | In no run of two conforming endpoints is a packet refused as a protocol error, and no assertion of the handler fails |
| Connection.RequestsConserved | lafere/src/handler/handler.rs:388-474 | A request somebody waits for is in exactly one place: in flight, with the peer's user, or answered in flight; no other request exists |
| Connection.AnswersAreTrue | lafere/src/handler/handler.rs:450-474 | What a requester is told is what the peer's user did with this very request |
| Connection.HistoryIsFinal | lafere/src/handler/handler.rs:354-602 | One verdict per request, one answer per request, one request per id: nothing that happened is ever changed by a later step |
| Connection.StreamsConserved | lafere/src/handler/handler.rs:139-160 | For every id: arrived, then in flight, then queued is what is recorded as put in, in order; Users.HistoriesAreTrue says that the record is what the user put in |
| Connection.TheEndIsTheEnd | lafere/src/handler/handler.rs:497-503 | A consumer that is told the end has everything, and all of it was delivered if its user stayed and all packets parsed |
| Connection.NothingTurnedAway | lafere/src/handler/handler.rs:475-496 | A stream packet is turned away only if the consumer's user left or the request did not parse |
| Connection.ToldMeansStop | lafere/src/handler/handler.rs:497-503 | Once a producer was told that its stream is closed, nothing more goes into it, however the run goes on |
| Refusals.NothingRefusedInSilence | lafere/src/handler/handler.rs:475-496 | Every stream packet turned away is answered by its own closing packet, and every unreadable request by a refusal |
| Refusals.ErrorsExactly | lafere/src/handler/handler.rs:354-508 | A packet is a protocol error in the listed cases, with the listed errors, and in no other |
| Refusals.SpoiltErrorsExactly | lafere/src/handler/handler.rs:564-602 | The same for a packet whose body does not parse |
| Refusals.PingsAreSent | lafere/src/handler/handler.rs:707-710 | In every run the pings sent are those that fell due |
| Users.RequestsLeaveInOrder | lafere/src/handler/handler.rs:516-556 | In every run: the requests sent are the first ones the user made, in order and unchanged, under ids that follow each other from the side's first; the others are queued in order with all that was put into their streams; only a side without ids drops one |
| Users.HistoriesAreTrue | lafere/src/handler/handler.rs:354-602 | In every run, all that is recorded of an id is what the user did and what came in: asked, answered, put in, left, taken in, refused, told, and every stream packet with whether it parsed |
| Users.StreamsComeFromUsers | lafere/src/handler/sender.rs:36-46 | From user to user: what arrived, then what is in flight, then what is queued is what the sending user put in, in order, from the moment the request was made, before or after it left |
| Users.AnswersComeFromUsers | lafere/src/handler/handler.rs:450-474 | From user to user: a verdict is what the peer's user did with the request the local user made |
| Users.DeliveredExactly | lafere/src/handler/handler.rs:475-496 | A stream packet that is taken in is delivered if and only if the local user has not left and the request was understood |
| Users.ChannelsKeepOrder | lafere/src/handler/handler.rs:668-712 | What one side took in, followed by what is in flight, is what the other side sent |
| Users.QueuedStreamsTake | lafere/src/handler/sender.rs:36-46 | A user can put something into the stream of a queued request exactly until it has ended it |
| Users.RequestsUntil | lafere/src/handler/handler.rs:605-615 | A user can make requests exactly as long as the side runs and the user has not given it up |
| Alive.AnswerGoesOut | lafere/src/handler/handler.rs:117-138 | Whoever owes an answer can give it, or none, and it leaves |
| Alive.PushGoesOut | lafere/src/handler/handler.rs:139-150 | What is put into an open stream leaves |
| Alive.EndGoesOut | lafere/src/handler/handler.rs:151-160 | A stream without anything left to send can be ended, and the end leaves |
| Alive.RequestGoesOut | lafere/src/handler/handler.rs:516-556 | In every reached state a request can be made and leaves under the next id |
| Alive.RequestsCanBeAnswered | lafere/src/handler/handler.rs:388-474 | From every reached state with nothing in flight: the next request can be answered, and the requester gets just this answer |
| Alive.EverythingCanBeRead | lafere/src/handler/handler.rs:668-701 | Whatever is in flight to a side that runs can be taken in, parsed or not, without a failure |
| Alive.EverybodyCanLeave | lafere/src/handler/handler.rs:703-733 | From every reached state a side that runs can close and comes to its end by moves of its own; the last it sends is a close packet |
| Connection.EnablingIsSafe | lafere/src/handler/handler.rs:370-387 | While the server may send requests, or the permission is in flight, the client already takes them |
| Connection.RequestsAreWelcome | lafere/src/handler/handler.rs:388-449 | No request ever reaches an endpoint that turns requests away |
| Connection.IdsNeverMeet | lafere/src/handler/handler.rs:260-279 | No id is ever used for requests of both sides |
| Connection.NextIdIsNew | lafere/src/handler/handler.rs:521-548 | In every reachable state the next id is new to both sides and both channels |
| Goodbye.CloseIsLast | lafere/src/handler/handler.rs:719-732 | Each side sends at most one close packet, as its very last packet; the channels are suffixes of what was sent |
| Goodbye.QuietAfterClosing | lafere/src/handler/handler.rs:668-690 | A side that is closing stays so and never receives another packet, however the run goes on |
| Goodbye.ClosesExactlyWhen | lafere/src/handler/handler.rs:682-717 | A running side starts to close if and only if it is asked to, its peer says goodbye, or it is handed something nobody listens for; it says goodbye itself unless its peer did |
| Goodbye.SaysGoodbye | lafere/src/handler/handler.rs:713-733 | In every run, a side that began to close by itself ends what it sends with a close packet, and one that closed because its peer did sends none; either ends only with nothing left to send, or without ids |
| Goodbye.WhyItLeft | lafere/src/handler/handler.rs:682-717 | Every side that stopped reading did so in a move with exactly one of these two reasons |
| Goodbye.IdsAreFresh | lafere/src/handler/handler.rs:521-548 | In every reached state no table holds an id that is still to be handed out |
| Goodbye.ClosingDrains | lafere/src/handler/handler.rs:605-615 | In every run, whenever a side closes, it sends exactly what it owes, queued requests and their streams included, without ever failing, and stops before only if ids run out or a local user keeps a stream open |
| Goodbye.GracefulClose | lafere/src/handler/handler.rs:605-615 | When the close packet of a drained side comes in, every request it took in is resolved, every stream it produced is complete, and only requests it never received still wait |
| Scope.EnablingExactly | lafere/src/handler/handler.rs:242-279 | In every reached state in which the client is about to enable server requests and the server is ready: everything that can follow is free of failures and shared ids if and only if the client's counter has not passed the first id above the middle |
| Scope.ScopeIsNeeded | lafere/src/handler/handler.rs:362-365 | Such a late enabling is reached by a run of conforming endpoints, and the server's duplicate-id assertion fails |
| Drain.Owed | lafere/src/handler/handler.rs:109-174 | What an entry still sends is stream packets and then exactly one packet of another kind, all with its id |
| Drain.TakePays | lafere/src/handler/handler.rs:109-174 | A packet an entry sends is one of those owed: the debt shrinks by one, and the rest of its conversation stays owed |
| Drain.QueuePays | lafere/src/handler/handler.rs:516-556 | A queued request leaves under an id no table holds, without a failed assertion, and is one packet of what is owed; what its stream holds stays owed |
| Drain.DrainPays | lafere/src/handler/handler.rs:512-518 | From any state, in any order of polling entries and queue, each packet sent is one of those owed and each conversation gets its packets in order |
| Drain.CloseDrains | lafere/src/handler/handler.rs:512-561 | After close, queued requests included: everything is sent exactly when as many packets were sent as were owed; until then there is a source to draw from, unless ids run out or a local user keeps a queued stream open |
| Handler.WaitingOnUser.Insert | lafere/src/handler/handler.rs:95-107 | Adds an entry under a free id and refuses a used one, changing nothing else |
| Handler.WaitingOnUser.ToSend | lafere/src/handler/handler.rs:109-174 | The polling loop takes one packet from some ready entry, or finds that none is ready |
| Handler.WaitingOnUser.CloseAll | lafere/src/handler/handler.rs:176-183 | Every entry is closed, none is removed |
| Handler.Handler.NextId | lafere/src/handler/handler.rs:213-240 | Hands out the counter and moves it on, in the range of the role |
| Handler.Handler.EnableServerRequests | lafere/src/handler/handler.rs:260-279 | Changes the role, and says whether it did |
| Handler.Handler.Send | lafere/src/handler/handler.rs:354-508 | The tables and the answer after any packet are those of the specification |
| Handler.Handler.PacketError | lafere/src/handler/handler.rs:564-602 | The same for a packet whose body does not parse |
| Handler.Handler.SendRequest | lafere/src/handler/handler.rs:516-556 | The same for the next request of the queue, including the duplicate-id assertions |
| Handler.Handler.ToSend | lafere/src/handler/handler.rs:512-561 | One packet of the specification for some source that is ready, or none when no source is |
| Handler.Handler.Close | lafere/src/handler/handler.rs:605-615 | Forgets who waits for the peer, closes what is owed and the queue, and yields the close packet |
| Handler.Handler.CloseAndDrain | lafere/src/handler/handler.rs:666-734 | The closing loop, with or without a close packet of its own and with any queue: it sends to each conversation what it is owed and ends with everything sent exactly if the ids suffice, or waits for a local user that keeps a stream open |
| Handler.Task.Receive | lafere/src/handler/handler.rs:668-701 | What the loop does with a packet, or with one that does not parse |
| Handler.Task.Emit | lafere/src/handler/handler.rs:703-708 | What the loop does with a packet to send |
| Handler.Task.CloseSignal | lafere/src/handler/handler.rs:713-717 | The loop starts to close and will say so |
| Handler.Task.Finish | lafere/src/handler/handler.rs:721-733 | The loop ends as the specified turn does, whose packets Goodbye.SaysGoodbye states for every run |
| Frames.PlainIsLawful | lafere/src/plain/mod.rs:131-146 | Plain streams are a lawful cipher, so everything below holds for them |
| Frames.FrameOfWire | lafere/src/encrypted/stream.rs:166-189 | A frame that was sent is parsed as what was sent, whatever follows, and the keys agree afterwards |
| Frames.LockStep | lafere/src/encrypted/stream.rs:166-189 | For any sequence of packets, empty or not: all are parsed in order and the receiving key is the sending key at the end |
| Frames.SpoiltBodyIsSkipped | lafere/src/packet/builder.rs:150-155 | A spoilt body costs its own frame only; everything after it is parsed as if nothing had happened |
| Frames.FrameExtends | lafere/src/packet/builder.rs:46-155 | A frame is decided by its own bytes |
| Frames.FrameSize | lafere/src/packet/builder.rs:98-155 | A frame takes from the stream what its header says, also when its body turns out to be spoilt |
| PacketBuffer.PacketBytes.constructor | lafere/src/packet/encrypted_bytes.rs:23-31 | A new buffer has room for a header and both authentication codes and an empty body |
| PacketBuffer.PacketBytes.WriteBody | lafere/src/packet/encrypted_bytes.rs:45-55 | Writing the body leaves the header alone |
| PacketBuffer.PacketBytes.Encrypt | lafere/src/packet/encrypted_bytes.rs:60-93 | After sealing in place, what goes on the stream is the frame of the packet, and the key has moved on once per segment |
| PacketBuffer.PacketBytes.DecryptHeader | lafere/src/packet/encrypted_bytes.rs:95-103 | Opens the header in place and moves the key on once, leaving the body alone |
| PacketBuffer.PacketBytes.DecryptBody | lafere/src/packet/encrypted_bytes.rs:105-113 | Opens the body in place and moves the key on once |
| Receiver.PacketReceiver.ReadInto | lafere/src/packet/builder.rs:64-79 | The read loop puts what it takes from the stream where it belongs; when cancelled it has lost nothing |
| Receiver.PacketReceiver.ReadHeader | lafere/src/packet/builder.rs:46-90 | Whatever was read before, the header becomes known, or the frame is incomplete or beyond repair |
| Receiver.PacketReceiver.ReadBody | lafere/src/packet/builder.rs:98-155 | With the header known, the call takes exactly this frame, or leaves the stream where it is |
| Receiver.PacketReceiver.TakeMessage | lafere/src/packet/builder.rs:157-167 | Yields the packet or a soft error and is back in the initial state |
| Receiver.PacketReceiver.SoftError | lafere/src/packet/builder.rs:171-178 | Yields the header and is back in the initial state |
| Receiver.PacketReceiver.Receive | lafere/src/encrypted/stream.rs:177-189 | A call takes exactly the first frame of the stream ahead, or is cancelled without a loss, or says truly that the stream ends or is beyond repair |
| Receiver.PacketReceiver.ReceiveAll | lafere/src/packet/builder.rs:46-155 | For any chunking and any cancellations, repeated calls yield the packets and soft errors of parsing the stream at once |
| Receiver.PacketStream.Send | lafere/src/encrypted/stream.rs:166-174 | Writes the frame of the packet and moves the sending key on |
| Receiver.SendAndReceive | lafere/src/encrypted/stream.rs:166-189 | From end to end, for any travel of the bytes: the packets sent are the packets received, in order, and both keys are equal |
| Message.KindsAreCounted | lafere/src/packet/packet.rs:100-113 | The upper four bits of the flags count the kinds from one to eleven, and every other number is an unknown kind |
| Message.KindIsSet | lafere/src/packet/packet.rs:115-176 | The kind that was set is the kind that is read, for all kinds, and the reserved bits stay |
| Message.ActionsBack | lafere-api/src/message.rs:181-193 | An action survives being written as a number if and only if it is none, a known one, or unknown by a number that is not zero and that nobody knows |
| Message.HeaderBack | lafere-api/src/message.rs:132-225 | A header is read back as it was written if and only if its body is not too long for its action, and the action is none, a known one, or unknown by a number that is not zero and that nobody knows |
| Message.HeaderLayout | lafere-api/src/message.rs:155-161 | The twelve bytes are the length, the flags, the message flags, the id and the action number, each with its highest byte first |
| Message.HeaderAgain | lafere-api/src/message.rs:132-225 | Every twelve bytes that were read as a header are written as they came |
| Message.HonestIff | lafere-api/src/message.rs:124-129 | A message tells the true length of its body, and is accepted, if and only if the length fits 32 bits, the limit and the action |
| Message.LabelledFits | lafere-api/src/message.rs:124-129 | A packet of the protocol can be sent as a message if and only if its body is not too long |
| Message.PacketsTravel | lafere/src/encrypted/stream.rs:166-189 | Packets of the protocol sent as messages over a stream come out as the same packets in the same order |
| Watch.NextKeeps | lafere/src/util/watch.rs:25-115 | Every atomic step of any thread keeps the invariant of the channel |
| Watch.NoLostWakeup | lafere/src/util/watch.rs:56-114 | In every interleaving, a receiver that sleeps has seen the newest version or somebody is about to notify it; and there is a sender left or the last one is about to notify it |
| Watch.SleepersAreUpToDate | lafere/src/util/watch.rs:90-114 | With all senders at rest, a receiver that sleeps has returned the newest value |
| Watch.NeverOlder | lafere/src/util/watch.rs:99-104 | A value returned is never older than the version recorded with it |
| Watch.ReadsAreWhole | lafere/src/util/watch.rs:56-63 | A read never sees a write without its version |
| Watch.NoneMeansNoSender | lafere/src/util/watch.rs:106-110 | A receiver that was told there are no senders was told the truth, and it stays true |
| Watch.OnlyForward | lafere/src/util/watch.rs:90-114 | No step takes a receiver back to an older version or value |
| Watch.LogIsWhatWasSent | lafere/src/util/watch.rs:56-63 | The values receivers can see are the first one and then those the calls of send were begun with, in the order of their writes |
| Watch.CopiesAgree | lafere/src/util/watch.rs:79-86 | A copy of a receiver has seen what the original has seen |
| Watch.CopiesKeepAlive | lafere/src/util/watch.rs:30-50 | A copy of a sender keeps the channel alive when the original goes |
| Watch.CancelLosesNothing | lafere/src/util/watch.rs:112-113 | A receiver that waits can be cancelled and called again, knowing what it knew |
| Watch.CallEndsExactly | lafere/src/util/watch.rs:90-114 | A call that has neither read a value nor been cancelled is over if and only if it was told that no sender is left; a notification alone never ends it |
| Watch.NoValueIsStuck | lafere/src/util/watch.rs:90-114 | In every reached state with the senders at rest, a receiver in a call that has a value to get gets the newest one by steps of its own |
| Watch.NoneHidesExactly | lafere/src/util/watch.rs:99-110 | Between loading the version and finding no sender left, a value is hidden if and only if some version was raised in between |
| Watch.LoadMayHideExactly | lafere/src/util/watch.rs:99-110 | When the version is loaded and found unchanged: with no sender left every continuation hides nothing, with a sender left some continuation does |
| Watch.RecvMayHideExactly | lafere/src/util/watch.rs:90-114 | A call of recv can return None and leave a value unseen if and only if the receiver is up to date when it calls and there is a sender |
| Watch.NoneMayHideAValue | lafere/src/util/watch.rs:99-110 | Every channel reaches a state in which this can happen |

## Left out

Codec:

- The types that can only be decoded, `Fixed` and `ZigZag`. The shift of `ZigZag` is arithmetic, so it inverts the
  zigzag form for small magnitudes only.
- UTF-8 validation: a string is its bytes.
- Writers of fixed size and their "buffer exhausted" error: the writer grows.
- Overflow of the size builder: sizes are unbounded, and the round trip is stated for encodings shorter than 2^64.
- The size rule for varints is computed in exact arithmetic, not with 32-bit floats.
- The value a payload variant starts from is the type's `Default::default()` in the code; the model takes it to be
  the value decoding starts from.
- Assembling of tokens in the macros: the model describes the code they emit.

Protocol:

- NeverBroken: packets that the library makes itself, with empty bodies, are taken to parse; only bodies made by users
  may be malformed.
- Bounded channels and back pressure: the local channels are unbounded, and handing over never blocks.
- GracefulClose: the side that closes has ids left for the requests still in its queue; without one it stops early,
  and the theorem asks for a side that has sent everything.
- RequestsCanBeAnswered: stated for states with nothing in flight and nothing queued at the asking side. Whatever else is
  in flight can be taken in first (`Alive.EverythingCanBeRead`), but a packet taken in may make a side close.
- Reconnecting: `close_all_started` keeps entries while it resets the counter, so everything is stated for one
  connection.
- Timeouts and ping intervals: a ping may be sent at any time while running. I/O errors and hard errors end a
  connection and are no steps of it.
- EnablingExactly: that late enabling can do harm is proved for a server that runs, listens and has an open, empty
  queue; a server that is closing never uses the permission.
- CloseAndDrain: while it runs, users do nothing; it says when it comes to wait for one of them.

Frames:

- Cryptography and the handshake: keys start equal, and opening inverts sealing at equal keys.
- Changing the body limit while a frame is half read.
- Flushing, timeouts and the shutdown of the stream.
- A header of length zero, which would make frames without any bytes.

Watch:

- `send`, `recv`, `clone` and `drop` are runs of atomic steps of a state machine, not methods of a class, because
  other threads may take steps in between.
- Memory orders weaker than sequential consistency, and wrap-around of the version.
- `newest`, which reads the data under the lock and nothing else.

Everywhere: the client and server front ends, request handlers and the api macros, JSON and file bodies, and the
formatting of errors.
