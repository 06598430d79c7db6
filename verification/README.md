# FlexGen controls: a verified model

The project models four components of a power-plant control system in Dafny and proves
what they are for.

- **FIMS codec** (`Text`, `Fims*`). A stateful encoder fixes its keys from the first
  message, writes each message as a self-delimiting frame of floats, bools and one-byte
  enumerations, and prints a text file that describes the keys. The decoder reads the text
  and replays the bytes. `FimsValues` to `FimsArchive` give both sides as functions;
  `FimsSchema` says in the terms of the messages what an archive holds; `FimsEncoder`,
  `FimsPrinter` and `FimsReader` are the objects and loops, proved against the functions. A
  float64 is its 64-bit pattern.
- **File delivery** (`Sync*`). Send, retry, clear and start-up recovery workers share a
  source directory, an error directory and a durable ledger of failed servers.
  `SyncLedger` is the ledger object over a flat store; `SyncDelivery` is the workers as
  atomic steps with a crash possible between any two; `SyncSafety` to `SyncProgress` say what
  is never lost, never forgotten and always finished.
- **Document manager** (`Dbi*`). A tree of JSON documents with path-addressed get, set,
  post and delete, mirrored to Mongo. `DbiJson` and `DbiLens` hold the recursive functions
  and their laws, `DbiEdits` what is read after an edit, `DbiStore` and `DbiRequests` the
  requests on both copies, `DbiManager` the objects.
- **Power system simulator** (`Psm*`). A solver that passes three times over a tree of
  grid, feeders, generators, loads and solar plants; feeder protection; a battery with
  racks; and a storage system with ramps. Numbers are reals.

## Findings

Where the code does not do what one would expect, the code is modelled as it is, and the
exact condition is proved.

- Delivery with two or more servers can lose a file: a retry is queued before the send of
  the file has ended, and the error copy is made only once. Keeping retry and recovery of
  a file apart from its sending prevents this, and then the pending deletion of an error
  copy has to count as part of the recovery. With one server nothing is needed. Of
  the three guards modelled, exactly these are safe.
- A key's distinct strings are numbered modulo 256: every 256th reads as missing, and
  strings whose numbers agree read as one of them. All read back exactly up to 255.
- A slice is read only up to its size modulo 256, and the rest of its enumerations stay in
  front of the next field. It reads back exactly up to 255 maps.
- The 256th distinct map of a key makes the data file unreadable, and every further one
  replaces the first. Slices read back exactly while the key knows at most 255.
- These limits are exact for whole runs: outside them no table a decoder could hold gives
  the messages back.
- An index written as `01` names the same array element as `1`; an edit of the one changes
  what the other reads. A scalar new to both places and set through one path is seen
  through the other exactly when the two never name different children.
- A path through a scalar is edited at the scalar and read one segment past it.
- An open feeder whose voltage falls below zero switches its generators off but not its
  loads, which then run without a source. The voltage can be worked out before the tick.
- An over-limit flow trips a feeder at the next tick unless a message writes its trip
  command false before; then only an open command opens it.
- The comment at `psm/bms.go:455` says that a fault forces the contactor open. It opens a
  closed one, but an open one still closes on a close command; the battery stays off.
- A solar plant stores the frequency and phase it is given and then overwrites them with
  those of the empty terminal that its own output is (`psm/pv_ac.go:77-82`): after every tick
  it reads zero for both.
- A map posted onto an explicit null makes keys unreadable that answered null before.
- The comment at `psm/bms.go:321` says that rack contactors start closed; the code opens
  them, and so does the model.
- An on command to a storage unit in standby can outdo an off command in the same tick, but
  only if both contactors stand closed after the commands: a closed one needs separate
  contactor control and no open command for that, an open one a close command.

## Model

| member | source | states |
|---|---|---|
| FimsCodec.CodecRoundTrip | fims_codec/decode.go:75-243 | For every sequence of Encode calls, every map iteration order and every text the printer may produce: decoding the metadata text and data file gives the URI, the additional data, the same timestamps in order and exactly the normal forms of the accepted bodies, within limits a caller can check on the messages, the first of which does not panic |
| FimsCodec.RunState | fims_codec/encode.go:93-135 | The state any run leaves has sound tables, keys that realize the first message's schema, and texts the reader can read |
| FimsCodec.SchemaRealizes | fims_codec/encode.go:253-338 | Whatever order the first message is ranged in, the key list it fixes is its accepted keys with their types, each once |
| FimsSchema.SchemaLaw | fims_codec/utils.go:91-106 | The schema of a first message holds a key with a type if and only if the key does not spell timestamp and its entry, bare or wrapped, is a number, text, truth value or array of maps, a wrapped one with "ui_type" absent or a text other than "control" |
| FimsSchema.EncoderSchemaLaw | fims_codec/encode.go:253-284 | The keys the first accepted call gives an encoder are exactly those, in any iteration order |
| FimsSchema.EntryLaw | fims_codec/encode.go:253-338 | What one entry is taken as, in the terms of the message alone |
| FimsSchema.TimestampSpelling | fims_codec/encode.go:103-107 | The keys skipped as timestamps are those that spell it in any mixture of cases |
| FimsSchema.ArchiveKeysLaw | fims_codec/decode.go:118-243 | In a decoded archive each message has its time, holds exactly the keys that the first message fixed and it carries itself with that type, and reads there the value sent, texts with a delimiter as the invalid marker |
| FimsSchema.NormalLaw | fims_codec/encode.go:342-431 | A field is carried exactly when it is of the type of its key, is not the float that marks missing data and is not an empty array |
| FimsSchema.NormalValue | fims_codec/buffer_decoders.go:12-103 | What a carried field reads as, element by element |
| FimsSchema.MissingFloatIsTheMarker | fims_codec/utils.go:14-14 | The bit pattern that marks a missing float is the double of 0xFFDEADBEEFFF |
| FimsCodec.DataRoundTrip | fims_codec/decode.go:118-139 | A data file written over a run decodes to the normal forms of the messages, with decoders that hold the final tables |
| FimsRoundTrip.RunRoundTrip | fims_codec/decode.go:118-170 | Every frame of a run decodes with the tables of the end of the run, and the bytes after the run are left over |
| FimsRoundTrip.RunKeepsTables | fims_codec/encode.go:342-431 | Over a run every table stays a bijection onto 1..n, only grows and stays within one byte |
| FimsRoundTrip.MessageRoundTrip | fims_codec/decode.go:142-170 | One frame is consumed completely and gives the normal form of its message, for any later tables |
| FimsRoundTrip.FieldsRoundTrip | fims_codec/decode.go:150-168 | The fields of a frame decode key by key to the normal form of the body |
| FimsRoundTrip.FieldRoundTrip | fims_codec/buffer_decoders.go:12-103 | One field, of any type and with ill-typed, absent or marker data, is consumed exactly and decodes to its normal form with any later tables |
| FimsRoundTrip.StringFieldRoundTrip | fims_codec/buffer_decoders.go:44-66 | The byte written for a string selects its cleaned text in any later table |
| FimsRoundTrip.SliceFieldRoundTrip | fims_codec/buffer_decoders.go:70-101 | The bytes written for a map slice select its cleaned maps, in order, in any later table |
| FimsTables.EncodeFieldKeepsTables | fims_codec/encode.go:342-431 | Every field write keeps both tables bijections onto 1..n with printable texts, and only adds to them |
| FimsTables.StringEnumMeaning | fims_codec/encode.go:472-493 | The enumeration of a string is that of its cleaned text in the grown table, and is never the missing-data byte while there is room |
| FimsTables.MapEnumMeaning | fims_codec/encode.go:506-541 | The enumeration of a map selects its cleaned copy in the grown table |
| FimsExact.LimitsAreExact | fims_codec/decode.go:118-170 | For every sequence of Encode calls the data file reads back as the normal forms, for some tables of its keys, if and only if every key is given at most 255 strings, at most 255 maps, and slices of at most 255 maps with legal keys |
| FimsExact.RunForced | fims_codec/decode.go:118-170 | Whatever tables its decoders hold, a run that reads back was within the limits, and its own tables hold every string and map it was given |
| FimsExact.FieldForced | fims_codec/buffer_decoders.go:12-103 | A field that reads back as its normal form was within the limits and was consumed exactly |
| FimsLimits.TooManyStrings | fims_codec/encode.go:472-485 | 256 strings given to an empty table fill it and do not all read back |
| FimsLimits.StringByte | fims_codec/encode.go:472-485 | Whatever the size of the table, a string is written as its place among the distinct strings, plus one, modulo 256, and the table stays in order |
| FimsLimits.StringReadsMissingExactly | fims_codec/buffer_decoders.go:44-60 | A string reads as missing if and only if its place is the last of a block of 256 |
| FimsLimits.StringReadsAs | fims_codec/encode.go:495-502 | Any other string reads, in every table that can be printed, as a string whose place differs by a multiple of 256 |
| FimsLimits.SharedByteLosesOne | fims_codec/encode.go:472-485 | No decoder reads back two strings whose places differ by a multiple of 256 |
| FimsLimits.StringsReadBackExactly | fims_codec/encode.go:495-502 | The strings of a key read back in every table that can be printed of them if and only if there are at most 255 |
| FimsLimits.SliceReadsFirst | fims_codec/buffer_decoders.go:70-101 | A slice of any size reads as its first maps, as many as its size modulo 256, and leaves the other enumerations in front of the next field |
| FimsLimits.SliceReadsBackExactly | fims_codec/buffer_decoders.go:70-101 | With room in the table and legal keys a slice reads back if and only if it holds at most 255 maps |
| FimsLimits.MapsReadBackExactly | fims_codec/encode.go:506-523 | A slice can be read back if and only if its key then knows at most 255 maps; otherwise every decoder rejects the data file |
| FimsLimits.FurtherMapsReplaceFirst | fims_codec/encode.go:506-523 | With all 256 enumerations taken, every further map replaces the first, so frames already written change meaning |
| FimsLimits.SliceDecodesExactlyWithLegalKeys | fims_codec/encode.go:506-541 | With room in the table a slice decodes if and only if every key of its maps is free of the delimiters |
| FimsLimits.RunIsOrderly | fims_codec/encode.go:434-468 | After any run within the limits every table is in order and has text form, so the archive can be written |
| FimsArchive.MetadataRoundTrip | fims_codec/decode.go:175-243 | Reading any printed metadata returns the URI, the additional data and a decoder per key with every enumeration at index enum - 1, the truncated final newline and an empty last string included |
| FimsArchive.ReadKeysOf | fims_codec/decode.go:198-241 | A sequence of printed key groups is read as the decoders of those keys, in order |
| FimsArchive.ReadEnumsOf | fims_codec/decode.go:206-238 | The enumeration lines after a key line are read completely, up to the next key line |
| FimsArchive.ReadAdditionalOf | fims_codec/decode.go:182-196 | The printed additional-data lines are read back as the same map |
| FimsMetadata.MapRoundTrip | fims_codec/decode.go:247-287 | In any iteration order, parsing the printed line of a map gives the map back, colons and parentheses in values included, and the line holds no tab or newline |
| FimsMetadata.EmptyMapIsLost | fims_codec/decode.go:247-255 | The empty map is printed as an empty line, which the parser refuses |
| FimsPrinter.StringifyAdditionalData | fims_codec/encode.go:232-240 | Prints one line per entry in some order of the keys, and fails exactly on an empty map |
| FimsPrinter.OrderedStrings | fims_codec/encode.go:495-502 | Places the strings of a table of any size by enumeration; those that share one share a slot |
| FimsPrinter.StringifyMap | fims_codec/encode.go:551-563 | Prints a map as its elements in some order, and fails exactly when a value has no printable type |
| FimsPrinter.StringifyMapEnums | fims_codec/encode.go:545-565 | Prints the maps of a table in enumeration order, one line each, and fails exactly when an enumeration is missing or a map has no text form |
| FimsPrinter.PrintKey | fims_codec/encode.go:449-462 | Prints a key line and the enumerations of its type in order, and fails exactly when a map has no text form |
| FimsPrinter.CreateMetadata | fims_codec/encode.go:434-468 | The text is one of those the round trip speaks of; the printer fails if and only if there is no additional data or some map holds a value without text form |
| FimsEncoder.GetOrUpdateStringEnum | fims_codec/encode.go:472-485 | Returns the enumeration of a legal string and the table grown by it, and refuses an illegal one |
| FimsEncoder.EnumerateString | fims_codec/encode.go:367-372 | As the table function for strings, the invalid marker included |
| FimsEncoder.GetOrUpdateMapEnum | fims_codec/encode.go:506-523 | Finds an equal map or adds it, and refuses illegal text |
| FimsEncoder.MarkInvalidStrings | fims_codec/encode.go:527-541 | Replaces exactly the illegal strings of a map by the invalid marker |
| FimsEncoder.EnumerateMaps | fims_codec/encode.go:310-325 | The enumerations of a slice in order, with the grown table |
| FimsEncoder.CastToMapSlice | fims_codec/utils.go:108-118 | The maps of a slice, or nothing when some item is not a map |
| FimsEncoder.Encoder.AppendMissingDataMarker | fims_codec/encode.go:420-431 | Appends exactly the missing-data marker of the type |
| FimsEncoder.Encoder.WriteField | fims_codec/encode.go:342-416 | Appends exactly the bytes of the field and returns the grown key description |
| FimsEncoder.Encoder.AddDataToNewEncoder | fims_codec/encode.go:253-338 | Adds the key and its bytes, or leaves the encoder as it was when the entry is refused |
| FimsEncoder.Encoder.AddDataToExistingEncoder | fims_codec/encode.go:342-416 | Appends the entry of a later message under a known key |
| FimsEncoder.Encoder.ConfigureFrom | fims_codec/encode.go:104-112 | Fixes the schema from the first message in an order it reports |
| FimsEncoder.Encoder.Encode | fims_codec/encode.go:93-135 | One call leaves the encoder in the state the pure step gives: exactly one frame more, or nothing changed when it is refused |
| FimsEncoder.Encoder.EncodeKnownKeys | fims_codec/encode.go:114-128 | Writes one field or marker per known key, in order |
| FimsEncoder.Encoder.CreateArchive | fims_codec/encode.go:157-228 | A metadata text of the encoder and the two-byte count followed by the data buffer; fails exactly as the printer does |
| FimsReader.ByteBuffer.Read | fims_codec/buffer_decoders.go:105-115 | Exactly n bytes, or a failure that drains the buffer |
| FimsReader.DecodeFieldInto | fims_codec/buffer_decoders.go:12-103 | Advances the buffer and writes the destination exactly as the pure field decoder |
| FimsReader.DecodeSingleFimsMsg | fims_codec/decode.go:142-170 | One timestamp and body, with the buffer advanced past the frame |
| FimsReader.DecodeFimsMessages | fims_codec/decode.go:118-139 | The messages of a data file in order, or the error of the first bad one |
| FimsReader.ParseStringifiedMap | fims_codec/decode.go:247-287 | Parses a printed map, or fails as the element parser does |
| FimsReader.PopKey | fims_codec/decode.go:198-241 | Pops one key group from the lines |
| FimsReader.ParseMetadata | fims_codec/decode.go:175-243 | Reads a whole metadata text as the pure reader does |
| Text.BigEndianRoundTrip | fims_codec/utils.go:30-52 | Reading a fixed-width big-endian integer gives the integer that was written |
| SyncSafety.NoFileIsLost | cloud_sync/src/client.go:190-291 | For any number of servers, in every state of every run with crashes at any step: each accepted file a server misses is in the source, or in the error directory with that server in its ledger entry or without an entry, when recovery of a file is kept apart from its sending |
| SyncAttention.NothingIsForgotten | cloud_sync/src/client.go:190-291 | For any number of servers, in every state of every run under the full guard: a file that a connected server misses, and that was not refused for good since the last restart, waits to be sent or is with the sender, waits for or is with that server's retry worker, or is listed for recovery or being recovered |
| SyncAttention.NothingIsLeftBehind | cloud_sync/src/client.go:532-608 | In the same runs a source file waits, is being sent or is about to be cleared, and an error copy without a ledger entry is being retried, cleared or recovered |
| SyncAttention.StepPursues | cloud_sync/src/client.go:257-291 | Each atomic step keeps every server that misses a file attended to |
| SyncAttention.RunAttends | cloud_sync/src/client.go:532-664 | The invariant behind both holds in every state of every guarded run |
| SyncProgress.DeliveredExactly | cloud_sync/src/client.go:190-291 | A server counts as having a file if and only if a transfer of it to that server has succeeded, and a file as accepted if and only if it has arrived |
| SyncProgress.WorkersFinish | cloud_sync/src/client.go:190-291 | Every step of a worker leaves it strictly less to do: a send ends within five steps per server and two more, a retry within four |
| SyncSafety.ConcurrentRetriesAreSafe | cloud_sync/src/client.go:257-291 | Once a file has left the source, the ledger and every stale view contain all servers that miss it, and an error copy is queued for deletion only when every server has the file |
| SyncSafety.StepKeepsFile | cloud_sync/src/client.go:190-291 | Each atomic step of each worker keeps what is known about each file |
| SyncSafety.StepKeepsApart | cloud_sync/src/client.go:213-236 | With the guard no step makes sending and recovery of one file overlap |
| SyncSafety.RunKeepsFile | cloud_sync/src/client.go:532-664 | The per-file invariant holds in every state of every guarded run |
| SyncSafety.CrashKeeps | cloud_sync/src/client.go:532-553 | A crash at any step and the restart that lists both directories keep the invariant |
| SyncSafety.RenameKeeps | cloud_sync/src/client.go:557-608 | Recovery of a file without a ledger entry moves it back to the source without losing it |
| SyncSingle.NoFileIsLostAlone | cloud_sync/src/client.go:190-291 | With at most one server no file is lost under every interleaving, without any guard |
| SyncSingle.StepKeepsLone | cloud_sync/src/client.go:257-291 | Each step keeps the single-server invariant |
| SyncLoss.FileCanBeLost | cloud_sync/src/client.go:213-224 | With two servers or more there is a run that loses a file: the retry of the first server deletes the only error copy before the send to the second one fails |
| SyncLoss.FileCanBeLostBeforeClear | cloud_sync/src/client.go:557-608 | With a guard that ends when the deletion of an error copy is queued there is still a losing run: a crash leaves the file in both directories, its retry queues the deletion, and a send that begins before it finds the copy there |
| SyncLoss.SafeExactly | cloud_sync/src/client.go:190-291 | No run loses a file if and only if the guard lasts until error copies are deleted or the client has at most one server |
| SyncLedger.KeyDetermines | cloud_sync/src/db.go:99-109 | For all file and server names the key determines both: no quoted file prefix is a prefix of another file's |
| SyncLedger.EscapePrefixFree | cloud_sync/src/db.go:99-109 | No escape of a rune is a prefix of another rune's escape |
| SyncLedger.ViewAt | cloud_sync/src/db.go:99-118 | The flags of a file hold a server exactly when its key is in the flat store |
| SyncLedger.OtherFilesKept | cloud_sync/src/db.go:123-185 | Changing the keys of one file leaves the flags of every other file |
| SyncLedger.DatabaseManager.Get | cloud_sync/src/db.go:95-119 | The file's inner map, not found if and only if it is empty |
| SyncLedger.DatabaseManager.Set | cloud_sync/src/db.go:123-160 | The file's inner map becomes the given one, and no other file changes |
| SyncLedger.DatabaseManager.Remove | cloud_sync/src/db.go:162-185 | The file's inner map becomes empty, and no other file changes |
| SyncLedger.DatabaseManager.AddFailure | cloud_sync/src/client.go:610-628 | The server is added to the file's inner map |
| SyncLedger.DatabaseManager.RemoveFailure | cloud_sync/src/client.go:632-664 | The server is taken out, and the result says whether none is left |
| DbiLens.EditThenGet | dbi/src/documentmanager.go:317-409 | On every path without empty segments that crosses no scalar, GET after SET returns the inserted value, unwrapped once per segment and once more, and GET after POST the merged value |
| DbiLens.GetAfterEdit | dbi/src/documentmanager.go:317-409 | What GET returns after a successful edit on every path, also through scalars: the stored value read on through the unused segments |
| DbiEdits.PostedMapIsRead | dbi/src/documentmanager.go:351-362 | A map posted where a map or nothing stood: below the path every key of the payload reads the payload and every other key what it read before; only an explicit null stops answering |
| DbiEdits.PostedMapIsWhole | dbi/src/documentmanager.go:351-362 | GET then returns the union of both maps, with the payload's value where a key is in both |
| DbiEdits.PostedArrayIsAppended | dbi/src/documentmanager.go:394-401 | An array posted onto an array: the old elements in place, then the payload's, as many as both together |
| DbiEdits.PostedOtherwiseReplaces | dbi/src/documentmanager.go:363-404 | For every other pair of kinds POST reads as the payload |
| DbiEdits.SetIsRead | dbi/src/documentmanager.go:317-409 | GET after SET returns the payload, at the path and below it |
| DbiEdits.PayloadOfWrapped | dbi/src/documentmanager.go:329-335 | Exactly one wrapping in a lone "value" per segment, and one more, is taken off what is inserted; anything else is inserted as sent |
| DbiEdits.EditSucceedsExactly | dbi/src/documentmanager.go:320-383 | An edit is refused if and only if it meets an array that its segment does not index, and otherwise panics if and only if it has to make a layer for a numeral past the largest integer |
| DbiEdits.EditPastScalar | dbi/src/documentmanager.go:406-408 | An edit that meets a scalar on its way replaces it, for SET and POST alike |
| DbiEdits.GetThrough | dbi/src/documentmanager.go:205-241 | What is read below a resolving path is read from what it resolves to |
| DbiEdits.NumeralIsRead | dbi/src/documentmanager.go:376-383 | A written number, with or without sign, indexes as itself as far as integers go |
| DbiLens.SetScalarThenGet | dbi/src/documentmanager.go:205-241 | A scalar that was set is read back if and only if the path goes at most one segment past an existing scalar |
| DbiLens.ScalarPastScalarIsUnreadable | dbi/src/documentmanager.go:406-408 | A scalar set two segments past another one is stored and cannot be read back |
| DbiLens.OtherPathsKept | dbi/src/documentmanager.go:317-409 | Every other path that resolved before and is neither prefix nor extension of the edited one reads the same, for SET and POST, grown arrays included |
| DbiLens.KeptExactlyWhenDiverging | dbi/src/documentmanager.go:317-409 | A scalar set through one path, new to both places, leaves what another path reads as it was if and only if the two paths name different children at some layer |
| DbiLens.EditKeepsDiverging | dbi/src/documentmanager.go:337-392 | Paths that name different children at some layer keep what they resolve to |
| DbiLens.DistinctPathsDiverge | dbi/src/documentmanager.go:376-383 | Paths with plainly written indices that differ as text diverge |
| DbiLens.AliasedIndexIsNotKept | dbi/src/documentmanager.go:376-383 | Indices 01 and 1 name one element, so the plain form is needed |
| DbiLens.ResolvedIsRead | dbi/src/documentmanager.go:205-241 | A path that resolves segment by segment is read as what it resolves to |
| DbiLens.DeleteIsExact | dbi/src/documentmanager.go:453-492 | A delete succeeds if and only if its path resolves, and takes exactly that child from the container |
| DbiLens.DeletedKeyIsUnreadable | dbi/src/documentmanager.go:453-471 | A deleted map key, and everything below it, can no longer be read |
| DbiLens.DeletedKeyKeepsOthers | dbi/src/documentmanager.go:453-471 | Deleting a map key keeps what every other resolving path reads |
| DbiLens.DeleteKeepsUnmoved | dbi/src/documentmanager.go:472-488 | A delete keeps every path that leaves at a map, at an array passed through, or at an earlier element |
| DbiLens.DeleteShiftsLater | dbi/src/documentmanager.go:486-487 | An array delete moves every path through a later element down by exactly one index |
| DbiJson.FailedEditIsAtomic | dbi/src/documentmanager.go:317-409 | A failing recursive edit leaves the layer as it was, also where arrays would grow |
| DbiJson.FailedDeleteIsAtomic | dbi/src/documentmanager.go:453-492 | A failing recursive delete leaves the layer as it was |
| DbiJson.NullNeverFails | dbi/src/documentmanager.go:320-327 | An edit below a missing child cannot be refused |
| DbiStore.CacheAgreesWithStore | dbi/src/documentmanager.go:248-315 | After any sequence of requests from start-up: at every address the local document is Mongo's without metadata, no local document holds a top-level _id or _version, and a resync changes no document |
| DbiStore.ServeKeepsMirror | dbi/src/documentmanager.go:415-451 | Every request, accepted, refused or panicking, keeps the two copies equal |
| DbiStore.ExtractMirrors | dbi/src/documentmanager.go:509-549 | Downloading any Mongo contents gives an equal copy |
| DbiStore.EditedFieldIsRead | dbi/src/documentmanager.go:293-315 | A value set or posted through a path is what GET returns, before and after a restart from Mongo |
| DbiRequests.PostedMapIsServed | dbi/src/documentmanager.go:293-315 | Through the manager: below the path of a posted map GET reads the map sent at its keys and what was read before at every other, in the running process and after a restart from Mongo |
| DbiRequests.PostedArrayIsServed | dbi/src/documentmanager.go:293-315 | The same for an array posted onto an array |
| DbiRequests.SetIsServed | dbi/src/documentmanager.go:293-315 | A SET, and a POST of kinds that do not combine, read as what was sent, both ways |
| DbiRequests.FieldEditReads | dbi/src/documentmanager.go:293-315 | A field edit reaches both copies, stamps Mongo's with name and time, and changes no other document |
| DbiRequests.DeletedKeyIsServed | dbi/src/documentmanager.go:439-451 | A deleted map key, and everything below it, is not read any more, both ways |
| DbiRequests.EmptyPathEdits | dbi/src/documentmanager.go:293-315 | A map posted to the empty path is laid over the document; any other edit there changes none of its fields |
| DbiRequests.RefusedRequestsChangeNothing | dbi/src/documentmanager.go:293-309 | An edit of _id or _version or through an array it cannot index, and a delete of what is not there, change neither copy |
| DbiRequests.CollectionAfterEdit | dbi/src/documentmanager.go:248-266 | After SET of a collection exactly the map-valued members of the body are found in it, after POST also what was there; each reads its body over what it held, stamped in Mongo, and other collections are kept |
| DbiRequests.DocumentAfterEdit | dbi/src/documentmanager.go:269-290 | An edited document holds the body sent, over what it held when posted, and no other document changes; a body that is no map changes none |
| DbiRequests.DocumentAfterDelete | dbi/src/documentmanager.go:427-436 | A deleted document is not found any more and every other one is |
| DbiRequests.CollectionAfterDelete | dbi/src/documentmanager.go:415-424 | No document of a deleted collection is found and every other one is |
| DbiManager.MergedMore | dbi/src/documentmanager.go:256-261 | Documents of a collection body merged one after another are the same as merged at once |
| DbiManager.RefusedEditMeansPresent | dbi/src/documentmanager.go:302-310 | A refused field edit can only meet a document that already existed |
| DbiManager.DocumentManager.constructor | dbi/src/documentmanager.go:20-28 | After start-up the copy is the downloaded one and mirrors Mongo |
| DbiManager.DocumentManager.ExtractDBs | dbi/src/documentmanager.go:509-518 | The local copy is rebuilt from both databases, whatever it was |
| DbiManager.DocumentManager.ExtractDB | dbi/src/documentmanager.go:520-549 | One database is rebuilt, the other kept |
| DbiManager.DocumentManager.GetDocument | dbi/src/documentmanager.go:181-192 | The document at an address, or not found |
| DbiManager.DocumentManager.GetFieldValue | dbi/src/documentmanager.go:195-202 | The value that the path reads in the document |
| DbiManager.DocumentManager.UpdateMetaData | dbi/src/documentmanager.go:495-505 | Stamps the local document and nothing else |
| DbiManager.DocumentManager.SyncDocument | dbi/src/documentmanager.go:551-570 | The stamped document replaces Mongo's, and the local one ends without stamps |
| DbiManager.DocumentManager.EditDocument | dbi/src/documentmanager.go:269-290 | Both copies after the edit, whole, and the returned document |
| DbiManager.DocumentManager.EditCollection | dbi/src/documentmanager.go:248-266 | Both copies after the edit, whole, in any iteration order |
| DbiManager.DocumentManager.EditFieldValue | dbi/src/documentmanager.go:293-315 | Both copies after the edit, whole; a refused edit changes neither although collection and document are created first |
| DbiManager.DocumentManager.RemoveCollection | dbi/src/documentmanager.go:415-424 | Both copies without the collection, or unchanged with an error |
| DbiManager.DocumentManager.RemoveDocument | dbi/src/documentmanager.go:427-436 | Both copies without the document, or unchanged with an error |
| DbiManager.DocumentManager.RemoveField | dbi/src/documentmanager.go:439-451 | Both copies after the delete; it succeeds if and only if the path resolves |
| PsmIslands.TickBalancesAsForetold | psm/psm.go:403-452 | The same from the state before the tick: the commands, lines and last reactive powers decide which feeders are open, at which voltage, whether each of their islands balances and what the grid carries |
| PsmIslands.DiscoverForetells | psm/feed.go:89-96 | After discovering, each open feeder holds the voltage at which its island's lines meet the reactive power it last gave |
| PsmIslands.DiscoverSumsPower | psm/psm.go:403-416 | The active power that reaches a node is what the island's running grid-forming generators last gave and its loads last drew |
| PsmReadings.TickReads | psm/psm.go:403-452 | After one tick of any tree every generator, load and solar plant has obeyed its commands and the voltage it sees, reads the voltage and frequency of its island, and every feeder and the grid meter the flow through them |
| PsmReadings.DiscoverTells | psm/gen.go:51-70 | After discovering every asset has taken its on, off, forming and following commands |
| PsmReadings.CalculateReads | psm/psm.go:421-435 | Voltage, frequency and phase reach every asset of the island, from the grid or from its open feeder, and switch off what they cannot hold |
| PsmReadings.UpdateMeters | psm/psm.go:440-452 | Every feeder meters the flow through it with its polarity, every other asset the apparent power of its own |
| PsmSolver.TickBalances | psm/psm.go:403-452 | After one tick from any state of any tree: below every open feeder with voltage not negative, active and reactive power sum to zero, and otherwise to the loads alone; the grid carries the sum of its tree, which at positive voltage is minus its own droop share |
| PsmSolver.DiscoverCollectsLines | psm/psm.go:403-416 | The droop lines that reach a node are the sum over the running grid-forming generators of its island, and every open feeder stores its island's |
| PsmSolver.CalculateCollects | psm/psm.go:421-435 | The power that reaches a node is what the island's followers supply; generators stay in exactly at positive voltage |
| PsmSolver.UpdateBalances | psm/psm.go:440-452 | The power that reaches a node is its island's whole power, followers plus lines at the shared frequency and voltage |
| PsmSolver.OpenFeederShares | psm/feed.go:137-151 | The load an open feeder passes down makes its island balance |
| PsmSolver.GridShares | psm/grid.go:100-106 | The load the grid passes down makes tree and grid share it by their lines |
| PsmSolver.GridMeetsNominals | psm/grid.go:60-82 | The grid gives nothing at its commanded frequency and voltage, and its nominal power one droop percentage below each |
| PsmVoltage.NegativeVoltageUnbalances | psm/feed.go:89-96 | A concrete island, with lines as initialised, whose foretold voltage is negative keeps a load without a source |
| PsmVoltage.FallingIsInitialised | psm/gen.go:44-45 | The lines of that island are what initialisation gives |
| PsmDroop.SlopeMeetsNominals | psm/droop.go:9-18 | The droop line gives no output at the nominal value and full output one droop percentage below |
| PsmDroop.SlopeIsNegative | psm/droop.go:9-18 | The slope is negative if and only if the source is stiff or output and droop width have one sign |
| PsmDroop.LineRoundTrip | psm/droop.go:29-43 | Reading a line backwards and forwards is the identity |
| PsmDroop.CombineMeetsLines | psm/asset.go:408-427 | Two terminals combined add their powers and sit where their joint lines meet them |
| PsmDroop.SlewApproaches | psm/slew.go:4-20 | A ramp moves towards its target by the full step or exactly onto it, never past it |
| PsmDroop.IntegralIsExact | psm/integrate.go:4-22 | The integral stays in bounds and its returned rate accounts for the whole change, saturated or not |
| PsmNetwork.PassTree | psm/psm.go:403-452 | The recursion over mutable assets, each at one place of the tree, computes the pass on values |
| PsmNetwork.RunTick | psm/psm.go:378-382 | After one tick of the live objects feeders, voltages, balances and what the grid carries are, in every case, as the tree before the tick foretold |
| PsmPlant.FeedUnit.UpdateMode | psm/feed.go:51-85 | Takes reset, trip, open and close commands in that order and passes voltage down only when closed |
| PsmPlant.FeedUnit.GetLoadLines | psm/feed.go:89-96 | Passes lines up when closed, keeps lines and voltage of the island when open |
| PsmPlant.FeedUnit.DistributeVoltage | psm/feed.go:100-114 | Passes the voltage from above when closed, the island's own when open |
| PsmPlant.FeedUnit.CalculateState | psm/feed.go:119-131 | Records the followers' power with its polarity and passes it up only when closed |
| PsmPlant.FeedUnit.DistributeLoad | psm/feed.go:137-151 | Passes the load from above when closed, the island's load with its shared frequency and voltage when open |
| PsmPlant.FeedUnit.UpdateState | psm/feed.go:156-190 | Records the flow, asks for a trip when a limit is exceeded, and passes the flow up only when closed |
| PsmPlant.GridUnit.GetLoadLines | psm/grid.go:60-82 | Keeps its own commanded lines combined with the tree's, and the voltage and frequency they give |
| PsmPlant.GridUnit.CalculateState | psm/grid.go:92-96 | Records the followers' power |
| PsmPlant.GridUnit.DistributeLoad | psm/grid.go:100-106 | Passes down that load with the shared frequency and voltage of the combined lines |
| PsmPlant.GridUnit.UpdateState | psm/grid.go:110-116 | Records the power of the whole tree |
| PsmPlant.GenUnit.UpdateMode | psm/gen.go:51-70 | Takes forming, following, on and off commands |
| PsmPlant.GenUnit.GetLoadLines | psm/gen.go:73-83 | Offers its lines and last power only while forming and on |
| PsmPlant.GenUnit.DistributeVoltage | psm/gen.go:88-98 | Switches off and drops commands without positive voltage |
| PsmPlant.GenUnit.CalculateState | psm/gen.go:102-123 | A follower ramps to its setpoints; a forming generator supplies nothing yet |
| PsmPlant.GenUnit.UpdateState | psm/gen.go:132-149 | A forming generator supplies what its lines give at the shared frequency and voltage |
| PsmPlant.LoadUnit.UpdateMode | psm/load.go:43-54 | Takes on and off commands |
| PsmPlant.LoadUnit.DistributeVoltage | psm/load.go:59-66 | Switches off and drops commands exactly at zero voltage |
| PsmPlant.LoadUnit.CalculateState | psm/load.go:67-88 | Ramps to its command or random walk, or draws nothing when off |
| PsmPlant.LoadUnit.UpdateState | psm/load.go:92-98 | Passes its power up |
| PsmPlant.SolarUnit.UpdateMode | psm/pv_ac.go:49-63 | Takes on and off commands |
| PsmPlant.SolarUnit.DistributeVoltage | psm/pv_ac.go:69-79 | Switches off and drops commands without positive voltage |
| PsmPlant.SolarUnit.CalculateState | psm/pv_ac.go:81-107 | Ramps to its command within limit and rating |
| PsmPlant.SolarUnit.UpdateState | psm/pv_ac.go:113-120 | Passes its power up |
| PsmFollowers.GenApproaches | psm/gen.go:102-123 | A following generator moves P and Q towards their setpoints with noise by the ramp of the tick or onto them |
| PsmFollowers.LoadApproaches | psm/load.go:67-88 | The same for a load, with the random walk towards a draw from its range |
| PsmFollowers.SolarApproaches | psm/pv_ac.go:81-107 | A solar plant approaches the least of its limit, its rating and the power available, and its reactive setpoint; both may be percentages of the rating |
| PsmFeeder.TrippedIsOpen | psm/feed.go:51-85 | In every state of every run, trip commands raised and taken back included, a tripped feeder is open |
| PsmFeeder.OverloadOpensUnlessCleared | psm/feed.go:156-166 | A flow over a limit at a closed feeder trips it at the next tick if and only if no message takes the trip command back in between, and opens it if and only if that or an open command |
| PsmFeeder.ClearedTripStaysClosed | psm/feed.go:60-64 | The failing input: the trip command written false before the next tick leaves the overloaded feeder closed and untripped |
| PsmFeeder.OverloadExample | psm/feed.go:156-166 | Such a feeder and flow exist |
| PsmFeeder.TripsExactlyOverLimit | psm/feed.go:156-166 | A closed feeder is tripped at the next tick if and only if a message asks for it, or leaves the trip command alone and |P|, |Q| or S exceeds its own limit |
| PsmFeeder.BreakerFollowsCommands | psm/feed.go:51-73 | The breaker after a turn, exactly: a trip always opens it, an open command opens it, a close command closes it unless it is tripped and not reset |
| PsmFeeder.FeederMeters | psm/feed.go:167-190 | The feeder meters the flow with its polarity when closed and nothing when open |
| PsmFeeder.ClosesOnlyAfterReset | psm/feed.go:56-73 | A tripped feeder that is closed at the end of a run has seen a reset and, then or later, a close command |
| PsmFeeder.OverloadLocksOut | psm/feed.go:51-73 | After an over-limit flow whose trip was not taken back, and any further turns, closed implies a reset and a close command after the trip |
| PsmFeeder.ResetAndCloseRecloses | psm/feed.go:56-73 | A reset and a close command in one turn close a tripped feeder |
| PsmBattery.UpdateModeKeepsLinked | psm/bms.go:420-519 | Every mode update keeps NumRacks and NumRacksEnabled equal to the closed and enabled racks and On implies DcContactor implies a closed rack; one that sees a latched enabled fault ends with On false |
| PsmBattery.RackTurnsCount | psm/bms.go:469-491 | The rack loop keeps both counters right, and without an open command no rack opens |
| PsmBattery.SwitchesStayChained | psm/bms.go:456-517 | The main contactor and switch stay chained for every rack count that fell only under an open command |
| PsmBattery.InitLinked | psm/bms.go:195-329 | Initialisation establishes the invariant when the battery is off |
| PsmSwitching.OnCommandTurnsOn | psm/bms.go:461-508 | An unfaulted battery that is off, is commanded on and not to open turns on if and only if a rack is closed or one in service is within the current limit |
| PsmSwitching.OffCommandTurnsOff | psm/bms.go:456-517 | The off command, an open command and a fault each turn a running battery off and open its main contactor; without command and fault neither moves |
| PsmSwitching.FaultDoesNotHoldOpen | psm/bms.go:452-517 | Under a fault the battery is off, and the main contactor ends closed if and only if it was open, a close command stands and a rack is closed |
| PsmSwitching.RacksFollow | psm/bms.go:469-491 | Every rack after an update: its enabling, and its contactor under the commands; one out of service or above the current limit does not move |
| PsmSwitching.FaultLatches | psm/bms.go:434-451 | A fault is present if and only if faults are watched and one is measured or an older one was not reset |
| PsmSwitching.TurnsClose | psm/bms.go:482-490 | Under a close command some rack ends closed if and only if one was or one can move |
| PsmEnergy.RunConserves | psm/bms.go:597-641 | Over whole runs, whatever is commanded, measured and faulted: stored energy at the end is that at the start less Pdc*dt/3600 summed over the ticks, every rack charge stays in [0,100], and the rack machine stays linked |
| PsmEnergy.UpdateConserves | psm/bms.go:604-641 | One update: stored energy changes by exactly -Pdc*dt/3600, P is Pdc less the closed racks' losses, and the charge is the mean over closed racks and within [0,100] |
| PsmEnergy.RackConserves | psm/bms.go:611-633 | One rack: the same, saturated or not |
| PsmShares.ClosedRackDelivers | psm/bms.go:604-633 | After a powered update every closed rack that is neither full nor empty has P times the number of racks equal to the power asked, and Pdc - P equal to idle loss plus pesr*P*P; an open rack rests |
| PsmShares.BatteryDelivers | psm/bms.go:604-641 | With k of n racks closed and none full or empty P*n is the power asked times k; with all closed P is the power asked |
| PsmShares.ClosedRackCharge | psm/bms.go:611-633 | The charge of a closed rack is what its share and the losses leave, held between empty and full, and a saturated rack is drawn on for exactly its change of charge |
| PsmBms.Bms.Initialize | psm/bms.go:195-329 | Contactors open, racks enabled, counters set; the invariant holds |
| PsmBms.Bms.UpdateRack | psm/bms.go:472-490 | One rack and both counters after its turn |
| PsmBms.Bms.UpdateMode | psm/bms.go:420-519 | The whole new state, the invariant kept, and off after a fault |
| PsmBms.Bms.DriveRack | psm/bms.go:611-633 | A rack after a powered tick and its charge |
| PsmBms.Bms.UpdateState | psm/bms.go:597-641 | The whole new state after the energy update |
| PsmRamps.RunStaysSane | psm/ess.go:118-216 | In every state of every run: On excludes every stop ramp, start and stop ramps never coexist, standby implies On |
| PsmRamps.StopRampRuns | psm/ess.go:248-364 | Counted from the tick of the off command, in grid following without saturation: after n ticks power has moved n steps towards zero with its sign and the unit off, and is zero exactly when n steps cover it |
| PsmRamps.RampTick | psm/ess.go:248-364 | One tick of a stop ramp, that of the off command included: power moves towards zero by the smaller of itself and the step |
| PsmRamps.OffOrOn | psm/ess.go:126-174 | A running unit that is commanded off stays on if and only if it is in standby, is also commanded on and both contactors stand closed after the commands |
| PsmRamps.OffAlwaysWinsByDefault | psm/ess.go:126-174 | Without separate contactor control a running unit with closed contactors always obeys the off command |
| PsmRamps.OnCanWin | psm/ess.go:160-166 | An input with separate contactor control on which the on command wins |
| PsmRamps.OffStartsRamp | psm/ess.go:157-188 | With the stop ramp enabled, an off command to a running unit starts the ramp if and only if the on command does not win |
| PsmRamps.InitSane | psm/ess.go:101-114 | Initialisation, which clears only the ramps of active power, gives a sane unit if and only if the configuration sets no conflicting reactive ramp and no standby of a unit that is off |
| PsmRamps.RampEnds | psm/ess.go:186-188 | The update after power reached zero ends the ramp |
| PsmDispatch.PowerFollowsCommand | psm/ess.go:248-364 | Over a whole tick a running grid-following unit moves from its last power towards its command by the smaller of the distance and the rate times dt of the start, rise or drop ramp in force, or onto it when none is, to the nearest power within rating and charge limits; rates in both units; with a power factor Q follows it |
| PsmDispatch.ReactiveFollowsCommand | psm/ess.go:276-330 | The same for reactive power within its rating |
| PsmDispatch.CommandIsReached | psm/ess.go:248-364 | With no ramp enabled P is the command after the tick, or the rating when the command exceeds it |
| PsmDispatch.ReactiveIsReached | psm/ess.go:276-330 | With no ramp enabled Q is its command |
| PsmDispatch.RunningAims | psm/ess.go:157-216 | A running unit aims at its commands, and a start ramp is in force if and only if enabled, begun when the unit turned on and not left by a changed command |
| PsmDispatch.OnCommandStarts | psm/ess.go:126-166 | A unit that is off and runs no stop ramp turns on if and only if commanded, with voltage, and with both contactors closed after the commands |
| PsmDispatch.StaysRunning | psm/ess.go:118-216 | Without an off, open, standby or forming command a running unit keeps running while it has voltage |
| PsmDispatch.StandbyFollowsCommands | psm/ess.go:160-180 | A unit that stays on is in standby if and only if told to be, or was and is not switched on again |
| PsmDispatch.FormingFollowsCommands | psm/ess.go:151-155 | Grid forming after the commands, exactly |
| PsmDispatch.OpeningTurnsOff | psm/ess.go:126-174 | A unit whose contactor opens turns off in the same tick |
| PsmDispatch.RestingUnit | psm/ess.go:335-408 | A unit that is off or in standby delivers nothing and keeps its charge |
| PsmDispatch.FormingFollowsDroop | psm/ess.go:374-408 | A running grid-forming unit delivers what its droop lines give at the shared frequency and voltage |
| PsmDispatch.ChargeAndLimits | psm/ess.go:374-408 | The charge is what power and losses leave, held between empty and full; a unit that would overfill may not charge next, one that would run empty may not discharge |
| PsmFollowers.StorageConserves | psm/ess.go:374-408 | The charge of the storage system stays in [0,100] and moves by exactly what is delivered plus idleloss + pesr*P*P, saturated or not |
| PsmEss.EssUnit.Initialize | psm/ess.go:113-113 | Both ramps of active power are cleared |
| PsmEss.EssUnit.UpdateMode | psm/ess.go:118-216 | The whole new mode state and the racks in service |
| PsmEss.EssUnit.DistributeVoltage | psm/ess.go:234-244 | Off and without commands exactly when there is no voltage, and the terminal values stored |
| PsmEss.EssUnit.CalculateState | psm/ess.go:248-364 | The whole new state of a grid-following unit |
| PsmEss.EssUnit.UpdateState | psm/ess.go:374-408 | The whole new state, power and charge |
| PsmEss.EssUnit.Ramp | psm/ess.go:262-310 | The command the ramp branches choose on one axis |

## Left out

- Text formatting and parsing of floats (`%f`, `strconv.ParseFloat`): parameters of the
  metadata printer and parser, with the round trip required of the values that occur.
- `reflect.DeepEqual` on maps is equality; NaN and negative zero inside maps are not
  distinguished from it.
- A wrapped null in the first message makes the encoder panic; the results about runs and
  the encoder object exclude such a first message. An index panic in the metadata reader is
  an error.
- tar and gzip, directories, file modes and clocks: byte sequences and inputs.
- `CopyEncoder` and the getters of the encoder: they only add easy members.
- Transfer and connection code, inotify, bounded channels, tar and untar modes of the
  delivery client: only the outcome of a transfer and the order of queue operations
  matter. File names are fresh, and file and database operations succeed or the process
  crashes.
- File names that are not valid UTF-8, in ledger keys.
- Documents are values: that edits and deletes change nested maps and arrays in place, and
  what other holders of the same map would see, is not captured.
- Mongo errors: every call succeeds. Time stamps are inputs. Requests address the two
  databases that are kept locally.
- DbiManager.DocumentManager.EditFieldValue: excludes edits that panic because they ask for a
  new array at an index beyond the integer range, which DbiStore treats as a restart from
  Mongo; and does not model that an existing array cannot be grown to an index beyond the
  memory of the machine, where the source panics and the model grows it.
- The request dispatch by number of path fragments, and the listing requests.
- Control words, status bitfields, heartbeats, reflection, configuration defaults and
  messaging of the simulator; messages write command fields only.
- Currents, apparent-power factor and line-to-neutral voltages derived from P, Q and V;
  root sums and power-factor formulas are parameters, random draws are inputs.
- Floating-point rounding: reals throughout.
- Assets below generators, loads or solar plants, and feeders without assets below them: a
  closed feeder without assets would return the load it is given.
- PsmBms.Bms.UpdateState: power limits, cell voltages, temperatures and the bus voltage that
  the method sets after the energy update are not modelled; between ticks they may have
  any value.
- PsmBms.Bms.Initialize: models racks, contactors and counters, not the thresholds and
  randomized capacities.
- PsmSolver.TickBalances: the storage system and battery are not assets of the solved tree.
- The debugging time step of the storage system.
- Transformers, power converters, DC bus, DC solar, the expression evaluator, the failover
  controller and the wrappers around foreign libraries.
