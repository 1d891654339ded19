# Marmotter: the protocol core, modelled and proved

Marmotter is an IRC client. This project models the parts of it that decide what the client believes and
what it sends - the wire codecs, the reducer with its message buffers, the two connection machines, and
the receiving half of a file transfer - and proves properties of them for all inputs, all runs, or all
reachable states.

Code that loops or updates fields is written as methods and classes, each proved to compute a function of
its inputs or of the old state; the theorems are about those functions. Strings are sequences of UTF-16
code units, tags an ordered list with unique names, times milliseconds.

| file | what it models |
|---|---|
| `Units.dfy` | strings: `indexOf`, `split`, `join`, `trim`, decimals |
| `Escapes.dfy`, `Tags.dfy`, `Message.dfy`, `WireRoundTrip.dfy`, `Layout.dfy` | tag escaping, tag sections, the line parser and the serializer, that they are inverse, and what is read from every line there is |
| `Ctcp.dfy`, `DccOffer.dfy` | CTCP with its two quoting layers; DCC offers and the answer to a passive one |
| `Utf8.dfy`, `Base64.dfy`, `Sasl.dfy` | UTF-8 (section 3 of RFC 3629), base64 (section 4 of RFC 4648) with its wrapping accumulator, AUTHENTICATE framing |
| `Modes.dfy`, `ModeReading.dfy` | MODE strings: parsing, batching, applying, and what each letter means |
| `Lines.dfy` | cutting a byte stream into lines |
| `Buffer.dfy` | the bounded message buffer |
| `Batch.dfy` | the batch tracker, and the reducer's counts |
| `Members.dfy`, `Ignore.dfy`, `State.dfy`, `Reduce.dfy` | casemapping, member lists, the mute list, the state and the reducer |
| `Commands.dfy`, `Delivery.dfy`, `Records.dfy`, `Membership.dfy`, `Facts.dfy`, `Outcome.dfy` | what any one message does: to the lines, the people and the facts of each conversation, and to us |
| `Invariants.dfy`, `NamesBurst.dfy`, `EventMuting.dfy`, `BatchSimulation.dfy`, `NickFallback.dfy` | theorems about runs of the reducer |
| `Keepalive.dfy`, `Backoff.dfy`, `Reconnect.dfy` | the connection machines, with the host's timers and clock in the state |
| `Transfer.dfy` | receiving a file, over any number of attempts |

Several properties that one would expect turn out to hold only under a condition; there the condition is
proved to be exact:

- A message comes back from the wire as it was exactly when it is well formed. The serializer does not
  refuse a space in the source, an empty tag name or one with `=`, a verb that starts with `:` or `@`, or a
  command that is not its verb in upper case. It also lets a NUL in a tag value through.
- CTCP decoding inverts encoding exactly when the command has no space and no delimiter and something is
  sent; a DCC answer reads back exactly when the filename is not made of double quotes alone and the size is known; mode batching
  keeps its meaning exactly when every change is one the parser could have reported.
- `utf8Decode` accepts overlong forms and encoded surrogates, so it is exact on well-formed bytes only.
- The reducer's count of a closed batch is one more than the tracker's exactly when the closing message
  names the batch in its own tag.
- After a line has been received, nothing short of the idle and the answer times together is taken for a dead
  connection, as long as nobody probes it: a probe right after the line leaves the answer time alone.
- Placing an echo over the entry it answers keeps the buffer in order to the second exactly when the echo
  fits between its neighbours; over every run of insertions and echoes the order is kept exactly when each
  echo fits.
- The next nick is a new one exactly when the length limit does not cut it, or the current nick reaches the
  limit by itself and is new cut down to it. Over a whole registration no nick is tried twice exactly when
  that holds at every refusal.
- An attempt that succeeds leaves exactly the agreed number of bytes exactly when the position it resumed
  from was not past that number.
- Names stay under their folded keys across a change of casemapping exactly when the change leaves every known
  name's fold as it was.
- Calling `connect()` leaves every promise of the reconnecting transport kept, over everything that can
  follow, exactly when the wrapper is idle or stopped with no older handshake unresolved, or never retries at
  all. Anywhere else the environment can bring about a retry timer that nothing is waiting for.

## Model

| member | source | states |
|---|---|---|
| `Escapes.DequoteQuote` | packages/protocol/src/tags.ts:16-88 | Each of the three escaping layers (tag values, and both CTCP levels) gives every string back |
| `Escapes.QuoteText` | packages/protocol/src/ctcp.ts:30-52 | The quoting loop writes each unit as the layer says, nothing more |
| `Escapes.DequoteText` | packages/protocol/src/ctcp.ts:55-88 | The dequoting loop, early return and lone final mark included, is the inverse reading |
| `Escapes.TagValueTable` | packages/protocol/src/tags.ts:58-88 | Which five units a tag value escapes, and as what; every other is written as itself |
| `Escapes.CtcpTables` | packages/protocol/src/ctcp.ts:30-136 | The same for the two CTCP levels |
| `Escapes.DequoteReads` | packages/protocol/src/tags.ts:16-56 | How any text is read: an escape as its unit, an unknown letter as itself, a lone final mark as nothing |
| `MessageTags.TagsRoundTrip` | packages/protocol/src/tags.ts:91-125 | Parsing a serialized tag section gives the same tags in the same order, for any values |
| `MessageTags.TagsReadBack` | packages/protocol/src/tags.ts:91-125 | A section reads back as it was written exactly when no tag name holds `=` and no tag is empty in both name and value |
| `MessageTags.GetAfterSet` | packages/protocol/src/tags.ts:91-112 | Setting a tag changes that name's value and no other; a later duplicate wins in place |
| `MessageTags.ParseTagSection` | packages/protocol/src/tags.ts:91-112 | The loop over the entries sets them one after another, skipping empty ones |
| `MessageTags.LastEntryWins` | packages/protocol/src/tags.ts:91-112 | In any section - empty entries and repeated names included - a name has the value of its last entry, empty where there is no `=` |
| `MessageTags.NoEntryNoTag` | packages/protocol/src/tags.ts:91-112 | and a name without an entry has no value |
| `MessageTags.ValuesAreMarked` | packages/protocol/src/tags.ts:114-125 | A tag without a value is written without `=` |
| `Messages.MakeSourceRoundTrip` | packages/protocol/src/source.ts:18-42 | A source built from nick, user and host reads back as those exactly when no field holds another's mark |
| `Messages.FullSourceIsRead` | packages/protocol/src/source.ts:18-36 | `nick!user@host` is read as its three parts; with `ShortSourcesAreRead` and `EverySourceHasParts` that settles every source |
| `Messages.ParseLine` | packages/protocol/src/parse.ts:35-112 | The cursor-based parser computes the staged reading of the line: tags, source, command, parameters, each failure |
| `Layouts.LayoutIsRead` | packages/protocol/src/parse.ts:35-112 | However a line is laid out - margins, runs of spaces, case of the verb, CR and LF at the end - it is read as the message its parts stand for |
| `Layouts.EveryLineIsRead` | packages/protocol/src/parse.ts:35-112 | Every line is such a layout, or tags or a source without a verb, or blank, and the parser tells which: both failures exactly |
| `Messages.SerializeMessage` | packages/protocol/src/serialize.ts:48-95 | The serializer refuses in the order of its checks and otherwise writes exactly one line |
| `Messages.RefusalsInWords` | packages/protocol/src/serialize.ts:48-95 | Exactly which messages are refused, and on which of the three grounds, the earlier first |
| `Layouts.SerializedAsLaidOut` | packages/protocol/src/serialize.ts:48-95 | An accepted message is written with single spaces, and a colon only before a last parameter that needs it |
| `WireRoundTrip.ParseInvertsSerialize` | packages/protocol/src/serialize.ts:48-95 | Whenever serializing succeeds, parsing the line returns the very message if and only if it is well formed |
| `WireRoundTrip.SerializedLineIsOneLine` | packages/protocol/src/serialize.ts:48-95 | No CR or LF is ever emitted, and NUL exactly when a tag value holds one |
| `WireRoundTrip.ReparseIsStable` | packages/protocol/src/parse.ts:35-112 | A parsed line that serializes again parses to the same message, exactly unless it holds a tag empty in name and value, or its verb starts with `@` and neither tags nor a source stand before it |
| `CtcpCodec.ExtractCtcp` | packages/protocol/src/ctcp.ts:150-190 | The extraction loop finds the blocks in order and the plain text around them, an unterminated last block included |
| `CtcpCodec.BlocksAreRead` | packages/protocol/src/ctcp.ts:150-190 | From text with any number of blocks the non-empty ones come out in order, the unclosed last one too, and so does all text around them |
| `CtcpCodec.DecodedAlone` | packages/protocol/src/ctcp.ts:193-197 | A body is a CTCP message exactly when it holds one non-empty block and only white space around it |
| `CtcpCodec.DecodeInvertsEncode` | packages/protocol/src/ctcp.ts:193-203 | Decoding gives back command and parameters exactly when the command is a word and something is sent |
| `CtcpCodec.EncodedIsSendable` | packages/protocol/src/ctcp.ts:199-203 | An encoded body never holds a unit the serializer refuses, whatever its parameters |
| `CtcpCodec.CtcpSurvivesTheWire` | packages/protocol/src/ctcp.ts:193-203 | Sent as a PRIVMSG, serialized and parsed, a request decodes to what was sent |
| `CtcpCodec.ActionRoundTrip` | packages/protocol/src/ctcp.ts:206-220 | Every `/me` text comes back |
| `Utf8.Utf8Encode` | packages/protocol/src/base64.ts:75-103 | The encoding loop writes each code point, and U+FFFD for an unpaired surrogate |
| `Utf8.Utf8Decode` | packages/protocol/src/base64.ts:106-159 | The decoding loop reads one character or replaces one byte at a time |
| `Utf8.DecodeInvertsEncode` | packages/protocol/src/base64.ts:75-159 | Decoding an encoding gives the string with each unpaired surrogate replaced |
| `Utf8.EncodingIsWellFormed` | packages/protocol/src/base64.ts:75-103 | The encoder's bytes are well formed by the grammar of RFC 3629 |
| `Utf8.DecodingIsExactOnWellFormed` | packages/protocol/src/base64.ts:106-159 | Encoding a decoding gives the bytes back if and only if they are well formed |
| `Utf8.LenientDecoding` | packages/protocol/src/base64.ts:106-159 | An overlong form and an encoded surrogate are accepted by the decoder though malformed |
| `Utf8.CompleteIsRead` | packages/protocol/src/base64.ts:106-159 | A lead byte with all its continuations is one code point, put together from their bits, overlong or not |
| `Utf8.IncompleteIsReplaced` | packages/protocol/src/base64.ts:106-159 | Without them only the lead becomes U+FFFD, or, when the bytes end too early, everything left does |
| `Utf8.SingleByteIsRead` | packages/protocol/src/base64.ts:106-159 | A byte below 0x80 is itself, and one that can start no character becomes one U+FFFD |
| `Utf8.Utf8ByteLength` | packages/protocol/src/limits.ts:25-46 | The counting loop of the other file equals the length of the encoder's output |
| `Base64.EncodeBase64` | packages/protocol/src/base64.ts:20-42 | The loop writes the letters of each group of three, padded |
| `Base64.DecodeBase64` | packages/protocol/src/base64.ts:45-72 | The loop with a wrapping 32-bit accumulator decodes letter by letter, refusing unknown ones |
| `Base64.Base64RoundTrip` | packages/protocol/src/base64.ts:20-72 | Every byte sequence comes back, though the accumulator overflows and is never masked |
| `Base64.EncodedShape` | packages/protocol/src/base64.ts:20-42 | The length is a multiple of four, and nothing encoded is a bare plus sign |
| `Base64.EveryTextIsRead` | packages/protocol/src/base64.ts:45-72 | Any text, padded or not: white space is passed over, letters give their bits eight at a time, and one unit outside the alphabet makes it no base64 |
| `Base64.AlphabetInWords` | packages/protocol/src/base64.ts:10-42 | The alphabet, letter by letter |
| `SaslFraming.ChunkAuthenticate` | packages/protocol/src/sasl.ts:59-77 | The loop cuts a payload into arguments of 400, with a lone plus after an exact multiple |
| `SaslFraming.AuthenticateReassembler.Push` | packages/protocol/src/sasl.ts:80-104 | One argument is kept back when full and otherwise completes the payload |
| `SaslFraming.PayloadsComeBack` | packages/protocol/src/sasl.ts:59-104 | Any sequence of payloads through one reassembler comes out as those payloads, each at its last argument |
| `SaslFraming.PiecesFit` | packages/protocol/src/sasl.ts:59-77 | No argument is longer than 400 and none is empty |
| `SaslFraming.ArgumentsAreJoined` | packages/protocol/src/sasl.ts:80-104 | Whatever arrives, full arguments are kept back and the first that is not completes the payload: all decoded together, nothing when that is not base64 |
| `Modes.ParseChannelModes` | packages/protocol/src/modes.ts:95-131 | The parser draws parameters in order, reports when they run out, and hands back the unused |
| `ModeReading.ModesAreRead` | packages/protocol/src/modes.ts:95-131 | Each letter of any MODE string gets the sign before it, the kind the server gives it and the next parameter if it draws one; cut short exactly when parameters run out, the undrawn ones handed back |
| `Modes.SerializeModeChanges` | packages/protocol/src/modes.ts:275-309 | The renderer cuts the list at the server's limit and writes a sign where it changes |
| `Modes.SerializingKeepsMeaning` | packages/protocol/src/modes.ts:275-309 | The commands parse back to the list, complete, exactly when every change is canonical; then nothing is left over and no command is too long |
| `ModeReading.FewestCommands` | packages/protocol/src/modes.ts:275-309 | No changes make no command, and every command but the last carries as many changes as the server allows |
| `ModeReading.FewestSigns` | packages/protocol/src/modes.ts:275-309 | A sign is written where it changes and nowhere else |
| `ModeReading.OnlyNeededIsSent` | packages/protocol/src/modes.ts:300-303 | A parameter on a mode that takes none makes no difference |
| `Modes.BatchingKeepsState` | packages/protocol/src/modes.ts:177-202 | Receiving the commands leaves the channel modes as applying the list would |
| `Modes.ApplyChannelModes` | packages/protocol/src/modes.ts:177-202 | The loop applies the changes one after another |
| `Modes.ModesFollowLastChange` | packages/protocol/src/modes.ts:177-202 | Each mode and its parameter is as the last change about it left it |
| `Modes.ApplyPrefixChanges` | packages/protocol/src/modes.ts:226-252 | The loop gives and takes prefixes and shows them in the server's order |
| `Modes.PrefixesFollowLastChange` | packages/protocol/src/modes.ts:226-252 | A member shows exactly the advertised prefixes last given, or held and never taken |
| `DccOffers.EncodeQuad` | packages/protocol/src/dcc.ts:326-343 | A dotted address is written as its unsigned 32-bit integer |
| `DccOffers.OtherHostsAreKept` | packages/protocol/src/dcc.ts:326-343 | Any other host is sent as it is |
| `DccOffers.ParseEncodedQuad` | packages/protocol/src/dcc.ts:122-170 | and that integer is read back as the same dotted address |
| `DccOffers.FilenameNotEmpty` | packages/protocol/src/dcc.ts:202-263 | No offer is read with an empty filename |
| `DccOffers.OfferIsRead` | packages/protocol/src/dcc.ts:175-263 | How every offer is read: five spellings of the subcommand, a name with or without quotes, address, port, size and token, each missing or malformed field |
| `DccOffers.AddressesAreRead` | packages/protocol/src/dcc.ts:122-170 | Exactly which addresses are read, and as what |
| `DccOffers.PassiveAcceptReadsBack` | packages/protocol/src/dcc.ts:302-343 | The answer to a passive offer reads back with the same host, port, size and token and the name without quotes, exactly when a name is left and the size is known; without a size the token is lost |
| `LineFraming.LineDecoder.Push` | crates/marmotter-transport/src/lines.rs:43-74 | One push reports the lines completed and keeps the rest, or fails and drops everything |
| `LineFraming.FramingIgnoresChunking` | crates/marmotter-transport/src/lines.rs:43-74 | However a stream is cut into chunks, if no push fails the lines and the rest are those of one pass |
| `LineFraming.SameStreamSameLines` | crates/marmotter-transport/src/lines.rs:43-74 | Any two ways of cutting one stream that both go through end in the same lines and the same rest |
| `LineFraming.SentLinesComeOut` | crates/marmotter-transport/src/lines.rs:43-74 | Lines sent one after another, ended by CR LF or LF, come out as those lines, the empty ones left out |
| `LineFraming.FailsExactlyOnLongTails` | crates/marmotter-transport/src/lines.rs:43-74 | A push fails exactly when the bytes after the last LF exceed the limit at the end of some chunk |
| `LineFraming.HeldIsBounded` | crates/marmotter-transport/src/lines.rs:43-74 | After any pushes, failed or not, at most 16384 bytes are held |
| `Batches.BatchTracker.Handle` | packages/protocol/src/batch.ts:90-148 | One message moves the tracker's map and batch objects as the step function says, without aliasing |
| `Batches.TrackerHoldsTagged` | packages/protocol/src/batch.ts:90-148 | Over every run a batch is open exactly when its last mark opened it, and holds exactly the messages tagged with it since |
| `Batches.CommandsOpenAndClose` | packages/protocol/src/batch.ts:90-148 | `BATCH +r` opens `r` as announced and empty, `BATCH -r` hands over and closes an open `r`, and everything else is an ordinary message for the batch it names |
| `Batches.OpenInWords` | packages/protocol/src/batch.ts:90-148 | Over every run, in both trackers, `r` is open exactly when some `BATCH +r` was followed by no command about `r`, and holds the messages tagged `r` since |
| `Batches.CloseInWords` | packages/protocol/src/batch.ts:90-148 | `BATCH -r` then reports that very batch, and it is open in neither |
| `Batches.TrackersAgree` | packages/client/src/state/reduce.ts:464-541 | The reducer's open batches and the tracker's have the same references, types, parameters and parents, and its count is the number buffered |
| `Batches.ClosesAgree` | packages/client/src/state/reduce.ts:464-541 | At a close both complete the same batch; the counts differ, by one, exactly when the close is tagged with itself |
| `Batches.OldestAndNewest` | packages/client/src/state/reduce.ts:464-485 | The two dates kept for a batch are the least and the greatest of its messages |
| `BatchSimulation.ReducerSimulatesTracker` | packages/client/src/state/reduce.ts:596-618 | The whole reducer, over every run, mutes included, keeps its batches in step with the tracker fed the very same messages |
| `BatchSimulation.BatchesInWords` | packages/client/src/state/reduce.ts:464-541 | Over every run of the whole reducer `r` is open exactly when some `BATCH +r` was followed by no command about `r` |
| `BatchSimulation.CountsInWords` | packages/client/src/state/reduce.ts:464-541 | with the type, parameters and enclosing batch announced, and as many messages counted as carry its tag since |
| `BatchSimulation.ReduceOpensAndCloses` | packages/client/src/state/reduce.ts:488-541 | One message from any state: what `BATCH +r` and `BATCH -r` leave open |
| `MessageBuffer.InsertMessage` | packages/client/src/state/messages.ts:81-128 | Merging, appending, binary search and eviction, as one function |
| `MessageBuffer.ReconcileEcho` | packages/client/src/state/messages.ts:137-162 | The backwards scan replaces the newest awaiting entry in place |
| `MessageBuffer.CopyIsMerged` | packages/client/src/state/messages.ts:40-128 | A copy of a known message stays in its place, field by field, and confirms it; a pending copy of a confirmed one is dropped |
| `MessageBuffer.EchoIsPlaced` | packages/client/src/state/messages.ts:137-162 | An echo replaces the newest entry waiting for this text to this target, and is otherwise inserted |
| `MessageBuffer.StableSortIsStable` | packages/client/src/state/messages.ts:81-128 | The reference is a sorted permutation that keeps the order within each moment |
| `MessageBuffer.BufferRefinesStableSort` | packages/client/src/state/messages.ts:81-128 | With distinct ids, in any order of time, the buffer is the newest part of the stable sort of everything ever inserted |
| `MessageBuffer.RunsKeepIds` | packages/client/src/state/messages.ts:81-162 | Over every run of both operations ids stay unique and the length within the limit |
| `MessageBuffer.RunsKeepSeconds` | packages/client/src/state/messages.ts:81-128 | If equal ids mean the same second, every run of insertions keeps the buffer in order to the second, merges and evictions included |
| `MessageBuffer.DerivedIdsAgreeOnSecond` | packages/client/src/state/messages.ts:29-38 | Equal derived ids fall in the same second, whatever the names and texts hold |
| `MessageBuffer.DerivedIdsAreEqualWhen` | packages/client/src/state/messages.ts:29-38 | and two messages derive the same id exactly when they fall in the same second and read alike |
| `MessageBuffer.DerivedRunsKeepSeconds` | packages/client/src/state/messages.ts:29-128 | so with derived ids the order to the second holds over every run |
| `MessageBuffer.EchoInPlaceKeepsSeconds` | packages/client/src/state/messages.ts:137-162 | Replacing in place keeps that order exactly when the echo fits its neighbours |
| `MessageBuffer.MixedRunsKeepSeconds` | packages/client/src/state/messages.ts:81-162 | Over every run of insertions and echoes the order to the second is kept after each exactly when every echo that replaces an entry fits its neighbours |
| `CaseFolding.FoldText` | packages/protocol/src/casemapping.ts:50-71 | The folding loop maps each unit as the casemapping says |
| `CaseFolding.FoldIdempotent` | packages/protocol/src/casemapping.ts:50-75 | Folding is a normal form |
| `CaseFolding.LettersFold` | packages/protocol/src/casemapping.ts:50-75 | Every casemapping folds the capital letters to the small ones |
| `CaseFolding.MarksFold` | packages/protocol/src/casemapping.ts:50-75 | Brackets and backslash fold to braces and bar in two of the casemappings, the caret in one, and nothing else outside the letters |
| `Members.OperationsKeepKeys` | packages/client/src/state/members.ts:34-85 | Adding, removing and renaming keep every member under its folded nick |
| `Members.RenameCarriesOver` | packages/client/src/state/members.ts:69-85 | A rename moves the person with account, away state and prefixes, and touches nobody else |
| `MuteList.CompleteMaskIsComplete` | packages/client/src/state/ignore.ts:88-106 | A completed mask has both marks and is left alone by completing it again |
| `MuteList.MasksAreCompleted` | packages/client/src/state/ignore.ts:88-106 | What each kind of mask is completed to |
| `MuteList.MasksMatch` | packages/client/src/state/ignore.ts:27-31 | A star matches any run without line ends, a question mark one such unit, everything else itself |
| `Reducer.AmendWhere` | packages/client/src/state/reduce.ts:362-418 | The loop changes exactly the channels the person is in |
| `Reducer.ChangePrefixes` | packages/client/src/state/reduce.ts:887-898 | The loop applies each prefix change to the member it names |
| `Reducer.ListEntries` | packages/client/src/state/reduce.ts:1339-1361 | The loop adds each listed name with its prefixes |
| `Reducer.ChooseNick` | packages/client/src/state/reduce.ts:1687-1704 | The loops over alternatives and underscores end, and choose as specified |
| `Reducer.ApplyFrame` | packages/client/src/state/reduce.ts:647-1236 | No command touches batches or the mute list, and only a refused nick grows the list of tried ones |
| `CommandWords.EveryWord` | packages/client/src/state/reduce.ts:647-1236 | Every word the model knows is the command it names |
| `Delivery.LinesFollowMessages` | packages/client/src/state/reduce.ts:596-1150 | After any message and for every conversation the lines are what they were with the line the message writes there - a join, a part, a kick, a quit, a rename, a mode, a topic or something said - or unchanged when it writes none there or is muted |
| `Delivery.SpokenLineArrives` | packages/client/src/state/reduce.ts:956-1150 | A PRIVMSG or NOTICE that is neither muted, nor a CTCP request, nor the server's goes into the buffer of its channel or person and no other: inserted, or reconciled when it is our own |
| `Delivery.EntryInWords` | packages/client/src/state/reduce.ts:429-453 | The entry for a message, field by field: id, time, account, reply and all |
| `Delivery.SuppressedInWords` | packages/client/src/state/reduce.ts:549-594 | A message is muted exactly when some rule in force covers its kind and its mask matches the sender, who is not us |
| `Records.RecordsFollowMessages` | packages/client/src/state/reduce.ts:596-1388 | After any message, muted or not, what is known of each person in each channel is what the message makes of it: prefixes, account, away state and all |
| `Records.NamesAreRead` | packages/protocol/src/numerics.ts:681-690 | A NAMES reply is read as its words, each with its advertised prefixes before the nick |
| `ChannelFacts.FactsFollowMessages` | packages/client/src/state/reduce.ts:488-1388 | and so is everything else known of each conversation: name, whether we are in it, topic, modes, waiting changes, history |
| `ChannelFacts.AnchorInWords` | packages/client/src/state/reduce.ts:502-512 | A page of history notes the time of the first stamped line of the conversation it is about |
| `ChannelFacts.DatesInWords` | packages/protocol/src/numerics.ts:609-615 | A date in seconds is read in milliseconds, and nothing else is read as one |
| `Outcomes.OutcomesFollowMessages` | packages/client/src/state/reduce.ts:596-1704 | After any message our nick, phase, account, away state, modes, notices and known versions, the lines sent and the effects raised are what the message brings, and depend on nothing else of the state |
| `Outcomes.UserModesFollowLastSign` | packages/protocol/src/modes.ts:205-222 | Each of our user modes is as its last sign says, or as it was |
| `ReducerInvariants.ReduceKeepsSound` | packages/client/src/state/reduce.ts:596-618 | Every message keeps channels, queries and members under their folded names, buffers bounded with unique ids, and changes waiting only while NAMES streams |
| `ReducerInvariants.RunsStaySound` | packages/client/src/state/reduce.ts:596-618 | and so does every run from a fresh state |
| `ReducerInvariants.ChangingRunsStaySound` | packages/client/src/state/reduce.ts:1267-1268 | Where the server may change its casemapping during the run, the state stays sound if and only if each change leaves the fold of every name known by then as it was: the maps are never re-keyed |
| `Membership.MembershipFollowsMessages` | packages/client/src/state/reduce.ts:596-921 | After any message, muted or not, a person is in a channel exactly when they were and nothing took them out, or something put them in |
| `NamesBurst.ReplayAbsorbs` | packages/client/src/state/reduce.ts:1363-1388 | A mode applied and replayed counts once |
| `NamesBurst.ReplayIsConfluent` | packages/client/src/state/reduce.ts:1339-1388 | For any interleaving of names and modes the replay gives all names first, then all modes in order |
| `NamesBurst.BurstIsConfluent` | packages/client/src/state/reduce.ts:890-921 | The reducer's member list after any NAMES burst with modes in it is that one, whatever else unrelated arrives |
| `NamesBurst.BurstAfterAnyHistory` | packages/client/src/state/reduce.ts:1339-1388 | and from every reachable state in which the channel is not streaming names |
| `NamesBurst.ReplayBringsBack` | packages/client/src/state/reduce.ts:1363-1388 | After the replay the list holds exactly those there before it and those a waiting change names: why a PART in the burst is undone |
| `EventMuting.ApplyAlike` | packages/client/src/state/reduce.ts:647-1236 | What a command does to the world does not depend on buffers, notices, the mute list or anchors |
| `EventMuting.MutingEventsKeepsTheWorld` | packages/client/src/state/reduce.ts:549-645 | Under any two mute lists that cover events only, every run leaves the same world and every step sends and raises the same |
| `EventMuting.MutedEventAddsNoLine` | packages/client/src/state/reduce.ts:626-645 | A muted event leaves every buffer and the notices as they were |
| `NickFallback.UnderscoredIsShortest` | packages/client/src/state/reduce.ts:1697-1701 | The loop appends the fewest underscores that make the nick new |
| `NickFallback.FreshExactlyWithRoom` | packages/client/src/state/reduce.ts:1687-1704 | In any state the next nick is new if and only if the limit does not cut it, or the current nick reaches the limit and is new cut down to it |
| `NickFallback.NextNickIsChosen` | packages/client/src/state/reduce.ts:1687-1704 | The first alternative not refused yet, or the current nick with the fewest underscores that make it new, cut to the limit |
| `NickFallback.FullLengthNickIsRepeated` | packages/client/src/state/reduce.ts:1702-1703 | A nick of exactly the limit's length is sent again after its refusal |
| `NickFallback.TriedNicksStayDistinct` | packages/client/src/state/reduce.ts:1617-1643 | Over every registration run no nick is tried twice, up to case, if and only if that condition holds at every refusal |
| `NickFallback.RegistrationTries` | packages/client/src/state/reduce.ts:1617-1643 | A registration has tried the nick it began with and each one it answered a refusal with, and no other |
| `Keepalive.KeepaliveTimer.AlarmFires` | packages/client/src/keepalive.ts:104-144 | The two timer callbacks, in full |
| `Keepalive.KeepaliveTimer.Probe` | packages/client/src/keepalive.ts:161-167 | Asking at once, unless already waiting |
| `Keepalive.RunsAreSound` | packages/client/src/keepalive.ts:92-190 | Over every run there is one live timer exactly while running, `waiting` says which, and each PING and each death is justified by what precedes it |
| `Keepalive.CallsSay` | packages/client/src/keepalive.ts:146-190 | What each call leaves a sound watch in: activity starts the silence over, waiting or not |
| `Keepalive.AlarmsSay` | packages/client/src/keepalive.ts:104-144 | A silence that runs out is asked about, and a deadline that runs out is a death |
| `Keepalive.ActivityKeepsAlive` | packages/client/src/keepalive.ts:170-179 | From a line received, no run shorter than the idle and answer times together ends in death while PINGs can be sent and nobody stops or probes it |
| `Keepalive.ProbeShortensTheWait` | packages/client/src/keepalive.ts:161-167 | Why nobody may probe it: asked right after the line, the answer time alone is enough for a death |
| `Keepalive.DeadlineFollowsSilence` | packages/client/src/keepalive.ts:170-179 | A death by deadline comes at least the answer time after the last line received, whatever else is called |
| `Keepalive.DeathNeedsAStart` | packages/client/src/keepalive.ts:104-113 | Death is announced at most once per start and never after a stop |
| `Keepalive.DeathIsTimely` | packages/client/src/keepalive.ts:92-190 | With punctual timers the clock cannot pass the idle and answer times after the last sign of life without a death |
| `Backoff.CappedNeverShrinks` | packages/client/src/transport/reconnecting.ts:105-115 | The capped wait never shrinks as attempts grow |
| `Backoff.DelayWithinSpread` | packages/client/src/transport/reconnecting.ts:105-115 | The jittered wait stays within half the spread of it, up to rounding |
| `Backoff.CappedStarts` | packages/client/src/transport/reconnecting.ts:105-115 | The first wait is the initial one, or the maximum if that is less |
| `Backoff.CappedGrows` | packages/client/src/transport/reconnecting.ts:105-115 | and each next one the factor times the last, up to the maximum |
| `Backoff.DelayCoversTheSpread` | packages/client/src/transport/reconnecting.ts:105-115 | The jittered wait reaches both ends of its spread and moves evenly between them |
| `Reconnection.ReconnectingTransport.HandleClose` | packages/client/src/transport/reconnecting.ts:270-287 | What a close does to every field, the reset after a lasting connection included |
| `Reconnection.ReconnectingTransport.AttemptConnect` | packages/client/src/transport/reconnecting.ts:289-312 | What an attempt does up to the point where it awaits the handshake |
| `Reconnection.StepKeepsSound` | packages/client/src/transport/reconnecting.ts:197-408 | Every step the contract allows keeps the invariant: timers, transports, the round and every logged event fit together |
| `Reconnection.NothingAfterAClose` | packages/client/src/transport/reconnecting.ts:240-246 | After a close is announced no transport is created and no second close follows until the next connect |
| `Reconnection.ReconnectingBacksOff` | packages/client/src/transport/reconnecting.ts:248-268 | Over every run from the start, whenever a retry is waited for, the wait announced fits the number of that attempt |
| `Reconnection.FailureSays` | packages/client/src/transport/reconnecting.ts:248-287 | What follows a failure: a stop when it is permanent or the attempts are used up, otherwise the next endpoint after the wait for the attempt |
| `Reconnection.CloseSays` | packages/client/src/transport/reconnecting.ts:270-287 | The same after a close, which starts a fresh round when the connection lasted |
| `Reconnection.ConnectSays` | packages/client/src/transport/reconnecting.ts:350-356 | `connect()` starts a fresh round at the first endpoint, or stops when there is none |
| `Reconnection.TimerSays` | packages/client/src/transport/reconnecting.ts:259-268 | A retry that comes due goes on with the attempt and the endpoint it was for |
| `Reconnection.RetryNowSays` | packages/client/src/transport/reconnecting.ts:369-378 | so does one brought forward, and nothing else happens when none is waited for |
| `Reconnection.DisconnectSays` | packages/client/src/transport/reconnecting.ts:393-406 | `disconnect()` stops for good and says so once |
| `Reconnection.DropSays` | packages/client/src/transport/reconnecting.ts:380-391 | A connection given up as dead is treated as closed, and only while there is one |
| `Reconnection.ResolvedSays` | packages/client/src/transport/reconnecting.ts:289-320 | A handshake that succeeds is a connection to its endpoint from now on |
| `Reconnection.RejectedSays` | packages/client/src/transport/reconnecting.ts:321-348 | and one that fails is a failure |
| `Reconnection.ClosedSays` | packages/client/src/transport/reconnecting.ts:270-287 | A close counts for the transport listened to and for no other |
| `Reconnection.ReconnectingIsSafe` | packages/client/src/transport/reconnecting.ts:197-408 | Over every run from the start every promise is kept: waiting exactly when one retry timer is pending and no other exists, the endpoint is the attempt modulo their number until it stops, and between two closes, or a close and a new transport, there is a connect |
| `Reconnection.WithoutRetriesAlwaysSafe` | packages/client/src/transport/reconnecting.ts:197-408 | A wrapper that never retries keeps the same promises though its caller connects at any time |
| `Reconnection.BreachLeavesStrayTimer` | packages/client/src/transport/reconnecting.ts:350-356 | Where a connect breaks the contract of a wrapper that retries, at most two steps lead to a retry timer nothing is waiting for |
| `Reconnection.FailuresReachEveryEndpoint` | packages/client/src/transport/reconnecting.ts:248-268 | In any stretch of one round with as many attempts as endpoints, each endpoint is tried |
| `Reconnection.ConnectContractIsExact` | packages/client/src/transport/reconnecting.ts:350-356 | A connect leaves every promise kept over all that can follow if and only if the contract allows it there or the wrapper never retries |
| `Reconnection.GivingUpSkipsTheEndpoint` | packages/client/src/transport/reconnecting.ts:248-257 | On giving up the attempt advances and the endpoint does not, so the two agree only until then |
| `Transfer.Disk.StreamToFile` | crates/marmotter-transport/src/dcc.rs:482-588 | One attempt: truncation to the agreed position, the read loop with its cap, acknowledgements and reports |
| `Transfer.Disk.Settle` | crates/marmotter-transport/src/dcc.rs:261-290 | A finished part-file is renamed, or kept and reported when the rename fails; a cancelled one is removed, a failed one kept |
| `Transfer.OnlyACancelLoses` | crates/marmotter-transport/src/dcc.rs:261-290 | Nothing received is lost but by a cancel, and a part-file is left behind exactly by a failure and a rename that fails |
| `Transfer.ReceiveWritesSource` | crates/marmotter-transport/src/dcc.rs:482-588 | The loop writes the source in order, never past the cap, whatever cuts it short |
| `Transfer.AttemptKeepsPrefix` | crates/marmotter-transport/src/dcc.rs:482-588 | An attempt leaves a prefix of the source; one that succeeds leaves exactly the agreed size, exactly if it did not resume past it |
| `Transfer.SucceedsExactly` | crates/marmotter-transport/src/dcc.rs:482-588 | An attempt succeeds exactly when the part-file opens, the reads before the first interruption reach the size agreed - or the ceiling or the peer's close when none was - and the flush succeeds; and what the file then holds |
| `Transfer.FailsExactly` | crates/marmotter-transport/src/dcc.rs:482-588 | and fails with the interruption's reason where one stopped it short, for the network otherwise |
| `Transfer.ReportsKeepUp` | crates/marmotter-transport/src/dcc.rs:533-588 | Progress is told from where the attempt starts in steps of a megabyte, never a whole step behind, and at the end of a success |
| `Transfer.ReceiveAcks` | crates/marmotter-transport/src/dcc.rs:482-588 | The acknowledgements sent are one per read, none for a turbo sender |
| `Transfer.AcksAreRunningTotals` | crates/marmotter-transport/src/dcc.rs:482-588 | There are exactly as many as reads taken, and each is the capped running total modulo 2^32 |
| `Transfer.AttemptsKeepPrefix` | crates/marmotter-transport/src/dcc.rs:261-588 | Over any number of failed and resumed attempts the part-file is a prefix of the source, and so is a finished file |
| `Transfer.ResumedTransferIsWhole` | crates/marmotter-transport/src/dcc.rs:261-588 | and the attempt that meets the condition for success finishes with exactly the agreed bytes, exactly if it did not resume past them; one that does not leaves the finished file alone |

## Left out

What the model takes from outside, or says in simpler terms:

- CtcpCodec.DecodeInvertsEncode: a command is put in upper case on ASCII letters only, here and in the line parser; `toUpperCase` also maps letters beyond them.
- Modes.ParseChannelModes: a mode letter or prefix is one code unit; a letter outside the BMP, which the client reads as one character, is two here.
- LineFraming.LineDecoder.Push: lines are given as bytes; how invalid UTF-8 in them is replaced is not modelled.
- ReducerInvariants.RunsStaySound: what the server advertises is fixed during the run, as in the other theorems about runs; `ReducerInvariants.ChangingRunsStaySound` says what a change of casemapping does to the invariant. How an ISUPPORT line is parsed is not modelled.
- Transfer.Disk.Settle: the choice of another free name when the planned one has been taken is left out; the finished file has one place.
- Backoff.CappedNeverShrinks: this and the rest of the delay are computed in real numbers, where the client uses floating point, whose power can round or reach infinity before it is capped.
- Shifts and masks are written as arithmetic on integers, with the 32-bit wrap-around explicit.
- The order of a member map and of the channel map is not modelled; nothing proved depends on it.
- Reading a date tag, the wording of notices, automatic CTCP answers, resume acceptances and the XDCC heuristics are functions the reducer is given; the model does not look inside them.
- The clock is read once per message; the client reads it at each use.
- The cache of compiled mute masks is left out; a mask is matched as a glob.
- Sockets, TLS, cancellation channels and file buffering: only the order in which reads, errors and cancels arrive is modelled, and what has been written counts as on disk.
- Listeners that call back into the connection wrapper while it is announcing something, and a transport outside the stated contract: `packages/client/src/transport/websocket.ts:81-130` both emits a close and rejects.
- What the connection wrapper asks of a transport besides connecting: `send` and `disconnect`.
- The size of one read and the clock in the receive loop.

Commands and features that are not modelled:

- CAP, INVITE, the standard replies FAIL, WARN and NOTE, and all numerics not named in `Reducer.VerbFor` do nothing in the model. In the client they add notices and raise effects, or fill parts of the state that are not modelled: WHOIS, the channel directory, the notify list, invitations, the MOTD, capabilities.
- The contents of ban, exception, invite and quiet lists, and a channel's creation time.
- The sending side of the state: marking a message pending, history requests, and what a session does with effects.
- `LabelTracker`, `LabelGenerator` and `TargetMap`: small maps with single-branch operations.
- `parseDccAccept`, `buildDccResume` and the checks on which hosts may be dialled.
- `sanitize_filename`, `plan_target` and `unique_target_path`: file naming.
- SCRAM and the choice of a SASL mechanism.
- `measureMessage` and `fitsMessageLimit`, which only compare a length.
- The plaintext log, preferences, notifications, the session and the user interface.
