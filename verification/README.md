# Muse Codex: a verified model of the translating gateway

Muse Codex lets the stock Muse client talk to model providers it was not built for. A gateway
translates requests and streams, a launcher rewrites the command line, and a relay adapts the
session protocol. This project models the logic that has to be right for every input, in Dafny,
and proves what its users rely on.

`dafny verify dfyconfig.toml` verifies everything.

## The parts

**The stream pipeline.** Z.ai speaks chat-completions; Muse expects Responses events.

- `Synthesizer` states what the Z.ai synthesizer does as functions on its state;
  `SynthesizerStream` is the object with fields updated in place, each method proved to do what
  its function says. `Upstream` and `EventLines` say what the Z.ai wire says, place by place, whoever
  reads it, and the run theorems are stated in these terms.
- `Client` is a strict reader of the Responses protocol that knows nothing of the synthesizer.
  `Conformance` proves that it accepts every run, `Conservation` that no text is lost, `ToolCalls`
  that tool calls are put together from their own fragments, `Endings` how a run ends and what its
  response is called, `Identifiers` what its items are called, `SynthesizerChunks` that the network's
  cutting does not show.
- `Framing`, `Inspect`, `Reassembly` and `Validator` are the gateway's stream validator;
  `Reassembly` holds for any way of judging a frame, and `Validator.Stream` is the object.
  `ValidatorProofs` and `FailureMeaning` say what a client can rely on.
- `EventReading` is a client's reader of events by member names; `EventText` and `SseText` connect
  the two stages through the bytes between them, `Pipeline` states the result for whole runs, and
  `LongAnswer` is a run whose last frame outgrows the gateway's limit.

**The session-protocol relay.** `ProviderPaths` is rewriting at places a schema names, for any
schema; `MspProviders` the protocol's schema and the adapters as written; `MspPaths` what they do at
each provider field, by its path; `MspRelay` the two frame adapters; `MspCorrelator` the shared
table updated in place; `MspInterleaving` the two threads, the host and the pipes as steps in any
order; `NdjsonReader` the bounded line reader.

**Requests and catalogs.** `ToolNames`, `ZaiRequest` and `ChatHistory` translate tools and history
for Z.ai, `ChatMessages` plain messages and `ZaiTranslation` the whole request; `ZaiWire` says what
is written of each tool and item, member by member. `ResponsesLite` groups tools; `NamespaceCalls`
undoes the flattening of tool names; `Catalog` and `StableSort` are the published model catalog,
`CatalogMeaning` what it says of each upstream entry, and `CatalogContract` the launcher's check of
it.

**The launcher's arguments.** `ArgUnits` is the shared reading of a command line as units;
`LauncherArgs` and `LauncherRewrite` are the scanners, and `LauncherMeaning` says what they make of a
line, unit by unit.

## What the model takes as given

A byte string is a sequence of characters that each stand for one byte. JSON printing and parsing,
UTF-8 checking, Unicode trimming and "contains a control or white-space character" are a `Codec`
of functions with stated laws (`Json.Lawful`): parsing inverts printing and printing escapes line
breaks (RFC 8259, section 7), ASCII bytes never make or break UTF-8, visible ASCII has no blank.
Where it matters, a carriage return after a JSON text or at the end of text to be trimmed is white
space (`Json.SkipsReturns`; RFC 8259, section 2), and printed JSON is as long as the strings it
spells out and has no space around it (`Json.Spells`). `JsonText.SampleIsLawful` shows that all
these laws can be kept together. Frames follow the event-stream grammar of
sections 9.2.5 and 9.2.6 of the WHATWG HTML Standard; envelopes follow sections 4 and 5 of the
JSON-RPC 2.0 Specification. Size limits are parameters, so every result holds for each value.

## What turned out to need a condition

- The architecture notes say that a good synthesized stream passes the validator. It does exactly
  when each of its frames is within the validator's limit; the final `completed` frame repeats the
  whole output and can exceed it though every upstream piece fits (`Pipeline.FinishedRunUnchanged`,
  `Pipeline.OversizedRunEnds`, `LongAnswer.FinalFrameTooLong`).
- A synthesized error with an empty message is not rewritten but rejected by the validator, so a
  lone one is reported under sequence number one, not zero (`Pipeline.FailedRunEndsOnce`).
- The argument deltas of a function call tell the whole call exactly when no argument text came
  before its id and name were known, and some text came (`ToolCalls.DeltasAreComplete`, with an
  input where they do not).
- The relay lets the host send errors that answer no tracked request. Its table stays exact at
  every moment of a run exactly when none of them carries an id that is in the table when it is
  relayed (`MspInterleaving.CorrelationHolds`; `StrayErrorForgetsRequest` is a run in which one
  does). For a host that only ever answers, it always stays exact.
- A tool call made under a name the model invented returns to the model under the same wire name
  exactly when that name fits the wire grammar (`ChatHistory.CallsReplay`): one with a dot in it
  comes back with two underscores (`ChatHistory.InventedNameChanges`).

## Model

| member | source | states |
|---|---|---|
| `Pipeline.FinishedRunUnchanged` | docs/ARCHITECTURE.md:219-224 | for every upstream input and every cut between the stages, a run that ends in `response.completed` or `response.incomplete` reaches the gateway's client byte for byte, if and only if each synthesized frame is within the validator's limit |
| `Pipeline.FailedRunEndsOnce` | crates/muse-codex-gateway/src/sse.rs:149-181 | a run that ends in `error` keeps all its earlier frames, none of which ends the stream, and then gets exactly one `response.failed` for the same response id, with the error's own sequence number (one instead of zero for a lone error without a message) |
| `Pipeline.OversizedRunEnds` | crates/muse-codex-gateway/src/sse.rs:142-145 | the first frame beyond the limit, and only that, ends the run, in one `response.failed` that takes its sequence number (one instead of zero when it is the first of all) and names the response if it had been opened |
| `LongAnswer.FinalFrameTooLong` | crates/codex-transport/src/zai/stream.rs:619-643 | whatever the gateway's limit, if it admits two fixed upstream pieces at all, some run over pieces that all fit it finishes with a frame beyond it |
| `Pipeline.WiresAreFrames` | crates/codex-transport/src/zai/stream.rs:117-124 | the gateway's scanner cuts the concatenation of synthesized frames back into exactly those frames, with nothing left over |
| `EventText.WireReads` | crates/muse-codex-gateway/src/sse.rs:267-341 | every presentable synthesized event is read by the gateway as a kept event with the kind, sequence number and JSON it was written with |
| `EventText.EventIsWellShaped` | crates/muse-codex-gateway/src/sse.rs:343-405 | every event the synthesizer can write passes each shape rule of its kind, whatever its identifiers and texts, given a good response id and a non-empty error message |
| `EventText.BlankErrorRejected` | crates/muse-codex-gateway/src/sse.rs:396-403 | an `error` event whose message is empty is rejected, not rewritten |
| `EventReading.EventRoundTrip` | crates/codex-transport/src/zai/stream.rs:117-124 | a client that reads an event by the names of its members, every fixed member included, gets exactly the event that was written |
| `EventText.WireJudged` | crates/muse-codex-gateway/src/sse.rs:147-197 | what the validator does with each synthesized event: pass it, end with it, replace it, or fail on it, and what it then knows of the response |
| `Framing.CompleteFrameLen` | crates/muse-codex-gateway/src/sse.rs:580-601 | the index loop finds the length through the first blank line, waiting on a trailing carriage return |
| `Framing.CompleteFrameLenEager` | crates/codex-transport/src/zai/stream.rs:728-750 | the Z.ai index loop, which takes a trailing carriage return as a line end |
| `Framing.FrameLenIsBlock` | crates/muse-codex-gateway/src/sse.rs:580-601 | the scanner finds `n` if and only if the first `n` bytes are non-blank lines and then one blank line, a bare carriage return counting as a line end once another byte than a line feed follows |
| `Framing.FramesCoverStream` | crates/muse-codex-gateway/src/sse.rs:137-147 | cutting a stream into frames loses and invents no byte |
| `Framing.FrameLenStable` | crates/muse-codex-gateway/src/sse.rs:580-601 | a frame once found stays found whatever bytes follow |
| `Framing.FrameLenLate` | crates/muse-codex-gateway/src/sse.rs:580-601 | a frame found only after more input covers everything that was buffered before |
| `Framing.EagerFrameLenUnstable` | crates/codex-transport/src/zai/stream.rs:738-742 | the Z.ai scanner is not stable: a blank CR LF cut in two ends the frame a byte early |
| `Inspect.CollectFields` | crates/muse-codex-gateway/src/sse.rs:273-288 | the line loop keeps the last `event` value and all `data` values in order, and skips comments and unknown fields |
| `Inspect.RejectedExactly` | crates/muse-codex-gateway/src/sse.rs:267-405 | a frame is rejected for a rule if and only if it breaks that rule and none that counts before it; each rule is stated by itself, and the order is UTF-8, data, sentinel, JSON, type, name, known kinds, sequence number, shape |
| `Inspect.KeptExactly` | crates/muse-codex-gateway/src/sse.rs:267-341 | a frame is kept if and only if it breaks no rule, has a payload and is not metadata; what is kept is its kind, number and payload |
| `Inspect.FieldsRead` | crates/muse-codex-gateway/src/sse.rs:273-288 | reading line by line gives the last value among all `event` lines and the values of all `data` lines in order; blank lines and comments are fields without a name |
| `Reassembly.RunMatchesDeclaration` | crates/muse-codex-gateway/src/sse.rs:56-101 | for every body and every way of cutting it, the client receives the complete frames up to the first that ends the stream, without the dropped ones, and then one closing frame |
| `Reassembly.ChunkInvariance` | crates/muse-codex-gateway/src/sse.rs:82-91 | two chunkings of the same bytes with the same end give the same output, also when the size limit fires |
| `Reassembly.FeedTwice` | crates/muse-codex-gateway/src/sse.rs:82-88 | feeding two chunks one after the other is feeding their concatenation, and leaves no complete frame and no oversized remainder in the buffer |
| `Validator.Stream.constructor` | crates/muse-codex-gateway/src/sse.rs:116-135 | a fresh stream has seen and sent nothing |
| `Validator.Stream.ObserveEvent` | crates/muse-codex-gateway/src/sse.rs:201-234 | identity, model and sequence tracking as the fold step of the specification, leaving buffer and queue alone |
| `Validator.Stream.FailWith` | crates/muse-codex-gateway/src/sse.rs:236-253 | queues one protocol failure and clears the buffer, or does nothing once finished |
| `Validator.Stream.DrainCompleteFrames` | crates/muse-codex-gateway/src/sse.rs:137-199 | the drain loop reaches the specification's drained state and stops with no complete frame buffered or with the stream finished |
| `Validator.Stream.Receive` | crates/muse-codex-gateway/src/sse.rs:82-88 | one body chunk, with the limit on an incomplete frame |
| `Validator.Stream.Conclude` | crates/muse-codex-gateway/src/sse.rs:89-104 | end of body, body error and idle timeout each finish the stream with their own failure |
| `Validator.Stream.Serve` | crates/muse-codex-gateway/src/sse.rs:56-101 | the unfold loop hands out exactly the frames of the specified run |
| `ValidatorProofs.ExactlyOneTerminal` | crates/muse-codex-gateway/src/sse.rs:137-199 | every stream served ends with a frame a reader takes as terminal, holds no other, and before it holds only complete upstream frames, verbatim |
| `FailureMeaning.ServedExactly` | crates/muse-codex-gateway/src/sse.rs:137-199 | in every run the client gets, verbatim and in order, exactly the protocol events among the frames before the first that cannot pass, and one frame more, itself verbatim when it ends the response and is no failure |
| `FailureMeaning.KnownNames` | crates/muse-codex-gateway/src/sse.rs:201-234 | the response id and model known after any frames are the last safe ones the frames have given, read off their places |
| `FailureMeaning.OwnFailureTells` | crates/muse-codex-gateway/src/sse.rs:236-253 | the failure that ends a run the gateway stops of its own accord names the last id and model given and the reason that holds: the end of the body, the limit, or the first rule the frame breaks |
| `FailureMeaning.ReplacedFailureTells` | crates/muse-codex-gateway/src/sse.rs:149-181 | the failure that replaces a provider's own names the last id and model given up to and with it, and tells a known code, its wording and at most a safe parameter, or that the response was cancelled |
| `ValidatorProofs.FailureSequenceIsFresh` | crates/muse-codex-gateway/src/sse.rs:236-253 | in every run the gateway stops of its own accord (end of body, oversized or rejected frame), the last frame reads back as `response.failed` with a number above that of every frame that passed, dropped metadata included, until the 64-bit counter is exhausted |
| `ValidatorProofs.ReplacedFailureIsNumbered` | crates/muse-codex-gateway/src/sse.rs:149-181 | in every run that ends in a provider's own failure, the frame that replaces it reads back as `response.failed` with a number no lower than that of any frame up to and including it |
| `ValidatorProofs.FailureFrameReads` | crates/muse-codex-gateway/src/sse.rs:629-665 | a failure frame, read back, is a well-shaped `response.failed` with the given number |
| `ValidatorProofs.KnownBoundsSequences` | crates/muse-codex-gateway/src/sse.rs:201-204 | what is known after any frames bounds the sequence number of each of them |
| `SynthesizerStream.Translator.constructor` | crates/codex-transport/src/zai/stream.rs:94-115 | a fresh translator is the initial state |
| `SynthesizerStream.CollectData` | crates/codex-transport/src/zai/stream.rs:181-198 | the `lines()` loop: lines end at line feeds only, and a carriage return is taken off only before one |
| `EventLines.LinesRead` | crates/codex-transport/src/zai/stream.rs:178-198 | reading a frame gathers the values of its `data` lines and nothing else, with or without byte-order marks, blanks after the colon, comments, other fields and carriage returns |
| `Upstream.ChunkRoundTrip` | crates/codex-transport/src/zai/stream.rs:219-268 | whatever chunk a provider writes under the real member names, reading it gives back its error, names, usage, reasoning, content, every tool fragment and finish reason |
| `SynthesizerStream.Translator.Receive` | crates/codex-transport/src/zai/stream.rs:145-164 | the push loop: buffer bound, then frame by frame until none is complete or the run has ended |
| `SynthesizerStream.Translator.Serve` | crates/codex-transport/src/zai/stream.rs:25-51 | the unfold loop hands out exactly the events of the specified run |
| `Conformance.RunConforms` | crates/codex-transport/src/zai/stream.rs:117-643 | whatever the upstream sends and however it is cut, a strict client of the protocol accepts every event, and the stream has ended |
| `Conformance.RunShape` | crates/codex-transport/src/zai/stream.rs:117-176 | events are numbered 0, 1, 2, ...; exactly one ends the run, and it is last; a run is a lone error or opens with `created` and `in_progress` |
| `Endings.RunEnding` | crates/codex-transport/src/zai/stream.rs:166-268 | for every run, however cut, only the last frame taken can end it: it ends `incomplete` exactly when that frame's `finish_reason` is `length`, `completed` exactly when it has another or is `[DONE]` after a chunk, and otherwise in an error, in the provider's words when the provider reports one |
| `Endings.ResponseNamed` | crates/codex-transport/src/zai/stream.rs:270-303 | every finished response has the id and model of the first chunk taken, the usage of the last that gives one, and the status of its ending |
| `Identifiers.ItemsNamed` | crates/codex-transport/src/zai/stream.rs:305-307 | in every run each announced item is named by its kind, the response's stem and its index |
| `Identifiers.SanitizedForm` | crates/codex-transport/src/zai/stream.rs:714-726 | a sanitized identifier has one to 64 letters, digits, underscores and hyphens; a text of those is kept, cut at 64, or replaced when empty |
| `Identifiers.OthersIgnored` | crates/codex-transport/src/zai/stream.rs:714-726 | any other character is as if it were not there |
| `Client.CompletedStream` | crates/codex-transport/src/zai/stream.rs:358-387 | in a stream the strict client accepts to completion, each index is announced as often as it is done, at most once, and `output` is the list of done items in order |
| `Client.DoneWasAdded` | crates/codex-transport/src/zai/stream.rs:435-466 | a done item was announced earlier under the same index and id |
| `Client.AcceptedEvents` | crates/codex-transport/src/zai/stream.rs:117-124 | the i-th accepted event is numbered i, and only the last can end the stream |
| `Client.Opening` | crates/codex-transport/src/zai/stream.rs:270-291 | how an accepted stream must begin |
| `Conservation.TextConservation` | crates/codex-transport/src/zai/stream.rs:315-466 | at every completion, truncated or not, the reasoning items of `output` concatenate to all `reasoning_content` and the message items to all `content` of the upstream frames taken, which are a prefix of the body |
| `ToolCalls.ToolCallReassembly` | crates/codex-transport/src/zai/stream.rs:468-617 | at every completion the calls in `output` are exactly the calls whose id and name became known, by index, each with its own argument text in arrival order (`{}` if none, the unwrapped input if free-form); each is reported by a `done` event of its own, in this order, a function call after argument deltas only, which add up to the text received from announcement on, a free-form call after exactly one delta, equal to its input |
| `ToolCalls.DeltasAreComplete` | crates/codex-transport/src/zai/stream.rs:534-552 | a function call's deltas add up to its final arguments if and only if no argument text came before the call was known and some text came |
| `ToolCalls.EarlyThenStreamed` | crates/codex-transport/src/zai/stream.rs:541-544 | a call's argument text is what came early followed by what was streamed |
| `ToolCalls.EarlyArgumentsExample` | crates/codex-transport/src/zai/stream.rs:541-544 | a two-fragment input whose argument text is delivered but never streamed |
| `SynthesizerChunks.ChunkInvariance` | crates/codex-transport/src/zai/stream.rs:145-164 | for every upstream body, whatever its line ends, all cuttings that stay within the buffer bound lead to the same events |
| `SynthesizerChunks.EagerFramesCompared` | crates/codex-transport/src/zai/stream.rs:728-750 | how the Z.ai frames of a prefix differ from the gateway's: by at most one early blank at the cut |
| `SynthesizerChunks.EarlyBlankHandledAlike` | crates/codex-transport/src/zai/stream.rs:178-217 | a frame cut inside its blank CR LF is handled as the whole one, also when a bare carriage return before it leaves one more in the data, and the leftover line feed changes nothing |
| `MspPaths.ResultByPlace` | crates/muse-codex/src/msp.rs:390-441 | for every method, a host result is accepted if and only if `session.providerId` and `history.snapshot.state.effectiveModel.providerId`, each `sessions[i].providerId`, `providerId` and each `models[i].providerId`, or each event's field, as the method has them, hold null, the internal or the public name; the client then sees null or the public name at each and no other change, and none for any other method |
| `MspPaths.NotificationByPlace` | crates/muse-codex/src/msp.rs:443-458 | the same for the provider field of a notification |
| `MspProviders.AdaptedForClient` | crates/muse-codex/src/msp.rs:390-502 | on success the client sees null, absent or the public name at every schema provider place, nothing else has changed, and adapting again changes nothing |
| `MspProviders.AdaptInverts` | crates/muse-codex/src/msp.rs:488-502 | the server direction undoes the client direction at every schema place |
| `MspProviders.HistoryIsShape` | crates/muse-codex/src/msp.rs:467-486 | the nested history adapter rewrites exactly the effective model's provider in a snapshot's state |
| `MspProviders.NotificationIsShape` | crates/muse-codex/src/msp.rs:443-458 | each notification is rewritten exactly at its schema place |
| `MspProviders.EventIsShape` | crates/muse-codex/src/msp.rs:426-437 | an event of a page is rewritten as the notification it holds |
| `MspProviders.AdaptElements` | crates/muse-codex/src/msp.rs:402-441 | the array loop adapts every element or fails, and tells whether any changed |
| `MspProviders.AdaptServerResult` | crates/muse-codex/src/msp.rs:390-441 | each method's result is rewritten exactly at its schema places, and `changed` tells whether it is another value |
| `ProviderPaths.ApplyTwice` | crates/muse-codex/src/msp.rs:488-502 | two rewritings at the same places are one, for every schema shape and value |
| `ProviderPaths.OnlyThePlaces` | crates/muse-codex/src/msp.rs:1-6 | rewriting at schema places changes nothing elsewhere |
| `MspRelay.CommandForwarded` | crates/muse-codex/src/msp.rs:211-279 | a command without a foreign provider is forwarded and, if keyed, entered under its own method, unless its id is in flight or 4096 are; it is forwarded verbatim unless it names the public provider, and otherwise with the internal name there and nothing else changed |
| `MspRelay.ForeignRefused` | crates/muse-codex/src/msp.rs:229-255 | a command with a foreign provider is never forwarded: it is refused under its own id, or under null when the id is of a forbidden type, or dropped when it has none |
| `MspRelay.ClientEntersTicket` | crates/muse-codex/src/msp.rs:257-273 | a keyed request enters the table exactly when it is forwarded, under its own id and method, only if the id is free and the table has room, and the forwarded bytes still carry both |
| `MspRelay.RefusalNamesRequest` | crates/muse-codex/src/msp.rs:282-337 | every answer of the relay itself is a JSON-RPC error for the id it refuses, under the code, kind and details of its reason |
| `MspRelay.RefusedUnderOwnId` | crates/muse-codex/src/msp.rs:233-250 | a refused request is answered under its own id, or under null when the id is of a forbidden type; a message without an id is never answered |
| `MspRelay.NotificationShown` | crates/muse-codex/src/msp.rs:347-353 | a notification is relayed if and only if its provider field can be shown; the client gets one with the provider shown and nothing else changed |
| `MspRelay.ResultShown` | crates/muse-codex/src/msp.rs:354-366 | the result of a tracked request is relayed if and only if the provider fields of its method, place by place, can be shown; the client gets one with them shown and nothing else changed, and the request leaves the table |
| `MspRelay.OthersRelayed` | crates/muse-codex/src/msp.rs:339-388 | which other host frames are relayed, all verbatim, and which fault ends the relay on the rest |
| `MspRelay.KeysTellIdsApart` | crates/muse-codex/src/msp.rs:516-521 | two ids with the same key are the same JSON value |
| `MspInterleaving.CorrelationHolds` | crates/muse-codex/src/msp.rs:105-143 | over every interleaving of the two relay threads, a client free to use any id, and a host that gives results only to what it has read, at most once, but errors at any time: at every moment the table holds exactly the requests in flight, each once and under its own method, never more than 4096, and the unknown-id error has not happened, if and only if no step relays an unasked error whose id is in the table at that moment |
| `MspInterleaving.StepKeeps` | crates/muse-codex/src/msp.rs:339-388 | each single step keeps this exactly when it does not relay such an error |
| `MspInterleaving.UnknownIdNeedsForgetting` | crates/muse-codex/src/msp.rs:362-375 | a run stops on an unknown id only after such an error was relayed |
| `MspInterleaving.InFlightIdsDiffer` | crates/muse-codex/src/msp.rs:257-268 | while the table is exact, no two requests in flight share an id, and each is in the table under its own method |
| `MspInterleaving.ServerRemoves` | crates/muse-codex/src/msp.rs:354-375 | what each kind of host frame does to the table, and when the unknown-id error arises |
| `MspInterleaving.StrayErrorForgetsRequest` | crates/muse-codex/src/msp.rs:362-375 | a run of seven steps with concrete frames: request 1 is sent, the host complains under id 1, then answers request 1, and the relay stops on the answer |
| `MspCorrelator.Correlator.constructor` | crates/muse-codex/src/msp.rs:59-60 | the table starts empty |
| `MspCorrelator.Correlator.AdaptClientFrame` | crates/muse-codex/src/msp.rs:190-280 | the table update in place and the outcome are those of the specified step |
| `MspCorrelator.Correlator.AdaptServerFrame` | crates/muse-codex/src/msp.rs:339-388 | likewise for a frame of the host |
| `NdjsonReader.Reader.ReadFrame` | crates/muse-codex/src/msp.rs:156-182 | for any slicing of the input, one call reads the next line and leaves the rest; a line is accepted if and only if its payload is within the limit |
| `NdjsonReader.ReadAll` | crates/muse-codex/src/msp.rs:117-127 | repeated calls read all frames and end normally if and only if every line fits |
| `NdjsonReader.FramesAreLines` | crates/muse-codex/src/msp.rs:154-182 | the frames concatenate back to the input, hold a line feed only as last byte, only the last may lack one, and none exceeds the limit |
| `ToolNames.ToolTable.RecordUse` | crates/codex-transport/src/zai/request.rs:46-60 | records a name and its free-form mark in place, or refuses and changes nothing |
| `ToolNames.RecordingSucceeds` | crates/codex-transport/src/zai/request.rs:46-81 | recording a request's names succeeds if and only if each fits the wire grammar and no two distinct names share a wire name |
| `ToolNames.RecordedNamesDecode` | crates/codex-transport/src/zai/request.rs:31-61 | afterwards every used name has a wire name of the grammar that decodes to it, free-form exactly when some use was |
| `ToolNames.DistinctNamesDistinctWires` | crates/codex-transport/src/zai/request.rs:46-61 | distinct recorded names have distinct wire names |
| `ToolNames.ReplayedNameKeepsWire` | crates/codex-transport/src/zai/request.rs:32-40 | a call replayed under its decoded name gets its old wire name again |
| `ToolNames.PartsReplaced` | crates/codex-transport/src/zai/request.rs:63-64 | a dotted name is written with two underscores between its parts |
| `ZaiRequest.Translator.TranslateTools` | crates/codex-transport/src/zai/request.rs:175-237 | the nested tool loops, recording into the shared table |
| `ZaiRequest.ToolsTranslated` | crates/codex-transport/src/zai/request.rs:175-296 | translating tools succeeds exactly when each is well formed and all full names can be recorded, and keeps the declared order with namespaces flattened |
| `ZaiWire.ToolsDeclared` | crates/codex-transport/src/zai/request.rs:175-249 | exactly the tools on offer are declared, namespaces taken apart, each under its full name; it fails exactly when a namespace lacks a name or list, or a tool a known type or a name |
| `ZaiWire.WireToolSays` | crates/codex-transport/src/zai/request.rs:251-296 | a wire tool has the tool's wire name, its description if given, and its parameters as given or none, or one string `input` for a custom tool |
| `ZaiRequest.Translator.TranslateItems` | crates/codex-transport/src/zai/request.rs:315-365 | the history loop, folding tool calls into the message before |
| `ChatMessages.CollectParts` | crates/codex-transport/src/zai/request.rs:445-502 | the loop over content parts |
| `ChatMessages.PartsTaken` | crates/codex-transport/src/zai/request.rs:445-502 | content parts translate exactly when each is understood: as a list, one written part for each, saying the same; as text, all their words in order, a line each |
| `ChatMessages.MessageByPlace` | crates/codex-transport/src/zai/request.rs:418-443 | a message translates exactly when its role and content are known, and says its role and content and nothing else; only a user's image takes the list |
| `ZaiWire.ItemSaid` | crates/codex-transport/src/zai/request.rs:323-415 | each history item is refused, skipped, or said member by member: a result's id and output, a call's id, wire name and arguments or wrapped input, a message's role and content |
| `ZaiWire.HistorySaid` | crates/codex-transport/src/zai/request.rs:298-365 | taken apart, the written messages say the instructions and then each item, in order, and calls stand together in assistant messages without content |
| `ChatHistory.HistoryFolds` | crates/codex-transport/src/zai/request.rs:298-365 | taking shared tool-call messages apart gives exactly the items' messages in order, no two adjacent messages both carry calls, and folding fails exactly when an item is refused or the names cannot be recorded |
| `ZaiTranslation.BuildBody` | crates/codex-transport/src/zai/request.rs:94-156 | the translator: guards, tools, history and the body member by member, over one table filled in place |
| `ZaiTranslation.RequestTranslates` | crates/codex-transport/src/zai/request.rs:94-173 | a request translates if and only if it names a model, holds no state elsewhere, its tools and input are lists or unset, tools and items are understood, its effort is known, and no tool name is unfit or ambiguous |
| `ZaiTranslation.TranslationKeeps` | crates/codex-transport/src/zai/request.rs:94-173 | the body of a translated request says the model; the instructions and each item's own members in order; each tool on offer, in order; the effort as Z.ai knows it; the token count brought between one and the limit; and nothing else; every name used decodes from its wire name |
| `ChatHistory.CallsReplay` | crates/codex-transport/src/zai/request.rs:367-401 | in every completed synthesizer run the call items of `output` are the upstream's known calls in order, and each, replayed next turn, has the id and wire name it came with, function arguments unchanged and a free-form input recoverable, if and only if its wire name was handed out or fits the wire grammar |
| `ChatHistory.InventedNameChanges` | crates/codex-transport/src/zai/request.rs:32-40 | a call under an undeclared name with a dot is replayed under another wire name |
| `ChatHistory.WrappedInputUnwraps` | crates/codex-transport/src/zai/stream.rs:680-690 | wrapping a free-form input and unwrapping it gives it back |
| `ResponsesLite.GroupTools` | crates/codex-transport/src/transport.rs:889-946 | the grouping loop with its insertion in place |
| `ResponsesLite.GroupByPlace` | crates/codex-transport/src/transport.rs:889-946 | grouping succeeds exactly when every tool has a type and a `functions` namespace a list; hosted tools then are gone, functions and custom tools stand in order in one `functions` namespace where the first of them stood, and every other tool keeps its order |
| `ResponsesLite.GroupTwice` | crates/codex-transport/src/transport.rs:889-946 | grouping twice is grouping once |
| `NamespaceCalls.CollectNamespaceCalls` | crates/codex-transport/src/transport.rs:1043-1091 | the collecting loops |
| `NamespaceCalls.CollectInvertsFlattening` | crates/codex-transport/src/transport.rs:1043-1091 | collecting fails if and only if two distinct advertised pairs, or a pair and a standalone function, flatten alike; on success the map undoes flattening for exactly the advertised pairs |
| `NamespaceCalls.AdvertisedExactly` | crates/codex-transport/src/transport.rs:1053-1085 | the advertised pairs are those of the functions in namespaces, by their members |
| `NamespaceCalls.StandaloneExactly` | crates/codex-transport/src/transport.rs:1043-1052 | the standalone names are those of the functions outside namespaces |
| `NamespaceCalls.SplitUndoesRecording` | crates/codex-transport/src/transport.rs:1179-1195 | a call to an advertised tool, recorded flattened and split again, is the call it was |
| `NamespaceCalls.OtherCallsPass` | crates/codex-transport/src/transport.rs:1179-1195 | items with any other name pass unchanged, dotted or not |
| `Catalog.NormalizeModels` | crates/codex-transport/src/transport.rs:1825-1946 | the catalog loop with its seen-set |
| `Catalog.CollectEfforts` | crates/codex-transport/src/transport.rs:1892-1900 | known reasoning efforts, each once, in order |
| `Catalog.MergeBundled` | crates/codex-transport/src/transport.rs:1953-1979 | taking account entries out of the list while merging gives the same as looking each bundled id up in the whole list |
| `CatalogMeaning.EntryPublished` | crates/codex-transport/src/transport.rs:1847-1935 | an entry is taken if and only if its id, visibility, version, texts, limits and modalities are in order, and what is published is that entry's: visible exactly when listed, not for a later client, of a known tool mode, with some known effort if any and text if modalities are given; names, limits and flags as given; efforts and modalities once each in order |
| `CatalogMeaning.CatalogPublished` | crates/codex-transport/src/transport.rs:1802-1946 | a catalog is published exactly when it comes in one shape with 1 to 4096 entries, each taken, no two of one id, and some to offer; a subscription by priority, entries of one priority as given, and a public list as given; the first entry to offer is the default |
| `CatalogMeaning.BundlePublished` | crates/codex-transport/src/transport.rs:1953-1979 | exactly the bundled entries offered over the API that the account has, with the bundled metadata and order, visible where both are, the first visible one the default |
| `CatalogContract.ValidateGatewayModels` | crates/muse-codex/src/lib.rs:1274-1349 | the launcher accepts a catalog if and only if it is non-empty, bounded, has good fields, distinct ids, and exactly one default, visible and so named |
| `CatalogContract.PublishedCatalogAccepted` | crates/codex-transport/src/transport.rs:1825-1946 | every catalog the gateway normalizes has its first visible model as its one default and passes the launcher's check with that default |
| `CatalogContract.MergedCatalogAccepted` | crates/codex-transport/src/transport.rs:1953-1979 | so does every intersection with the bundled metadata |
| `StableSort.SortFilters` | crates/codex-transport/src/transport.rs:1850-1852 | sorting by priority keeps entries of one priority in their order |
| `StableSort.SortOrders` | crates/codex-transport/src/transport.rs:1850-1852 | the sorted list is in the order of its priorities |
| `ArgUnits.StripFilters` | crates/muse-codex/src/lib.rs:325-380 | stripping is a filter on units: what is left reads as the kept units in order, and stripping again changes nothing |
| `ArgUnits.VerbatimStays` | crates/muse-codex/src/lib.rs:205-208 | everything from the first unit-level `--` on is kept |
| `ArgUnits.ReadableReadsBack` | crates/muse-codex/src/lib.rs:465-495 | a list of units reads back from its arguments as itself |
| `LauncherArgs.TakeFlag` | crates/muse-codex/src/lib.rs:357-380 | removes a flag exactly where it is a unit of its own, and tells whether it was |
| `LauncherArgs.ValidateAndRemoveProvider` | crates/muse-codex/src/lib.rs:197-238 | the provider all mentions agree on, and the line without them |
| `LauncherArgs.ResolveUpstreamBaseUrl` | crates/muse-codex/src/lib.rs:542-583 | the base URL all mentions agree on, reconciled with the environment |
| `LauncherArgs.ScanAgrees` | crates/muse-codex/src/lib.rs:242-253 | scanning succeeds if and only if no mention is bad and all agree, and gives what they say |
| `LauncherMeaning.ProviderSelected` | crates/muse-codex/src/lib.rs:183-268 | a provider is selected exactly when each unit about it names `codex` or `zai` and all the same; the line left is the units not about it |
| `LauncherMeaning.UrlResolved` | crates/muse-codex/src/lib.rs:542-583 | the URL resolves exactly when each unit about it gives one, all the same, and a non-empty one of the environment is no other |
| `LauncherArgs.StockIsLauncher` | crates/muse-codex/src/lib.rs:418-495 | stock Muse's option and subcommand tables have what the scanners rely on |
| `LauncherRewrite.StockSubcommandIndex` | crates/muse-codex/src/lib.rs:418-463 | the subcommand scan |
| `LauncherRewrite.SubcommandIsUnit` | crates/muse-codex/src/lib.rs:418-463 | the subcommand found is a unit of its own, never the value of an option |
| `LauncherMeaning.SubcommandFound` | crates/muse-codex/src/lib.rs:418-463 | the scan finds the first unit that is no option, no value of one and no worktree mode, if it is a subcommand |
| `LauncherRewrite.TakeExecApiKeyStdin` | crates/muse-codex/src/lib.rs:325-352 | the key flag is taken from `exec` command lines only |
| `LauncherRewrite.RewriteMuseArgs` | crates/muse-codex/src/lib.rs:270-323 | the rewriting loop and the moves in place |
| `LauncherRewrite.RewrittenRoutesOnce` | crates/muse-codex/src/lib.rs:270-323 | an accepted command line reaches stock Muse with the launcher's provider and base URL exactly once (TUI, `exec`, `resume`) or not at all (other subcommands), the subcommand first and every other unit in order |
| `LauncherMeaning.LineRouted` | crates/muse-codex/src/lib.rs:270-323 | a line whose mentions are in order reaches stock Muse without them, with `--provider meta --base-url` first, or after a leading `exec` or `resume`, or not at all for another subcommand, every other unit in order |

## Left out

- The network, HTTP clients and routing, login, key storage, process and signal handling, and the
  idle timer itself: how a body ends (end, error, timeout) is an input of every run.
- Wall clock and wording: the `created_at` of a failure and all human-readable messages are
  parameters of the validator and relay configurations; only the synthesizer's fixed reasons are
  spelled out, and the detail after "invalid JSON" is not.
- The choice among several model headers is a function parameter of the validator; the model it
  reports is tracked, its lookup order is not.
- serde's recursion limit and duplicate object members: a JSON object is a map, and every tree can
  be printed and parsed.
- Synthesizer sequence numbers and token counts are unbounded; the pipeline results require that
  the numbers fit 64 bits, which the validator demands of each event.
- SynthesizerStream.Translator.Serve: hands out events, while the source queues their frames
  already written; the frame of an event is `EventText.Wire`, and the order is the same.
- Memory: a tool-call index makes the call list that long, in the source as in the model.
- The model's output limit is at least one, without which the source's clamp has no meaning. A
  refused Z.ai request is refused, whichever of its faults comes first.
- `normalize_response_item` apart from the namespace split, and the Responses Lite prefix items
  with their SHA-256 ids.
- The pinned GLM catalog, the bundled catalog's contents and the upstream models' JSON decoding;
  service tiers reach the model as one flag, and limits as 64-bit integers.
- The launcher's other entry points (authentication commands, informational invocations,
  discovery, help text) and the token and port checks of the ready file.
- MspInterleaving.CorrelationHolds: the two threads share the table one frame at a time, as its
  lock makes them; the writes of refusals and host output to the client are not ordered, and
  termination of the host after a relay error ends the run.
