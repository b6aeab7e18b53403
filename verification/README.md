# Verified model of the Axl AI package

Axl is a terminal coding agent; its AI package (`packages/ai`) registers model providers,
keeps their catalogs and credentials, prepares requests for them and decodes what they
stream back. This project models the parts of it whose correctness does not show in any
single function, and proves what they promise.

- **Catalog publication** (`CatalogSnapshots`, `CatalogProtocol`, `CatalogInvariant`,
  `CatalogTheorems`, `CatalogRegistry`). Refresh, restore, disable, unregister and dispose
  of a provider interleave at every `await`. The protocol is a step relation, one step per
  stretch of code between two awaits, over the registry's fields, the store, the store's
  pending requests and the promise-tail publication queue (`SerialQueue`). An inductive
  invariant gives the generation order of memory and store, mutual exclusion of publication
  sections, and the effect of rollbacks. The registry's methods are a class whose methods
  are tied to the same specification functions.
- **Authentication** (`AuthProtocol`, `AuthTheorems`, `AuthSingleFlight`, `AuthObjects`).
  Login, logout and token refresh race through the credential store's serialized queue. A
  logout is final; a login that reports success has written; concurrent refreshes of one
  credential share one call of the provider, and each failed call costs one more. The
  closure and its store are objects whose methods take the protocol's steps.
- **Strict schemas** (`StrictSchema`, `StrictSchemaMeaning`, `StrictSchemaTheorems`,
  `StrictSchemaRewriter`). The rewriting of tool schemas into strict form, against an
  independent semantics of the schema fragment. Preservation of meaning is false in two
  corners; the project gives the inputs and the exact conditions.
- **Tool histories** (`ToolCallIds`, `ToolHistory`, `ToolHistoryTheorems`,
  `ToolHistoryPreparer`, `AnthropicEncoding`, `ChatEncoding`). Preparing a history renames
  call identifiers injectively and pairs calls with results; the two encoders turn that
  pairing into the message order the provider APIs demand.
- **Byte and text decoders** (`Crc32`, `Framing`, `FramingBuffer`, `EventStream`,
  `EventStreamDecoder`, `LineFeeding`, `Sse`, `SseDecoder`, `SsePrinting`). The AWS event
  stream decoder, with its growing and compacting array buffer, and the server-sent-event
  decoder refine whole-input parsers whatever the chunking. CRC-32 follows section 8 of RFC
  1952; the printed form of events follows section 9.2.6 of the WHATWG HTML standard.
- **Stream decoders** (`StreamEvents`, `StreamRuns`, `CallRuns`, `StreamNormalizer`,
  `AnthropicStream`, `AnthropicTheorems`, `AnthropicCalls`, `AnthropicDecoder`,
  `MistralStream`, `MistralCalls`, `MistralDecoder`, `ChatStream`, `ChatCalls`,
  `ChatTheorems`, `ChatExactness`, `ChatDecoder`, `IndexOrder`, `JsonValues`). Three provider
  decoders as state machines, proved against one monitor of well-formed event streams, and
  closed by the normalizer. What each call is, and that none is missing from a completed run,
  is read off the frames. That a call's input is what its deltas spell is false of two of
  them: the project gives the runs, and says for both exactly when it holds.
- **Releases and device login** (`Versions`, `ReleaseVersions`, `ReleaseRuns`,
  `DevicePolling`). Version progression over runs of releases, and the timing of device
  authorization polls (section 3.5 of RFC 8628).

Each class or method that updates state is proved against a specification function, and
the properties are lemmas about that function. `Wrappers` holds the option and result
types, `Basics` a few functions that several components share.

What the model takes from outside enters as parameters with the few laws needed: the JSON
parser (what follows the text of an object with fields in a longer JSON text is itself no
JSON text), the UTF-8 decoder (its output grows by suffixes), SHA-256 (64 hexadecimal
characters), the clock, the sleeps, the servers' answers and the moments at which requests
are aborted. One process owns each store, and a store request takes effect in one step.

Where the code and a document differ, the model follows the code:

- The server-sent-event decoder emits an unterminated last frame at the end of the input and
  does not end lines at a lone carriage return; section 9.2.6 of the WHATWG HTML standard
  drops the one and does the other.
- A `slow_down` answer that carries an interval replaces the polling interval, also by a
  shorter one; section 3.5 of RFC 8628 only ever adds five seconds.
- `docs/provider-support/provider-reference.md` says that required strict schemas are never
  silently weakened; two corners in which the rewriting loses meaning are
  stated as `StrictSchemaTheorems.DroppingCanLoseMeaning` and `FillingLosesMeaning`.

## Model

| member | source | states |
|---|---|---|
| SerialQueue.ReadyMeansAllEarlierSettled | packages/ai/src/catalog-store.ts:374-386 | A task of a promise-tail queue runs only once every task enqueued before it has settled, although each waits only for its predecessor and the tail may have been cleared |
| SerialQueue.MutualExclusion | packages/ai/src/credentials.ts:144-151 | No two tasks of a queue run at the same time |
| SerialQueue.ClearTailValid | packages/ai/src/registry.ts:656-661 | Forgetting the tail after it has settled keeps the queue in order |
| CatalogSnapshots.Newer | packages/ai/src/registry.ts:623-625 | A restore selects a snapshot that is at least as new as both memory and the stored one |
| CatalogSnapshots.Candidate | packages/ai/src/registry.ts:558-612 | A refresh result yields only storable snapshots not older than the previous one; an update has a generation above both known ones |
| CatalogInvariant.Kept | packages/ai/src/registry.ts:482-687 | The invariant of queue, controllers, waiting operations, store requests and generation order is kept by every step of every interleaving |
| CatalogTheorems.GenerationOrder | packages/ai/src/registry.ts:614-663 | Outside publication sections the in-memory snapshot is at least as new as the stored one, unless a rollback failed and nothing was committed since |
| CatalogTheorems.FailedRollbackAndOrder | packages/ai/src/registry.ts:643-652 | A failing rollback breaks that order if and only if the rejected snapshot is newer than memory |
| CatalogTheorems.FailedRollbackExample | packages/ai/src/registry.ts:643-652 | A run, from an initial state, that ends idle with the store ahead of memory because a rollback failed |
| CatalogTheorems.MemoryNeverDecreases | packages/ai/src/registry.ts:614-663 | From every reachable state, while a provider stays registered its in-memory generation never decreases, over every run |
| CatalogTheorems.MemorySetByCurrent | packages/ai/src/registry.ts:638-655 | Memory is set only in a section of the operation that holds the current generation and whose signal has not fired |
| CatalogTheorems.SectionsNeverOverlap | packages/ai/src/registry.ts:630-663 | Publication sections of one provider never overlap |
| CatalogTheorems.ControllerIsCurrent | packages/ai/src/registry.ts:665-687 | A registered controller belongs to the current generation and has not fired |
| CatalogTheorems.SupersededForGood | packages/ai/src/registry.ts:672-681 | An operation that was superseded or aborted can never publish again, whatever follows |
| CatalogTheorems.RemovalStopsEveryone | packages/ai/src/registry.ts:230-236 | Unregistering or disposing empties memory and leaves no suspended operation that could still commit |
| CatalogTheorems.CommitAgrees | packages/ai/src/registry.ts:637-655 | A persisting publication that commits leaves store and memory equal to its snapshot |
| CatalogTheorems.RollbackRestores | packages/ai/src/registry.ts:637-655 | A superseded publication whose write had completed leaves the store holding what memory held when its section began, whatever happened in between |
| CatalogTheorems.SupersededWriteIsRolledBack | packages/ai/src/registry.ts:637-655 | Over every run, a section whose write completed while it was not live has its rollback still to come or pending, or was ended by the store's answer to it: the store then held what memory held when the section began, or the section is reported as failed |
| CatalogRegistry.ProviderRegistry.Register | packages/ai/src/registry.ts:216-229 | Registration is refused when disposed or duplicate and otherwise changes one provider only, under a token no other registration has |
| CatalogRegistry.ProviderRegistry.Unregister | packages/ai/src/registry.ts:230-236 | A disposer removes only its own registration, superseding its refresh |
| CatalogRegistry.ProviderRegistry.SetEnabled | packages/ai/src/registry.ts:251-256 | Disabling supersedes the running refresh; enabling changes nothing else |
| CatalogRegistry.ProviderRegistry.SupersedeRefresh | packages/ai/src/registry.ts:672-681 | The generation goes up by one and the registered controller fires and is forgotten |
| CatalogRegistry.ProviderRegistry.BeginRefresh | packages/ai/src/registry.ts:665-670 | A refresh supersedes its predecessor and registers its own controller |
| CatalogRegistry.ProviderRegistry.FinishRefresh | packages/ai/src/registry.ts:683-687 | Finishing forgets the controller only if it is still the registered one |
| CatalogRegistry.ProviderRegistry.EnqueuePublication | packages/ai/src/registry.ts:637-657 | A publication joins its provider's queue behind the tail, and no other queue changes |
| CatalogRegistry.ProviderRegistry.StartPublication | packages/ai/src/registry.ts:638-642 | A section whose turn has come does nothing unless its operation is current; a persisting one captures memory before its write and keeps the queue busy, any other ends at once |
| CatalogRegistry.ProviderRegistry.ResumePublication | packages/ai/src/registry.ts:643-655 | After the write a section commits and ends if still current, and otherwise asks for exactly the captured state back and keeps the queue busy |
| CatalogRegistry.ProviderRegistry.EndPublication | packages/ai/src/registry.ts:646-655 | A section ends once its commit, rollback or failed write is over, and its queue stays in order |
| CatalogRegistry.ProviderRegistry.SettlePublication | packages/ai/src/registry.ts:656-661 | A settled publication clears the queue's tail only if it is the tail, and its queue stays in order |
| CatalogRegistry.ProviderRegistry.Dispose | packages/ai/src/registry.ts:466-480 | Disposing supersedes every provider that has a controller, once, and removes all providers and snapshots |
| CatalogRegistry.InMemoryCatalogStore.Write | packages/ai/src/catalog-store.ts:248-255 | A write stores exactly valid snapshots of requests that are not aborted |
| AuthTheorems.Kept | packages/ai/src/auth.ts:325-404 | The queue and writer invariant is kept by every step of login, logout and refresh |
| AuthTheorems.EmptyStoreFilledByLogin | packages/ai/src/auth.ts:364-368 | In every reachable state, a step that fills an empty store is the write of a login newer than every completed logout |
| AuthTheorems.LogoutIsFinal | packages/ai/src/auth.ts:397-403 | From every reachable state, once a logout's removal completes the store stays empty, in every interleaving, until a later login has written |
| AuthTheorems.LoginSucceeds | packages/ai/src/auth.ts:364-376 | In every reachable state, a login that ended without an error and is still the current generation has written its credential, and the store has not been emptied since |
| AuthSingleFlight.SingleFlight | packages/ai/src/auth.ts:508-548 | All resolves that saw the same expiring credential get one refreshed credential; the provider is called exactly once per failed call, plus once if somebody called it without failing; in all at most once if and only if no call failed, or one did and nobody has called again |
| AuthSingleFlight.FailedCallIsRetried | packages/ai/src/auth.ts:521-531 | A run from an initial state in which two concurrent resolves call the provider twice, because the first call fails |
| AuthObjects.InMemoryCredentialStore.StartModify | packages/ai/src/credentials.ts:166-180 | A modification reads the credential while no other queued task can run |
| AuthObjects.InMemoryCredentialStore.FinishModify | packages/ai/src/credentials.ts:166-180 | The callback's answer is stored if valid; nothing keeps the credential and an invalid one is an error |
| AuthObjects.InMemoryCredentialStore.Delete | packages/ai/src/credentials.ts:182-186 | Deleting runs in its turn and removes one provider's credential |
| AuthObjects.ProviderAuthentication.SubmitLogin | packages/ai/src/auth.ts:341-368 | A login hands its credential to the store, as one step of the protocol, if and only if it is valid and the signal has not fired |
| AuthObjects.ProviderAuthentication.StartLogin | packages/ai/src/auth.ts:364-368 | The login's callback takes the protocol's step: it writes only while its generation is current, and its task ends at once otherwise |
| AuthObjects.ProviderAuthentication.BeginLogout | packages/ai/src/auth.ts:397-403 | A logout takes the protocol's step: it supersedes every login before it, and queues its removal unless already aborted |
| AuthObjects.ProviderAuthentication.RunLogout | packages/ai/src/auth.ts:400-400 | The removal runs in its turn as the two steps of the protocol, one after the other |
| AuthObjects.ProviderAuthentication.SubmitRefresh | packages/ai/src/auth.ts:516-524 | A resolve queues a refresh, as a step of the protocol, if and only if the credential it read expires within the window |
| AuthObjects.ProviderAuthentication.StartRefresh | packages/ai/src/auth.ts:524-528 | A refresh whose turn comes takes the protocol's step, and asks the provider if and only if the stored credential still expires soon |
| AuthObjects.ProviderAuthentication.RefreshReturns | packages/ai/src/auth.ts:528-530 | The provider's answer takes the protocol's step: only a valid credential goes on to the store |
| AuthObjects.ProviderAuthentication.Persist | packages/ai/src/credentials.ts:174-178 | The store puts the new credential in place, as the protocol's step |
| AuthObjects.ProviderAuthentication.FinishLogin | packages/ai/src/auth.ts:364-376 | A login that reports success has its own credential written, and the store is not empty |
| AuthObjects.RefreshCallback | packages/ai/src/auth.ts:516-531 | A refresh happens if and only if the credential the store shows is an OAuth one that still expires within the window |
| Crc32.ComputeChecksum | packages/ai/src/aws-event-stream.ts:8-15 | The bit loop computes the CRC-32 of all bytes |
| Crc32.ByteStepInjective | packages/ai/src/aws-event-stream.ts:8-15 | Shifting in a byte is injective in the register for a fixed byte and in the byte for a fixed register |
| Crc32.OneByteChangesChecksum | packages/ai/src/aws-event-stream.ts:8-15 | Changing one byte changes the checksum |
| Framing.DrainInSteps | packages/ai/src/aws-event-stream.ts:65-86 | Draining a buffer and then what follows it drains their concatenation |
| Framing.ConsumeIsWhole | packages/ai/src/aws-event-stream.ts:41-89 | Chunked consumption within the limits decodes like the whole-input parser |
| Framing.CorruptedFrame | packages/ai/src/aws-event-stream.ts:41-89 | If one frame of a valid stream is replaced by something that is never taken for a frame, exactly the earlier frames are yielded and then decoding fails |
| FramingBuffer.Append | packages/ai/src/aws-event-stream.ts:48-64 | Growing and compacting the storage keeps the unconsumed bytes, adds the chunk, and bounds the capacity |
| EventStreamDecoder.DrainBuffer | packages/ai/src/aws-event-stream.ts:65-86 | The frame loop terminates, yields what draining yields and leaves exactly the unconsumed suffix |
| EventStreamDecoder.DecodeChunks | packages/ai/src/aws-event-stream.ts:41-89 | The loop over chunks yields and fails like the specification, and its capacity stays within the initial one or twice the bytes received |
| EventStream.EventType | packages/ai/src/aws-event-stream.ts:17-38 | The offset loop finds the same event name as the recursive reading of the headers |
| EventStream.ChunkingIndependent | packages/ai/src/aws-event-stream.ts:41-89 | Every chunking within the limits decodes like the whole body |
| EventStream.CorruptionDetected | packages/ai/src/aws-event-stream.ts:65-88 | Changing any single byte of a message, also in a length field or checksum, yields exactly the earlier messages and then a failure |
| EventStreamDecoder.ReadFront | packages/ai/src/aws-event-stream.ts:65-86 | Reading a message, with the checksum and header loops, does all length and checksum checks of the specification; the frame loop calls it |
| EventStreamDecoder.DecodeAwsEventStream | packages/ai/src/aws-event-stream.ts:41-89 | The whole decoder agrees with the specification and the whole-input parser, with its capacity bound |
| LineFeeding.FeedInSteps | packages/ai/src/sse.ts:33-69 | Feeding text in two pieces yields and leaves what feeding their concatenation does |
| Sse.LongLineFails | packages/ai/src/sse.ts:76-77 | A partial line over the limit can only fail once it is complete, whatever completes it |
| SseDecoder.ChunkingIndependent | packages/ai/src/sse.ts:71-83 | Two cuttings of the same input within the total limit yield the same frames and the same outcome |
| SseDecoder.FailingEarly | packages/ai/src/sse.ts:76-77 | The early pending-line check fails only inputs that fail anyway, after the same frames |
| SseDecoder.Decoder.TakeLine | packages/ai/src/sse.ts:36-66 | One line updates the pending frame, emits it or is refused, as specified |
| SseDecoder.Decoder.DrainLines | packages/ai/src/sse.ts:33-69 | The line loop processes exactly the complete lines and keeps the partial one |
| SseDecoder.DecodeSseStream | packages/ai/src/sse.ts:26-83 | Chunked decoding yields what decoding the whole text yields, and fails exactly when that does; over the total limit it fails after the lines before it |
| SsePrinting.RoundTrip | packages/ai/src/sse.ts:33-83 | Decoding printed frames returns them, for both line endings and all frames within the limits |
| StrictSchemaRewriter.MakeStrictNode | packages/ai/src/request-preparation.ts:479-534 | The node-by-node rewriting with its loops computes the specified strict form or refusal |
| StrictSchemaTheorems.AcceptedIffSupported | packages/ai/src/request-preparation.ts:479-525 | Rewriting fails exactly on the schemas that are not supported |
| StrictSchemaTheorems.ResultIsStrict | packages/ai/src/request-preparation.ts:526-534 | Every object of the result requires all its properties and allows no others |
| StrictSchemaMeaning.DropIff | packages/ai/src/request-preparation.ts:470-534 | Dropping nulls takes a strict instance to an original one if and only if each union beside an object accepts the names that are left |
| StrictSchemaMeaning.FillIff | packages/ai/src/request-preparation.ts:470-534 | Filling nulls in takes an original instance to a strict one if and only if each union accepts the filled names and each filled null-allowing property accepts null |
| StrictSchemaTheorems.MeaningPreserved | packages/ai/src/request-preparation.ts:470-542 | When unions do not look at names, and null-allowing properties accept null, meaning is preserved in both directions on all instances |
| StrictSchemaTheorems.DroppingCanLoseMeaning | packages/ai/src/request-preparation.ts:485-494 | An accepted schema whose union requires an optional property: a strict instance whose dropped form is invalid |
| StrictSchemaTheorems.FillingLosesMeaning | packages/ai/src/request-preparation.ts:470-477 | Any optional property that is taken to allow null without accepting it loses meaning when filled in |
| StrictSchemaTheorems.FillingCanLoseMeaning | packages/ai/src/request-preparation.ts:470-477 | An accepted schema with such a property, and an instance that is lost when filled in |
| ToolCallIds.NormalizeToolCallId | packages/ai/src/request-preparation.ts:399-412 | The candidate loop finds the first free candidate |
| ToolCallIds.NormalizedIsFree | packages/ai/src/request-preparation.ts:399-412 | A normalized id is unused and of the dialect's form, a free id of that form is kept, and failure means all candidates are taken |
| ToolHistoryTheorems.HistoryRenamed | packages/ai/src/request-preparation.ts:972-1105 | A prepared history is the history under one injective renaming into the dialect's form, results carrying the renamed id of their call |
| ToolHistoryTheorems.HistoryPaired | packages/ai/src/request-preparation.ts:972-1105 | Every call of an accepted history is answered by one result before any other message |
| ToolHistoryPreparer.History.AddCall | packages/ai/src/request-preparation.ts:1028-1062 | One call is refused or added to all three maps as specified |
| ToolHistoryPreparer.History.AddMessage | packages/ai/src/request-preparation.ts:986-1102 | One message is refused or prepared as specified |
| ToolHistoryPreparer.PrepareHistory | packages/ai/src/request-preparation.ts:972-1105 | The loop over the maps prepares as specified; what it returns is paired and injectively renamed |
| AnthropicEncoding.CallsAnsweredNext | packages/ai/src/anthropic-messages.ts:231-269 | In the encoding of a paired history each message with calls is followed by one holding exactly their results, and no other message holds results |
| AnthropicEncoding.NothingLost | packages/ai/src/anthropic-messages.ts:231-269 | Calls and results are encoded in order, none lost or added |
| AnthropicEncoding.AcceptedHistoryIsAnswered | packages/ai/src/anthropic-messages.ts:231-269 | Both hold for the encoding of every history that is accepted |
| AnthropicEncoding.CollectResults | packages/ai/src/anthropic-messages.ts:251-266 | The inner loop collects exactly the run of results that starts there |
| AnthropicEncoding.EncodeMessages | packages/ai/src/anthropic-messages.ts:231-269 | The index loop encodes as specified, calls being answered in the next message |
| ChatEncoding.ResultsFollowCalls | packages/ai/src/openai-chat.ts:355-426 | With images deferred, tool messages directly follow the calls they answer, each once |
| ChatEncoding.ImagesKept | packages/ai/src/openai-chat.ts:386-423 | Every image of a tool result is sent once and in order, none staying deferred |
| ChatEncoding.EncodeMessages | packages/ai/src/openai-chat.ts:355-426 | The loop with its pending images encodes as specified, with both properties |
| StreamNormalizer.NormalizeModelStream | packages/ai/src/stream.ts:18-64 | Any provider stream is closed by exactly one terminal event, in last place |
| StreamNormalizer.ClosingKeeps | packages/ai/src/stream.ts:18-45 | Closing changes no event and keeps a well-formed run well-formed |
| StreamRuns.StartsMatchCalls | packages/ai/src/anthropic-messages.ts:534-895 | In a well-formed run no index is opened twice, and on completion starts and calls match one to one |
| StreamRuns.CallFitsItsDeltas | packages/ai/src/mistral-conversations.ts:528-616 | In a well-formed run each finished call has the input that the deltas before it spell |
| AnthropicTheorems.RunsAreLegal | packages/ai/src/anthropic-messages.ts:534-895 | Every run of the decoder is well-formed, whatever frames arrive; each input is what the deltas spell after the text its own block started with |
| AnthropicTheorems.ExactIff | packages/ai/src/anthropic-messages.ts:534-895 | For every run: each input is exactly what its deltas spell if and only if no call that the run finishes had an input at the start of its block |
| AnthropicTheorems.EmptyStartsAreExact | packages/ai/src/anthropic-messages.ts:682-691 | The corollary for frames in which no block starts with an input: each input is exactly what its deltas spell, whatever the JSON parser |
| AnthropicTheorems.StartInputIsNotSpelled | packages/ai/src/anthropic-messages.ts:567-890 | A run whose block starts with a non-empty input, and whose deltas do not spell that input |
| AnthropicCalls.CallsReadOff | packages/ai/src/anthropic-messages.ts:567-890 | Each finished call has the id and name its own block started with; its deltas spell the pieces of arguments sent to that block while it was open, and its input is what they complete |
| AnthropicCalls.NothingIsHeldBack | packages/ai/src/anthropic-messages.ts:567-890 | After any frames that do not end the run, every call started and every piece of arguments received has been yielded, once |
| AnthropicCalls.CompletedHasAllCalls | packages/ai/src/anthropic-messages.ts:534-895 | A completed run has exactly one call for each block of a tool call that started before the end of the message, and no other |
| AnthropicDecoder.Decoder.Take | packages/ai/src/anthropic-messages.ts:567-890 | One frame changes the open blocks, yields, returns or throws as specified |
| AnthropicDecoder.StreamAnthropicMessages | packages/ai/src/anthropic-messages.ts:534-895 | Decoder and normalizer together yield a well-formed run with one terminal event, in last place, exact if and only if no finished call had a start input |
| ChatExactness.CallsComeInOrder | packages/ai/src/openai-chat.ts:921-954 | The calls a run finishes come in strictly increasing order of their indexes, each once, no call of a lower index is left out, and a completed run finishes every call it got a piece for |
| MistralStream.RunsAreLegal | packages/ai/src/mistral-conversations.ts:381-646 | Every run is well-formed however ids, names and arguments are split over frames, and each input is exactly what the deltas spell |
| MistralCalls.CallsReadOff | packages/ai/src/mistral-conversations.ts:528-616 | Calls come in strictly increasing order of their indexes with none of a lower index left out; each has the id of its first piece (or one made of its index), the first name and the joined arguments of its pieces, which its deltas spell; a completed run has a call for every index that got a piece |
| MistralDecoder.Decoder.PieceOfCall | packages/ai/src/mistral-conversations.ts:528-586 | One piece of a call updates its accumulator and yields start and delta as specified |
| MistralDecoder.Decoder.EndOfSource | packages/ai/src/mistral-conversations.ts:589-646 | The end finishes the calls in order and yields the terminal event as specified |
| MistralDecoder.StreamMistralConversations | packages/ai/src/mistral-conversations.ts:381-646 | Decoder and normalizer together yield a well-formed, exact run with one terminal event, in last place |
| ChatTheorems.RunsAreShaped | packages/ai/src/openai-chat.ts:711-954 | Every run is well-formed in its indexes, names and end, whatever frames arrive |
| ChatCalls.FieldsReadOff | packages/ai/src/openai-chat.ts:861-913 | Id, name, form and texts of a call are what its pieces say, whatever way they are split |
| ChatCalls.SpellsTextIff | packages/ai/src/openai-chat.ts:883-912 | The deltas of a started call spell its text if and only if the arguments emitted before its first raw input, if it gets one, are a start of that input |
| ChatExactness.ExactIff | packages/ai/src/openai-chat.ts:711-954 | For every run: each input is what its deltas spell, as parsed arguments of a function call or as the property the tool's grammar names for a custom one, if and only if for every finished call the arguments emitted before its first raw input are a start of that input |
| ChatExactness.MixedCallExample | packages/ai/src/openai-chat.ts:883-912 | Frames with arguments followed by a raw input: the events they decode to, whose deltas do not spell the input |
| ChatDecoder.Decoder.PieceOfCall | packages/ai/src/openai-chat.ts:861-913 | One piece of a call updates its accumulator and yields start and delta as specified |
| ChatDecoder.StreamOpenAiChat | packages/ai/src/openai-chat.ts:711-954 | Decoder and normalizer together yield a well-formed run with one terminal event, in last place, exact if and only if every finished call is coherent in the sense of ChatExactness.ExactIff |
| Versions.CompareIsTotalOrder | scripts/release.ts:159-167 | Comparing versions is a total order whose ties are equal versions |
| Versions.ParsePrint | scripts/release.ts:136-147 | Parsing a printed version returns it |
| ReleaseVersions.NextIsNewer | scripts/release.ts:169-212 | The next version parses as one of its series and channel and is newer than every version of the series |
| ReleaseVersions.RefusedIff | scripts/release.ts:197-206 | A release is refused exactly when a later channel was already released for the patch it would get |
| ReleaseVersions.TagNamesVersion | scripts/release.ts:175-180 | Tagging a release adds exactly that version to what the tags name |
| ReleaseRuns.LatestIff | scripts/release.ts:214-237 | A stable release is published as latest if and only if it is newer than every stable version |
| ReleaseRuns.LatestNeverGoesDown | scripts/release.ts:557-564 | Over any run of releases npm's latest is the newest stable version and never goes down |
| ReleaseRuns.RunIsIncreasing | scripts/release.ts:557-564 | The releases of each series in any run are strictly increasing |
| DevicePolling.PollDevice | packages/ai/src/oauth-auth.ts:140-172 | Polls come before the deadline, a whole interval after the answer before; the outcome follows the last answer, also when that poll rejects, or the deadline or a cancellation; there are fewer polls than seconds |
| DevicePolling.PollsAreFew | packages/ai/src/oauth-auth.ts:153-168 | Pacing alone implies fewer polls than seconds until the deadline |
| DevicePolling.SlowDownsAddUp | packages/ai/src/oauth-auth.ts:163-167 | Each slow-down without an interval of its own adds five seconds for good |

## Left out

- Locking of catalog and credential files, stale-lock removal, and several processes sharing a store: they depend on process liveness and the file system.
- A store write that fails after it took effect: a failed write or rollback leaves the store as it was.
- The contents of catalogs: source, models and optional fields of a snapshot are one opaque text.
- Refresh scheduling over several providers, and the listing of models: the protocol is per provider.
- Authentication `check()` and the phase shown to users: `check()` does not look at the generation.
- AuthObjects.ProviderAuthentication.constructor: the store serves one provider, so tasks of other providers in its queue are not modelled.
- AuthSingleFlight.SingleFlight: holds while no login or logout intervenes and refreshed credentials outlast the resolves under consideration.
- The stand-alone `login` and `logout` functions, which write the same store without a generation.
- StrictSchemaRewriter.MakeStrictNode: works on schema values, not on a clone edited in place, so a subschema shared between two places is not modelled.
- Schema keywords outside the fragment, such as `minProperties` or `pattern`; `const` and `enum` hold scalars only, and `additionalProperties` other than false counts as no constraint where the rewriting accepts it.
- StrictSchemaMeaning.DropIff: the exact condition is given for each schema and instance; for schemas alone MeaningPreserved gives a sufficient condition, an exact one would need to decide which schemas have instances.
- StrictSchemaTheorems.MeaningPreserved: holds under conditions on the schema, because the unconditional claim is false, as DroppingCanLoseMeaning and FillingLosesMeaning show.
- Idempotence of the rewriting: a second pass refuses the nullable objects the first one made.
- Signatures and continuations of calls and texts, tool name rendering rules, blob loading and cache markers of requests: field-by-field checks beside the pairing.
- OpenAI Chat assistant messages: whether one can be rendered is a parameter, its reasoning fields are not part of this model.
- The meaning of a call's input in a history: it is carried along as opaque text.
- Token usage, cost, response metadata and error messages of streams; a usage object counts only as well-formed or not, and the refusal of inconsistent one-hour cache usage is not modelled.
- AnthropicTheorems.ExactIff: rests on the law that what follows the JSON text of an object with fields in a longer JSON text (blanks, that is) is itself no JSON text; the parser is a parameter, and the law is not proved of it.
- Strings are sequences of Unicode characters; lengths in the original count UTF-16 units. Numbers are unbounded; version parts above 2^53 lose precision in the original.
- The Bedrock, Google, Gateway and Responses codecs, which have the shape of the three decoders modelled.
- HTTP, request signing, redirects, endpoint checks and secret redaction.
- Git, GitHub and npm orchestration of releases: a release is its version, its tag and its npm tag.
