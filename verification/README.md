# Proved models of the Pi Codex adaptor

This project models the parts of the adaptor whose correctness depends on order, interleaving or
running state, and proves properties of them for all inputs, all runs and all interleavings:

- applying a patch: locating hunks with a moving cursor, sorting the replacements, splicing from the end (`apply_patch.dfy`);
- the bridge: LF-framed messages cut into arbitrary chunks (`frame_decoder.dfy`), and the client's request table under
  messages, aborts, timeouts, handlers and failures (`bridge_client.dfy`);
- message history: pairing tool calls with results (`message_normalization.dfy`) and replaying a compaction checkpoint
  (`checkpoint_replay.dfy`);
- the reversible tool profile (`tool_profile.dfy`, over `name_lists.dfy`) and the asynchronous activation that drives it
  (`tool_activation.dfy`);
- context accounting (`context_accounting.dfy`), the baseline of an estimate from end to end (`baseline_alignment.dfy`)
  and the request guard (`request_guard.dfy`);
- the streaming response state (`response_state.dfy`), what it stores of the items that arrive (`response_items.dfy`)
  and of their signatures (`response_signatures.dfy`), and the session router (`session_router.dfy`);
- budgets: tool outputs (`model_output_bounds.dfy`, over the generic `output_batches.dfy`), the compaction request
  (`compaction_context_fit.dfy`), the compacted history (`remote_compaction.dfy`) and the truncator it links
  (`text_truncation.dfy`);
- the worklist of the software bill of materials (`sbom_reachability.dfy`).

`dafny verify dfyconfig.toml` checks all of it.

## How the models are built

Code that changes state step by step is a class or a method with loops, and its contract ties the new state to a
function of the old one; the properties are then lemmas about those functions. Whatever runs between two awaits, or
handles one message, timeout, abort or callback, is one atomic step, because the event loop does not interrupt it; a run
is any sequence of steps, so a statement about all runs covers every interleaving.

Parsers, serialisers, digests, estimators, and the truncators of tool outputs are parameters, and the results hold for
every choice of them unless a lemma names what it needs: an injective digest, or a parser that inverts the serialiser.
The token count and the truncator of the compacted history are parameters too, and the linked ones are modelled beside
them.

## Where the code does less than one might expect

Some natural expectations do not hold. In these places the project gives an input that shows it, and the exact condition
under which the expectation does hold:

- Patch hunks marked as ending the file may be located behind an earlier hunk's lines, and then the ranges overlap:
  `EofHitCanOverlap`, `ReplacementsOrdered`. Splicing may then run out of range: `SpliceFitsExactlyWhen`.
- A patch without changes does not keep a file that ends in a blank line or lacks a final newline: `EmptyEditKeepsFile`.
- Replacing a checkpoint's covered entries by its output is not always cutting the full projection. It is not where a call
  is open at the cut and a tool result comes before the next turn boundary: the covered part has answered the call with an
  invented result, and the replay sends the recorded one behind it: `ReplayAcrossOpenCallDiffers`,
  `ReplayIsTailExactlyWhen`, `SplitsExactlyWhen`.
- Items of a kind without anything between them share a block. The second text may then be stored twice, or the first one
  lost: `SecondMessageIsRepeated`, `FirstMessageIsLost`, `ReasoningItemsShareBlock`, `StoredIsBroughtExactlyWhen`,
  `CompletedTextIsExact`.
- A block holds one signature, so the first of such items is no longer kept whole: `FirstSignatureIsLost`,
  `SignaturesStoredExactlyWhen`.
- An approval that fails while digesting its payload has already stored it: `HalfApprovalReplacesPayload`,
  `StoredIsDigested`.
- Sweeping one session's records sweeps another's if session ids contain NUL: `NulSessionIsSwept`, `PrefixNamesSession`,
  `PrefixSweepsExactly`.

## Model

| member | source | states |
|---|---|---|
| `ApplyPatch.FirstMatchIsLeast` | native/vendor/openai-codex/codex-rs/apply-patch/src/seek_sequence.rs:12-114 | One pass of the line search finds the earliest position at or after the cursor where the lines match, and finds one whenever there is one. |
| `ApplyPatch.SeekHitPosition` | native/vendor/openai-codex/codex-rs/apply-patch/src/seek_sequence.rs:12-114 | A hit always lies within the file. It lies before the cursor only for an end-of-file hunk that does not fit behind the cursor, and then it is flush with the end. |
| `ApplyPatch.SeekHitMatches` | native/vendor/openai-codex/codex-rs/apply-patch/src/seek_sequence.rs:12-114 | The lines at a hit match the pattern under one of the passes. |
| `ApplyPatch.SkipToContext` | native/crates/codex-apply-patch-adapter/src/lib.rs:193-206 | Without a context the cursor stays. Otherwise it moves to just past the earliest position at or after it where the context matches under the strictest pass that matches anywhere, and the patch fails exactly when no pass matches. |
| `ApplyPatch.LocateOldLines` | native/crates/codex-apply-patch-adapter/src/lib.rs:211-233 | The old lines are located as they are, or without a trailing blank line (dropped from the new lines too); otherwise the patch fails. |
| `ApplyPatch.ComputeReplacements` | native/crates/codex-apply-patch-adapter/src/lib.rs:185-238 | The loop with its moving cursor and the sort yield the replacements of the walk over the hunks, stably sorted by start, or the same error. |
| `ApplyPatch.EveryChunkIsServed` | native/crates/codex-apply-patch-adapter/src/lib.rs:192-235 | An accepted patch yields one replacement a hunk: an insertion at the end for a hunk without old lines, otherwise a range of lines that match the old lines and is given the new ones, both possibly without a blank last line. |
| `ApplyPatch.StableSortCorrect` | native/crates/codex-apply-patch-adapter/src/lib.rs:236 | The sort orders by start and keeps replacements with equal starts in hunk order. |
| `ApplyPatch.WalkChains` | native/crates/codex-apply-patch-adapter/src/lib.rs:192-235 | If no end-of-file hit reaches behind an earlier replacement, the replacements before the end of the file chain up without overlap in hunk order. |
| `ApplyPatch.UnclearWalkConflicts` | native/crates/codex-apply-patch-adapter/src/lib.rs:213-234 | Conversely, an end-of-file hit that does reach behind one leaves two overlapping replacements. |
| `ApplyPatch.SortMovesEndInsertionsLast` | native/crates/codex-apply-patch-adapter/src/lib.rs:207-210 | Sorting moves the insertions at the end of the file behind everything else, in hunk order. |
| `ApplyPatch.ReplacementsOrdered` | native/crates/codex-apply-patch-adapter/src/lib.rs:185-238 | For every accepted hunk list the sorted replacements are in bounds, and they are pairwise disjoint if and only if every end-of-file hit clears the earlier replacements; then they are the located hunks in order followed by the end insertions. |
| `ApplyPatch.ApplyReplacements` | native/crates/codex-apply-patch-adapter/src/lib.rs:240-248 | The in-place loop from last to first computes the reverse splice, including the case where a range runs out of the line vector. |
| `ApplyPatch.SpliceFitsExactlyWhen` | native/crates/codex-apply-patch-adapter/src/lib.rs:240-248 | For any replacements, the splice from last to first runs out of range if and only if some range ends behind the lines that are there at its turn: the original ones and the growth of the later replacements. If it does not, the length is the file plus the total growth. |
| `ApplyPatch.SpliceReverseRebuilds` | native/crates/codex-apply-patch-adapter/src/lib.rs:240-248 | Splicing disjoint replacements from last to first in place equals rebuilding the file in one forward pass. |
| `ApplyPatch.KeptLineLands` | native/crates/codex-apply-patch-adapter/src/lib.rs:240-248 | Every line outside all replaced ranges survives, shifted by exactly the growth of the replacements before it. |
| `ApplyPatch.ReplacementLands` | native/crates/codex-apply-patch-adapter/src/lib.rs:240-248 | The new lines of every replacement appear, whole and in place, at its start shifted by the growth before it. |
| `ApplyPatch.RebuiltLength` | native/crates/codex-apply-patch-adapter/src/lib.rs:240-248 | The result is as long as the file plus the total growth, so kept lines and new lines are all there is. |
| `ApplyPatch.PatchedLines` | native/crates/codex-apply-patch-adapter/src/lib.rs:177-178 | Computing and applying together never splice out of range and equal the forward rebuild, whenever the end-of-file hits clear. |
| `ApplyPatch.EofHitCanOverlap` | native/crates/codex-apply-patch-adapter/src/lib.rs:213-234 | A concrete two-hunk patch for which the condition fails: the ranges overlap and the splice runs out of range. |
| `ApplyPatch.JoinSplit` | native/crates/codex-apply-patch-adapter/src/lib.rs:173-182 | Splitting a text at newlines and joining it again gives the text back. |
| `ApplyPatch.PatchedFileEndsInNewline` | native/crates/codex-apply-patch-adapter/src/lib.rs:168-183 | Whatever the patch, its result is empty or ends in a newline. |
| `ApplyPatch.EmptyEditKeepsFile` | native/crates/codex-apply-patch-adapter/src/lib.rs:173-182 | A patch without hunks keeps a file if and only if it is empty or ends in exactly one newline after some other character. |
| `FrameDecoder.ServerFrameDecoder.Push` | src/infrastructure/codex-bridge/protocol.ts:379-404 | The byte loop over any chunk returns the messages of the lines it completes and keeps exactly the unfinished rest, or fails and forgets everything buffered. |
| `FrameDecoder.ServerFrameDecoder.Finish` | src/infrastructure/codex-bridge/protocol.ts:406-414 | Finishing succeeds exactly when nothing is buffered, and leaves the decoder empty either way. |
| `FrameDecoder.ServerFrameDecoder.Append` | src/infrastructure/codex-bridge/protocol.ts:416-432 | Buffering keeps the limit of one frame plus a carriage return, or fails and empties the buffer. |
| `FrameDecoder.ChunkingIrrelevant` | src/infrastructure/codex-bridge/protocol.ts:379-404 | Feeding a stream in any chunks gives the messages, the rest or the error of feeding it at once. |
| `FrameDecoder.TooLongStays` | src/infrastructure/codex-bridge/protocol.ts:416-432 | Once the buffer is over the limit no continuation of the stream is accepted, so failing early loses nothing. |
| `FrameDecoder.LinesCutTheStream` | src/infrastructure/codex-bridge/protocol.ts:383-400 | Cutting a stream at line feeds is reversible and leaves no line feed inside a line. |
| `FrameDecoder.FeedDecodesLines` | src/infrastructure/codex-bridge/protocol.ts:379-404 | The byte-by-byte decoder is the line-by-line one. |
| `FrameDecoder.StreamVerdict` | src/infrastructure/codex-bridge/protocol.ts:375-438 | A stream in any chunks is accepted if and only if each of its terminated lines decodes and its last line is within the limit; the output is then the decoding of each line in order, and at most one byte more than a frame stays buffered. |
| `FrameDecoder.FinishVerdict` | src/infrastructure/codex-bridge/protocol.ts:406-414 | After an accepted stream nothing is buffered, so finishing succeeds, if and only if the stream is empty or ends in a line feed. |
| `FrameDecoder.RoundTrip` | native/crates/bridge-protocol/src/lib.rs:433-468 | Encoding any messages whose payloads are non-empty, within the limit and free of CR and LF, concatenating the frames and cutting them anywhere gives the messages back and leaves nothing over. |
| `BridgeRequests.RunKeepsTable` | src/infrastructure/codex-bridge/client.ts:143-177 | Over every interleaving with fresh ids: each request settles at most once, pending and ignored ids stay disjoint, at most 65,536 ids are ignored, and a closed client has nothing pending, every request ever opened having settled exactly once. |
| `BridgeRequests.RunKeepsOrder` | src/infrastructure/codex-bridge/client.ts:462-488 | Over every interleaving the log of handlers, acknowledgements and resolutions stays the one dictated by arrival order, and a failed handler means a closed client. |
| `BridgeRequests.ResultsFollowHandlers` | src/infrastructure/codex-bridge/client.ts:462-488 | A request resolves with a result only after the handler of everything that arrived before it has finished and every event was acknowledged, in arrival order and once each; no handler failed before. |
| `BridgeRequests.CompletedTraceHolds` | src/infrastructure/codex-bridge/client.ts:464-471 | In that history every earlier arrival has its handler entry, every event right behind it its acknowledgement, in order of arrival. |
| `BridgeRequests.AbortedRequestIsIgnored` | src/infrastructure/codex-bridge/client.ts:161-166 | An abort settles its request once and makes the client ignore what still arrives for it, or has failed the client; an aborted regular request has its cancel opened. |
| `BridgeRequests.IgnoredUntilTerminal` | src/infrastructure/codex-bridge/client.ts:414-440 | Over any run, an ignored request stays ignored until its terminal message arrives. |
| `BridgeRequests.LateMessagesAreHarmless` | src/infrastructure/codex-bridge/client.ts:414-440 | So at any later moment a late message of an aborted or timed-out request changes nothing, and its terminal message only ends the ignoring. |
| `BridgeRequests.BridgeClient.StartRequest` | src/infrastructure/codex-bridge/client.ts:143-177 | Opening a request adds it to the table, or nothing when the client is not ready. |
| `BridgeRequests.BridgeClient.StartControl` | src/infrastructure/codex-bridge/client.ts:320-367 | The same for control requests, which shutdown may still open while the client is closing. |
| `BridgeRequests.BridgeClient.StartShutdown` | src/infrastructure/codex-bridge/client.ts:259-280 | Shutdown marks the client as closing and opens its control request; on a closed client, and once started, it does nothing. |
| `BridgeRequests.ShutdownStartsOnce` | src/infrastructure/codex-bridge/client.ts:259-263 | Over any run after a shutdown has started, starting it again changes nothing. |
| `BridgeRequests.BridgeClient.AbortSignalled` | src/infrastructure/codex-bridge/client.ts:161-166 | An abort settles the request, ignores its late messages (or fails the client at the limit) and opens a cancel for a regular request. |
| `BridgeRequests.BridgeClient.TimeoutExpired` | src/infrastructure/codex-bridge/client.ts:353-359 | An expired control request settles and its late messages are ignored. |
| `BridgeRequests.BridgeClient.SettlePending` | src/infrastructure/codex-bridge/client.ts:549-567 | Settling removes a pending request and counts it once; a settled one is left alone. |
| `BridgeRequests.BridgeClient.IgnoreLate` | src/infrastructure/codex-bridge/client.ts:576-591 | Ignoring one id too many fails the client instead. |
| `BridgeRequests.BridgeClient.RejectAllPending` | src/infrastructure/codex-bridge/client.ts:593-598 | The loop settles everything pending, and each request once. |
| `BridgeRequests.BridgeClient.FailConnection` | src/infrastructure/codex-bridge/client.ts:618-626 | Failing closes the client and settles everything, and does nothing to a closed one. |
| `BridgeRequests.BridgeClient.CloseConnection` | src/infrastructure/codex-bridge/client.ts:282-291 | Closing does the same by request. |
| `BridgeRequests.BridgeClient.RouteMessage` | src/infrastructure/codex-bridge/client.ts:414-490 | Routing in any state: late messages of ignored ids, connection errors, unknown requests and the four kinds of request messages. |
| `BridgeRequests.BridgeClient.RouteHandshakeMessage` | src/infrastructure/codex-bridge/client.ts:492-533 | Before the client is ready only its own handshake is accepted. |
| `BridgeRequests.BridgeClient.EnqueueTask` | src/infrastructure/codex-bridge/client.ts:535-547 | A message joins the end of its own request's chain. |
| `BridgeRequests.BridgeClient.HandlerReturned` | src/infrastructure/codex-bridge/client.ts:464-480 | A finished handler is logged and, for an event, waits for its acknowledgement; a failed one fails the client. |
| `BridgeRequests.BridgeClient.AcknowledgementSent` | src/infrastructure/codex-bridge/client.ts:466-470 | The next task starts only once the acknowledgement is written. |
| `BridgeRequests.BridgeClient.ResultReachedHead` | src/infrastructure/codex-bridge/client.ts:483-488 | A result at the head of the chain resolves its request if it is still pending. |
| `MessageNormalization.NormalizeCodexContextMessages` | src/integration/pi/codex-message-normalization.ts:16-58 | The one-pass loop with its pending list computes the specification, failing on the same inputs. |
| `MessageNormalization.CollectCalls` | src/integration/pi/codex-message-normalization.ts:75-92 | Collecting an assistant message's tool calls rejects malformed and repeated ones and keeps the order. |
| `MessageNormalization.SplitsAtBoundary` | src/integration/pi/codex-message-normalization.ts:20-57 | If the second part starts with a turn boundary, normalising the whole is normalising the parts, and fails exactly when either fails. |
| `MessageNormalization.SplitsExactlyWhen` | src/integration/pi/codex-message-normalization.ts:20-57 | For any two lists, normalising the whole is normalising the parts if and only if a part fails by itself, no call is open at the cut, nothing follows, or what follows starts at a turn boundary; otherwise the whole fails or differs. |
| `MessageNormalization.PendingCostsAtMostItself` | src/integration/pi/codex-message-normalization.ts:20-57 | Starting with open calls never adds more than one synthetic result for each of them. |
| `MessageNormalization.ErasureGivesInput` | src/integration/pi/codex-message-normalization.ts:25-57 | Erasing the synthetic results from the output gives exactly the input without failed assistant messages. |
| `MessageNormalization.NormalizeIdempotent` | src/integration/pi/codex-message-normalization.ts:16-58 | Normalising a normalised list changes nothing. |
| `MessageNormalization.EveryCallAnswered` | src/integration/pi/codex-message-normalization.ts:16-58 | In the output, every tool call of every assistant message has a result of its own kind before the next turn boundary. |
| `CheckpointReplay.ProjectionSplits` | src/integration/pi/codex-compaction-replay.ts:570-586 | The canonical projection of a branch splits wherever normalisation does, in its items and in its failures. |
| `CheckpointReplay.ReplayIsTailOfProjection` | src/integration/pi/codex-compaction-replay.ts:544-568 | For any host, if no call is open behind the covered entries, or what follows them starts at a turn boundary, is empty or fails by itself, the replay is the checkpoint output followed by exactly the rest of the full projection behind the covered part, and fails exactly when the full projection fails. |
| `CheckpointReplay.ReplayIsTailExactlyWhen` | src/integration/pi/codex-compaction-replay.ts:544-586 | With the conversion of the provider (a tool result is one item naming its call, and no other message has items unless it is a turn boundary), this is so if and only if what follows the cut fails by itself, no call is open at the cut, or nothing that has items comes before the first turn boundary behind it. |
| `CheckpointReplay.HeadIsSilentExactlyWhen` | src/integration/pi/codex-provider.ts:619-657 | There, nothing that has items comes before a turn boundary exactly if no tool result does. |
| `CheckpointReplay.ReplayAcrossOpenCallDiffers` | src/integration/pi/codex-compaction-replay.ts:544-568 | A branch under such a conversion where it is not so: the covered part answers its open call with an invented result, the full projection with the recorded one, and the replay sends the recorded one behind the checkpoint. |
| `CheckpointReplay.ScanRemoteCompactionCheckpoints` | src/integration/pi/codex-compaction-replay.ts:517-542 | The backward scan returns the newest usable checkpoint of the identity, and reports a mismatch exactly when a foreign one is newer than what it returns. |
| `NameLists.DedupKeepsFirstOrder` | src/integration/pi/codex-tool-profile.ts:56-65 | The deduplicated list is ordered by first occurrence. |
| `ToolProfile.OrderedUnique` | src/integration/pi/codex-tool-profile.ts:56-65 | The loop with its seen-set keeps the first occurrence of every name, in order. |
| `ToolProfile.Reconcile` | src/integration/pi/codex-tool-profile.ts:68-84 | A Codex view is the available additive tools in their order, then the available managed ones, without repetition. |
| `ToolProfile.RestoreNames` | src/integration/pi/codex-tool-profile.ts:87-120 | The two loops restore captured core tools and surviving additive tools in baseline order, then newer additive tools, without repetition. |
| `ToolProfile.ValidateOwnership` | src/integration/pi/codex-tool-profile.ts:136-156 | Ownership holds if and only if the registry answers and every name is a managed tool registered last by the expected extension; otherwise the first offender is named. |
| `ToolProfile.InstallShowsAll` | src/integration/pi/codex-tool-profile.ts:212-240 | A successful installation shows the still available additive tools and then exactly the requested managed tools, in order. |
| `ToolProfile.RunKeepsConsistent` | src/integration/pi/codex-tool-profile.ts:204-346 | In every run in which others change only additive tools of a Codex profile: readiness matches the phase, no core tool is active in a Codex phase, the active managed tools are exactly the installed ones and none when pending or unavailable, and a conflict is announced at most once a generation. |
| `ToolProfile.RestoreReflectsEdits` | src/integration/pi/codex-tool-profile.ts:87-120 | Whatever operations and outside edits lie between entering and restoring, with any registries: captured core tools visible then and now and surviving additive tools return in original order, and newer additive tools follow. |
| `ToolProfile.RunsRestoreOriginal` | src/integration/pi/codex-tool-profile.ts:204-346 | Any operations in any order and number over one registry, without outside edits, that end in a restore give the original list filtered to available unmanaged tools, in its original order. |
| `ToolProfile.CodexToolProfile.EnterPending` | src/integration/pi/codex-tool-profile.ts:204-210 | Entering remembers the active list once, hides core and managed tools and opens a new generation. |
| `ToolProfile.CodexToolProfile.InstallHealthy` | src/integration/pi/codex-tool-profile.ts:212-240 | Installing succeeds exactly when ownership does, and otherwise leaves the profile unavailable. |
| `ToolProfile.CodexToolProfile.InstallUnavailable` | src/integration/pi/codex-tool-profile.ts:242-258 | Managed tools are hidden and a conflict is announced unless it was in this generation. |
| `ToolProfile.CodexToolProfile.RevalidateHealthyOwnership` | src/integration/pi/codex-tool-profile.ts:260-283 | A healthy profile stays so exactly while its ownership holds. |
| `ToolProfile.CodexToolProfile.RestorePi` | src/integration/pi/codex-tool-profile.ts:289-311 | Restoring writes the restored list and leaves the Codex state from any phase. |
| `ToolProfile.CodexToolProfile.ApplyActiveNames` | src/integration/pi/codex-tool-profile.ts:365-370 | The host is written to only when its deduplicated list differs. |
| `ToolActivation.PlayInStep` | src/integration/pi/codex-tools.ts:73-225 | In every interleaving a pending profile has its activation still running, and a healthy one belongs to the recorded key and to the model selected last. |
| `ToolActivation.SettledProfile` | src/integration/pi/codex-tools.ts:73-194 | Once the latest activation is through, the profile is restored, unavailable, or healthy for exactly the model and configuration that activation saw. |
| `ToolActivation.StaleContinuationsDoNothing` | src/integration/pi/codex-tools.ts:110-193 | In every interleaving of overlapping activations, leaving out every continuation but those of the then latest activation gives the same profile and bookkeeping. |
| `ToolActivation.ShutdownIsFinal` | src/integration/pi/codex-tools.ts:212-225 | After a shutdown the restored profile stays through any sequence of in-flight continuations and setting changes. |
| `ToolActivation.CodexTools.Activate` | src/integration/pi/codex-tools.ts:73-150 | An activation runs to its first await: it restores, keeps or suspends the profile, and with a supplied configuration goes on to the second await at once. |
| `ToolActivation.CodexTools.OnConfigLoaded` | src/integration/pi/codex-tools.ts:110-150 | Continuing with a configuration, unless stale. |
| `ToolActivation.CodexTools.OnCapabilitiesResolved` | src/integration/pi/codex-tools.ts:150-179 | Installing the resolved tools and recording key and model, unless stale. |
| `ToolActivation.CodexTools.OnThrow` | src/integration/pi/codex-tools.ts:180-193 | A failed activation fails closed or restores, unless stale. |
| `ToolActivation.CodexTools.OnSessionShutdown` | src/integration/pi/codex-tools.ts:212-225 | Shutdown invalidates everything in flight and restores. |
| `ContextAccounting.IdentityKeyInjective` | src/application/compaction.ts:602-612 | Identities whose fields are free of the separator have distinct keys. |
| `ContextAccounting.AccountingKeyInjective` | src/application/compaction.ts:437-439 | For such identities and session ids free of NUL, session and identity can be read back from a record's key. |
| `ContextAccounting.PrefixSweepsExactly` | src/application/compaction.ts:401-403 | For any ids and identity, the prefix used to sweep records matches exactly the session itself, sessions whose id goes on with NUL behind the swept id, and those whose id, NUL and a part of the identity key up to a NUL make up the swept id and NUL. |
| `ContextAccounting.PrefixNamesSession` | src/application/compaction.ts:401-403 | If the identity key or the swept id is free of NUL, another session is swept if and only if its id goes on with NUL behind the swept id. |
| `ContextAccounting.NulSessionIsSwept` | src/application/compaction.ts:401-403 | With NUL in a session id the prefix also matches another session. |
| `ContextAccounting.KeptIsBest` | src/application/compaction.ts:364-394 | What the store keeps is the accepted record with the highest request generation (the last on a tie) since the session was last forgotten, and nothing exactly when there is none, whatever the order of completions. |
| `ContextAccounting.SnapshotIsCurrentUntilForgotten` | src/application/compaction.ts:337-362 | A generation handed out with a snapshot is current if and only if nothing has forgotten the session since. |
| `ContextAccounting.StaleRecordingRefused` | src/application/compaction.ts:374-382 | A recording made with a snapshot issued before an invalidation, a disposal of one or all sessions, or an identity switch is refused. |
| `ContextAccounting.CodexCompactionStore.Account` | src/application/compaction.ts:337-362 | A snapshot carries the generation and the best usage that the history of the store calls for. |
| `ContextAccounting.CodexCompactionStore.RecordUsage` | src/application/compaction.ts:364-394 | A recording is taken exactly when it is timely and not outdone by a later request. |
| `ContextAccounting.CodexCompactionStore.InvalidateContextAccounting` | src/application/compaction.ts:396-404 | Invalidation keeps the maps in agreement with the history. |
| `ContextAccounting.CodexCompactionStore.DisposeSession` | src/application/compaction.ts:406-418 | So does disposing a session. |
| `ContextAccounting.CodexCompactionStore.DisposeEverything` | src/application/compaction.ts:420-434 | So does disposing all, which advances the known sessions only but clears every record. |
| `BaselineAlignment.PrepareRequest` | src/integration/pi/codex-compaction-replay.ts:337-348 | The hook takes a snapshot and hands out a baseline only if the stored digests match this request's instructions and input prefix. |
| `BaselineAlignment.CompleteRequest` | src/integration/pi/codex-provider.ts:207-231 | A completed request is recorded only if it sent what was prepared, and then its usage is what the store hands out next. |
| `BaselineAlignment.BaselineWasMeasured` | src/integration/pi/codex-compaction-replay.ts:337-348 | In every interleaving, the estimator is given a baseline exactly when the best record that still counts for the session and identity was measured for a completed request under the same instructions whose whole input is a prefix of this one; it is then that request's measurement. |
| `RequestGuard.RunIsOrderly` | src/integration/pi/codex-provider-request-guard.ts:64-176 | Generations are handed out once, counting up; a record is held exactly while it is open, and none after disposal. |
| `RequestGuard.LiveSinceOpened` | src/integration/pi/codex-provider-request-guard.ts:165-175 | A record is live exactly from its opening until the first event that consumes, aborts, invalidates or disposes it. |
| `RequestGuard.StoredIsDigested` | src/integration/pi/codex-provider-request-guard.ts:98-108 | The last payload stored for a record is the last one digested exactly when it can be digested. |
| `RequestGuard.SentWasApproved` | src/integration/pi/codex-provider-request-guard.ts:116-128 | What passes the last check belongs to a live record without a failure whose last digested payload has the content asked about; what is sent is that payload exactly when the last payload stored can be digested. |
| `RequestGuard.HalfApprovalReplacesPayload` | src/integration/pi/codex-provider-request-guard.ts:98-108 | A concrete run in which an approval that fails while digesting replaces the payload an earlier approval allowed. |
| `RequestGuard.CodexProviderRequestGuard.OpenRecord` | src/integration/pi/codex-provider-request-guard.ts:70-87 | A new record is live under an unused generation, unless the guard is disposed. |
| `RequestGuard.CodexProviderRequestGuard.ApproveRequest` | src/integration/pi/codex-provider-request-guard.ts:98-108 | Approval succeeds only for a live record in its own scope with a payload that freezes and digests. |
| `RequestGuard.CodexProviderRequestGuard.ConsumeRecord` | src/integration/pi/codex-provider-request-guard.ts:130-134 | A consumed record is never live again. |
| `RequestGuard.CodexProviderRequestGuard.InvalidateRecordsOf` | src/integration/pi/codex-provider-request-guard.ts:136-140 | No record of the session is live afterwards. |
| `RequestGuard.CodexProviderRequestGuard.DisposeGuard` | src/integration/pi/codex-provider-request-guard.ts:146-149 | No record at all is live afterwards. |
| `RequestGuard.CodexProviderRequestGuard.AssertApproved` | src/integration/pi/codex-provider-request-guard.ts:116-128 | The last check gives the verdict that the history calls for. |
| `ResponseStream.CompleteStreamReplays` | src/integration/pi/codex-provider.ts:252-528 | For every sequence of events, also with some that throw: after completion the emitted stream consists of closed, never nested blocks numbered 0, 1, 2 and so on, each end event carries the concatenation of its block's deltas, replaying it gives the stored message, and the stop reason is right. |
| `ResponseStream.EventsAddUp` | src/integration/pi/codex-provider.ts:266-472 | Each event adds its own delta, missing text, summary or call at the end and takes nothing away. |
| `ResponseStream.AcceptedAllStreamed` | src/integration/pi/codex-provider.ts:266-284 | The same holds at every moment, with at most the last block open. |
| `ResponseItems.StoredIsBroughtExactlyWhen` | src/integration/pi/codex-provider.ts:266-492 | For every sequence of events, and for text and thinking each: what is stored is what the events brought (of each item its completed text if it has one and otherwise its deltas) at every moment if and only if every completed item finds either no earlier item in its block and just its own deltas, which begin it, or no deltas of its own and a block that does not begin it. |
| `ResponseItems.MessageIsWhatArrived` | src/integration/pi/codex-provider.ts:266-297 | The calls of a completed response are always those brought, and its text and thinking are those brought whenever every completed item fits in that sense. |
| `ResponseItems.CompletedTextIsExact` | src/integration/pi/codex-provider.ts:350-382 | With the block as it was when the item before finished and the deltas since, a completed message or reasoning item leaves the block with both items exactly when nothing was there before and the deltas begin it, or something was there that does not begin it and no delta came. |
| `ResponseItems.BlockAfter` | src/integration/pi/codex-provider.ts:299-492 | What is in the open block of a kind after any event: nothing if the event closes it, and otherwise what was there with the delta, or the completed text if what was there begins it and else both. |
| `ResponseItems.SecondMessageIsRepeated` | src/integration/pi/codex-provider.ts:350-365 | Of two streamed messages in a row the second one is stored twice. |
| `ResponseItems.FirstMessageIsLost` | src/integration/pi/codex-provider.ts:350-365 | Of two messages without deltas in a row, the first of which begins the second, only the second one is stored, though both were brought. |
| `ResponseSignatures.SignaturesStoredExactlyWhen` | src/integration/pi/codex-provider.ts:320-472 | For every sequence of events, a completed response holds exactly the signatures of the finished items that could be encoded, in order, if and only if no message or reasoning item is signed in a block that an item before it has signed and nothing has closed since; and it holds exactly one fewer for each item that is. |
| `ResponseSignatures.StoredSignaturesAreLeft` | src/integration/pi/codex-provider.ts:320-472 | At every moment the stored signatures are those brought, without the ones whose place another item has taken, each time the last one then stored; and a block that is open is signed exactly if an item of its kind has signed since the last event that closes such a block. |
| `ResponseItems.FirstSignatureIsLost` | src/integration/pi/codex-provider.ts:384-399 | Inputs that lose a signature: of two messages in a row, the first of which does not begin the second, both texts are stored, under the second one's signature alone. |
| `ResponseItems.ReasoningItemsShareBlock` | src/integration/pi/codex-provider.ts:332-382 | The same of two reasoning items in a row, which also lose the first text if it begins the second. |
| `ResponseStream.ResponseState.Accept` | src/integration/pi/codex-provider.ts:266-284 | Accepting an event has the specified effect and reports a throw, with what was done before it. |
| `ResponseStream.ResponseState.Complete` | src/integration/pi/codex-provider.ts:286-297 | Completion closes the open block and sets the stop reason. |
| `ResponseStream.ResponseState.FinishText` | src/integration/pi/codex-provider.ts:350-365 | Only the missing part of a completed text is emitted, or all of it when what arrived is no prefix. |
| `ResponseStream.ResponseState.EnsureTextBlock` | src/integration/pi/codex-provider.ts:474-482 | Opening a text block closes an open thinking block first. |
| `ResponseStream.ResponseState.AddTool` | src/integration/pi/codex-provider.ts:401-413 | A tool call closes the open block and is a block of its own. |
| `ResponseStream.ResponseState.AddWholeText` | src/integration/pi/codex-provider.ts:415-472 | An opaque item or a web search closes the open block and is a block of its own, unless encoding it throws. |
| `OutputBatches.BatchFits` | native/crates/codex-bridge/src/model_output_bounds.rs:26-42 | Fitting a batch into a budget keeps its length and its total cost within the budget. |
| `OutputBatches.BatchKeepsWhatFits` | native/crates/codex-bridge/src/model_output_bounds.rs:26-34 | The outputs at the front of the batch that fit together are not touched. |
| `OutputBatches.BoundItems` | native/crates/codex-bridge/src/model_output_bounds.rs:14-43 | The in-place passes over the array compute the bounded list. |
| `ModelOutputBounds.Truncated` | native/crates/codex-bridge/src/model_output_bounds.rs:49-80 | A truncated output costs at most the limit whatever the truncator returned, keeps its kind and success flag, and is untouched if it fits. |
| `ModelOutputBounds.TruncatingIsSound` | native/crates/codex-bridge/src/model_output_bounds.rs:49-80 | Truncation meets any limit it is given and leaves alone what meets it. |
| `ModelOutputBounds.BoundingKeepsFrames` | native/crates/codex-bridge/src/model_output_bounds.rs:14-43 | Bounding changes nothing but output contents, and outputs before the latest batch are only truncated one by one. |
| `ModelOutputBounds.BoundingMeetsBothLimits` | native/crates/codex-bridge/src/model_output_bounds.rs:14-43 | For any truncators, every output costs at most the limit and so do the outputs of the latest batch together. |
| `ModelOutputBounds.FixedWithinLimits` | native/crates/codex-bridge/src/model_output_bounds.rs:14-43 | Bounding leaves a list alone if and only if it is within both limits already. |
| `ModelOutputBounds.BoundingIsIdempotent` | native/crates/codex-bridge/src/model_output_bounds.rs:14-43 | Bounding twice is bounding once. |
| `ModelOutputBounds.BoundModelOutputItems` | native/crates/codex-bridge/src/model_output_bounds.rs:14-43 | The function of the source, in place on its array. |
| `CompactionContextFit.FittingIsLeast` | native/crates/codex-bridge/src/compaction_context_fit.rs:50-77 | With a known limit, fitting succeeds if and only if rewriting some number of items, up to the eligible run at the end, fits; it then has rewritten the least such number. |
| `CompactionContextFit.RewritingKeepsCalls` | native/crates/codex-bridge/src/compaction_context_fit.rs:108-151 | Items before the rewritten ones are untouched, and rewritten ones keep kind, call, success flag and metadata. |
| `CompactionContextFit.FitCompactionInput` | native/crates/codex-bridge/src/compaction_context_fit.rs:50-77 | The reverse loop leaves exactly that input and returns that verdict. |
| `RemoteCompaction.CompactedHistoryShape` | native/crates/codex-bridge/src/remote_compaction_v2.rs:9-50 | For any token count and truncator the history is an in-order selection of retained messages and the compaction item; whole messages are charged at most 64,000 tokens, at most one message is shortened, and nothing older is kept. |
| `RemoteCompaction.RetainedInOrder` | native/crates/codex-bridge/src/remote_compaction_v2.rs:13-17 | The retained messages come from increasing positions of the input and are user, developer or system messages. |
| `RemoteCompaction.EveryRetainedIsTaken` | native/crates/codex-bridge/src/remote_compaction_v2.rs:24-26 | No user, developer or system message is filtered out. |
| `RemoteCompaction.ShortenedFrom` | native/crates/codex-bridge/src/remote_compaction_v2.rs:42-46 | A shortened message is the one at its place, cut to a budget smaller than its charge. |
| `RemoteCompaction.GaplessExactlyWhen` | native/crates/codex-bridge/src/remote_compaction_v2.rs:28-50 | For any token count and truncator, the messages kept whole are the newest ones without a gap, with at most a shortened one before them, if and only if the newest message over budget can be shortened or nothing older than it is kept. |
| `RemoteCompaction.WholeMessagesAreNewest` | native/crates/codex-bridge/src/remote_compaction_v2.rs:28-50 | If the truncator never empties a text that is not empty, that is so for any messages, and the newest message not kept whole would not have fitted. |
| `RemoteCompaction.LinkedMeterIsGentle` | native/vendor/openai-codex/codex-rs/utils/string/src/truncate.rs:15-36 | The linked truncator is of this kind: whatever the budget, a text that is not empty never becomes empty. |
| `RemoteCompaction.CompactedHistoryIsGapless` | native/crates/codex-bridge/src/remote_compaction_v2.rs:9-22 | So with the linked token count and truncator the compacted history of any items is without a gap. |
| `RemoteCompaction.GentleLeavesContent` | native/crates/codex-bridge/src/remote_compaction_v2.rs:67-107 | Under such a truncator a message over budget never loses all of its content. |
| `RemoteCompaction.ShortenMessage` | native/crates/codex-bridge/src/remote_compaction_v2.rs:67-115 | The loop over a message's content spends the budget in order and drops empty texts. |
| `RemoteCompaction.TruncateRetained` | native/crates/codex-bridge/src/remote_compaction_v2.rs:28-50 | The loop from newest to oldest and the final reversal give the selection. |
| `RemoteCompaction.BuildCompactedHistory` | native/crates/codex-bridge/src/remote_compaction_v2.rs:9-22 | The history of the source. |
| `TextTruncation.LongTextIsCut` | native/vendor/openai-codex/codex-rs/utils/string/src/truncate.rs:38-69 | A text over budget, or any text under a budget of nothing, becomes two of its ends around a marker; the ends together are within the budget and, with what is between them, the whole text. |
| `TextTruncation.SplitString` | native/vendor/openai-codex/codex-rs/utils/string/src/truncate.rs:86-124 | The pass over the characters finds the two ends of the split and counts the characters between them. |
| `TextTruncation.SplitFits` | native/vendor/openai-codex/codex-rs/utils/string/src/truncate.rs:86-124 | Each end keeps to its own share of the bytes. |
| `SessionRouter.LiveAreServing` | src/integration/pi/provider-session-router.ts:66-141 | In every run of creating, binding, rebinding, releasing, collecting, finalising and dispatching, what is live in a session's bucket is the plain set of leases serving it, and no bucket is empty. |
| `SessionRouter.RunKeeps` | src/integration/pi/provider-session-router.ts:66-141 | Tokens are only in the bucket of the session their unreleased binding names, and the finalizer watches only bound leases. |
| `SessionRouter.Router.BindLease` | src/integration/pi/provider-session-router.ts:111-127 | Binding fails exactly for a blank id or a released lease, and then changes nothing. |
| `SessionRouter.Router.ReleaseLease` | src/integration/pi/provider-session-router.ts:128-136 | Releasing takes the lease out of its bucket for good. |
| `SessionRouter.Router.RemoveToken` | src/integration/pi/provider-session-router.ts:189-198 | Removing the last token removes the bucket. |
| `SessionRouter.Router.FinalizeBinding` | src/integration/pi/provider-session-router.ts:72-74 | The finalizer callback removes what collection left behind. |
| `SessionRouter.Router.Resolve` | src/integration/pi/provider-session-router.ts:167-187 | Resolving finds a lease exactly when it is the only one serving the session, and prunes the bucket. |
| `SessionRouter.Router.DispatchTo` | src/integration/pi/provider-session-router.ts:76-98 | A request without a session id has no route; any other gets the answer of the plain lease set. |
| `SbomReachability.Reachable` | scripts/generate-native-sbom.ts:108-119 | The worklist ends on every graph with exactly the packages the root reaches, the least set that holds the root and is closed under production dependencies. |
| `SbomReachability.ReachableIsLeastClosed` | scripts/generate-native-sbom.ts:108-119 | What is reached along paths is the least closed set. |
| `SbomReachability.VisitingKeeps` | scripts/generate-native-sbom.ts:110-118 | A turn that visits a package keeps the worklist sound and complete and leaves fewer packages to visit. |
| `SbomReachability.PushDependencies` | scripts/generate-native-sbom.ts:116-118 | Exactly the production dependencies are pushed, above what was there. |
| `SbomReachability.ProductionMembers` | scripts/generate-native-sbom.ts:168-177 | The filter keeps exactly the dependencies that are not development-only. |

## Left out

- Process spawning, standard input and output, HTTP and WebSocket transport, the file system, hashing and git: writes that
  complete or fail are steps, everything else is not modelled.
- JSON parsing, schema checks and text decoding: one partial function from payload bytes to messages.
- In the patch adapter, everything around the line list: paths, permissions, adding, deleting and moving files. The line
  comparison of each search pass is an arbitrary canonical form of a line.
- BridgeRequests.RunKeepsTable: the messages of one chunk are separate steps, so it also covers runs in which other events
  come between them; a transport whose `close` throws is not modelled.
- BridgeRequests.RunKeepsOrder: a handler failure is logged for a failed acknowledgement too, since both fail the client;
  the rejection branch of a waiting result is left out because every chain ends in a catch and never rejects.
- `PendingRequest` cleanup (removing listeners, clearing timers) is the absence of later abort and timeout steps.
- MessageNormalization.NormalizeCodexContextMessages: returning the very same array when nothing changed is not modelled,
  only the equal list; fields of a message that the function never looks at are carried as one opaque value.
- CheckpointReplay.ReplayIsTailOfProjection: the host's conversions from session entries to messages and from messages to
  items are arbitrary element-wise functions; of the provider's own, only what CheckpointReplay.ReplayIsTailExactlyWhen
  needs is stated.
- ToolProfile.CodexToolProfile.RestorePi and the other profile operations: one answer of the registry serves a whole
  operation, and extension paths are compared as they are after normalisation. A tool registry that changes between two
  reads of one synchronous operation is not modelled.
- ToolActivation.CodexTools.Activate: status texts, warnings and the computation of capability keys are left out; the key
  is part of the configuration a step supplies. Exceptions thrown by the host's tool functions themselves are left out.
- ContextAccounting.CodexCompactionStore.Account: warning keys and `CodexCompactionCoordinator` are left out; the latter
  does not guarantee mutual exclusion by itself, since any caller may end an operation.
- ContextAccounting.KeptIsBest and the store's agreement with its history are stated for session ids free of NUL and
  identities whose fields are free of the separator. The store checks neither; what a sweep does with other ids is
  ContextAccounting.PrefixSweepsExactly.
- RequestGuard.CodexProviderRequestGuard.ApproveRequest: the async-local scope and the abort signals are parameters;
  cloning and freezing of the record's snapshots are left out, freezing and digesting a payload succeed or throw.
- ResponseStream.ResponseState.Accept: usage counts, cost, response and model ids are left out; items arrive as the text,
  call or signature the code extracts from them.
- ResponseItems.StoredIsBroughtExactlyWhen: events carry no item ids, so a delta counts for the item of its kind that
  finishes next, or for the web search before which it stands. A response is judged at every moment, so that no later
  repetition makes up for an earlier loss.
- ModelOutputBounds.BoundModelOutputItems: the policy arrives scaled; the floating-point factor 1.2 is left out. Texts
  have any length; the saturating sums over their lengths in UTF-8 are modelled.
- RemoteCompaction.BuildCompactedHistory: the sum of token counts is unbounded.
- TextTruncation.SplitString: a character is a code point that takes one to four bytes, so lone surrogates, which a Rust
  string cannot hold, are included. Truncation with a marker that counts characters serves other callers.
- CompactionContextFit.FitCompactionInput: the two estimates are an arbitrary function of the input.
- SessionRouter.Router.Resolve: weak references resolve exactly while the binding has not been collected; the dispatchers
  themselves, the process-wide slot and error streams are left out. Session ids are wrapped in a datatype.
- SbomReachability.Reachable: reading the metadata, references, sorting and writing the bill of materials are left out.
- Terminal interface, status texts, tool renderers, configuration parsing, capability evaluation, runtime reconnection,
  redaction and packaging scripts: presentation or finite case analysis.
