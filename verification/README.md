# Shoggoth: verified models of the concurrent and streaming core

A Dafny project that models the parts of the Shoggoth daemon in which state, asynchronous results or incremental input
make correctness hard to see, and proves what they guarantee. `dafny verify dfyconfig.toml` checks everything.

| part | modules |
|---|---|
| Service lifecycle: registry, tool map and approvals under interleaved handlers | `ServiceWorld`, `ServiceStores`, `ServiceLifecycle`, `ServiceInvariants`, `ServiceAtomicity`, `ServiceOverlap`, `ServiceSteps`, `ServiceApprovals`, `ServiceEffects` |
| JSON-RPC sessions (JSON-RPC 2.0, sections 4 to 6): who settles a request | `PendingRequests`, `JsonRpcMessages`, `JsonRpcSession`, `JsonRpcAnswers`, `StreamableHttpSession`, `HttpPosts`, `SessionEvents` |
| Event streams (section 9.2.6 of the WHATWG HTML Standard) | `SseStream`, `SseRoundTrip` |
| Provider streams | `AnthropicBlocks`, `AnthropicMessage`, `AnthropicContent`, `TextOrder`, `AnthropicTags`, `AnthropicUsage`, `AnthropicStream`, `AnthropicWire`, `AnthropicDelivery`, `OpenAiToolCalls`, `OpenAiStream`, `OpenAiDelivery` |
| Thinking tags in streamed text | `ThinkingNormalizer`, `ThinkingTokens`, `ThinkingStream`, `ThinkingReports`, `ThinkingDocuments` |
| Transcripts: compaction and its table | `ChatMessages`, `Compaction`, `CompactionProofs`, `CompactionSummaries`, `TranscriptStore`, `TranscriptAppend`, `SessionCompaction`, `SessionRuns`, `SessionAppends` |
| Health polling and rate limiting | `HealthPoller`, `HealthHistory`, `RateLimiter` |
| Tool names, parameter merging, failover, process output | `ToolNames`, `InvocationMerge`, `SpawnedSelection`, `Failover`, `ProcessPoll`, `Utf8` |
| Shared vocabulary | `Prelude`, `LineFraming`, `Ordering` |

Code that changes things step by step is a class or a method with loops, proved equal to a function on values; runs,
interleavings and chunkings are then lemmas about these functions. Callbacks, parsers, hashes and model calls are
function parameters. The awaits of a handler split it into steps, and steps may come in any order.

Where the code and its documentation disagree, the model follows the code, and a lemma says exactly when the promise
is kept:

- The limiter described as a sliding window counts in fixed windows (`RateLimiter.SlidingPromiseIff`).
- A null request timeout, described as disabling timeouts, means the default (`PendingRequests.TimersAreOffIff`).
- Trimming of orphaned results looks at ids claimed anywhere in the tail (`CompactionProofs.ResultsStayPairedIff`), and
  preserving zero messages preserves all (`CompactionProofs.PreserveZeroDoesNothing`).
- Backoff described as exponential doubles once, and shortens periods above the cap (`HealthHistory.BackoffSlowsDownIff`).
- The last N lines of newline-terminated output are N - 1 lines (`ProcessPoll.TailLineCount`), and one byte offset for two
  streams skips output (`ProcessPoll.CombinedReadsAreCompleteIff`); an offset behind the end empties the output without
  counting as truncation (`ProcessPoll.TruncatedIff`).
- Two thinking blocks finished in one chunk lose the first (`ThinkingReports.ThinkingKeptIff`), and streaming and
  stripping differ on unusual documents (`ThinkingDocuments.StreamingAgreesWithStrippingIff`).
- A previous summary is looked for in every assistant message, not just the first
  (`CompactionSummaries.PreviousSummaryIff`).
- A payload cut over several data lines that is refused is reported as malformed JSON (`AnthropicWire.ConsumeWire`).
- A fractional token limit is lost on the way to a spawned agent (`InvocationMerge.SpawnCommutesWithMergeIff`).
- Fingerprint and health agreement hold after uninterrupted handlers but not after every interleaved step
  (`ServiceSteps.StepKeepsAgreementIff`, `ServiceSteps.StepKeepsHealthIff`, `ServiceSteps.RunIsSoundIff`).
- A compaction discards what is stored while it waits for its summary (`SessionRuns.NothingIsLostIff`).
- Text blocks with thinking tags share one normalizer, which is safe for exactly the orderly streams
  (`AnthropicTags.TagsReadAsWholeIff`).
- The repair of unanswered calls looks back over fifty rows (`TranscriptAppend.AppendKeepsSettledIff`).

## Model

| member | source | states |
|---|---|---|
| ServiceInvariants.ExposedToolsAreApproved | packages/daemon/src/service-lifecycle.ts:204-391 | Over every interleaving of the handler steps, with any manifests arriving at any time, each exposed tool belongs to a registered service whose stored approval is approved. |
| ServiceInvariants.RevokedExposeNothing | packages/daemon/src/service-lifecycle.ts:379-391 | After a revocation no continuation of the run (late fetches, restarts, health changes) exposes a tool of the service until an operator approves it again. |
| ServiceApprovals.ApprovedIff | packages/daemon/src/service-lifecycle.ts:254-391 | Over every interleaving a service is approved in the end iff the last word of the operators about it was approval, or they said nothing and it was approved before; no check, manifest or restart approves anything. |
| ServiceApprovals.ToolsStandOnOperators | packages/daemon/src/service-lifecycle.ts:254-373 | Behind every exposed tool stands the approval of an operator, in this run or before it. |
| ServiceApprovals.CheckShowsStanding | packages/daemon/src/service-lifecycle.ts:254-296 | After a check the entry says how the manifest stands to the record: approved, pending re-approval, revoked or pending; a service never seen is put on record as pending. |
| ServiceApprovals.EntriesAreHonest | packages/daemon/src/service-lifecycle.ts:254-391 | Over every interleaving no entry claims an approval or a revocation that is not on record. |
| ServiceApprovals.ReconciliationMatches | packages/daemon/src/service-lifecycle.ts:489-538 | After reconciling, every declared service is there as declared and left alone if it already was, no undeclared external service is left, and managed services stay. |
| ServiceEffects.StepLeavesOthers | packages/daemon/src/service-lifecycle.ts:204-481 | A step about one service leaves entry, record and tools of every other one alone, but for tool names it takes over. |
| ServiceEffects.CheckExposes | packages/daemon/src/service-lifecycle.ts:278-288 | A check exposes all tools of the manifest iff the service is approved with this very fingerprint, else none. |
| ServiceEffects.ApprovingExposes | packages/daemon/src/service-lifecycle.ts:348-373 | Approval records the fingerprint of the manifest and exposes its tools at once. |
| ServiceEffects.RevokingDrops | packages/daemon/src/service-lifecycle.ts:379-391 | Revocation drops all tools, keeps the fingerprint and marks record and entry. |
| ServiceEffects.HealthIsMarked | packages/daemon/src/service-lifecycle.ts:327-342 | Going down marks the entry and drops its tools; coming back marks it or re-checks its manifest. |
| ServiceEffects.EntriesComeAndGo | packages/daemon/src/service-lifecycle.ts:204-241 | What an entry holds when a process or an external service starts, and that nothing of it is left after stopping. |
| ServiceInvariants.ListedToolsAreExposedTools | packages/daemon/src/service-tool-registry.ts:79-139 | When services keep to disjoint names, in every reachable state the list on each entry is, as a set, exactly the tools exposed for that service. |
| ServiceInvariants.RegisteringKeepsListsExactIff | packages/daemon/src/service-tool-registry.ts:79-95 | Without disjoint names, registering keeps the lists exact iff no other service lists one of the names. |
| ServiceInvariants.StepKeepsApproved | packages/daemon/src/service-lifecycle.ts:254-296 | Each single step keeps exposed tools on approved services. |
| ServiceInvariants.StepKeepsStep | packages/daemon/src/service-tool-registry.ts:79-139 | Each single step keeps tool map and tool lists in agreement, given the division of names. |
| ServiceAtomicity.ExposedToolsMatchApproval | packages/daemon/src/service-lifecycle.ts:204-373 | When handlers run to their end one after the other, every exposed tool is one of the manifest on record, whose fingerprint is the approved one, and the entry says approved. |
| ServiceAtomicity.HandlerKeepsAgreement | packages/daemon/src/service-lifecycle.ts:254-468 | Each uninterrupted handler keeps that agreement. |
| ServiceOverlap.HandlersKeepHealthIff | packages/daemon/src/service-lifecycle.ts:327-373 | Uninterrupted handlers keep tools off unhealthy services, with one exception that is named exactly: approving a service that is down and has a manifest with tools. |
| ServiceOverlap.OverlappingFetchesDisagree | packages/daemon/src/service-lifecycle.ts:416-468 | A run of two overlapping healthy handlers after which tools of the older manifest are exposed beside an entry that is pending re-approval of the newer one. |
| ServiceOverlap.LateCheckExposesUnhealthy | packages/daemon/src/service-lifecycle.ts:458-481 | A run in which a check that resumes late exposes tools of a service that went down meanwhile. |
| ServiceSteps.StepKeepsHealthIff | packages/daemon/src/service-lifecycle.ts:254-481 | For each of the twelve interleaved steps: it keeps tools off unhealthy services iff it is not a check or an approval that exposes tools of a service that is down. |
| ServiceSteps.StepKeepsAgreementIff | packages/daemon/src/service-lifecycle.ts:254-481 | For each of the twelve interleaved steps: it keeps exposed tools in agreement with the approved manifest iff it is neither the arrival of a manifest that does not cover the exposed tools, nor a check that fails beside exposed tools or exposes what the record does not vouch for. |
| ServiceSteps.RunIsSoundIff | packages/daemon/src/service-lifecycle.ts:204-538 | An interleaved run is in agreement and healthy after every step iff none of its steps is of those kinds when it is taken. |
| ServiceLifecycle.ServiceLifecycleManager.ManifestFetched | packages/daemon/src/service-lifecycle.ts:236-241 | The fetched manifest is stored on the entry that then bears the id, if any. |
| ServiceLifecycle.ServiceLifecycleManager.HealthChangeResumes | packages/daemon/src/service-lifecycle.ts:334-336 | After the await the entry then bearing the id is marked healthy. |
| ServiceLifecycle.ServiceLifecycleManager.OnProcessStarted | packages/daemon/src/service-lifecycle.ts:204-241 | The part before the await registers a fresh pending entry, or fails and changes nothing when the id is taken. |
| ServiceLifecycle.ServiceLifecycleManager.CheckApprovalAndRegisterTools | packages/daemon/src/service-lifecycle.ts:254-307 | All outcomes of a check: no record, revoked, approved with this fingerprint, approved with another, pending. |
| ServiceLifecycle.ServiceLifecycleManager.OnProcessStopped | packages/daemon/src/service-lifecycle.ts:313-320 | Stopping removes the entry and its tools. |
| ServiceLifecycle.ServiceLifecycleManager.OnProcessHealthChanged | packages/daemon/src/service-lifecycle.ts:327-342 | Going down drops the tools and marks the entry; coming up re-checks the manifest on record, and marks the entry only after the await if there is one. |
| ServiceLifecycle.ServiceLifecycleManager.OnServiceApproved | packages/daemon/src/service-lifecycle.ts:348-373 | Approval stores the fingerprint of the manifest on record (or an empty one) and exposes its tools. |
| ServiceLifecycle.ServiceLifecycleManager.OnServiceRevoked | packages/daemon/src/service-lifecycle.ts:379-391 | Revocation drops the tools and marks record and entry. |
| ServiceLifecycle.ServiceLifecycleManager.OnExternalServiceHealthy | packages/daemon/src/service-lifecycle.ts:416-455 | The part before the await replaces an existing entry by a fresh one. |
| ServiceLifecycle.ServiceLifecycleManager.OnExternalServiceUnhealthy | packages/daemon/src/service-lifecycle.ts:475-481 | Drops the tools and marks the entry. |
| ServiceLifecycle.ServiceLifecycleManager.RemoveUndeclared | packages/daemon/src/service-lifecycle.ts:489-505 | Removes exactly the external services that are no longer declared, with their tools, and nothing else. |
| ServiceLifecycle.ServiceLifecycleManager.ReconcileOne | packages/daemon/src/service-lifecycle.ts:507-538 | A declared service is added, replaced when title, URL or capabilities changed, else left alone. |
| ServiceStores.ServiceToolRegistry.RegisterServiceTools | packages/daemon/src/service-tool-registry.ts:79-95 | The loop sets each declared name and appends the names to the list on the entry. |
| ServiceStores.ServiceToolRegistry.DeregisterServiceTools | packages/daemon/src/service-tool-registry.ts:127-139 | The loop removes exactly the tools of the service and empties its list. |
| ServiceStores.ServiceRegistry.Register | packages/daemon/src/service-registry.ts:129-135 | Registration fails, changing nothing, iff the id is taken. |
| ServiceStores.ServiceRegistry.Deregister | packages/daemon/src/service-registry.ts:140-145 | Removes the entry; the event is emitted iff there was one. |
| ServiceStores.ServiceRegistry.SetApprovalStatus | packages/daemon/src/service-registry.ts:173-179 | Changes the status of a present entry and nothing else. |
| ServiceStores.ServiceApprovalStore.Approve | packages/daemon/src/service-approval-store.ts:81-98 | Stores approved with the fingerprint. |
| ServiceStores.ServiceApprovalStore.Revoke | packages/daemon/src/service-approval-store.ts:103-121 | Stores revoked, keeping a fingerprint on record. |
| PendingRequests.EveryRequestHasOneLife | packages/mcp-integration/src/mcp-jsonrpc-transport.ts:172-405 | Over every run of responses, timers, sweeps, write failures, stream ends and closing, a request is decided by its own automaton: pending iff waiting there, settled at most once with the outcome of the first settler. |
| PendingRequests.SettledExactlyOnce | packages/mcp-integration/src/mcp-jsonrpc-transport.ts:172-405 | Each issued id is pending and unsettled, or absent and settled exactly once; timers exist only for pending ids; after close nothing is pending. |
| PendingRequests.FirstSettlerWins | packages/mcp-integration/src/mcp-jsonrpc-transport.ts:246-268 | Once a request is settled no continuation of the run reports another outcome for it. |
| PendingRequests.RunKeepsValid | packages/mcp-integration/src/mcp-jsonrpc-transport.ts:172-215 | In every reachable table the armed timers are exactly the pending ids (or none with timeouts off), and a closed or ended table is empty. |
| PendingRequests.TimersAreOffIff | packages/mcp-integration/src/mcp-jsonrpc-transport.ts:345-347 | Timers are never armed iff the timeout is a number of at most zero; a null timeout acts like the default of 60 seconds. |
| JsonRpcSession.RequestsSettleOnce | packages/mcp-integration/src/mcp-jsonrpc-transport.ts:152-405 | The same for whole sessions over newline-delimited text, whose chunks may hold any lines. |
| JsonRpcSession.FramingIsChunkInvariant | packages/mcp-integration/src/mcp-jsonrpc-transport.ts:217-269 | However decoded text is cut into chunks, the session ends in the same state with the same settlements, notifications and protocol errors. |
| JsonRpcAnswers.AnswersSettle | packages/mcp-integration/src/mcp-jsonrpc-transport.ts:217-269 | Lines sent in any chunks: each pending request they answer is settled once, by the first line with its id, rejected with the error that line carries or resolved with its result; no other request is settled, and bad JSON and calls without id are told to the outside in order. |
| JsonRpcSession.ChunkIsReceived | packages/mcp-integration/src/mcp-jsonrpc-transport.ts:217-269 | In a run of events a chunk does exactly what the read loop makes of it. |
| SessionEvents.StdioEventRejects | packages/mcp-integration/src/mcp-jsonrpc-transport.ts:172-405 | Each event but text rejects a waiting request for its own reason (timeout, staleness, end or failure of input, failed write, closing), or leaves it waiting. |
| SessionEvents.StdioRequestWaits | packages/mcp-integration/src/mcp-jsonrpc-transport.ts:333-372 | A request waits under the next id; one that cannot be written is rejected at once; a closed or ended session takes none. |
| JsonRpcSession.McpJsonRpcSession.OnChunk | packages/mcp-integration/src/mcp-jsonrpc-transport.ts:217-269 | The read loop handles exactly the complete lines of buffer plus chunk and keeps the unfinished rest. |
| JsonRpcSession.McpJsonRpcSession.Request | packages/mcp-integration/src/mcp-jsonrpc-transport.ts:333-372 | A request gets the next id, a pending entry and a timer if timeouts are on; refused after close or end of input. |
| JsonRpcSession.McpJsonRpcSession.StaleCleanup | packages/mcp-integration/src/mcp-jsonrpc-transport.ts:183-203 | The sweep rejects exactly the entries older than the timeout and disarms their timers. |
| JsonRpcSession.McpJsonRpcSession.FailAll | packages/mcp-integration/src/mcp-jsonrpc-transport.ts:205-215 | Everything pending is rejected with the reason, and no timer of it stays. |
| JsonRpcSession.McpJsonRpcSession.OnEnd | packages/mcp-integration/src/mcp-jsonrpc-transport.ts:271-276 | End of input rejects everything pending and bars new requests. |
| JsonRpcSession.McpJsonRpcSession.WriteFails | packages/mcp-integration/src/mcp-jsonrpc-transport.ts:360-369 | A failed write rejects its own request if that is still pending. |
| JsonRpcSession.McpJsonRpcSession.CloseSession | packages/mcp-integration/src/mcp-jsonrpc-transport.ts:384-391 | Closing, once, rejects everything pending. |
| StreamableHttpSession.RequestsSettleOnce | packages/mcp-integration/src/mcp-streamable-http-transport.ts:261-708 | The same exactly-once result over HTTP, where a request made after closing uses up an id and is rejected at once. |
| StreamableHttpSession.SettledOrForwarded | packages/mcp-integration/src/mcp-streamable-http-transport.ts:172-253 | An inbound object settles exactly one pending request or is forwarded; never both, never neither. |
| StreamableHttpSession.DispatchConserves | packages/mcp-integration/src/mcp-streamable-http-transport.ts:202-253 | Over a batch, settlements and forwarded messages add up to the messages, and each settlement takes one entry off the table. |
| StreamableHttpSession.MessagesAreJudged | packages/mcp-integration/src/mcp-streamable-http-transport.ts:172-253 | Of a batch, the first message about a pending request settles it: called off with the reason, rejected with the error the message carries, or resolved with its result; messages about no pending request are passed on. |
| SessionEvents.LeavesAreFound | packages/mcp-integration/src/mcp-streamable-http-transport.ts:202-253 | The messages of a value are exactly the objects found anywhere in its nested batches. |
| SessionEvents.HttpEventRejects | packages/mcp-integration/src/mcp-streamable-http-transport.ts:261-336 | Each event but inbound values rejects a waiting request for its own reason, or leaves it waiting. |
| SessionEvents.HttpRequestWaits | packages/mcp-integration/src/mcp-streamable-http-transport.ts:638-672 | A request waits under the next id; after closing it uses up an id and is rejected. |
| StreamableHttpSession.PostIsJudged | packages/mcp-integration/src/mcp-streamable-http-transport.ts:398-636 | Left alone, a POST settles its request exactly as its response says: by the first message about it in its JSON or event-stream body or in the one resumption behind the last event id of that body, else with the way the response failed or ended. |
| StreamableHttpSession.NoMatchIsReportedIff | packages/mcp-integration/src/mcp-streamable-http-transport.ts:598-608 | Over JSON, the missing answer is reported iff no message of the body has the id of the request or calls it off. |
| StreamableHttpSession.McpStreamableHttpSession.DispatchIncomingMessage | packages/mcp-integration/src/mcp-streamable-http-transport.ts:202-253 | The recursion over nested batches handles the objects in order and drops everything else. |
| StreamableHttpSession.McpStreamableHttpSession.TryRejectPendingFromCancelledNotification | packages/mcp-integration/src/mcp-streamable-http-transport.ts:172-196 | A cancellation settles the pending request it names, with its reason if that is not empty, and does nothing otherwise. |
| StreamableHttpSession.McpStreamableHttpSession.ReadSseRpcFromPostBodyWithRetry | packages/mcp-integration/src/mcp-streamable-http-transport.ts:398-489 | An event-stream body, resumed at most once, ends with its request settled, through exactly the events of the POST machine left alone. |
| StreamableHttpSession.McpStreamableHttpSession.FinishPost | packages/mcp-integration/src/mcp-streamable-http-transport.ts:491-636 | Whatever a POST comes to, its request is settled afterwards, except for a 202 with a working event stream; it is settled as its response says, and on its own account it fails no other request. |
| HttpPosts.PostSettlesItsRequest | packages/mcp-integration/src/mcp-streamable-http-transport.ts:398-636 | Whatever else happens to the session before a POST and between its awaits, once the POST has made its steps the request is settled, exactly once; only a 202 with a working standing stream may leave it pending. |
| HttpPosts.PlayedAlone | packages/mcp-integration/src/mcp-streamable-http-transport.ts:398-636 | Without other events in between, the POST machine goes through exactly the events of the uninterrupted handling. |
| StreamableHttpSession.McpStreamableHttpSession.CloseSession | packages/mcp-integration/src/mcp-streamable-http-transport.ts:674-688 | Closing rejects everything pending and drops all timers. |
| SseStream.BoundaryIsLeftmost | packages/mcp-integration/src/mcp-streamable-http-transport.ts:85 | The boundary found is the leftmost position of either kind of blank line. |
| SseStream.BoundaryIsStable | packages/mcp-integration/src/mcp-streamable-http-transport.ts:136-141 | A boundary found in a prefix stays the leftmost one in every extension. |
| SseStream.BlocksAppend | packages/mcp-integration/src/mcp-streamable-http-transport.ts:130-148 | Splitting what is left together with more text gives the blocks of the whole text. |
| SseStream.IterateSseDataJson | packages/mcp-integration/src/mcp-streamable-http-transport.ts:120-159 | For every chunking the iterator yields the events of the whole text, in order, malformed payloads reported in place. |
| SseStream.ParseSseEventBlock | packages/mcp-integration/src/mcp-streamable-http-transport.ts:87-113 | The line loop collects the last usable id and all data lines, joined by line feeds. |
| SseRoundTrip.StreamRoundTrip | packages/mcp-integration/src/mcp-streamable-http-transport.ts:87-159 | The iterator, given any chunks of events of id, data and other lines in any order, with either line ending, yields the events as sent, each with its last usable id and its joined data; comments and other fields are passed over, events without data deliver nothing, and the last blank line may be missing. |
| ToolNames.FindFreeName | packages/models/src/anthropic-messages.ts:141-161 | The search terminates with the first free candidate, valid and at most 64 characters long; the plain name if it is free. |
| ToolNames.SanitizedCharacters | packages/shared/src/tool-name.ts:20-25 | Character by character: allowed ones stay, dots become dashes, everything else an underscore, and what is behind the 64th is cut. |
| ToolNames.WireNamesAre | packages/models/src/anthropic-messages.ts:141-161 | A tool gets its sanitised name, or if an earlier tool has it, that name cut to make room for an underscore and a number. |
| ToolNames.CandidatesDiffer | packages/models/src/anthropic-messages.ts:150-158 | Candidates with different numeric suffixes differ, which bounds the search. |
| ToolNames.BuildOpenAiToAnthropicToolNameMap | packages/models/src/anthropic-messages.ts:141-162 | The map covers exactly the tools, is injective, and every wire name is valid. |
| ToolNames.AssignmentIsUnique | packages/models/src/anthropic-messages.ts:141-162 | The wire names are determined by the list of tools: each is the first free candidate after those before it. |
| ToolNames.InvertStringMap | packages/models/src/anthropic-messages.ts:164-168 | The inverse has the values as keys and maps each to a key with that value. |
| ToolNames.ToolNameRoundTrip | packages/models/src/anthropic-messages.ts:141-168 | Mapping and inverting gives back every original name. |
| ToolNames.ValidNamesAreKept | packages/models/src/anthropic-messages.ts:141-162 | Names that are valid and different are sent unchanged. |
| AnthropicDelivery.StreamDelivers | packages/models/src/anthropic-messages.ts:475-768 | Content blocks sent in any interleaving, each payload on one data line or several, with comments, either line ending and any chunks: the consumer accepts them iff every block is acceptable, and returns the message sent (text in index order, one call per tool block from its own fragments, also when a stop or the start of a text block is missing), in tags mode read as a whole if the text came in order, with the newest usage and stop reason; text that is no JSON fails the stream. |
| AnthropicWire.ConsumeWire | packages/models/src/anthropic-messages.ts:657-708 | Reading event-stream text is handling the payloads it was written from, in order: the joined data lines of a frame are one payload if they parse, else one each; nothing behind the first text that is no JSON counts, and a failure keeps its name unless a payload was cut over several lines. |
| AnthropicTags.TagsReadAsWholeIff | packages/models/src/anthropic-messages.ts:600-762 | With thinking tags in the text and any number of text blocks, interleaved with others: a stream is read as the joined text read as a whole, for every text its deltas may carry, iff text comes in the order of the blocks, no block starts again after text, and no text lies above the block inserted last. |
| AnthropicTags.OrderlyTextReadsAsWhole | packages/models/src/anthropic-messages.ts:600-762 | For each such orderly stream the outcome, failures included, is the plain one with its text read as a whole. |
| AnthropicTags.PlainOutcome | packages/models/src/anthropic-messages.ts:472-473 | In the other modes the normalizer plays no part. |
| TextOrder.ReadsWholeIff | packages/models/src/anthropic-messages.ts:600-746 | The same at the level of texts: one normalizer for all blocks reads the joined text for all texts sent in an order iff the order is orderly. |
| TextOrder.DisorderShows | packages/models/src/anthropic-messages.ts:600-746 | Every other order has texts with which the shared normalizer loses, moves or invents text. |
| AnthropicUsage.NewestCounts | packages/models/src/anthropic-messages.ts:512-537 | Each usage property is the newest one given since the record began with a message start; the newest stop reason wins. |
| AnthropicUsage.UsageIsReportedIff | packages/models/src/anthropic-messages.ts:60-74 | Usage is reported iff the newest input and output counts are numbers. |
| AnthropicUsage.UsageAddsUp | packages/models/src/anthropic-messages.ts:60-74 | Input tokens are the newest input count plus the newest cache counts; output and the two cache counts are the newest ones given. |
| AnthropicStream.MessageAccumulator.HandleEvent | packages/models/src/anthropic-messages.ts:515-655 | One event, in either mode, does to the blocks, their order and the normalizer what the specification says, and a failure leaves them alone. |
| AnthropicStream.MessageAccumulator.FlushThinking | packages/models/src/anthropic-messages.ts:734-746 | The backward search finds the text block inserted last and appends what the normalizer held back. |
| AnthropicDelivery.ConsumeAnthropicMessagesStream | packages/models/src/anthropic-messages.ts:449-768 | The consumer with its buffers, loops, block map and normalizer returns what the whole text returns, for every chunking, in every mode. |
| AnthropicContent.WellFormedStream | packages/models/src/anthropic-messages.ts:509-655 | Every interleaving of well-formed blocks yields the message they stand for, exactly when each block is acceptable. |
| AnthropicContent.FragmentsWithoutStart | packages/models/src/anthropic-messages.ts:624-641 | Input fragments of a tool that never began are collected and checked, but make no call. |
| AnthropicContent.BlocksBeginAnew | packages/models/src/anthropic-messages.ts:554-580 | A block that begins at an index in use takes the place of what was there; calls made before stay. |
| AnthropicContent.OtherKindsAreReplaced | packages/models/src/anthropic-messages.ts:588-622 | On a tool block, or on none, text that is not empty begins a text block, and thinking is lost. |
| AnthropicMessage.InterleavingDoesNotMatter | packages/models/src/anthropic-messages.ts:509-655 | Two interleavings of the same events per index fail alike and yield the same message, well-formed or not. |
| AnthropicMessage.CellsAfter | packages/models/src/anthropic-messages.ts:509-655 | Handling a stream leaves at each index what the events of that index alone leave there. |
| AnthropicMessage.FailsWhen | packages/models/src/anthropic-messages.ts:509-655 | A stream fails iff it carries an error event or some block fails by itself. |
| AnthropicMessage.ErrorEventFails | packages/models/src/anthropic-messages.ts:541-548 | An error event fails the stream as such, whatever follows. |
| AnthropicMessage.FailureIsNamed | packages/models/src/anthropic-messages.ts:710-732 | Otherwise the failure names what is wrong, in this order: tool input that failed while streaming, a missing start, a missing stop, tools not asked for, tool input finished at the end. |
| AnthropicMessage.FinishByCells | packages/models/src/anthropic-messages.ts:739-762 | Finishing depends on the cells only, not on the order of arrival. |
| AnthropicBlocks.HandleIsLocal | packages/models/src/anthropic-messages.ts:509-655 | An event changes the cell of its own index only. |
| ThinkingStream.TextIsChunkInvariant | packages/models/src/thinking-normalize.ts:35-123 | The text of all calls and the final flush depends only on the whole string. |
| ThinkingTokens.MachineReadsTokens | packages/models/src/thinking-normalize.ts:35-123 | The character machine reads any string as its tokens: text, thinking, recognised tags, and text that only looked like a tag. |
| ThinkingTokens.TokensAreLossless | packages/models/src/thinking-normalize.ts:35-123 | Every character ends in exactly one token, and only real tags count as tags. |
| ThinkingNormalizer.RunValid | packages/models/src/thinking-normalize.ts:43-87 | The buffer is always empty or a proper prefix of a tag. |
| ThinkingNormalizer.ThinkingStreamNormalizer.ProcessChunk | packages/models/src/thinking-normalize.ts:35-95 | The loop over a chunk is the machine run on it; of several finished blocks only the last is handed out. |
| ThinkingNormalizer.ThinkingStreamNormalizer.Flush | packages/models/src/thinking-normalize.ts:97-122 | Flushing hands out the buffer as text and the open thinking, and starts over. |
| ThinkingReports.ThinkingKeptIff | packages/models/src/thinking-normalize.ts:57-65 | All thinking is delivered iff no chunk contains the ends of two non-empty thinking blocks; the ends are positions in the whole text, read off its tokens. |
| ThinkingReports.MachineReportsAtEnds | packages/models/src/thinking-normalize.ts:35-95 | After any prefix of a text the machine has reported as many blocks as end within the prefix. |
| ThinkingDocuments.TwoBlocksInOneChunkLoseTheFirst | packages/models/src/thinking-normalize.ts:57-65 | The same two blocks are both delivered in two chunks and lose the first in one. |
| ThinkingDocuments.StreamingAgreesWithStrippingIff | packages/models/src/thinking-normalize.ts:126-209 | On documents of closed blocks between texts without tags (other angle brackets allowed) batch stripping gives the text outside the blocks, trimmed; streaming gives it for every chunking iff no text before a block ends in the beginning of a tag and each angle bracket in a body starts an open tag. |
| ThinkingDocuments.StrayCloseTag | packages/models/src/thinking-normalize.ts:35-209 | A close tag without its block: streaming drops it, batch stripping keeps it. |
| ThinkingDocuments.UnclosedBlock | packages/models/src/thinking-normalize.ts:35-209 | A block that is never closed: streaming drops its text, batch stripping keeps block and tag. |
| ThinkingStream.NormalizeStream | packages/models/src/thinking-normalize.ts:29-123 | A consumer that feeds chunks and flushes receives that text. |
| CompactionProofs.ResultsStayPairedIff | packages/models/src/compaction.ts:99-117 | Compacting a paired transcript leaves every tool result paired iff no retained assistant turn claims the id of a result whose own call was cut away. |
| CompactionProofs.CompactionKeepsWellFormed | packages/models/src/compaction.ts:134-200 | With unique call ids, pairing, answered calls and uniqueness all survive, for every number of preserved messages. |
| CompactionProofs.CompactionShape | packages/models/src/compaction.ts:134-200 | System prefix, non-empty middle and kept tail are the input; the output is prefix, summary and tail, never longer than the input, and the tail has at most the preserved number of messages when that is positive. |
| CompactionProofs.PreserveZeroDoesNothing | packages/models/src/compaction.ts:141-151 | With nothing to preserve a paired transcript is never compacted, because the slice keeps everything. |
| CompactionProofs.RepeatedIdLeavesAnOrphan | packages/models/src/compaction.ts:99-117 | Two turns that use the same call id: the output has a result without its call. |
| CompactionSummaries.SummaryIsCarriedOver | packages/models/src/compaction.ts:82-132 | The next compaction finds the summary just written, and finds all of it iff the model's answer does not contain the closing tag. |
| CompactionSummaries.ExtractedIff | packages/models/src/compaction.ts:82-91 | Of a text with both tags the summary is what lies between the first of each, and there is none if the first close tag comes first. |
| CompactionSummaries.NoTagNoSummary | packages/models/src/compaction.ts:82-91 | A text that lacks one of the tags holds no summary. |
| CompactionSummaries.PreviousSummaryIff | packages/models/src/compaction.ts:122-132 | The previous summary is that of the first assistant message that holds one in plain text. |
| CompactionProofs.CompactedIff | packages/models/src/compaction.ts:138-151 | A paired transcript is compacted iff at least one message is to be preserved and there are more messages behind the system prefix than that. |
| CompactionProofs.TrimmedIsLongest | packages/models/src/compaction.ts:99-117 | Of any tail the trimming drops exactly the leading tool results that name a call no message left in the tail makes. |
| CompactionProofs.RecentMessagesStay | packages/models/src/compaction.ts:140-198 | What stays are the system prefix and the newest messages asked for, trimmed; exactly what lies between is summarised, together with the previous summary; with unique ids the trimming takes all results the newest messages begin with. |
| Compaction.CompactTranscriptIfNeeded | packages/models/src/compaction.ts:134-200 | The method is the composition that the other results are about. |
| Compaction.TrimOrphanedToolResults | packages/models/src/compaction.ts:99-117 | The two loops drop exactly the leading results whose id no retained turn claims. |
| Compaction.SplitSystemPrefix | packages/models/src/compaction.ts:41-52 | Splits off the longest run of system messages. |
| TranscriptStore.RoundTripIff | packages/daemon/src/transcript-compact.ts:21-119 | Loading after replacing gives exactly the messages written iff each is canonical: text content, no name or native reasoning, no empty id, call list or signature. |
| TranscriptStore.LoadedRoundTrips | packages/daemon/src/transcript-compact.ts:21-119 | Whatever a load produces can be written to any segment and loaded again unchanged. |
| TranscriptStore.OtherSegmentsKeepTheirMessages | packages/daemon/src/transcript-compact.ts:80-82 | Replacing one segment leaves what every other segment of every session loads. |
| TranscriptStore.SequenceNumbersStayUnique | packages/daemon/src/transcript-compact.ts:83-116 | Sequence numbers stay unique per session, the rows that remain are untouched, and the new ones ascend above them. |
| TranscriptStore.Database.ReplaceSessionTranscript | packages/daemon/src/transcript-compact.ts:73-119 | The transaction deletes and inserts with a running number, or rolls back when a message cannot be stored. |
| TranscriptStore.LoadAfterReplace | packages/daemon/src/transcript-compact.ts:21-119 | Message by message, what writing and reading makes of it. |
| TranscriptStore.AllOrNothing | packages/daemon/src/transcript-compact.ts:73-119 | A replacement takes place as a whole, or not at all if some message holds structured content. |
| TranscriptStore.OlderRowsReadAlike | packages/daemon/src/transcript-compact.ts:47-69 | Calls stored under the older name of their arguments read like newer ones, the newer name wins, and missing text reads as empty. |
| TranscriptStore.LoadAfterAppend | packages/daemon/src/sessions/transcript-store.ts:80-105 | An inserted message is loaded behind the others of its segment, and nowhere else. |
| TranscriptStore.NumbersContinue | packages/daemon/src/sessions/transcript-store.ts:80-105 | Rows of a session are numbered from one, each above the greatest so far. |
| SessionCompaction.SnapshotIsStripped | packages/daemon/src/transcript-compact.ts:199-209 | A snapshot is the transcript with its texts stripped of images, then of thinking, and nothing else changed. |
| SessionCompaction.ShortTranscriptsAreLeft | packages/daemon/src/transcript-compact.ts:210-221 | A transcript too short to be compacted leaves the table as it is, texts unstripped. |
| SessionCompaction.BeginCompaction | packages/daemon/src/transcript-compact.ts:199-209 | Up to the await: the snapshot is the loaded transcript, stripped. |
| SessionCompaction.FinishCompaction | packages/daemon/src/transcript-compact.ts:210-221 | After the await: the segment is replaced, as it then is, iff the snapshot was compacted. |
| SessionCompaction.WrittenBackIsRead | packages/daemon/src/transcript-compact.ts:210-221 | Whatever was stored meanwhile, after the write-back the segment loads exactly the compacted snapshot. |
| SessionRuns.RunsKeepTranscripts | packages/daemon/src/transcript-compact.ts:192-222 | Over any run of compactions that overlap in any way, on this segment and others, and of appends elsewhere, a well-formed stored transcript stays well formed and never grows. |
| SessionRuns.NothingIsLostIff | packages/daemon/src/transcript-compact.ts:199-221 | A compaction keeps what other handlers stored in its segment during its await iff they stored nothing. |
| SessionRuns.OverlapOrphansResultIff | packages/daemon/src/transcript-compact.ts:199-221 | A call stored during the await and its result stored afterwards are paired iff the compaction did not take place; without the overlap they always are. |
| SessionAppends.RunStaysPairedIff | packages/daemon/src/transcript-compact.ts:192-222 | With compactions overlapping in any way and calls and results appended to the same segment at any time, results stay paired in every state iff each is appended while its call is open; writing back alone breaks nothing. |
| SessionAppends.AppendIsPairedIff | packages/daemon/src/sessions/transcript-store.ts:157-176 | Appending keeps a transcript paired iff the message is no result or its call is open at the end. |
| SessionAppends.OpenAfterWriteBack | packages/daemon/src/transcript-compact.ts:210-221 | After the last write-back the open calls are those that were open in its snapshot, or none if no message was kept. |
| TranscriptAppend.AppendKeepsSettledIff | packages/daemon/src/sessions/transcript-store.ts:157-176 | An append keeps all calls but those of the last turn answered iff it is a result, nothing was unanswered, or fewer than fifty results follow the last turn. |
| TranscriptAppend.RepairAnswersIff | packages/daemon/src/sessions/transcript-store.ts:106-154 | The repair answers every call iff all were answered or fewer than fifty results follow the last turn. |
| TranscriptAppend.RepairKeepsPaired | packages/daemon/src/sessions/transcript-store.ts:106-154 | The aborted results it inserts are paired. |
| TranscriptAppend.CollectMissing | packages/daemon/src/sessions/transcript-store.ts:106-137 | The backward loop over the newest fifty rows finds the open calls without a result. |
| TranscriptAppend.LoadAfterRepair | packages/daemon/src/sessions/transcript-store.ts:106-176 | What is loaded after an append is the repaired transcript with the message behind it. |
| HealthHistory.EveryRunRefines | packages/daemon/src/external-service-health-poller.ts:99-279 | Over every interleaving of registrations, removals, ticks and late results, each service's state is a closed form over the results of checks started under its current registration. |
| HealthHistory.OnlyCurrentChecksCount | packages/daemon/src/external-service-health-poller.ts:213-226 | A result changes something iff its check was started under the current registration; generations tell exactly that. |
| HealthHistory.DownExactlyAtThreshold | packages/daemon/src/external-service-health-poller.ts:227-277 | The unhealthy event comes exactly when the failures since the last success reach the threshold (a threshold below one acts like one); the healthy event exactly on a success while not healthy. |
| HealthHistory.EventsAlternate | packages/daemon/src/external-service-health-poller.ts:232-257 | Per registration events alternate, starting with healthy, and their number tells the state. |
| HealthHistory.ReachableServices | packages/daemon/src/external-service-health-poller.ts:99-279 | In every reachable state the running timer has the base period, or the doubled and capped one while unhealthy. |
| HealthHistory.BackoffSlowsDownIff | packages/daemon/src/external-service-health-poller.ts:261-273 | Backing off does not poll faster iff the base period is between zero and the cap. |
| HealthHistory.PeriodIs | packages/daemon/src/external-service-health-poller.ts:261-273 | While unhealthy the period is twice the configured one, capped at five minutes; else it is the configured one. |
| HealthPoller.ExternalServiceHealthPoller.HandleHealthResult | packages/daemon/src/external-service-health-poller.ts:213-279 | All branches of a result: unknown service, stale, success, failure below and at the threshold. |
| HealthPoller.ExternalServiceHealthPoller.Add | packages/daemon/src/external-service-health-poller.ts:99-137 | Registration replaces an earlier one, starts unknown at the base period with a new generation, and starts a check. |
| HealthPoller.ExternalServiceHealthPoller.Remove | packages/daemon/src/external-service-health-poller.ts:139-154 | Removal drops a present service and raises its generation. |
| HealthPoller.ExternalServiceHealthPoller.StopAll | packages/daemon/src/external-service-health-poller.ts:162-167 | Drops every service, raising each generation once. |
| RateLimiter.PassedIsBounded | packages/daemon/src/service-control-plane-auth.ts:97-116 | With a clock that never goes back, at most twice the limit minus one requests of a service pass in any interval as long as the window. |
| RateLimiter.BoundIsReached | packages/daemon/src/service-control-plane-auth.ts:97-116 | That bound is reached, for every positive limit and window of two milliseconds or more. |
| RateLimiter.SlidingPromiseIff | packages/daemon/src/service-control-plane-auth.ts:93-116 | The sliding-window promise of at most the limit per window length holds iff the limit is at most one or the window at most one millisecond. |
| RateLimiter.WindowIsBounded | packages/daemon/src/service-control-plane-auth.ts:101-115 | In each window the code opens at most the limit passes. |
| RateLimiter.ServicesAreIndependent | packages/daemon/src/service-control-plane-auth.ts:97-116 | A service gets the decisions it would get alone. |
| RateLimiter.ServiceControlPlaneAuth.CheckRateLimit | packages/daemon/src/service-control-plane-auth.ts:97-116 | The method opens, counts or denies, touching the bucket of its service only. |
| InvocationMerge.SpawnCommutesWithMergeIff | packages/models/src/invocation-merge.ts:158-190 | Parsing the merged spawn selection equals merging the two parsed selections iff the winning token counts are not fractions below one. |
| InvocationMerge.HalfATokenIsLost | packages/models/src/invocation-merge.ts:53-55 | A limit of half a token becomes zero when parsed and disappears from a spawned agent's selection. |
| InvocationMerge.MergeIsAssociative | packages/models/src/invocation-merge.ts:80-95 | On the seven merged fields layers can be merged in any grouping, and the empty record is neutral. |
| InvocationMerge.SpawnProperties | packages/models/src/invocation-merge.ts:158-190 | Invocation properties of the output are those of the merged record; all others come from the overlay, else the parent, with the model reference on top. |
| SpawnedSelection.SpawnedFields | packages/models/src/invocation-merge.ts:80-95 | Each invocation property of a spawned selection is what parsing the overlay gives where that gives something, else what parsing the parent gives; extras are merged key by key, the overlay winning. |
| SpawnedSelection.OverlayWins | packages/models/src/invocation-merge.ts:80-95 | In a merge of two records the overlay wins on every field that is set. |
| SpawnedSelection.OptionsAre | packages/models/src/invocation-merge.ts:23-72 | Which JSON values count as a mode, an effort, a temperature, thinking options or a schema, and what is read from them. |
| SpawnedSelection.CountsAre | packages/models/src/invocation-merge.ts:52-54 | Which JSON values count as a token count, and what is read from them. |
| SpawnedSelection.ExtrasAre | packages/models/src/invocation-merge.ts:62-66 | Extras are read from the newer property, or from the older one where the newer is missing or null, if that is an object. |
| InvocationMerge.ParseAfterWrite | packages/models/src/invocation-merge.ts:134-156 | Writing and parsing loses exactly zero counts and an empty set of extras. |
| InvocationMerge.StripInvocationKeys | packages/models/src/invocation-merge.ts:126-132 | The loop keeps exactly the other properties. |
| InvocationMerge.ModelInvocationParamsToSessionJson | packages/models/src/invocation-merge.ts:134-156 | The step-by-step filling is the written record. |
| InvocationMerge.MergeSubagentSpawnModelSelection | packages/models/src/invocation-merge.ts:158-190 | The composition, undefined when nothing is left. |
| Failover.RequestFinishes | packages/models/src/failover.ts:79-122 | Every request over a non-empty chain went through attempts that failed with eligible errors, in chain order, all other positions skipped by the hook at their turn, up to the first success or other error, or to the chain's end with the last error. |
| Failover.HooksFire | packages/models/src/failover.ts:93-118 | The exhausted hook fires for exactly the eligible failures; success is reported for exactly the successful call, once and last. |
| Failover.SuccessTells | packages/models/src/failover.ts:93-108 | A success names provider and model of the entry that answered, is degraded iff that was not the first, and takes the thinking format of the request, else of the entry, else of its capabilities. |
| Failover.NextIsNamed | packages/models/src/failover.ts:109-116 | The exhausted hook names the next entry of the chain, or none behind the last. |
| Failover.NoProviderIsCalledTwice | packages/models/src/failover.ts:86-89 | When the hooks remember failures, no two calls of one request go to the same provider, and calls go up the chain. |
| Failover.IterateFailoverChain | packages/models/src/failover.ts:62-122 | The loop with its early exits returns the result and makes the hook calls of the recursive reading. |
| OpenAiToolCalls.CollectedByIndex | packages/models/src/openai-compatible.ts:164-183 | After any deltas each index that occurred holds its last non-empty id and name and all its argument fragments in order. |
| OpenAiToolCalls.InterleavingDoesNotMatter | packages/models/src/openai-compatible.ts:164-198 | Delta lists that agree per index finish with the same calls. |
| OpenAiToolCalls.AdjacentSwap | packages/models/src/openai-compatible.ts:164-198 | Swapping adjacent deltas of different indices changes nothing. |
| OpenAiToolCalls.SentCallsArrive | packages/models/src/openai-compatible.ts:164-198 | Calls sent in fragments, however interleaved, come out whole and sorted by index. |
| OpenAiToolCalls.OneCallCollected | packages/models/src/openai-compatible.ts:164-198 | Fragments of one call come out iff id and name were sent: the newest of each, all arguments in order, an empty object for none, tags stripped from them in tags mode. |
| OpenAiToolCalls.MissingIndexIsZero | packages/models/src/openai-compatible.ts:164-183 | A fragment without an index counts as one of index zero. |
| OpenAiToolCalls.ToolCallCollector.ApplyToolCallDeltas | packages/models/src/openai-compatible.ts:164-183 | The loop applies a batch, skipping elements that are no objects; a value that is no array changes nothing. |
| OpenAiToolCalls.ToolCallCollector.FinalizeToolCalls | packages/models/src/openai-compatible.ts:184-198 | Ascending indices; incomplete calls are dropped; empty arguments become an empty object. |
| OpenAiToolCalls.CappedIsPrefix | packages/models/src/openai-compatible.ts:275-284 | Cutting reasoning after every fragment keeps what cutting the whole once would keep. |
| OpenAiStream.ConsumeOpenAIChatCompletionStream | packages/models/src/openai-compatible.ts:212-334 | For every chunking the consumer returns the outcome of the whole text, stopping at the first malformed payload. |
| OpenAiDelivery.StreamDelivers | packages/models/src/openai-compatible.ts:212-334 | Data frames, closing marks, comments and blank lines with either line ending, in any chunks: the first data that is no JSON fails the stream with it, a stream without choices is refused, and otherwise content, reasoning, calls, usage and finish reason are those of the chunks sent. |
| OpenAiStream.StreamMeans | packages/models/src/openai-compatible.ts:234-334 | Content, reasoning and calls of a finished stream are functions of the whole content, the whole reasoning and the tool fragments in order. |
| OpenAiStream.StreamEnds | packages/models/src/openai-compatible.ts:239-252 | The stream fails for want of choices iff no chunk had one; finish reason and usage are the newest ones sent. |
| ProcessPoll.FilterRawOutput | packages/os-exec/src/poll.ts:102-140 | The backward scan returns the last segments of the output split at line feeds, joined again, and reports truncation iff a segment was dropped; a byte offset returns what follows it. |
| ProcessPoll.TailLineCount | packages/os-exec/src/poll.ts:110-128 | How many lines a tail keeps: as many as asked for, one fewer when the output ends with a line feed. |
| ProcessPoll.TruncatedIff | packages/os-exec/src/poll.ts:93-140 | A tail counts as truncated iff it is shorter than the output; an offset iff it lies strictly within it, so an offset behind the end gives an empty answer that counts as complete. |
| ProcessPoll.ReadsSpellTheStream | packages/os-exec/src/poll.ts:130-137 | Polls of one growing stream, each from the byte total reported before, return it all, once and in order. |
| ProcessPoll.CombinedReadsAreComplete | packages/os-exec/src/poll.ts:280-292 | With any characters: if neither stream produced bytes that make the other skip, passing the byte count on returns all new output. |
| ProcessPoll.CombinedReadsAreCompleteIff | packages/os-exec/src/poll.ts:280-292 | In any encoding that shows a cut, and for output without replacement characters: passing the byte count of a combined response on returns all new output iff neither stream produced bytes that make the other skip. |
| Utf8.PolledOutputIsCompleteIff | packages/os-exec/src/poll.ts:131-137 | The same for UTF-8, with encoder and decoder written out. |
| Utf8.Utf8IsFaithful | packages/os-exec/src/poll.ts:131-137 | UTF-8 text is read back as it was. |
| Utf8.Utf8MarksCuts | packages/os-exec/src/poll.ts:131-137 | Reading from within a character yields a replacement character. |
| Utf8.ReplacementHidesSkip | packages/os-exec/src/poll.ts:280-292 | Output that itself holds replacement characters can be skipped in part and still look complete. |

## Left out

- ServiceWorld: entries are values in a map, since no handler uses an entry object across an await except for its constant capabilities; plugin services, direct tools, labels of log lines and event payloads are not modelled.
- Direct database access of `ServiceControlPlaneAuth.revokeService` and of the control operations bypasses the lifecycle handlers and lies outside the lifecycle results.
- ProcessPoll.CombinedReadsAreCompleteIff: output that contains the replacement character itself is excluded, since there a skip can go unnoticed (`Utf8.ReplacementHidesSkip`); strings are sequences of Unicode scalar values.
- ToolNames.FindFreeName: takes fewer than 2^32 names, the limit of a JavaScript array.
- JsonRpcSession.McpJsonRpcSession.OnChunk: works on decoded text; the code decodes chunk by chunk, so a character cut by a chunk boundary is outside the model, and a notification tap that calls back into the session from within the loop is modelled only between chunks.
- StreamableHttpSession.McpStreamableHttpSession.FinishPost: runs without interruption; `HttpPosts.PostSettlesItsRequest` is about the same steps with other events in between. The stale sweep over HTTP is a table step only, being the stdio loop again.
- Failover.IterateFailoverChain: hooks and output assembly do not throw.
- TranscriptStore.Database.ReplaceSessionTranscript: JSON columns are held as parsed values, and timestamps, metadata and the foreign key to sessions are not modelled.
- SessionCompaction: the two text strippers and the model call are function parameters; a failing model call stores nothing and is not modelled; the prompt text and the statistics record are left out.
- SessionRuns: messages are appended as rows; the repair of unanswered calls that precedes some appends is in `TranscriptAppend`.
- InvocationMerge: numbers are reals and non-finite literals; objects come from JSON, so properties set to undefined occur only in merged records.
- AnthropicDelivery.ConsumeAnthropicMessagesStream: callbacks and abort signals are not modelled; usage properties are numbers, null or absent.
- AnthropicTags.TagsReadAsWholeIff: streams in which one index holds text and something else are excluded.
- OpenAiStream: delta callbacks and abort signals are not modelled.
- HTTP, sockets, child processes, back-pressure of writes, reconnect loops of the standing GET stream, health probes: I/O, present as steps or parameters.
- Fingerprints, JSON parsing and schema validation: opaque functions; provider and session streams are decoded text.
- Shutdown ordering, path containment, plugin hooks, Gemini streams and request serialisation.
- `findProcessByPid`, argument validation of the poll tool and waiting for a process: easy members.
