# Verification of the conversation runtime

A Dafny model of the conversation runtime, from the prompt planner to the host's event log, and
proofs of the properties the runtime is built for. `dafny verify dfyconfig.toml` checks all of it.

What is modelled, file by file:

- `Contracts`, `Transcript`: the shared values, and when a transcript is closed: every assistant
  message with tool requests is followed at once by their results, in order, and no result stands
  alone.
- `TokenEstimates`, `Turns`, `PlanSearch`, `ContextPlanner`: the context planner. It splits a
  transcript into turns and searches windows of whole turns under a token capacity and a character
  ceiling at once, with calibrated sizes and the small-context fallback. The adapter's prompt measure
  is an arbitrary function.
- `SchemaRewrite`, `SchemaMeaning`, `SchemaWeakening`: the translation of tool schemas for LM Studio,
  the meaning of a schema under JSON Schema draft 2020-12, and what the translation keeps.
- `RequestSizing`: the chat request, its JSON length, the prompt measures and the send-time check.
- `Lines`, `Framing`, `ProviderStream`: the provider's server-sent events, cut into frames.
- `ChatCodec`, `ChatStream`, `ChatStreamDecoder`: decoding a whole completion, accumulating a
  streamed one, and the decoder object.
- `SessionEvents`, `TextDeltas`, `SessionMachine`, `SessionInvariants`, `SessionRuns`,
  `SessionBoundary`, `SessionStore`: the session log and its language, the delta emitter, the steps
  of one session between two points where the runtime may switch to other work, what every run
  keeps, two concrete runs, and all sessions of a runtime together.
- `RuntimeService`: the emitter, record and service objects, each method tied to its step.
- `EventStream`, `EventLimits`: the gateway's event stream printer, the host client's parser, and
  when its buffer limit refuses a stream.
- `HostMachine`, `HostRuns`, `HostSession`, `HostCapacity`: the host coordinator: relaying the
  runtime log, driving a turn, the bounded event list with cursors, follow-ups, and capacity
  reserved across waits.
- `SupervisorMachine`, `RuntimeSupervisor`: the process supervisor under every interleaving of
  starts, stops, client calls and exits.
- `Conversation`: results across the components. `Traces`: induction along runs.

A step function on values says what an operation does; the class methods and loops that change
state step by step are proved equal to it, and the lemmas about runs are proved about it.

Findings, each stated with a concrete input or an exact condition:

- A session can be left waiting for tools with nothing pending, and a completed one with an extra
  user message, when a follow-up arrives with exactly 503 events logged: the second scheduling check
  refuses after the first has let the change happen. No later call can start on such a record
  (`SessionRuns.SubmitIsAtomicExceptAtBoundary`, `SessionRuns.ExhaustedForever`). That the number of
  tool rounds is strictly below its limit while a session waits holds except in that state. Both
  states are reached under profiles that can be configured, the first with all tool rounds used
  (`SessionBoundary.WaitingBoundaryIsReached`, `SessionBoundary.CompletedBoundaryIsReached`).
- The host's client can refuse a final text the runtime allows: characters beyond U+FFFF take twelve
  characters each in the event's JSON, and 99,998 of them, which an output limit of 100,000 allows,
  exceed its 1,200,000 (`Conversation.AllowedTextIsRefused`). A stream gets through, cut suitably, exactly when each of its
  frames fits (`EventLimits.GetsThroughExactly`).
- A streamed result never names the provider behind the model, which a whole response may
  (`ChatStream.StreamRefinesWhole`).
- A prompt sized at zero escapes the planner's first pass when the budget is zero
  (`PlanSearch.ZeroSizeEscapesFirstPass`). No run has such a size.
- A start call during a stop can publish a runtime whose process was already let go
  (`SupervisorMachine.StartDuringStopPublishesADeadRuntime`); it does so exactly when the generation
  has moved on since the spawn (`SupervisorMachine.PublishedIsCurrentExactly`).
- The schema translation can refuse more than the original under `not`
  (`SchemaWeakening.DroppingUnderNotRefuses`).

## Model

| member | source | states |
|---|---|---|
| `TokenEstimates.EstimateTextTokens` | src/local_agent_runtime/context.py:66-84 | the counting loop returns a third of the ASCII characters rounded up, one per other character below U+2000 and three per remaining one; the all-ASCII shortcut agrees with the loop |
| `TokenEstimates.TextTokensSplit` | src/local_agent_runtime/context.py:66-84 | estimating two texts apart costs at least the estimate of their concatenation and at most one token more; the estimate covers every character |
| `TokenEstimates.EstimateMessageTokens` | src/local_agent_runtime/context.py:158-170 | the loop over tool calls computes the cost of a message: overhead, content, each call's identifier, name and compact arguments, and the answered request |
| `TokenEstimates.EstimateToolsTokens` | src/local_agent_runtime/context.py:173-186 | the loop over tools computes the fixed cost of tools and output schema |
| `Turns.SplitTurns` | src/local_agent_runtime/context.py:275-287 | the loop splits a transcript into leading system indices and turns as the specification function does, whose shape is the next row |
| `Turns.PartitionShape` | src/local_agent_runtime/context.py:275-287 | the system part is exactly the leading run of system messages; the turns are nonempty, list every other index once and in order, and each later one is opened by its only user message |
| `Turns.SuffixIsContiguous` | src/local_agent_runtime/context.py:321-322 | a searched window is the instructions and one contiguous run to the newest message, starting at a user message unless it is the whole transcript; a zero slice arises only without turns |
| `Turns.CutDecreases` | src/local_agent_runtime/context.py:321-322 | keeping more turns strictly widens the window |
| `Turns.PickSuffix` | src/local_agent_runtime/context.py:321-325 | the messages of a window are the instructions followed by everything from its cut |
| `Turns.WindowClosed` | src/local_agent_runtime/context.py:301-303 | a window of whole turns of a closed transcript is closed: every request is answered at once, in order, by its own results, and no result stands alone |
| `PlanSearch.SearchLargest` | src/local_agent_runtime/context.py:386-392 | the downward loop finds the largest admissible count of turns, or that there is none |
| `PlanSearch.SearchSmallest` | src/local_agent_runtime/context.py:408-416 | the downward loop finds a fitting window of least size, the larger one on a tie; it finds one whenever one fits, so the source's assertion holds |
| `PlanSearch.Choose` | src/local_agent_runtime/context.py:342-430 | the branches with their loops compute the specified decision: first pass, character failure, small-context fallback, failure |
| `PlanSearch.UnknownCapacity` | src/local_agent_runtime/context.py:344-375 | without a capacity the largest character-fitting window is kept with the configured output, and planning fails exactly when no window fits the characters |
| `PlanSearch.SentWindowIsSound` | src/local_agent_runtime/context.py:385-433 | with a capacity and no failure: prompt, allocated output and margin together fit the capacity, and min(configured, 2048) <= allocated <= configured |
| `PlanSearch.FirstPassIsExact` | src/local_agent_runtime/context.py:379-392 | with positive sizes the first pass finds a window exactly when some searched window fits the characters and leaves room for the configured output and the margin, and then the largest such window |
| `PlanSearch.OutputShrinksExactlyUnderPressure` | src/local_agent_runtime/context.py:393-420 | without failure the allocation is below the configured one exactly when no window fits fully; on failure it is the configured one |
| `PlanSearch.ZeroSizeEscapesFirstPass` | src/local_agent_runtime/context.py:385-392 | an input showing the positive-size condition is needed: an empty prompt fits fully but the guard `budget > 0` skips the first pass |
| `PlanSearch.SmallContextFailsExactly` | src/local_agent_runtime/context.py:402-430 | below 128,000 tokens, when the mandatory window fits the characters, planning fails exactly when no character-fitting window leaves margin and output floor |
| `PlanSearch.LargeContextFailsExactly` | src/local_agent_runtime/context.py:402-430 | from 128,000 tokens on planning fails exactly when no window fits beside the configured output, and which of the two messages is given |
| `PlanSearch.InputLimitBlamedExactly` | src/local_agent_runtime/context.py:396-401 | the input limit is blamed exactly when planning fails and the mandatory window exceeds the characters |
| `PlanSearch.FallbackIsOptimal` | src/local_agent_runtime/context.py:402-420 | a reduced allocation goes with the smallest character-fitting window, the larger on a tie, and gets all that is left; taking the minimum with the configured value never binds |
| `PlanSearch.FallbackPicksOneOfTwo` | src/local_agent_runtime/context.py:403-415 | when size grows on either side of a threshold the fallback is the mandatory window or the smallest fitting one beyond the threshold |
| `ContextPlanner.PlanContext` | src/local_agent_runtime/context.py:290-448 | the whole planner, with its cost loop, partition and searches, returns the specified plan |
| `ContextPlanner.WindowShape` | src/local_agent_runtime/context.py:321-322 | every planned window is instructions plus a run of whole turns to the newest message, and the dropped count is what lies between |
| `ContextPlanner.DroppedTogether` | src/local_agent_runtime/context.py:239-241 | messages are dropped exactly when turns are |
| `ContextPlanner.PlannedWindowClosed` | src/local_agent_runtime/context.py:301-303 | planning never splits a tool group |
| `ContextPlanner.SizeGrows` | src/local_agent_runtime/context.py:333-340 | on one basis a wider window costs strictly more |
| `ContextPlanner.CalibrationIsUpward` | src/local_agent_runtime/context.py:333-340 | a window that extends one sized from the provider's count is sized from it too |
| `ContextPlanner.SizesGrowInRegions` | src/local_agent_runtime/context.py:333-340 | size is strictly increasing below and from the first calibrated window on, which is where calibration starts exactly |
| `ContextPlanner.PlanIsSound` | src/local_agent_runtime/context.py:385-448 | a plan without failure fits the adapter's measure and, with a capacity, holds prompt, output and margin in it |
| `ContextPlanner.ReducedAllocationIsOptimal` | src/local_agent_runtime/context.py:402-420 | for positive counts, the allocation is reduced exactly under pressure and then goes with the mandatory window or the smallest fitting calibrated one; otherwise the window is the largest that fits fully |
| `ContextPlanner.PlanFailsExactly` | src/local_agent_runtime/context.py:342-448 | when planning fails, for every capacity, and which limit it names |
| `ProviderStream.BoundaryIsStable` | src/local_agent_runtime/adapters/http_transport.py:157-167 | bytes that arrive later never create an earlier delimiter, with LF-LF and CRLF-CRLF mixed |
| `ProviderStream.StreamJsonSse` | src/local_agent_runtime/adapters/http_transport.py:145-186 | the receive loop over chunks computes the specified frames and verdict |
| `ProviderStream.TakeFrames` | src/local_agent_runtime/adapters/http_transport.py:157-182 | the frame loop takes exactly the complete frames of the buffer up to `[DONE]` or a bad one |
| `ProviderStream.ChunkingInvariance` | src/local_agent_runtime/adapters/http_transport.py:145-186 | within the byte bound, frames, the `[DONE]` cut and the verdict depend only on the concatenated bytes; chunk boundaries do not matter |
| `ProviderStream.OverlongDeliversPrefix` | src/local_agent_runtime/adapters/http_transport.py:148-155 | whatever the byte bound, the frames yielded are a prefix of those of the whole stream |
| `ProviderStream.SentFramesAreRead` | src/local_agent_runtime/adapters/http_transport.py:157-182 | data frames sent with either delimiter, mixed freely, are read back as exactly their values, in order, with nothing left over |
| `Framing.DrainContinues` | src/local_agent_runtime/adapters/http_transport.py:157-186 | for any delimiter search later input cannot disturb, draining a longer buffer continues the earlier drain |
| `ChatCodec.DecodeCallsOneForOne` | src/local_agent_runtime/adapters/chat_codec.py:145-159 | tool calls are decoded one for one, in order, all of them or none |
| `ChatStream.AcceptedSays` | src/local_agent_runtime/adapters/chat_codec.py:194-266 | accepting a chunk turns the state for the fragments so far into the state for one more and shows exactly its text |
| `ChatStream.StreamAccepted` | src/local_agent_runtime/adapters/chat_codec.py:194-266 | a consistent list of fragments within the output limit is accepted to the end, and the shown texts glue to the whole text |
| `ChatStream.WholeDecodes` | src/local_agent_runtime/adapters/chat_codec.py:108-176 | every JSON form of a whole message, with keys in any order and others among them, decodes to what its content, calls, finish, model, usage and refusal say |
| `ChatStream.AccumulatedIsWhole` | src/local_agent_runtime/adapters/chat_codec.py:272-297 | the payload the accumulator completes with is such a form of what it accumulated |
| `ChatStream.StreamRefinesWhole` | src/local_agent_runtime/adapters/chat_codec.py:194-297 | for any split of a message into content, identifier, name and argument fragments, interleaved across call indices, accepting them and completing equals decoding the unsplit message in any JSON form a provider may send it in, except that a streamed result names no upstream provider |
| `ChatStream.ShownIsRecorded` | src/local_agent_runtime/adapters/chat_codec.py:219-266 | whatever chunks are accepted, the texts shown are the texts recorded |
| `ChatStream.CompletedTextIsShown` | src/local_agent_runtime/adapters/chat_codec.py:272-297 | the completed text is the concatenation of what was shown, so the service's comparison of streamed and completed text cannot fail on this route |
| `ChatStream.RequestsInIndexOrder` | src/local_agent_runtime/adapters/chat_codec.py:272-280 | completed requests are the recorded calls in ascending index order with their identifiers, names and parsed arguments |
| `ChatStreamAccumulator.ChatStreamDecoder.Accept` | src/local_agent_runtime/adapters/chat_codec.py:194-270 | the decoder object, field by field and call by call, does what the specification step does, on failures too |
| `ChatStreamAccumulator.ChatStreamDecoder.Complete` | src/local_agent_runtime/adapters/chat_codec.py:272-297 | completing the object is decoding the accumulated message |
| `TextDeltas.NewEmitterIsBounded` | src/local_agent_runtime/service.py:155-174 | a new emitter satisfies the budget invariant: pending and future text fit the remaining flushes |
| `TextDeltas.PushSucceeds` | src/local_agent_runtime/service.py:176-202 | under the invariant a fragment is refused only for being empty or over the output limit; neither the flush guard nor the log refuses, and the invariant is kept |
| `TextDeltas.FlushSucceeds` | src/local_agent_runtime/service.py:194-202 | under the invariant the final flush succeeds |
| `TextDeltas.PushKeepsText` | src/local_agent_runtime/service.py:176-202 | text logged for the round plus pending text is what was pushed |
| `TextDeltas.CallNeverExhaustsBudget` | src/local_agent_runtime/service.py:155-202 | over any sequence of accepted fragments, first flush, threshold flushes and final flush stay within the event budget and the logged payloads concatenate to the pushed text |
| `RuntimeServiceObjects.TextDeltaEmitter.Flush` | src/local_agent_runtime/service.py:194-202 | the emitter object writes its pending text, or reports that there is no room, as specified |
| `RuntimeServiceObjects.TextDeltaEmitter.Push` | src/local_agent_runtime/service.py:176-192 | the emitter object takes a fragment as specified: checks, append, threshold flush |
| `SessionEvents.RoundsAreCounted` | src/local_agent_runtime/service.py:103-110 | in a valid log the round in force is the number of provider starts, and later rounds have no text |
| `SessionEvents.PrefixIsValid` | src/local_agent_runtime/service.py:103-110 | a valid log cut anywhere is valid |
| `SessionEvents.BetweenStarts` | src/local_agent_runtime/service.py:842-848 | between two consecutive provider starts a valid log holds at most one reduction notice directly after the first, that round's text, exactly one ending event and the follow-up it asks for |
| `SessionEvents.LaterIsSuffix` | src/local_agent_runtime/service.py:834-840 | in a numbered log the entries beyond a cursor are the rest of the log |
| `SessionInvariants.NextKeeps` | src/local_agent_runtime/service.py:948-1193 | every step of a session keeps the invariant on log, status, transcript, limits, count and call |
| `SessionInvariants.RunKeeps` | src/local_agent_runtime/service.py:842-1193 | the invariant holds in every state of every run |
| `SessionInvariants.EnterKeeps` | src/local_agent_runtime/service.py:914-946 | planning, noting a reduction and entering the provider, or failing, keeps the invariant |
| `SessionInvariants.PushKeeps` | src/local_agent_runtime/service.py:974-978 | a streamed fragment keeps the invariant and never fails for lack of log entries |
| `SessionInvariants.FinishKeeps` | src/local_agent_runtime/service.py:976-1080 | a provider's answer keeps the invariant on every path |
| `SessionInvariants.SubmitKeeps` | src/local_agent_runtime/service.py:1105-1138 | submitting tool results keeps the invariant, refused or not |
| `SessionInvariants.ContinueKeeps` | src/local_agent_runtime/service.py:1140-1169 | follow-up input keeps the invariant, refused or not |
| `SessionInvariants.CancelKeeps` | src/local_agent_runtime/service.py:1171-1193 | cancellation keeps the invariant, ends a live session and leaves nothing pending |
| `SessionRuns.SentWindowsAreClosed` | src/local_agent_runtime/context.py:275-322 | in every run, each window handed to a provider is instructions plus a suffix of whole turns, closed under requests and results |
| `SessionRuns.TranscriptIsAppendOnly` | src/local_agent_runtime/service.py:1045-1063 | the transcript only grows over the whole life of a session |
| `SessionRuns.CountedMessagesStay` | src/local_agent_runtime/service.py:992-1002 | in every run a stored count is the count of an earlier call: its indices are those of that call, it is at least the number of messages that call sent, and the indices denote those very messages ever after |
| `SessionRuns.CountsInRunsArePositive` | src/local_agent_runtime/service.py:992-1002 | a count used for planning in a run is positive, so the exact planning conditions apply |
| `SessionRuns.PlannedCallsEnter` | src/local_agent_runtime/service.py:914-978 | in every run a call planned without failure enters the provider: its reduction notice always finds room in the log, and so does the emitter when the answer is streamed |
| `SessionRuns.LogsInRuns` | src/local_agent_runtime/service.py:103-110 | in every run the log is numbered from one, has at most 512 entries and room for a terminal one while the session is live, is valid, and counts the calls |
| `SessionRuns.LimitsInRuns` | src/local_agent_runtime/service.py:1006-1016 | tool rounds and output stay within the profile's limits; a waiting session has rounds left unless its log is at the scheduling limit; only waiting and failed sessions have pending requests |
| `SessionRuns.FinalStatesAbsorb` | src/local_agent_runtime/service.py:1081-1103 | nothing changes in a failed or canceled record |
| `SessionRuns.StreamedTextIsFinalText` | src/local_agent_runtime/service.py:974-984 | a streamed session that completes has logged exactly its final text for the round |
| `SessionRuns.SubmitAcceptedExactly` | src/local_agent_runtime/service.py:1109-1137 | results are accepted exactly when they answer everything pending, a slot is free and fewer than 503 events are logged |
| `SessionRuns.SubmitIsAtomicExceptAtBoundary` | src/local_agent_runtime/service.py:1132-1137 | a refused submission changes nothing, except with exactly 503 events, where the results are kept, the round is counted and only the call is refused |
| `SessionRuns.ContinueIsAtomicExceptAtBoundary` | src/local_agent_runtime/service.py:1158-1168 | when follow-up input is accepted, and that refusal changes nothing except with exactly 503 events, where the input is kept |
| `SessionBoundary.WaitingBoundaryIsReached` | src/local_agent_runtime/service.py:1132-1137 | under a profile within the configured bounds a run of 125 completed turns and one tool request waits with exactly 503 entries; there the answer to everything pending is refused and kept, and leaves the session waiting with nothing pending and all its tool rounds used |
| `SessionBoundary.CompletedBoundaryIsReached` | src/local_agent_runtime/service.py:1158-1168 | under such a profile a run of 124 turns and one tool round completes with exactly 503 entries, where a proper follow-up prompt is refused and kept in the transcript |
| `SessionRuns.ExhaustedForever` | src/local_agent_runtime/service.py:850-854 | after that boundary no provider call ever starts on the record |
| `SessionStore.StoreRunKeeps` | src/local_agent_runtime/service.py:773-818 | under every interleaving of creations, expiries and steps of all sessions: at most 8 running, at most 128 stored, each session sound |
| `SessionStore.OthersUntouched` | src/local_agent_runtime/service.py:820-829 | a step of one session leaves every other as it was |
| `SessionStore.RequestsAreSteps` | src/local_agent_runtime/service.py:1105-1193 | submissions, follow-ups and cancellations addressed by identifier are steps of the store |
| `SessionStore.CancelEnds` | src/local_agent_runtime/service.py:1176-1193 | a cancellation ends every sound session, and the rest of the request, coming after the cancelled task, changes nothing more |
| `SessionStore.TaskStepsKeep` | src/local_agent_runtime/service.py:948-1103 | every step of a provider task, addressed by identifier, keeps the whole store sound |
| `SessionStore.EventsAreTheRest` | src/local_agent_runtime/service.py:834-840 | from a reachable store a cursor read returns exactly the rest of the log |
| `RuntimeServiceObjects.SessionRecord.AddEvent` | src/local_agent_runtime/service.py:103-110 | appends a numbered entry unless the limit for its kind, 511 or 512, is reached |
| `RuntimeServiceObjects.SessionRecord.AdvancePlan` | src/local_agent_runtime/service.py:948-974 | the provider task up to the provider call is the planning step on the record's fields |
| `RuntimeServiceObjects.SessionRecord.AdvancePush` | src/local_agent_runtime/service.py:976 | one streamed fragment is the push step, ending the call when refused |
| `RuntimeServiceObjects.SessionRecord.AdvanceFinish` | src/local_agent_runtime/service.py:976-1080 | the provider's answer is the finish step, with the final flush, the comparison, the charge and the outcome |
| `RuntimeServiceObjects.SessionRecord.CollectRequests` | src/local_agent_runtime/service.py:1017-1044 | the loop over requests accepts them one by one and stops at the first bad one, as specified |
| `RuntimeServiceObjects.SessionRecord.AdvanceFails` | src/local_agent_runtime/service.py:1086-1103 | an error in the provider task is the failure step, after the flush on the way out |
| `RuntimeServiceObjects.SessionRecord.CancelNow` | src/local_agent_runtime/service.py:1081-1085 | where a cancellation takes effect, inside the provider task or without one, it is the cancel step, after the flush on the way out |
| `RuntimeServiceObjects.RuntimeService.CountActive` | src/local_agent_runtime/service.py:855 | the count of running records is that of the specification |
| `RuntimeServiceObjects.RuntimeService.EnsureSchedulable` | src/local_agent_runtime/service.py:850-859 | the three refusals, in order |
| `RuntimeServiceObjects.RuntimeService.Schedule` | src/local_agent_runtime/service.py:842-848 | starting a call changes the record as the scheduling step does |
| `RuntimeServiceObjects.RuntimeService.Forget` | src/local_agent_runtime/service.py:820-829 | looking a session up drops it when its time is over and it is not running |
| `RuntimeServiceObjects.RuntimeService.CollectAnswers` | src/local_agent_runtime/service.py:1114-1131 | the loop over pending requests builds one answer message each, in request order, or fails on the first misfit |
| `RuntimeServiceObjects.RuntimeService.SubmitToolResults` | src/local_agent_runtime/service.py:1105-1138 | the whole request, lookup included, is the specified change of the store and of no other session, and keeps every session sound and the store within its limits |
| `RuntimeServiceObjects.RuntimeService.ContinueSession` | src/local_agent_runtime/service.py:1140-1169 | likewise for follow-up input |
| `RuntimeServiceObjects.RuntimeService.BeginCancel` | src/local_agent_runtime/service.py:1171-1182 | a cancel request up to its wait: an unknown session is refused, one without a task is ended at once, a task is told to stop and waited for; soundness of the store is kept |
| `RuntimeServiceObjects.RuntimeService.TaskCanceled` | src/local_agent_runtime/service.py:1081-1085 | the cancellation reaches the waiting task and ends its session |
| `RuntimeServiceObjects.RuntimeService.EndCancel` | src/local_agent_runtime/service.py:1183-1193 | the rest of the request, whatever happened during the wait, leaves the session over, by the cancel step of the store |
| `RuntimeServiceObjects.RuntimeService.Plan` | src/local_agent_runtime/service.py:948-974 | the provider task of a stored session plans and enters the provider: the specified change of the store, which stays sound |
| `RuntimeServiceObjects.RuntimeService.Fragment` | src/local_agent_runtime/service.py:976 | likewise for a streamed fragment |
| `RuntimeServiceObjects.RuntimeService.TakeAnswer` | src/local_agent_runtime/service.py:976-1080 | likewise for the provider's answer |
| `RuntimeServiceObjects.RuntimeService.TaskFails` | src/local_agent_runtime/service.py:1086-1103 | likewise for an error or a timeout |
| `RuntimeServiceObjects.RuntimeService.Sweep` | src/local_agent_runtime/service.py:774-779 | the loop forgets exactly the expired sessions that are not running |
| `RuntimeServiceObjects.RuntimeService.CreateSession` | src/local_agent_runtime/service.py:771-818 | a session is stored only together with its first call, after the sweep and the checks, in the source's order |
| `RuntimeServiceObjects.RuntimeService.Events` | src/local_agent_runtime/service.py:834-840 | the entries beyond a cursor, or the refusal of a bad cursor or unknown session |
| `EventStream.Stream` | src/local_agent_runtime/gateway.py:301-321 | what the generator yields is, heartbeats apart, the log beyond the cursor; it ends at the first round that finds a terminal or paused session with nothing new, or else the client gone |
| `EventStream.YieldBatch` | src/local_agent_runtime/gateway.py:307-311 | the frames of one batch are its events in order and the cursor ends at the last |
| `EventStream.BoundaryIsStable` | clients/typescript/src/transport.ts:108-110 | later text never creates an earlier blank line |
| `EventStream.TakeFrames` | clients/typescript/src/transport.ts:108-120 | the frame loop delivers exactly the complete frames of the buffer, checking each sequence number |
| `EventStream.StreamEvents` | clients/typescript/src/transport.ts:93-130 | the read loop over chunks computes the specified delivery and verdict |
| `EventStream.ClientChunking` | clients/typescript/src/transport.ts:103-124 | unless the buffer limit is hit, delivery and verdict depend only on the concatenated text |
| `EventStream.RoundTrip` | src/local_agent_runtime/gateway.py:301-321 | what the gateway prints for a log is parsed back by the client as exactly the events beyond the cursor, once each and in order, wherever heartbeats stand and however the text is cut |
| `EventStream.CutShort` | clients/typescript/src/transport.ts:103-124 | a connection cut anywhere has delivered a contiguous run of the log from the cursor, without error, so reconnecting loses and repeats nothing |
| `EventStream.EnoughRoom` | clients/typescript/src/transport.ts:105-106 | the buffer limit is not hit when the largest frame and the largest chunk fit in it together |
| `EventLimits.LongFrameIsRefused` | clients/typescript/src/transport.ts:105-106 | a stream with a frame longer than the buffer limit is refused however it is cut |
| `EventLimits.GetsThroughExactly` | clients/typescript/src/transport.ts:93-130 | some way of cutting a stream gets past the limit exactly when every frame fits it |
| `EventLimits.AlwaysGetsThroughExactly` | clients/typescript/src/transport.ts:93-130 | every way does exactly when the whole stream fits it |
| `EventLimits.FrameLength` | src/local_agent_runtime/gateway.py:310-311 | the length of a frame: 21 characters more than the sequence number, the type and the JSON text |
| `EventLimits.LongTextIsRefused` | clients/typescript/src/transport.ts:105-106 | an event whose JSON holds a text, escaped to ASCII, that does not fit the buffer limit beside the fixed parts of its frame makes every stream it is in refused, however it is cut |
| `HostMachine.DrivingDescends` | clients/typescript/src/host/session-coordinator.ts:486-615 | every poll after which driving goes on lowers the tuple: tool rounds left, log entries left, last status not yet running, idle polls left |
| `HostMachine.Driven` | clients/typescript/src/host/session-coordinator.ts:486-615 | driving against any surroundings ends, and nothing is being driven then |
| `HostRuns.TakenKeeps` | clients/typescript/src/host/session-coordinator.ts:393-761 | every step of a host session keeps the invariant on numbering, relay, stage and limits |
| `HostRuns.HostLogIsExact` | clients/typescript/src/host/session-coordinator.ts:486-675 | in every run the relayed host events are the images of the runtime log up to the cursor, once each and in order, across reconnections and continued turns; every turn but the one at work has exactly one outcome; tool rounds stay within their limit |
| `HostRuns.ClosedIsFinal` | clients/typescript/src/host/session-coordinator.ts:728-761 | a failed, canceled or approval-bound host session never changes again |
| `HostRuns.HostLogOnlyGrows` | clients/typescript/src/host/session-coordinator.ts:775-790 | the host log only grows and its relay cursor never goes back |
| `HostRuns.ValidLogIsAccepted` | clients/typescript/src/host/session-coordinator.ts:617-660 | an entry of a valid runtime log is refused exactly when it is a reduction notice with a count that is no safe integer; every notice has dropped messages or a smaller output to tell |
| `HostRuns.ShownTextIsLoggedText` | clients/typescript/src/host/session-coordinator.ts:620-626 | round by round, the assistant text in the host log is the text the runtime logged |
| `HostRuns.DrivingIsARun` | clients/typescript/src/host/session-coordinator.ts:486-615 | a turn of driving is a run of the elementary steps: deliveries, replies, faults |
| `HostRuns.LeavesOnlyAborted` | clients/typescript/src/host/session-coordinator.ts:489 | driving ends without an outcome only when a later poll finds the signal aborted |
| `HostRuns.DrivingSettles` | clients/typescript/src/host/session-coordinator.ts:458-615 | driving a sound session leaves it sound and with an outcome, unless the signal was aborted, and then the cancel request that aborted it gives the outcome |
| `HostSessionObjects.HostSession.AddEvent` | clients/typescript/src/host/session-coordinator.ts:775-790 | appends to the bounded list, forgetting the oldest, while the history grows by the event |
| `HostSessionObjects.HostSession.EventsAfter` | clients/typescript/src/host/session-coordinator.ts:448-456 | a cursor outside 0..count is invalid; it is stale exactly when an event beyond it was forgotten; otherwise every event beyond it is returned, contiguous and in order |
| `HostSessionObjects.HostSession.NormalizeRuntimeEvent` | clients/typescript/src/host/session-coordinator.ts:617-675 | relays one entry as its image or refuses it, as specified, with the counts of a reduction notice checked one by one |
| `HostSessionObjects.HostSession.RelayStream` | clients/typescript/src/host/session-coordinator.ts:498-506 | the stream loop moves the cursor before relaying and stops at the first refused entry |
| `HostSessionObjects.HostSession.TakeReply` | clients/typescript/src/host/session-coordinator.ts:521-613 | acting on the polled state: tools, approval, the three outcomes, progress and idle count |
| `HostSessionObjects.HostSession.CollectBlocked` | clients/typescript/src/host/session-coordinator.ts:527-548 | the loop collects the requests that may not be executed, in order |
| `HostSessionObjects.HostSession.Drive` | clients/typescript/src/host/session-coordinator.ts:486-615 | the drive loop, under its guard on the aborted signal and with its failure handler, ends and leaves the specified state |
| `HostSessionObjects.HostSession.SettleDriveFailure` | clients/typescript/src/host/session-coordinator.ts:744-761 | a fault makes the turn failed or canceled, timeouts first |
| `HostSessionObjects.HostSession.BeginContinue` | clients/typescript/src/host/session-coordinator.ts:398-408 | a follow-up is passed on only when proper, on a completed session, one at a time |
| `HostSessionObjects.HostSession.FinishContinue` | clients/typescript/src/host/session-coordinator.ts:428-441 | an accepted follow-up opens the next turn on the same log, cursor and round count; a refused one changes nothing |
| `HostSessionObjects.HostSession.FinishCancel` | clients/typescript/src/host/session-coordinator.ts:464-475 | a cancel request ends a session that driving left running |
| `HostCapacity.CapacityHolds` | clients/typescript/src/host/session-coordinator.ts:326-391 | stored and starting sessions together stay within the bound under every interleaving |
| `SessionCoordinatorObjects.SessionCoordinator.BeginStart` | clients/typescript/src/host/session-coordinator.ts:326-330 | a place is reserved only when stored and starting sessions leave one, after expired sessions are forgotten |
| `SessionCoordinatorObjects.SessionCoordinator.PublishStart` | clients/typescript/src/host/session-coordinator.ts:381-389 | a created session takes the reserved place |
| `SessionCoordinatorObjects.SessionCoordinator.AbandonStart` | clients/typescript/src/host/session-coordinator.ts:388-390 | a failed start gives its reserved place back |
| `SessionCoordinatorObjects.SessionCoordinator.RemoveExpired` | clients/typescript/src/host/session-coordinator.ts:719-726 | the loop forgets exactly the expired sessions |
| `SupervisorMachine.MovedKeeps` | clients/typescript/src/host/runtime-supervisor.ts:97-254 | every step of starts, stops, client calls, exits and errors keeps the invariant |
| `SupervisorMachine.LifecycleHolds` | clients/typescript/src/host/runtime-supervisor.ts:97-254 | in every run: at most one start under way; every process but the current child has exited or been signalled; restarts within their bound; a stopped supervisor has no child and no runtime wherever a call waits |
| `SupervisorMachine.StopLeavesNothing` | clients/typescript/src/host/runtime-supervisor.ts:233-240 | when a stop ends that no start call disturbed there is no child, no runtime, no start under way, and every process has exited or been signalled |
| `SupervisorMachine.StoppedProcessIsGone` | clients/typescript/src/host/runtime-supervisor.ts:242-261 | a stop that has let a process go ends only after that process has exited or been killed |
| `SupervisorMachine.ExitIsNoticedExactly` | clients/typescript/src/host/runtime-supervisor.ts:177-188 | an exit unpublishes the runtime exactly when it is the current child's; an exit of a superseded generation changes nothing else |
| `SupervisorMachine.OnlyStopSupersedes` | clients/typescript/src/host/runtime-supervisor.ts:196-228 | while a start waits for its process, only a stop moves the generation on |
| `SupervisorMachine.PublishedIsCurrentExactly` | clients/typescript/src/host/runtime-supervisor.ts:209-223 | a published runtime belongs to the current child exactly when the generation is still that of the spawn |
| `SupervisorMachine.StartDuringStopPublishesADeadRuntime` | clients/typescript/src/host/runtime-supervisor.ts:209-223 | a run in which a start call during a stop publishes a runtime whose process was already let go: the source has no such guard |
| `RuntimeSupervisorObjects.RuntimeSupervisor.DisposeCurrentChild` | clients/typescript/src/host/runtime-supervisor.ts:242-254 | lets the child go and signals it unless it has exited |
| `RuntimeSupervisorObjects.RuntimeSupervisor.DisposeOn` | clients/typescript/src/host/runtime-supervisor.ts:249-254 | when the wait is over a process that has not exited is killed and waited for once more |
| `RuntimeSupervisorObjects.RuntimeSupervisor.StartLeaves` | clients/typescript/src/host/runtime-supervisor.ts:196-231 | a start goes on with the disposal it waits for |
| `RuntimeSupervisorObjects.RuntimeSupervisor.StopLeaves` | clients/typescript/src/host/runtime-supervisor.ts:233-240 | and so does a stop |
| `RuntimeSupervisorObjects.RuntimeSupervisor.EnsureStarted` | clients/typescript/src/host/runtime-supervisor.ts:114-124 | joins the start under way, begins one, or does nothing |
| `RuntimeSupervisorObjects.RuntimeSupervisor.StartOnce` | clients/typescript/src/host/runtime-supervisor.ts:126-134 | refuses when stopped or out of restarts, else counts the restart and disposes of the old child |
| `RuntimeSupervisorObjects.RuntimeSupervisor.Launch` | clients/typescript/src/host/runtime-supervisor.ts:135-208 | spawns, or connects, and enters the health loop |
| `RuntimeSupervisorObjects.RuntimeSupervisor.TakeHealth` | clients/typescript/src/host/runtime-supervisor.ts:209-227 | publishes, gives up or pauses, by the health answer |
| `RuntimeSupervisorObjects.RuntimeSupervisor.ChildExits` | clients/typescript/src/host/runtime-supervisor.ts:177-188 | the exit handler looks at child, generation and stop |
| `RuntimeSupervisorObjects.RuntimeSupervisor.Stop` | clients/typescript/src/host/runtime-supervisor.ts:233-240 | stopping clears the runtime and begins to let the child go |
| `SchemaRewrite.ResultIsClean` | src/local_agent_runtime/adapters/providers/lmstudio.py:103-126 | no string-length keyword is left at any schema position |
| `SchemaRewrite.IdentityExactlyOnClean` | src/local_agent_runtime/adapters/providers/lmstudio.py:103-126 | the translation is the identity exactly on schemas without such keywords, and idempotent |
| `SchemaRewrite.OtherKeysStay` | src/local_agent_runtime/adapters/providers/lmstudio.py:107-125 | every other entry stays, in order, under its own name |
| `SchemaRewrite.NamesAndLiteralsStay` | src/local_agent_runtime/adapters/providers/lmstudio.py:110-125 | member names in maps of schemas stay, `minLength` among them, and values of keywords that hold no schema stay whole |
| `SchemaRewrite.ConstantsArePlain` | src/local_agent_runtime/adapters/providers/lmstudio.py:61-88 | `const` and `enum` are such keywords |
| `SchemaWeakening.AcceptsMore` | src/local_agent_runtime/adapters/providers/lmstudio.py:103-126 | under draft 2020-12, unless a string length is dropped under `not`, `if`, `oneOf` or a bounded `contains`, every instance the original accepts is accepted by the translation |
| `SchemaWeakening.UnevaluatedMore` | src/local_agent_runtime/adapters/providers/lmstudio.py:103-126 | that includes `unevaluatedProperties` and `unevaluatedItems`, whose reach depends on which other schemas accept |
| `SchemaWeakening.DroppingUnderNotRefuses` | src/local_agent_runtime/adapters/providers/lmstudio.py:103-126 | `{"not": {"minLength": 2}}` accepts a string of one character and its translation refuses it |
| `RequestSizing.BuildChatBody` | src/local_agent_runtime/adapters/chat_codec.py:13-68 | the loop builds the request body and the limit refuses it exactly when its JSON text is too long |
| `RequestSizing.SmallerAllowanceIsNoLonger` | src/local_agent_runtime/adapters/chat_codec.py:71-81 | a request that differs only in a smaller output allowance is no longer |
| `RequestSizing.PlannedMeansAccepted` | src/local_agent_runtime/adapters/providers/lmstudio.py:463-470 | a window planned without failure under LM Studio's measure passes the send-time length check in both request shapes, although it is sent with the allocated output |
| `RequestSizing.OneShapePlannedMeansAccepted` | src/local_agent_runtime/adapters/chat_codec.py:77-81 | the same for an adapter that measures the one shape it sends |
| `Decimals.DecimalLengthMonotone` | src/local_agent_runtime/service.py:959-962 | a smaller number never has more digits |
| `Conversation.StoredSessionsServeTheHost` | src/local_agent_runtime/service.py:831-840 | every stored session has a numbered, bounded, valid log and a status driving can end on |
| `Conversation.PlannedCountsAreSafe` | src/local_agent_runtime/service.py:930-944 | the counts of a plan are safe integers when transcript, configured output and capacity are, or without a capacity its estimate |
| `Conversation.NoticesAreRelayed` | clients/typescript/src/host/session-coordinator.ts:627-660 | every reduction notice the runtime logs for such a plan is accepted by the host and relayed with its counts |
| `Conversation.StreamIsADelivery` | clients/typescript/src/transport.ts:103-124 | a stream from the gateway, cut and rechunked in any way, hands the host exactly the log entries from its cursor to where it ended |
| `Conversation.HostShowsTheFinalText` | clients/typescript/src/host/session-coordinator.ts:617-626 | once a streamed session has completed and its log is relayed, the text the host shows for the last round is the final text |
| `Conversation.LongFinalTextIsRefused` | clients/typescript/src/transport.ts:105-106 | a log that ends in a completion whose final text, escaped, is longer than 1,199,961 characters never gets through to the host |
| `Conversation.AllowedTextIsRefused` | src/local_agent_runtime/service.py:1003-1009 | for every text of 99,998 characters beyond U+FFFF there is a reachable session, under a profile within the configured bounds with an output limit of 100,000, that takes it as its final text and whose log never gets through |
| `Conversation.StreamsExist` | src/local_agent_runtime/gateway.py:307-311 | every numbered log has such streams, so what is refused can be sent |

## Left out

- HTTP clients and servers, authentication, origin checks, subprocess transports, file stores, configuration and catalogs: input and output, or single-branch validation.
- Clocks and timers: timeouts, expiry and heartbeats are choices of the surroundings, made at any point where the code waits.
- A task cancelled before its first step never runs its handler; the tail of the cancel request then does the same, and the model has the handler do it. Adapters do not swallow the cancellation. The provider factory, which is called outside its error handling, is taken to return; so are the supervisor's client factory and the reply of a health check other than an answer, a failure or a host error.
- `output_margin` uses the integer ceiling of a twentieth, not the rounding of floating-point products.
- Regular expressions, JSON Schema validation of arguments and output, JSON parsing and printing of single values, identifiers and white-space tests are parameters. JSON length is computed over the structure, from given lengths of strings and fractions; the bound of 2^62 characters that measuring uses in place of the limit is not modelled.
- The generic `estimate_prompt_chars` is covered by the arbitrary measure and not opened.
- Reasoning effort resolution, usage totals, effective model fields and error messages, except where a failure code or refusal depends on them.
- HostMachine.Driven: takes the runtime's final log as given and lets every poll deliver any further stretch of it; a runtime that is neither waiting, ended nor running is excluded by a condition that `Conversation.StoredSessionsServeTheHost` proves of every stored session.
- SchemaWeakening.AcceptsMore: `$ref`, its dynamic forms and `patternProperties` are excluded, because the runtime refuses them in every schema it takes; under `not`, `if`, `oneOf` and a `contains` with an upper bound nothing may be dropped, a sufficient condition that a caller can check, since whether a dropped length matters there depends on the rest of the schema.
- EventStream.RoundTrip: asks that the buffer limit is not hit; `EventStream.EnoughRoom` and `EventLimits` say when. Characters are the units of the limit, and the byte decoding of the response is not modelled.
- Surrogate pairs and other encoding details of text: strings are sequences of characters.
- Conversation.AllowedTextIsRefused: the JSON of an event is the codec's; of a completion's it is only asked that it holds the final text as `json.dumps` escapes it.
- Conversation.NoticesAreRelayed: asks for sizes a double can count; the runtime does not bound the length of a transcript or a capacity that way.
- RuntimeSupervisorObjects.RuntimeSupervisor.DisposeOn: an exit is one flag. In the source a child that died of a signal keeps an empty exit code and is sent the second signal in vain.
