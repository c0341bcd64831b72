# Verified model of the runtime projection and its neighbours

This project models, in Dafny 4.11, the parts of the repository that carry the most logic, and
proves what they keep over every input, log, schedule or run.

- **The runtime projection pipeline** (`src/runtime-projection/`). A log of 17 kinds of events is
  folded into a snapshot (`RuntimeReducer`). Each run is shown to depend on its own events and on
  session discards only (`RunIsolation`), to have a closed form (`RunClosedForm`), and the rest of
  the snapshot to summarise the log (`SnapshotSummary`). The queue and store that feed the fold are
  classes proved against a state machine; batching cannot be observed (`RuntimeStore`). The
  projector that merges runs into the chat is proved faithful and conserving
  (`ChatProjection`, `ChatRunMessages`, `ChatConservation`, `ChatPlaces`), what it shows of a run is
  read off the log (`ChatFromLog`), and the exact condition is given under which projecting twice
  changes nothing (`ChatIdempotence`). The replay of the durable run log is proved to rebuild what
  the live stream produced (`EventTranslator`, `LiveTokens`, `HistoryReplay`, `HistoryCoverage`,
  `ReplaySimulation`), up to the chat itself (`ReplayChat`), with the questions that were asked
  (`ReplayQuestions`); entries of any other origin are covered one by one (`ReplayEntries`).
- **The activation server** (`activation-server-rs/src/main.rs`) as a transition system over its
  tables of requests, invites, licences and refresh tokens (`ActivationServer`), with token
  rotation, revocation, conservation of uses, time order and the auto-approval quota as properties
  of every run (`ActivationInvariants`) and the exact conditions and effects of each handler
  (`ActivationHandlers`); its rate limiter (`RateLimiter`) and the device indicator
  (`DeviceIndicator`).
- **The wrappers over the conversation store** (`ConversationStore`), **the listener protocol of the
  bridge** (`ListenerBridge`), and **the pack-file printer and parser** (`PackFile`,
  `PackFileReading`, `PackFileRoundTrip`).

Loops and objects of the source are methods and classes; each is proved equal to a function of its
inputs or old state, and the theorems are about those functions. `dafny verify dfyconfig.toml`
checks everything.

Results worth knowing before changing the code:

- Projecting a chat twice can differ from projecting it once. A recovered answer is inserted by
  timestamp and may land between a question and its own answer; a second projection moves it
  (`ProjectTwiceCanDiffer`). The exact condition, on the conversation after the first pass alone,
  is `ProjectTwiceIffGapsAreBoundaries`.
- Live and replay disagree on a tool update that has a name but no id or no status: the live
  translator drops it, the replay makes one up (`NamedUpdateIsReadDifferently`; the exact condition
  is `PayloadReadsBackIff`).
- A stream that fails to start leaves its error in the log, but the replay looks for it under other
  names and shows an unknown error (`StartupFailureLosesItsError`).
- One manual approval can yield two licences: the invite code and the request it was made for are
  redeemed independently, and the conditional update of `used_count` does not stop the second one
  (`OneApprovalCanYieldTwoLicences`; the exact conditions are `RedeemOverissuesIff` for a step and
  `OverissuedIff` for a run).
- `setConversations` realises the assignment only for conversations stored under their own id
  (`MisplacedConversationIsNotStored`; the exact condition is in `SetConversations`).
- The rate limiter keeps its limits exactly as long as no key is called again in a minute it has
  left (`EveryLimitHoldsIff`). A clock that does not go back guarantees this; a step back within a
  minute, or to one the key has not used, does no harm, but a return admits the limit once more
  (`ReturningClockOverAdmits`).

## Assumptions

- JavaScript numbers, times and counters are integers; times are milliseconds in the front end and
  seconds in the server. An invalid `Date` is a value of its own.
- A JavaScript object used as a dictionary is a map with an enumeration order (integer-like keys
  first, then insertion order). Keys that collide with members of `Object.prototype` are not
  considered. Payload fields have their TypeScript types.
- `JSON.parse` and the redaction of recorded tool arguments are parameters; nothing is assumed of
  either. A recorded entry carries the stamp of the live event.
- Projection theorems assume runs stored under their own, non-empty id; `RunKeysAlwaysMatch` shows
  the reducer keeps the first half of this.
- Each server handler is one atomic step, although its reads sit outside its transaction. Ids and
  hashes are fresh and distinct, so an invite is identified with the hash of its code. RFC 3339 time
  stamps compare like the times they denote. The clock is monotone only where a lemma says so.

## Model

| member | source | states |
|---|---|---|
| RuntimeReducer.ReduceRuntimeEventBatch | src/runtime-projection/runtime-event-reducer.ts:337-346 | the loop leaves the left fold of the batch over the snapshot it started from |
| RuntimeReducer.FoldConcat | src/runtime-projection/runtime-event-reducer.ts:337-346 | reducing a batch is reducing any split of it, part by part, so batch boundaries cannot matter |
| RuntimeReducer.DiscardRuns | src/runtime-projection/runtime-event-reducer.ts:278-284 | the delete loop removes exactly the runs bound to the session and keeps every other run, in its place in the enumeration order |
| RuntimeReducer.StripApproval | src/runtime-projection/runtime-event-reducer.ts:153-157 | the copying loop leaves the approvals with exactly the resolved session removed, and in their order whenever that is an order a JavaScript object can have |
| JsValues.ArrayIndexIff | src/runtime-projection/runtime-event-reducer.ts:363-377 | the keys a JavaScript object enumerates first are exactly the decimal notations of the numbers below 2^32 - 1 |
| JsValues.NewKeyKeepsTheOthers | src/runtime-projection/runtime-event-reducer.ts:132-146 | a new key leaves the others in their order, and comes last unless it is such a number |
| SnapshotSummary.KeysAlwaysInOrder | src/runtime-projection/runtime-event-reducer.ts:132-158 | in every reachable snapshot runs and approvals are enumerated in such an order, integer-like keys first and ascending |
| RunIsolation.ReduceActsPerRun | src/runtime-projection/runtime-event-reducer.ts:40-131 | one event changes a run only as a function of that run: its own stream event, or a discard of the session it is bound to |
| RunIsolation.FoldActsPerRun | src/runtime-projection/runtime-event-reducer.ts:337-346 | after any log a run is what folding the events over that run alone gives |
| RunIsolation.RunIsIsolated | src/runtime-projection/runtime-event-reducer.ts:277-288 | for any log and run, dropping every event but the run's own stream events and the discards leaves the run as it is |
| RunIsolation.InterleavingsAgree | src/runtime-projection/runtime-event-reducer.ts:363-377 | two logs in which every run sees the same own events and discards, in the same order, end with the same runs |
| RunClosedForm.LastSomeMeans | src/runtime-projection/runtime-event-reducer.ts:76-83 | the reference function used for latest-wins fields yields the value at the last defined position, and nothing exactly when there is none |
| RunClosedForm.ClosedForm | src/runtime-projection/runtime-event-reducer.ts:50-131 | after any log a run exists iff its epoch since the last discard of its session is not empty; its text is the last override followed by the later deltas, thinking is all deltas, every latest-wins field is the last defined value, and each tool call has the first update's time, the last update's name, status and time, and the last defined value of each optional field |
| RunClosedForm.StatusIsDecidedByTheLastStatusEvent | src/runtime-projection/runtime-event-reducer.ts:403-408 | no log leads to `cancelled`, and a run is failed iff its last status-bearing event is an error or a completion whose outcome is failed |
| SnapshotSummary.RunKeysAlwaysMatch | src/runtime-projection/runtime-event-reducer.ts:363-377 | in every reachable snapshot runs and tool calls are stored under the ids they carry |
| SnapshotSummary.RunTimesAreOrdered | src/runtime-projection/runtime-event-reducer.ts:70-91 | under non-decreasing stamps firstSeenAt <= lastUpdatedAt <= the run's lastUpdatedAt <= the last stamp of the log |
| SnapshotSummary.MemoryIsASummary | src/runtime-projection/runtime-event-reducer.ts:159-238 | recentEvents is exactly the last 64 memory events, writeDecisions the last 32 decisions, invalidationVersion the number of `memory_invalidated` payloads, lastInvalidationScope the string under `scope_kind` of the last of them or `entries`, lastRecallItems the last non-empty recall, lastAfterTurn the last batch |
| SnapshotSummary.NewestMeans | src/runtime-projection/runtime-event-reducer.ts:159-182 | a ring keeps everything while it fits and otherwise exactly its newest elements, in order |
| SnapshotSummary.ApprovalIsTheLastRequest | src/runtime-projection/runtime-event-reducer.ts:132-158 | an approval is pending for a session iff the last event about it is a request, and it is that request; resolutions and discards clear it |
| SnapshotSummary.ModeIsASummary | src/runtime-projection/runtime-event-reducer.ts:239-324 | the mode, judgement and capture time are those of the classifier's last decision and no override changes them (before the first one they are the first override's, with a blank judgement); the manual override is the last one set, whatever the classifier said since; the last update is that of the last event about the mode; a mode shows iff a decision or a non-null override occurred |
| RuntimeStore.RuntimeEventQueue.constructor | src/runtime-projection/runtime-event-queue.ts:55-61 | the queue starts empty, with no flush scheduled |
| RuntimeStore.RuntimeEventQueue.DoFlush | src/runtime-projection/runtime-event-queue.ts:80-89 | hands over the whole buffer in order, empties it and clears the scheduling flag |
| RuntimeStore.RuntimeEventQueue.ScheduleFlush | src/runtime-projection/runtime-event-queue.ts:91-95 | at most one callback is added, and only when none was scheduled |
| RuntimeStore.RuntimeEventQueue.Push | src/runtime-projection/runtime-event-queue.ts:98-105 | in sync mode the event is handed over at once with everything buffered before it; otherwise it is appended and a flush is scheduled |
| RuntimeStore.RuntimeEventQueue.Reset | src/runtime-projection/runtime-event-queue.ts:115-118 | drops pending events and the flag but leaves outstanding callbacks to run on an empty buffer |
| RuntimeStore.RuntimeProjectionStore.OnBatch | src/runtime-projection/runtime-projection-store.ts:89-95 | the snapshot becomes the fold of the batch and listeners are called once iff a new snapshot object was produced |
| RuntimeStore.RuntimeProjectionStore.DispatchEvent | src/runtime-projection/runtime-projection-store.ts:107-109 | refines the dispatch step of the store's state machine |
| RuntimeStore.RuntimeProjectionStore.RunMicrotask | src/runtime-projection/runtime-event-queue.ts:80-95 | refines the step in which the host runs one outstanding callback |
| RuntimeStore.RuntimeProjectionStore.FlushNow | src/runtime-projection/runtime-projection-store.ts:113-115 | refines the explicit flush step |
| RuntimeStore.RuntimeProjectionStore.ResetAll | src/runtime-projection/runtime-projection-store.ts:116-123 | refines the reset step: empty snapshot, empty buffer, one notification |
| RuntimeStore.UnreplacedIsUnchanged | src/runtime-projection/runtime-projection-store.ts:91-92 | when the reducer hands back the same object the snapshot value is the fold too, so returning early loses nothing |
| RuntimeStore.EveryScheduleKeepsInvariant | src/runtime-projection/runtime-event-queue.ts:80-122 | for every schedule of dispatch, callback, flush and reset in either mode: delivered ++ pending is what was dispatched since the last reset, the snapshot is the fold of the delivered part, and pending events have a flush scheduled with a callback outstanding |
| RuntimeStore.QuiescentIsFolded | src/runtime-projection/runtime-projection-store.ts:89-124 | in sync mode always, and in microtask mode whenever no callback is outstanding, nothing is pending and the snapshot is the fold of everything dispatched |
| RuntimeStore.BatchingIsUnobservable | src/runtime-projection/runtime-projection-store.ts:89-124 | two quiescent schedules that dispatched the same events since their last reset have the same snapshot, whatever their modes, callbacks and flushes |
| RuntimeStore.NoSilentChange | src/runtime-projection/runtime-projection-store.ts:89-95 | every step that changes the snapshot calls the listeners exactly once |
| RuntimeStore.FlushDeliversEverything | src/App.tsx:1917-1922 | after an explicit flush, whatever schedule came before it, nothing is pending or scheduled and the snapshot is the fold of everything dispatched since the last reset |
| RuntimeStore.DiscardedSessionIsGone | src/App.tsx:1917-1922 | once a discard has been dispatched and flushed, whatever came before it, no run bound to the session and no approval of it is left, and every other run is as it was |
| RuntimeStore.ResetForgetsEverything | src/runtime-projection/runtime-projection-store.ts:116-123 | after a reset, whatever came before it, nothing is pending or scheduled, the snapshot is empty and the listeners were called once |
| RuntimeStore.BurstSchedulesOnce | src/runtime-projection/runtime-event-queue.ts:91-105 | in microtask mode any burst of events is pending as a whole, in order, has asked the host for one callback, or none if one was scheduled, and has changed nothing else |
| RuntimeStore.SilentIff | src/runtime-projection/runtime-projection-store.ts:89-95 | a batch calls no listener iff each of its events resolves a permission no one waits for or takes back an override while there is no mode |
| StableSort.SortIsStable | src/runtime-projection/chat-run-projection.ts:259-265 | the sort is ascending, a permutation, and keeps elements of equal key in their order |
| ChatProjection.MessageList.Insert | src/runtime-projection/chat-run-projection.ts:89-103 | the splice puts the block in front of the first message with a later timestamp, else at the end |
| ChatProjection.ProjectMessage | src/runtime-projection/chat-run-projection.ts:53-74 | the body of the first loop appends exactly the message's segment and records the runs it stands for |
| ChatProjection.RecoverMissingRuns | src/runtime-projection/chat-run-projection.ts:76-84 | the second loop recovers exactly the unprojected runs of the session, in order of last update |
| ChatProjection.ProjectConversationMessagesFromRuns | src/runtime-projection/chat-run-projection.ts:45-87 | both loops together compute the projection the theorems below are about |
| ChatRunMessages.OneMessagePerToolCall | src/runtime-projection/chat-run-projection.ts:141-146 | a run shows each of its tool calls in exactly one message, ordered by first sight |
| ChatRunMessages.EndedRunShowsNoOpenTool | src/runtime-projection/chat-run-projection.ts:171-211 | once a run has ended every tool message is completed or an error, isError tells which, and a call that never finished is an error with a text |
| ChatRunMessages.PlaceholderShowsWhereOpen | src/runtime-projection/chat-run-projection.ts:106-169 | two placeholders of a run project to the same message iff they agree wherever the run leaves a field open; in particular nothing the run defines can come from the placeholder |
| ChatRunMessages.MemoryCardShowsTheAnswer | src/runtime-projection/chat-run-projection.ts:11-42 | a memory card shows reason, scope and decision of the tool's JSON answer, each only if well formed; any of the three decisions wins over the recorded one, anything else leaves that one standing; other tools show none of the answer |
| ChatRunMessages.CompletionMeans | src/runtime-projection/chat-run-projection.ts:213-257 | a run is labelled failed, partial or successful, never two of them, with the exact condition of each; which label it gets, and that its counts are the numbers of completed, failed and all tool calls |
| ChatRunMessages.ErrorIsExplained | src/runtime-projection/chat-run-projection.ts:148-169 | a failed or resumable run always has a rawError that is not null: its own reason, else the placeholder's, else the earlier error, else the default text; its outcome, reason and cursor stand beside it and no other argument of the placeholder is touched; other runs leave the arguments alone |
| ChatFromLog.AnswersShowTheLog | src/runtime-projection/chat-run-projection.ts:106-146 | for every log, conversation and run, every answer of the run in the projected chat has as content the last override and the deltas since, shows all that was thought if anything was, streams iff no status-bearing event of the run's epoch ended it last, is an error if it failed, carries the last outcome, reason, cursor, memory items, cost, routing and diagnostics, the arguments of a bad end, and the true label and kind of a finished one |
| ChatFromLog.CallsShowTheLog | src/runtime-projection/chat-run-projection.ts:171-211 | for every log, conversation and run, every tool message of the run in the projected chat shows one of its calls: first sight, last name, last defined arguments, duration, directory, evidence and request, the last status and result, nothing while the call is open and an error with a text if the run ended before it; and how the run ended |
| ChatPlaces.AnswersOfARun | src/runtime-projection/chat-run-projection.ts:53-84 | for every conversation and run, the number of assistant messages with the run's stream id in the output is the number of user messages with it in the input, plus one if an assistant message with it comes before any of those, or if no such message has it and the run's session is the non-empty one shown |
| ChatPlaces.RecoveredBlockGoesBeforeTheFirstNewer | src/runtime-projection/chat-run-projection.ts:89-103 | a recovered run is inserted in one piece, in front of the first message whose valid time is later than the run's last update, or at the end |
| ChatPlaces.RecoveryOrder | src/runtime-projection/chat-run-projection.ts:263-265 | missing runs are recovered in order of their last updates |
| ChatConservation.BlockShape | src/runtime-projection/chat-run-projection.ts:106-146 | a block is one assistant message followed by tool messages, all tagged with the run |
| ChatConservation.ProjectionIsFaithful | src/runtime-projection/chat-run-projection.ts:45-103 | for every conversation and run: kept messages come out unchanged and in order whatever is spliced between them, and the run's own messages, in order, are one block per user anchor, one for a first assistant anchor, and one if it must be recovered |
| ChatConservation.ProjectionKeeps | src/runtime-projection/chat-run-projection.ts:53-74 | the subsequence of messages that are not assistant or tool messages of a known run is the same before and after |
| ChatConservation.MessagesPartition | src/runtime-projection/chat-run-projection.ts:53-74 | as a multiset, every conversation is its kept messages plus the messages of each run |
| ChatConservation.ProjectionConserves | src/runtime-projection/chat-run-projection.ts:45-103 | with no user message attached to a run, the output is, as a multiset, the kept messages plus exactly one block for each run that has an assistant placeholder or belongs to the session |
| ChatConservation.AnswersPerRun | src/runtime-projection/chat-run-projection.ts:53-84 | the number of assistant messages of a run: one per user anchor, one more if an assistant anchor comes first, one if it is unanchored and of the session |
| ChatIdempotence.AssistantIsItsOwnPlaceholder | src/runtime-projection/chat-run-projection.ts:106-169 | projecting a run onto its own projected assistant message changes no field of it |
| ChatIdempotence.BlockIsItsOwnPlaceholder | src/runtime-projection/chat-run-projection.ts:106-146 | the same for the whole block |
| ChatIdempotence.FixedIffSettled | src/runtime-projection/chat-run-projection.ts:53-74 | the first pass leaves a conversation alone iff every anchor in it is directly followed by its block and no answer is repeated |
| ChatIdempotence.PassSettles | src/runtime-projection/chat-run-projection.ts:53-74 | the first pass always produces such a conversation, hence is idempotent |
| ChatIdempotence.SpliceSettledIff | src/runtime-projection/chat-run-projection.ts:89-103 | a recovered block keeps a conversation settled iff it is spliced in where it neither cuts a block nor separates a user message from its answer |
| ChatIdempotence.ProjectTwiceIff | src/runtime-projection/chat-run-projection.ts:45-103 | projecting twice equals projecting once iff every recovered block was spliced in at such a boundary; for runs of any shape |
| ChatIdempotence.ProjectTwiceIffGapsAreBoundaries | src/runtime-projection/chat-run-projection.ts:45-103 | for runs whose tool calls are not newer than themselves, projecting twice equals projecting once iff in the first pass alone the time of every run still to be recovered falls on a boundary: no tool message of a known run behind it, no attached user message in front |
| ChatIdempotence.ReachableRunsAreWellFormed | src/runtime-projection/runtime-event-reducer.ts:70-91 | every snapshot reached with non-empty run ids and non-decreasing stamps holds such runs |
| ChatIdempotence.ProjectTwiceWhenAnchored | src/runtime-projection/chat-run-projection.ts:76-84 | in particular whenever every run of the session has an anchor, and always without a session id |
| ChatIdempotence.ProjectTwiceCanDiffer | src/runtime-projection/chat-run-projection.ts:53-103 | a concrete chat that changes when projected again: a recovered answer lands between a question and its own answer |
| HistoryReplay.ReplayEntry | src/runtime-projection/history-replay.ts:18-45 | one loop iteration refines the replay step: bind an unbound run first, then apply the entry's event |
| HistoryReplay.ReplayRunLogEntriesToMessages | src/runtime-projection/history-replay.ts:10-52 | the loop projects the state of the replay the theorems below are about |
| HistoryCoverage.BoundRunsAreSeenRuns | src/runtime-projection/history-replay.ts:18-45 | at every step of a single-session log boundRunIds, the keys of snapshot.runs and the run ids seen so far coincide, and each run is bound to the session |
| HistoryCoverage.BaseMessagesAreQuestions | src/runtime-projection/history-replay.ts:19-27 | the base messages are the questions of the `run_started` entries, in order |
| HistoryCoverage.ReplayCovers | src/runtime-projection/history-replay.ts:10-52 | for every single-session log the output shows exactly the questions of its `run_started` entries, and answers every run id of the log once per question, or once if its start is missing; with at most one start per run that is one answer per run and one question per start |
| ReplayQuestions.EveryStartIsAQuestion | src/runtime-projection/history-replay.ts:19-27 | for every log whatsoever the base messages are, in order, one user message per `run_started` entry: content the string under `message_preview` or nothing, time that of the entry (an invalid one stays invalid), stream id the run id, id `history-user-` and the run id, and no answer's fields |
| ReplayQuestions.ReplayAsksWhatWasAsked | src/runtime-projection/history-replay.ts:19-27 | for every recorded session the base messages are, in order, one question per start, with the text and time it was asked and the durable id of its run |
| ReplayQuestions.ReplayedChatAsksWhatWasAsked | src/runtime-projection/history-replay.ts:10-52 | and exactly these are the user messages of the replayed chat, in that order |
| ReplayEntries.NextEntryActs | src/runtime-projection/history-replay.ts:60-138 | in the replay of any single-session log, by whatever version of the program, the next entry leaves all other runs alone and changes its own, or a blank one of its session, as its type says: appended text or thinking, override, tool update with the id, status and time rules of the fallback chain, completion, failure with its reason, and nothing for any other type |
| ReplayEntries.StartupFailureLosesItsError | src-tauri/src/modules/application/turn_service/stream.rs:96-112 | a stream that failed to start is replayed as a failed run whose reason is unknown, whatever error was logged for it |
| ReplaySimulation.StepCommutes | src/runtime-projection/runtime-event-reducer.ts:45-131 | applying a live event and then recording the run equals applying the recorded event to the recorded run |
| ReplaySimulation.RecordedToolReadsBack | src/runtime-projection/history-replay.ts:140-168 | a recorded tool update reads back field by field as it was sent, arguments redacted |
| ReplaySimulation.EndingReadsBack | src/runtime-projection/history-replay.ts:108-134 | the outcome, reason, resume and request fields of an ending survive recording |
| ReplaySimulation.PayloadReadsBackIff | src/runtime-projection/runtime-event-translator.ts:46-171 | the live translator and the replay translator agree on a recorded payload iff it is not a named tool update without an id or a status |
| ReplaySimulation.ReplaySimulatesLive | src/runtime-projection/history-replay.ts:60-168 | for every session of well-formed payloads started before they stream and every run, the run rebuilt from the log equals the live run on every field except the six completion-only ones, with redacted tool arguments |
| ReplaySimulation.ReplaySimulatesAnyLiveOrder | src/App.tsx:2742-2757 | the same when the live bind is dispatched at any time, also after the first tokens of its stream: the two runs then differ at most in lastUpdatedAt besides what recording drops |
| ReplaySimulation.NamedUpdateIsReadDifferently | src/runtime-projection/history-replay.ts:140-167 | a concrete update with a name but neither id nor status: not shown live, and replayed as a completed call with a made-up id |
| ReplayChat.ReplayShowsTheLiveChat | src/runtime-projection/history-replay.ts:47-51 | for every session, every live order of the bind and every run started once and asked for at most once in the live conversation, what the replayed chat shows of the run is, message by message, what the live chat showed, with the ids and the time of the log, the arguments redacted and the completion-only fields dropped |
| ReplayChat.TurnIsARecordedSession | src/App.tsx:2742-2757 | a concrete session of that kind, with a first token dispatched before the bind |
| ReplayChat.BlockRecorded | src/runtime-projection/chat-run-projection.ts:106-146 | projecting a replayed run without a placeholder gives the recorded form of the block projected live onto a fresh placeholder |
| ReplaySimulation.ToolTypeIsRecorded | src-tauri/src/modules/application/turn_service/stream_task.rs:164-177 | every tool update is recorded under a type the replay reads as a tool entry, and which tells its status |
| LiveTokens.DroppedIff | src/runtime-projection/runtime-event-translator.ts:46-171 | a live payload is no event iff its kind is none of the seven, or it is a tool update without a non-empty id, a non-empty name or a status; otherwise the event is of its stream and time |
| LiveTokens.CompletionLeavesSummaries | src/runtime-projection/runtime-event-translator.ts:99-146 | after any log, a completed live run holds the payload's context budget, memory items, diagnostics, cost, routing and totals under their own names, keeps earlier ones (but for the budget) where the payload has none, and the recall shown is the last non-empty one |
| ActivationServer.Database.NewestOpen | activation-server-rs/src/main.rs:696-708 | the query returns a newest open request of the installation, or nothing iff there is none |
| ActivationServer.Database.CreateActivationRequest | activation-server-rs/src/main.rs:684-793 | refines the create step: unknown app refused, a newest open request reused, auto-approval only while distinct approved installations are below the quota |
| ActivationServer.Database.AdminApprove | activation-server-rs/src/main.rs:2692-2735 | refines the approve step: only pending requests, with a fresh single-use invite bound to the installation |
| ActivationServer.Database.AdminReject | activation-server-rs/src/main.rs:2776-2781 | refines the reject step, which has no status check |
| ActivationServer.Database.RedeemRequest | activation-server-rs/src/main.rs:912-1044 | refines the redeem step with its error cases in order |
| ActivationServer.Database.RedeemInvite | activation-server-rs/src/main.rs:1112-1250 | refines the redeem-by-code step with its error cases in order |
| ActivationServer.Database.CountUse | activation-server-rs/src/main.rs:998-1006 | the conditional update counts a use only below the limit |
| ActivationServer.Database.InsertLicense | activation-server-rs/src/main.rs:1008-1039 | one licence and one unrevoked token for the same installation |
| ActivationServer.Database.Refresh | activation-server-rs/src/main.rs:1310-1437 | refines the refresh step: the presented token is revoked, exactly one new one is issued, the licence is extended |
| ActivationServer.Database.AdminRevoke | activation-server-rs/src/main.rs:2818-2821 | refines the revoke step |
| ActivationServer.Database.AdminCreateInvite | activation-server-rs/src/main.rs:2856-2885 | refines the manual invite step: trimmed installation, refused if blank, with the defaults and clamps of uses and days |
| ActivationServer.Database.AdminSettings | activation-server-rs/src/main.rs:2468-2471 | refines the settings step: both settings with their defaults and clamps |
| ActivationHandlers.RedeemSucceedsIff | activation-server-rs/src/main.rs:912-1044 | a redemption succeeds iff the app is known, the request exists, is approved and belongs to the calling installation; then exactly one unrevoked licence and one live token exist more, for the request's installation, the request is redeemed and its invite has one use more unless it was used up; every refusal leaves the tables as they were and has its own status |
| ActivationHandlers.RedeemByCodeSucceedsIff | activation-server-rs/src/main.rs:1112-1250 | redeeming a code succeeds iff the app is known and the code is bound to the calling installation, has uses left and has not expired; then one licence, one token and one use exist more and nothing else changes; every refusal changes nothing |
| ActivationHandlers.RefreshChanges | activation-server-rs/src/main.rs:1310-1437 | a refresh of a live token bound to the licence and the installation spends that token, adds one, extends the licence and changes nothing else; otherwise it is refused with its own status and changes nothing |
| ActivationHandlers.RevokeRevokes | activation-server-rs/src/main.rs:2818-2821 | a revocation marks the licence revoked and leaves every other licence, token, request, invite and setting as it was |
| ActivationHandlers.RevocationIsFinal | activation-server-rs/src/main.rs:2818-2821 | for every run: once a licence has been revoked it is revoked in every later state, and no refresh naming it ever succeeds or changes anything |
| ActivationHandlers.CreateMeans | activation-server-rs/src/main.rs:684-793 | a known app's call approves one waiting request of the installation if the quota has room, else leaves it, and adds one request, approved iff there is room and valid for a day, iff none is waiting; nothing else changes |
| ActivationHandlers.ApproveSucceedsIff | activation-server-rs/src/main.rs:2692-2735 | an approval succeeds iff the request is pending; then it is approved and tied to one new single-use invite of its installation that expires after the configured days, and nothing else changes |
| ActivationHandlers.RejectMeans | activation-server-rs/src/main.rs:2776-2781 | a rejection changes the status of the one request, whatever it was, and nothing else |
| ActivationHandlers.CreateInviteMeans | activation-server-rs/src/main.rs:2856-2885 | a manual invite is refused iff its installation is blank; otherwise one unused invite exists more, for the trimmed installation, with 1 to 20 uses and 1 to 90 days, defaulted and clamped |
| ActivationHandlers.SettingsMean | activation-server-rs/src/main.rs:2468-2471 | the settings become the given ones, defaulted and clamped, and nothing else changes |
| ActivationInvariants.TokensAlwaysRotate | activation-server-rs/src/main.rs:1310-1437 | in every reachable state each licence has exactly one unrevoked token, its tokens number 1 + its successful refreshes, and token and licence installations agree |
| ActivationInvariants.RefreshSucceedsIff | activation-server-rs/src/main.rs:1310-1375 | in every reachable state a refresh succeeds iff it presents the one live token of an unrevoked licence, from the licence's installation, within thirty days of the licence's last refresh |
| ActivationInvariants.TokensAlwaysCurrent | activation-server-rs/src/main.rs:1412-1435 | in every reachable state the live token of a licence expires thirty days after the licence's last refresh |
| ActivationInvariants.RunsKeepRevocations | activation-server-rs/src/main.rs:2818-2821 | over any further run, revoked tokens stay revoked and a revoked licence stays exactly as it is |
| ActivationInvariants.UsedTokenIsSpent | activation-server-rs/src/main.rs:1312-1335 | a token used in a successful refresh is refused in every later state, and the refusal changes nothing |
| ActivationInvariants.TimesAlwaysHold | activation-server-rs/src/main.rs:1377-1435 | with a clock that never goes back, issued_at <= last_refresh_at <= now and exp and offline_grace_exp lie the configured periods behind last_refresh_at, in every reachable state |
| ActivationInvariants.ExpiryNeverFalls | activation-server-rs/src/main.rs:1427-1435 | over any further run exp never falls, issued_at <= last_refresh_at <= exp <= offline_grace_exp, and a revoked licence is frozen |
| ActivationInvariants.AlwaysConserves | activation-server-rs/src/main.rs:954-1044 | in every reachable state a request has yielded no licence while pending or approved, exactly one when redeemed, and never more; used_count is min(max_uses, licences traced to the invite); licences issued by code <= used_count <= max_uses; there are as many licences as issues |
| ActivationInvariants.StatusOnlyAdvances | activation-server-rs/src/main.rs:2777 | no step leads back to pending, to approved from redeemed or rejected, or from pending straight to redeemed |
| ActivationInvariants.RedeemOverissuesIff | activation-server-rs/src/main.rs:998-1006 | redeeming a request takes the licences of its invite beyond max_uses iff the invite was used up before |
| ActivationInvariants.CodeStaysWithinLimit | activation-server-rs/src/main.rs:1158-1166 | redeeming a code never takes the licences of its invite beyond max_uses |
| ActivationInvariants.OverissuedIff | activation-server-rs/src/main.rs:954-1250 | after any run more licences are traced to an invite than it allows iff some step of the run redeemed a request although the invite was used up |
| ActivationInvariants.OneApprovalCanYieldTwoLicences | activation-server-rs/src/main.rs:1158-1250 | a reachable run in which a single-use invite leads to two licences: its code and its request are separate tickets |
| ActivationInvariants.AutoApprovalRespectsQuota | activation-server-rs/src/main.rs:709-793 | every step that approves a request on its own, be it new or pending and its installation counted already or not, leaves at most quota distinct approved or redeemed installations; a create step that approves none leaves them as they are |
| ActivationInvariants.QuotaIsAnInvariant | activation-server-rs/src/main.rs:709-793 | without manual approvals and as long as the quota is not lowered, that bound holds in every reachable state |
| RateLimiter.Limiter.CheckRateLimit | activation-server-rs/src/main.rs:618-636 | refines the window step on the bucket map: other keys untouched, counted only when admitted |
| RateLimiter.BucketsCount | activation-server-rs/src/main.rs:626-630 | for a key that never returns to an aligned minute it left, the bucket holds exactly the calls admitted in its minute |
| RateLimiter.AdmittedIff | activation-server-rs/src/main.rs:618-636 | for such a key a call is admitted iff fewer than max were admitted for the key in the current aligned minute |
| RateLimiter.MinuteBound | activation-server-rs/src/main.rs:618-636 | for such a key no aligned minute admits more than max |
| RateLimiter.EveryLimitHoldsIff | activation-server-rs/src/main.rs:618-636 | every limit is kept in every aligned minute iff the key never returns to a minute it left, whatever else the clock does |
| RateLimiter.ReturnAdmitsAgain | activation-server-rs/src/main.rs:628-631 | with limit 1 a key that returns to a minute it left is admitted there a second time |
| RateLimiter.SlidingBound | activation-server-rs/src/main.rs:618-636 | for such a key any 60 consecutive seconds admit at most 2 * max, before and after the epoch |
| RateLimiter.AscendingClockBounds | activation-server-rs/src/main.rs:618-636 | in particular with a non-decreasing clock all of this holds for every key |
| RateLimiter.SlidingBoundIsTight | activation-server-rs/src/main.rs:620-621 | a trace that reaches 2 * max |
| RateLimiter.ReturningClockOverAdmits | activation-server-rs/src/main.rs:628-631 | a trace whose clock steps back to a minute the key has left and whose aligned minute admits more than max |
| DeviceIndicator.InstallationDeviceIndicator | activation-server-rs/src/main.rs:3264-3287 | the bit-buffer loop emits the eight big-endian base-32 digits of the first five digest bytes, four and four around a dash; the 64-bit buffer loses nothing and no padding is used |
| DeviceIndicator.EmitGroups | activation-server-rs/src/main.rs:3274-3278 | the inner loop emits the leading complete 5-bit groups and leaves fewer than five bits |
| DeviceIndicator.DigitAt | activation-server-rs/src/main.rs:3275 | the k-th base-32 digit is the k-th 5-bit group of the shifted value |
| DeviceIndicator.IndicatorRoundTrip | activation-server-rs/src/main.rs:3264-3287 | decoding an indicator recovers the first 40 bits of the digest |
| DeviceIndicator.SameIndicatorIff | activation-server-rs/src/main.rs:3264-3287 | two digests share an indicator iff they share their first five bytes |
| ConversationStore.Store.SetConversation | src/stores/conversation-slice.ts:69-73 | one entry, under the conversation's own id, and nothing else changes |
| ConversationStore.Store.RemoveSession | src/stores/conversation-slice.ts:130-156 | the session is gone from all five maps and nothing else changes |
| ConversationStore.Store.SetSessionLoading | src/stores/conversation-slice.ts:161-163 | one flag changes |
| ConversationStore.Store.SetStreamAbortHandle | src/stores/conversation-slice.ts:240-242 | one handle changes |
| ConversationStore.Store.ClearStreamAbortHandle | src/stores/conversation-slice.ts:245-249 | one handle is gone |
| ConversationStore.RemovedIsGone | src/stores/conversation-slice.ts:130-156 | the reference function for removal drops the sessions from all five maps and leaves every other session as it was |
| ConversationStore.SetConversations | src/App.tsx:370-410 | the conversations map ends up equal to the argument iff every new or changed value is stored under its own id; then the dropped sessions are gone from all five maps and nothing else changes; a misplaced value never gets where the argument has it |
| ConversationStore.MisplacedConversationIsNotStored | src/App.tsx:398-402 | a concrete assignment that does not take effect: a conversation filed under an id that is not its own |
| ConversationStore.AssignSessionLoading | src/App.tsx:423-446 | the loading flags agree with the argument as truth values, and nothing else changes |
| ConversationStore.AssignStreamAbortHandles | src/App.tsx:564-591 | the handles agree with the non-empty handles of the argument, and nothing else changes |
| ListenerBridge.Bridge.OnRegistered | src/runtime-projection/runtime-projection-bridge.ts:101-108 | refines the step in which a registration resolves: held, or disposed of at once after unwire |
| ListenerBridge.Bridge.UnwireAll | src/runtime-projection/runtime-projection-bridge.ts:193-206 | the pop loop disposes of every held listener, newest first, and leaves none |
| ListenerBridge.NothingDisposedBeforeUnwire | src/runtime-projection/runtime-projection-bridge.ts:97-116 | until unwire runs, every registered listener is held and none is disposed of |
| ListenerBridge.DisposalOrder | src/runtime-projection/runtime-projection-bridge.ts:193-206 | for every interleaving after the first unwire: the held listeners were disposed of newest first, late ones as they resolve, and further unwires change nothing |
| ListenerBridge.NewestGoesFirst | src/runtime-projection/runtime-projection-bridge.ts:193-206 | of the listeners held when the bridge is unwired, the k-th from the end is the k-th disposed of |
| ListenerBridge.DisposedExactlyOnce | src/runtime-projection/runtime-projection-bridge.ts:89-116 | for every interleaving a listener has been disposed of once if it was registered and unwire has run, and never otherwise |
| PackFile.ParseLine | scripts/pack_helper.py:111-122 | one loop iteration accounts for one line: heading, end of block, bullet or other |
| PackFile.ParseFilesFromPack | scripts/pack_helper.py:105-125 | the scan returns the parsed file list, and an error iff it is empty |
| PackFileReading.ParserReadsTheList | scripts/pack_helper.py:105-125 | for any file, the paths read are those of the bullets behind a heading of the list and before the next other heading of its level, in order; a second heading of the list does not end it and nothing behind its end is read |
| PackFileReading.HeadingIff | scripts/pack_helper.py:113 | a stripped line opens the list iff it begins with `## files` in upper or lower case letters |
| PackFileReading.ReturnAndFeedEndOneLine | scripts/pack_helper.py:108 | a carriage return and a line feed end one line |
| PackFileReading.BreakEndsLine | scripts/pack_helper.py:108 | every other line boundary ends one line each |
| PackFileReading.CommentIsDropped | scripts/pack_helper.py:119 | a comment behind a clean path is not read |
| PackFileReading.BackticksAreDropped | scripts/pack_helper.py:120 | backticks around a clean path are not read |
| PackFileRoundTrip.EntryIff | scripts/pack_helper.py:118-122 | the parser reads a printed path back iff it is not empty, free of `#` and has no spaces or backticks at its ends |
| PackFileRoundTrip.ParseOfPrint | scripts/pack_helper.py:452-531 | for both templates the parser reads exactly the entries of the printed bullets, in order, whatever text follows the next heading |
| PackFileRoundTrip.ParseOfOpenTitle | scripts/pack_helper.py:113-117 | if a line of the title reads as the heading of the file list, the parser returns what the title lists and never reaches the bullets |
| PackFileRoundTrip.PlainTitleOpensNothing | scripts/pack_helper.py:452-465 | a pack id on one line never causes that |
| PackFileRoundTrip.EntriesIff | scripts/pack_helper.py:118-122 | the list comes back iff every path does |
| PackFileRoundTrip.RoundTripIff | scripts/pack_helper.py:105-125 | for both templates, every pack id and every non-empty list, parsing the written stub returns the list iff every path is non-empty, on one line, free of `#` and clear of spaces and backticks at both ends; if the pack id smuggles a heading of the file list into the title, iff the list is the one found there |

## Left out

- React components and hooks, Tauri wiring, HTML pages, sessions, cookies and authentication: no logic that the modelled state machines depend on.
- SQL, HTTP and signing: only the effect of successful commits is modelled; storage errors, the write semaphore and the rate-limit checks in front of each handler are not.
- The rows of the audit table: the model's audit trail keeps only issues and refreshes, and notes for each licence where it came from, which the source does not record in this form.
- Listeners and subscribers that throw, unsubscribe or dispatch again while they are called; the queue has the store as its one subscriber.
- The translators other than that of `agent-token` payloads: they rename fields.
- The wording of completion labels: a label is the case and the counts it shows.
- Diagnostics, routing, cost and memory items: opaque values that are passed through.
- Payloads with a status, outcome or policy decision outside the declared unions.
- Sortedness of the projected chat by timestamp and contiguity of blocks: the code promises neither.
- ReplaySimulation.ReplaySimulatesLive: covers the runs; a run's `run_started` is its first log entry, as the backend writes it, and permission events of the log, which the replay ignores, are not entries of the model. That live tokens may precede the bind is covered by ReplaySimulatesAnyLiveOrder.
- Streams that fail to start are not items of a recorded session: the backend logs a `stream_error` no live payload matches, so such a run exists in the replay only; what the replay makes of it is StartupFailureLosesItsError.
- Session discards in the simulation: a discard removes the live runs while their log stays, so a replay after a discard shows runs the live snapshot no longer has.
- ReplayChat.ReplayShowsTheLiveChat: about runs whose live placeholder still is as it was put up; fields the stream's side effects write into it later are not modelled.
- DeviceIndicator.InstallationDeviceIndicator: takes the digest as an argument, of five bytes or more.
- Appending and updating single messages, todos and title states of the conversation store, the wrappers over the last two, and notifications; the wrapper loops visit ids in any order.
- ConversationStore.SetConversations: takes the value after the functional form of the argument has been applied to the snapshot.
- ListenerBridge.Bridge.UnwireAll: disposers that throw are not modelled; the source logs and carries on.
- PackFile.ParseFilesFromPack: returns the paths without joining them to the repository root, and leaves reading the file out; it lower-cases ASCII letters only, which decides the heading test alike, since no other character lower-cases to one of its letters alone.
- ChatConservation.ProjectionIsFaithful: assumes non-empty run ids, as do the theorems built on it; an empty id can never be a message's stream id.
- HistoryCoverage.ReplayCovers: assumes a non-empty session id and non-empty run ids, since the projector recovers nothing without a session id.
- PackFileRoundTrip.RoundTripIff: takes a non-empty list, as the command line demands.
- Writing the stub, the check for an existing pack and the other commands of the pack helper.
