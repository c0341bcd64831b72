/** Rebuilds the chat of a session from its durable run log. */
module HistoryReplay {
  import opened JsValues
  import opened RuntimeTypes
  import opened RuntimeReducer
  import opened ChatMessages
  import opened ChatProjection
  import opened EventTranslator

  // ----- reading a payload -----

  function BooleanAt(fields: Fields, key: string): Option<bool> {
    if key in fields && fields[key].Bool? then Some(fields[key].b) else None
  }

  function NumberAt(fields: Fields, key: string): Option<int> {
    if key in fields && fields[key].Num? then Some(fields[key].n) else None
  }

  function ObjectAt(fields: Fields, key: string): Option<Fields> {
    if key in fields && fields[key].Obj? then Some(fields[key].fields) else None
  }

  function OutcomeAt(fields: Fields, key: string): Option<TaskOutcome> {
    var s := StringAt(fields, key);
    if s == Some("completed") then Some(OutcomeCompleted)
    else if s == Some("partial_success") then Some(OutcomePartialSuccess)
    else if s == Some("failed") then Some(OutcomeFailed)
    else None
  }

  function StatusAt(fields: Fields, key: string): Option<ToolCallStatus> {
    var s := StringAt(fields, key);
    if s == Some("queued") then Some(Queued)
    else if s == Some("running") then Some(Running)
    else if s == Some("completed") then Some(Completed)
    else if s == Some("error") then Some(Error)
    else None
  }

  function StatusFromEventType(eventType: string): ToolCallStatus {
    if eventType == "tool_call_queued" then Queued
    else if eventType == "tool_call_running" then Running
    else if eventType == "tool_call_failed" then Error
    else Completed
  }

  // ----- from log entry to event -----

  function TimestampFromEntry(entry: RunLogEntry): int {
    entry.occurredAt.GetOr(0)
  }

  function ToolEvent(entry: RunLogEntry, receivedAt: int): Option<RuntimeEvent> {
    var payload := entry.payload;
    var toolName := StringAt(payload, "tool_name");
    if !Truthy(toolName) then None
    else
      Some(StreamToolCallUpdate(
        entry.runId,
        StringAt(payload, "tool_call_id").Or(entry.toolCallId).GetOr("tool-" + DecimalDigits(entry.sequence)),
        toolName.value,
        StatusAt(payload, "tool_status").GetOr(StatusFromEventType(entry.eventType)),
        ToolDetails(
          ObjectAt(payload, "tool_args"), StringAt(payload, "tool_result"), NumberAt(payload, "tool_duration_ms"),
          StringAt(payload, "effective_workdir"), ParsePolicyDecision(StringAt(payload, "policy_decision")),
          StringAt(payload, "evidence_id"), StringAt(payload, "request_id")),
        receivedAt))
  }

  function EndingAt(payload: Fields): Ending {
    Ending(
      OutcomeAt(payload, "task_outcome"), StringAt(payload, "degraded_reason"),
      BooleanAt(payload, "resume_available"), StringAt(payload, "resume_cursor"), StringAt(payload, "request_id"))
  }

  predicate IsToolEntry(eventType: string) {
    || eventType == "tool_call_queued" || eventType == "tool_call_running" || eventType == "tool_call_completed"
    || eventType == "tool_call_failed" || eventType == "tool_call_update"
  }

  const NO_EXTRAS := CompletionExtras(None, None, None, None, None, None)

  function RunLogEntryToEvent(entry: RunLogEntry): Option<RuntimeEvent> {
    var at, payload, t := TimestampFromEntry(entry), entry.payload, entry.eventType;
    if t == "run_started" then
      Some(StreamRunBound(entry.runId, entry.sessionId, at))
    else if t == "text_delta" then
      Some(StreamTextDelta(entry.runId, StringAt(payload, "text").GetOr(""), at))
    else if t == "thinking_started" || t == "thinking_start" then
      Some(StreamThinkingStart(entry.runId, at))
    else if t == "thinking_delta" then
      Some(StreamThinkingDelta(entry.runId, StringAt(payload, "thinking").GetOr(""), at))
    else if IsToolEntry(t) then
      ToolEvent(entry, at)
    else if t == "final_text_override" then
      Some(StreamFinalTextOverride(
        entry.runId, StringAt(payload, "text").GetOr(""), StringAt(payload, "request_id"), at))
    else if t == "stream_complete" then
      Some(StreamComplete(entry.runId, EndingAt(payload), NO_EXTRAS, at))
    else if t == "stream_error" then
      var reason := StringAt(payload, "tool_result").Or(StringAt(payload, "degraded_reason"))
                      .Or(StringAt(payload, "reason")).GetOr("unknown stream error");
      Some(StreamError(entry.runId, reason, EndingAt(payload), at))
    else None
  }

  // ----- the replay -----

  datatype ReplayState = ReplayState(snapshot: Snapshot, baseMessages: seq<Message>, boundRunIds: set<string>)

  const INITIAL := ReplayState(EmptySnapshot(), [], {})

  function UserMessage(entry: RunLogEntry): Message {
    PlainMessage(
      "history-user-" + entry.runId, User, StringAt(entry.payload, "message_preview").GetOr(""), entry.occurredAt)
      .(streamId := Some(entry.runId))
  }

  /** The events one entry feeds to the reducer: a run that is not bound yet is bound first. */
  function EventsOf(entry: RunLogEntry, bound: bool): seq<RuntimeEvent> {
    var event := RunLogEntryToEvent(entry);
    (if !bound && !(event.Some? && event.value.StreamRunBound?)
     then [StreamRunBound(entry.runId, entry.sessionId, TimestampFromEntry(entry))] else []) +
    (if event.Some? then [event.value] else [])
  }

  function ReplayStep(state: ReplayState, entry: RunLogEntry): ReplayState {
    ReplayState(
      Fold(state.snapshot, EventsOf(entry, entry.runId in state.boundRunIds)),
      state.baseMessages + (if entry.eventType == "run_started" then [UserMessage(entry)] else []),
      state.boundRunIds + {entry.runId})
  }

  function Replay(entries: seq<RunLogEntry>): ReplayState {
    if entries == [] then INITIAL
    else ReplayStep(Replay(entries[..|entries| - 1]), entries[|entries| - 1])
  }

  lemma FoldOne(prev: Snapshot, event: RuntimeEvent)
    ensures Fold(prev, [event]) == ReduceRuntimeEvent(prev, event)
  {
    assert [event][..0] == [];
  }

  lemma FoldTwo(prev: Snapshot, a: RuntimeEvent, b: RuntimeEvent)
    ensures Fold(prev, [a] + [b]) == ReduceRuntimeEvent(ReduceRuntimeEvent(prev, a), b)
  {
    FoldSnoc(prev, [a], b);
    FoldOne(prev, a);
  }

  /** The body of the loop. */
  method ReplayEntry(state: ReplayState, entry: RunLogEntry) returns (next: ReplayState)
    ensures next == ReplayStep(state, entry)
  {
    hide ReduceRuntimeEvent, RunLogEntryToEvent, UserMessage, TimestampFromEntry;
    var snapshot, baseMessages, boundRunIds := state.snapshot, state.baseMessages, state.boundRunIds;
    if entry.eventType == "run_started" {
      baseMessages := baseMessages + [UserMessage(entry)];
    }
    var event := RunLogEntryToEvent(entry);
    if entry.runId !in boundRunIds && !(event.Some? && event.value.StreamRunBound?) {
      var bind := StreamRunBound(entry.runId, entry.sessionId, TimestampFromEntry(entry));
      snapshot := ReduceRuntimeEvent(snapshot, bind);
      boundRunIds := boundRunIds + {entry.runId};
      FoldOne(state.snapshot, bind);
      if event.Some? {
        FoldTwo(state.snapshot, bind, event.value);
      } else {
        assert EventsOf(entry, false) == [bind];
      }
    } else if event.Some? {
      FoldOne(state.snapshot, event.value);
      assert EventsOf(entry, entry.runId in state.boundRunIds) == [event.value];
    }
    if event.Some? {
      snapshot := ReduceRuntimeEvent(snapshot, event.value);
      if event.value.StreamRunBound? {
        boundRunIds := boundRunIds + {entry.runId};
      }
    }
    assert boundRunIds == state.boundRunIds + {entry.runId};
    next := ReplayState(snapshot, baseMessages, boundRunIds);
  }

  method ReplayRunLogEntriesToMessages(entries: seq<RunLogEntry>, sessionId: string, parse: JsonParser)
    returns (messages: seq<Message>)
    ensures messages ==
              Project(Replay(entries).baseMessages, Replay(entries).snapshot.runs, Some(sessionId), parse)
  {
    var state := INITIAL;
    for i := 0 to |entries|
      invariant state == Replay(entries[..i])
    {
      hide ReplayStep;
      assert entries[..i + 1][..i] == entries[..i];
      state := ReplayEntry(state, entries[i]);
    }
    assert entries[..|entries|] == entries;
    messages := ProjectConversationMessagesFromRuns(
      state.baseMessages, state.snapshot.runs, Some(sessionId), parse);
  }
}
