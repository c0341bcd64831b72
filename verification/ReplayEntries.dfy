/** What one entry of a durable log does to its run, whoever wrote it. */
module ReplayEntries {
  import opened JsValues
  import opened RuntimeTypes
  import opened RuntimeReducer
  import opened RunIsolation
  import opened ChatProjection
  import opened EventTranslator
  import opened HistoryReplay
  import opened HistoryCoverage

  /** When an entry counts as received: an unreadable stamp counts as time 0. */
  function ReceivedAt(entry: RunLogEntry): int {
    match entry.occurredAt case Some(at) => at case None => 0
  }

  /** The string under `key`, or nothing. */
  function TextUnder(entry: RunLogEntry, key: string): string {
    match StringAt(entry.payload, key) case Some(text) => text case None => ""
  }

  predicate ThinkingStarts(entry: RunLogEntry) {
    entry.eventType in {"thinking_start", "thinking_started"}
  }

  predicate IsAboutTool(entry: RunLogEntry) {
    entry.eventType in
      {"tool_call_queued", "tool_call_running", "tool_call_completed", "tool_call_failed", "tool_call_update"}
  }

  /** Entries that say something about their run; all others are ignored. */
  predicate IsKnown(entry: RunLogEntry) {
    || ThinkingStarts(entry) || IsAboutTool(entry)
    || entry.eventType in
         {"run_started", "text_delta", "thinking_delta", "final_text_override", "stream_complete", "stream_error"}
  }

  ghost predicate TextEntryMeans(run: RunProjection, entry: RunLogEntry, after: RunProjection) {
    var t, at := entry.eventType, ReceivedAt(entry);
    && (t == "run_started" ==> after == run.(sessionId := Some(entry.sessionId), lastUpdatedAt := at))
    && (t == "text_delta" ==>
          after == run.(text := run.text + TextUnder(entry, "text"), status := Streaming, lastUpdatedAt := at))
    && (t == "thinking_delta" ==>
          after == run.(thinking := run.thinking + TextUnder(entry, "thinking"), thinkingStarted := true,
                        status := Streaming, lastUpdatedAt := at))
    && (ThinkingStarts(entry) ==> after == run.(thinkingStarted := true, status := Streaming, lastUpdatedAt := at))
    && (t == "final_text_override" ==> after == run.(text := TextUnder(entry, "text"), lastUpdatedAt := at))
  }

  /** The tool call an entry is about: the payload names it, or the entry, or it is numbered. */
  function ToolCallOf(entry: RunLogEntry): string {
    match (StringAt(entry.payload, "tool_call_id"), entry.toolCallId)
    case (Some(id), _) => id
    case (None, Some(id)) => id
    case (None, None) => "tool-" + DecimalDigits(entry.sequence)
  }

  /** The status in the payload, and otherwise the one the type of the entry tells. */
  function ToolStatusOf(entry: RunLogEntry): ToolCallStatus {
    match StringAt(entry.payload, "tool_status")
    case Some("queued") => Queued
    case Some("running") => Running
    case Some("completed") => Completed
    case Some("error") => Error
    case _ =>
      match entry.eventType
      case "tool_call_queued" => Queued
      case "tool_call_running" => Running
      case "tool_call_failed" => Error
      case _ => Completed
  }

  /** An entry about a nameless tool is ignored; otherwise it updates one tool call and no other. */
  ghost predicate ToolEntryMeans(run: RunProjection, entry: RunLogEntry, after: RunProjection) {
    var name, id := TextUnder(entry, "tool_name"), ToolCallOf(entry);
    if name == "" then after == run
    else
      && after == run.(toolCalls := after.toolCalls, lastUpdatedAt := ReceivedAt(entry))
      && (forall other :: other != id ==> Get(after.toolCalls, other) == Get(run.toolCalls, other))
      && id in after.toolCalls.entries
      && (var tool, earlier := after.toolCalls.entries[id], Get(run.toolCalls, id);
          && tool.toolCallId == id && tool.toolName == name && tool.status == ToolStatusOf(entry)
          && tool.lastUpdatedAt == ReceivedAt(entry)
          && tool.firstSeenAt == (if earlier.Some? then earlier.value.firstSeenAt else ReceivedAt(entry))
          && tool.details.toolResult ==
               StringAt(entry.payload, "tool_result").Or(
                 if earlier.Some? then earlier.value.details.toolResult else None))
  }

  /** A completion fails its run exactly when it says so; an error always does, and its reason is
      the degraded one, the result of the tool, the given one or an unknown one, in that order. */
  ghost predicate EndEntryMeans(run: RunProjection, entry: RunLogEntry, after: RunProjection) {
    var p := entry.payload;
    var failed := StringAt(p, "task_outcome") == Some("failed");
    && after == run.(status := after.status, taskOutcome := after.taskOutcome, degradedReason := after.degradedReason,
                     resumeAvailable := after.resumeAvailable, resumeCursor := after.resumeCursor,
                     contextBudgetUsage := after.contextBudgetUsage, lastUpdatedAt := ReceivedAt(entry))
    && (after.resumeAvailable <==> "resume_available" in p && p["resume_available"] == Bool(true))
    && after.resumeCursor == StringAt(p, "resume_cursor")
    && (if entry.eventType == "stream_complete" then
          && after.status == (if failed then RunFailed else RunCompleted)
          && (after.taskOutcome == Some(OutcomeFailed) <==> failed)
          && after.degradedReason == StringAt(p, "degraded_reason")
          && after.contextBudgetUsage == None
        else
          && after.status == RunFailed && after.taskOutcome.Some?
          && after.degradedReason ==
               Some(match (StringAt(p, "degraded_reason"), StringAt(p, "tool_result"), StringAt(p, "reason"))
                    case (Some(reason), _, _) => reason
                    case (None, Some(result), _) => result
                    case (None, None, Some(reason)) => reason
                    case _ => "unknown stream error")
          && after.contextBudgetUsage == run.contextBudgetUsage)
  }

  ghost predicate EntryMeans(run: RunProjection, entry: RunLogEntry, after: RunProjection) {
    && TextEntryMeans(run, entry, after)
    && (IsAboutTool(entry) ==> ToolEntryMeans(run, entry, after))
    && (entry.eventType in {"stream_complete", "stream_error"} ==> EndEntryMeans(run, entry, after))
    && (!IsKnown(entry) ==> after == run)
  }

  /** The run after one event, or as it was when the entry is no event. */
  function AfterEvent(run: RunProjection, event: Option<RuntimeEvent>): RunProjection {
    if event.Some? && event.value.Stream?()
    then UpdateRun(run, event.value).(lastUpdatedAt := event.value.receivedAt) else run
  }

  lemma BoundEntryIsOneStep(run: RunProjection, entry: RunLogEntry)
    ensures ReplayRun(Some(run), entry, true) == Some(AfterEvent(run, RunLogEntryToEvent(entry)))
  {
    EventIsOfItsRun(entry);
    var event := RunLogEntryToEvent(entry);
    hide RunLogEntryToEvent, UpdateRun;
    if event.Some? {
      assert EventsOf(entry, true) == [event.value];
      FoldRunOne(Some(run), entry.runId, event.value);
    } else {
      assert EventsOf(entry, true) == [];
    }
  }

  lemma TextEntryIsRead(run: RunProjection, entry: RunLogEntry)
    ensures TextEntryMeans(run, entry, AfterEvent(run, RunLogEntryToEvent(entry)))
    ensures !IsKnown(entry) ==> RunLogEntryToEvent(entry) == None
  {
    hide StringAt, ToolEvent, EndingAt;
  }

  /** What an entry about a named tool is read as. */
  ghost predicate IsReadAs(entry: RunLogEntry, e: RuntimeEvent) {
    && e.StreamToolCallUpdate? && e.toolCallId == ToolCallOf(entry) && e.toolName == TextUnder(entry, "tool_name")
    && e.status == ToolStatusOf(entry) && e.details.toolResult == StringAt(entry.payload, "tool_result")
    && e.receivedAt == ReceivedAt(entry)
  }

  lemma ToolEventIs(entry: RunLogEntry)
    requires IsAboutTool(entry)
    ensures var event := RunLogEntryToEvent(entry);
            if TextUnder(entry, "tool_name") == "" then event == None
            else event.Some? && IsReadAs(entry, event.value)
  {
    hide StringAt, ObjectAt, NumberAt, ParsePolicyDecision;
    assert RunLogEntryToEvent(entry) == ToolEvent(entry, ReceivedAt(entry));
    assert StatusAt(entry.payload, "tool_status").GetOr(StatusFromEventType(entry.eventType)) == ToolStatusOf(entry);
    hide RunLogEntryToEvent, StatusAt, StatusFromEventType, ToolStatusOf, DecimalDigits;
  }

  lemma ToolUpdateActs(run: RunProjection, entry: RunLogEntry, e: RuntimeEvent)
    requires IsReadAs(entry, e) && TextUnder(entry, "tool_name") != ""
    ensures ToolEntryMeans(run, entry, AfterEvent(run, Some(e)))
  {
    hide StringAt, ToolCallOf, ToolStatusOf, TextUnder, ReceivedAt;
  }

  lemma ToolEntryIsRead(run: RunProjection, entry: RunLogEntry)
    requires IsAboutTool(entry)
    ensures ToolEntryMeans(run, entry, AfterEvent(run, RunLogEntryToEvent(entry)))
  {
    ToolEventIs(entry);
    if TextUnder(entry, "tool_name") != "" {
      ToolUpdateActs(run, entry, RunLogEntryToEvent(entry).value);
    }
    hide RunLogEntryToEvent, UpdateRun, IsReadAs, TextUnder;
  }

  lemma CompletionIsRead(run: RunProjection, entry: RunLogEntry)
    requires entry.eventType == "stream_complete"
    ensures EndEntryMeans(run, entry, AfterEvent(run, RunLogEntryToEvent(entry)))
  {
    hide StringAt, ToolEvent;
    assert RunLogEntryToEvent(entry) ==
        Some(StreamComplete(entry.runId, EndingAt(entry.payload), NO_EXTRAS, ReceivedAt(entry)));
    hide RunLogEntryToEvent, ReceivedAt;
  }

  lemma ErrorIsRead(run: RunProjection, entry: RunLogEntry)
    requires entry.eventType == "stream_error"
    ensures EndEntryMeans(run, entry, AfterEvent(run, RunLogEntryToEvent(entry)))
  {
    hide StringAt, ToolEvent;
    var p := entry.payload;
    assert RunLogEntryToEvent(entry) ==
        Some(StreamError(
          entry.runId,
          StringAt(p, "tool_result").Or(StringAt(p, "degraded_reason")).Or(StringAt(p, "reason"))
            .GetOr("unknown stream error"),
          EndingAt(p), ReceivedAt(entry)));
    hide RunLogEntryToEvent, ReceivedAt;
  }

  /** What an entry of any log, by whatever version of the program, does to a run that is bound. */
  lemma EntryActsOnItsRun(run: RunProjection, entry: RunLogEntry)
    ensures ReplayRun(Some(run), entry, true).Some?
    ensures EntryMeans(run, entry, ReplayRun(Some(run), entry, true).value)
  {
    BoundEntryIsOneStep(run, entry);
    TextEntryIsRead(run, entry);
    if IsAboutTool(entry) {
      ToolEntryIsRead(run, entry);
    } else if entry.eventType == "stream_complete" {
      CompletionIsRead(run, entry);
    } else if entry.eventType == "stream_error" {
      ErrorIsRead(run, entry);
    }
    hide RunLogEntryToEvent, UpdateRun, ReplayRun, TextEntryMeans, ToolEntryMeans, EndEntryMeans;
  }

  /** The run an unbound entry starts from: a blank one, in the session of the log. */
  function BlankRun(entry: RunLogEntry): RunProjection {
    RunProjection(
      entry.runId, Some(entry.sessionId), "", "", false, Streaming, None, None, false, None, EmptyRecord(),
      None, None, None, None, [], None, ReceivedAt(entry))
  }

  /** The first entry of a run does to a blank run of its session what it does to a bound one. */
  lemma FirstEntryActsOnBlankRun(entry: RunLogEntry)
    ensures ReplayRun(None, entry, false) == ReplayRun(Some(BlankRun(entry)), entry, true)
  {
    BoundEntryIsOneStep(BlankRun(entry), entry);
    EventIsOfItsRun(entry);
    var r, event := entry.runId, RunLogEntryToEvent(entry);
    var bind := StreamRunBound(r, entry.sessionId, ReceivedAt(entry));
    assert event.Some? && event.value.StreamRunBound? ==> event.value == bind by {
      hide StringAt, ToolEvent, EndingAt;
    }
    hide RunLogEntryToEvent;
    assert StepRun(None, r, bind) == Some(BlankRun(entry));
    if event == Some(bind) {
      assert EventsOf(entry, false) == [bind];
      FoldRunOne(None, r, bind);
    } else if event.Some? {
      assert EventsOf(entry, false) == [bind] + [event.value];
      FoldRunTwo(None, r, bind, event.value);
    } else {
      assert EventsOf(entry, false) == [bind];
      FoldRunOne(None, r, bind);
    }
  }

  /** In the replay of a log of one session, the entry that comes next changes its run as said,
      starting from a blank run if it is the first of its run, and leaves all other runs alone. */
  lemma NextEntryActs(entries: seq<RunLogEntry>, entry: RunLogEntry, sessionId: string, r: string)
    requires SingleSession(entries + [entry], sessionId)
    ensures var before, after := Get(Replay(entries).snapshot.runs, r),
                                 Get(Replay(entries + [entry]).snapshot.runs, r);
            if r != entry.runId then after == before
            else after.Some? && EntryMeans(before.GetOr(BlankRun(entry)), entry, after.value)
  {
    var log := entries + [entry];
    assert log[..|log| - 1] == entries && log[|log| - 1] == entry;
    assert SingleSession(entries, sessionId) by {
      assert forall i :: 0 <= i < |entries| ==> log[i] == entries[i];
    }
    var state := Replay(entries);
    BoundRunsAreSeenRuns(entries, sessionId, r);
    EntryActsOnOneRun(state.snapshot, entry, entry.runId in state.boundRunIds, r);
    hide Fold, EventsOf, ReplayRun, EntryMeans, BlankRun;
    if r == entry.runId {
      FirstEntryActsOnBlankRun(entry);
      EntryActsOnItsRun(Get(state.snapshot.runs, r).GetOr(BlankRun(entry)), entry);
    }
  }

  // ----- streams that fail to start -----

  /** What the backend logs when a stream fails before it has emitted anything. */
  function RecordStartupFailure(sessionId: string, runId: string, sequence: nat, at: int, stage: string,
                                error: string): RunLogEntry {
    RunLogEntry(
      sessionId, runId, sequence, "stream_error", Some(at), map["stage" := Str(stage), "error" := Str(error)], None)
  }

  lemma StartupFailureIs(sessionId: string, runId: string, sequence: nat, at: int, stage: string, error: string)
    ensures var entry := RecordStartupFailure(sessionId, runId, sequence, at, stage, error);
            && entry.eventType == "stream_error" && entry.runId == runId && entry.sessionId == sessionId
            && StringAt(entry.payload, "degraded_reason") == None && StringAt(entry.payload, "tool_result") == None
            && StringAt(entry.payload, "reason") == None && "resume_available" !in entry.payload
  {
  }

  /** The replay shows that such a run failed, but not why: whatever error was logged, the reason is
      unknown, so the reason shown is the one logged only if that says no more. */
  lemma StartupFailureLosesItsError(entries: seq<RunLogEntry>, sessionId: string, runId: string, sequence: nat,
                                    at: int, stage: string, error: string)
    requires SingleSession(entries, sessionId)
    ensures var failure := RecordStartupFailure(sessionId, runId, sequence, at, stage, error);
            var run := Get(Replay(entries + [failure]).snapshot.runs, runId);
            && run.Some? && run.value.status == RunFailed && !run.value.resumeAvailable
            && run.value.degradedReason == Some("unknown stream error")
            && (run.value.degradedReason == Some(error) <==> error == "unknown stream error")
  {
    hide Replay, RecordStartupFailure, StringAt, BlankRun, TextEntryMeans, ToolEntryMeans;
    var failure := RecordStartupFailure(sessionId, runId, sequence, at, stage, error);
    StartupFailureIs(sessionId, runId, sequence, at, stage, error);
    NextEntryActs(entries, failure, sessionId, runId);
  }
}
