/** Replaying what was recorded rebuilds what was shown live. */
module ReplaySimulation {
  import opened JsValues
  import opened RuntimeTypes
  import opened RuntimeReducer
  import opened RunIsolation
  import opened ChatProjection
  import opened EventTranslator
  import opened HistoryReplay
  import opened HistoryCoverage

  // ----- what recording does to events and runs -----

  function RecordedDetails(d: ToolDetails, redact: Redaction): ToolDetails {
    d.(toolArgs := if d.toolArgs.Some? then Some(redact(d.toolArgs.value)) else None)
  }

  /** A live event as it comes back from the log of run `r`. */
  function AsRecorded(e: RuntimeEvent, r: string, redact: Redaction): RuntimeEvent
    requires e.Stream?()
  {
    match e
    case StreamRunBound(_, sessionId, at) => StreamRunBound(r, sessionId, at)
    case StreamTextDelta(_, text, at) => StreamTextDelta(r, text, at)
    case StreamThinkingStart(_, at) => StreamThinkingStart(r, at)
    case StreamThinkingDelta(_, thinking, at) => StreamThinkingDelta(r, thinking, at)
    case StreamToolCallUpdate(_, id, name, status, details, at) =>
      StreamToolCallUpdate(r, id, name, status, RecordedDetails(details, redact), at)
    case StreamFinalTextOverride(_, text, requestId, at) => StreamFinalTextOverride(r, text, requestId, at)
    case StreamComplete(_, ending, _, at) => StreamComplete(r, ending, NO_EXTRAS, at)
    case StreamError(_, reason, ending, at) => StreamError(r, reason, ending, at)
  }

  function RecordedTool(tool: ToolCallProjection, redact: Redaction): ToolCallProjection {
    tool.(details := RecordedDetails(tool.details, redact))
  }

  function RecordedTools(tools: Record<ToolCallProjection>, redact: Redaction): Record<ToolCallProjection> {
    RawRecord(
      tools.keys,
      map k | k in tools.entries :: RecordedTool(tools.entries[k], redact))
  }

  /** A live run as it comes back from its log: under its durable id, its tool arguments
      redacted, and without the six summaries only a completion carries. */
  function AsReplayed(run: RunProjection, r: string, redact: Redaction): RunProjection {
    run.(
      runId := r,
      toolCalls := RecordedTools(run.toolCalls, redact),
      contextBudgetUsage := None, turnCost := None, routing := None, sessionTotals := None,
      memoryItems := [], promptDiagnostics := None)
  }

  function AsReplayedOption(run: Option<RunProjection>, r: string, redact: Redaction): Option<RunProjection> {
    if run.Some? then Some(AsReplayed(run.value, r, redact)) else None
  }

  lemma ToolUpdateCommutes(existing: Option<ToolCallProjection>, e: RuntimeEvent, r: string, redact: Redaction)
    requires e.StreamToolCallUpdate?
    ensures var earlier := if existing.Some?
                           then Some(RecordedTool(existing.value, redact))
                           else None;
            var tool := UpdateTool(existing, e);
            UpdateTool(earlier, AsRecorded(e, r, redact)) == RecordedTool(tool, redact)
  {
  }

  lemma PutCommutes(tools: Record<ToolCallProjection>, id: string, tool: ToolCallProjection, redact: Redaction)
    ensures Put(RecordedTools(tools, redact), id, RecordedTool(tool, redact))
            == RecordedTools(Put(tools, id, tool), redact)
  {
    hide RecordedTool;
    var left := Put(RecordedTools(tools, redact), id, RecordedTool(tool, redact));
    var right := RecordedTools(Put(tools, id, tool), redact);
    assert left.entries == right.entries;
    assert left.keys == right.keys;
  }

  lemma UpdateCommutes(run: RunProjection, e: RuntimeEvent, r: string, redact: Redaction)
    requires e.Stream?()
    ensures UpdateRun(AsReplayed(run, r, redact), AsRecorded(e, r, redact))
            == AsReplayed(UpdateRun(run, e), r, redact)
  {
    if e.StreamToolCallUpdate? {
      var existing := Get(run.toolCalls, e.toolCallId);
      ToolUpdateCommutes(existing, e, r, redact);
      PutCommutes(run.toolCalls, e.toolCallId, UpdateTool(existing, e), redact);
    }
  }

  lemma StepCommutes(run: Option<RunProjection>, e: RuntimeEvent, r: string, redact: Redaction)
    requires e.Stream?()
    ensures StepRun(AsReplayedOption(run, r, redact), r, AsRecorded(e, r, redact))
            == AsReplayedOption(StepRun(run, e.runId, e), r, redact)
  {
    var blank := CreateEmptyRun(e.runId, e.receivedAt);
    assert RecordedTools(EmptyRecord(), redact) == EmptyRecord();
    assert AsReplayed(blank, r, redact) == CreateEmptyRun(r, e.receivedAt);
    UpdateCommutes(run.GetOr(blank), e, r, redact);
  }

  // ----- recording and reading back one payload -----

  predicate KnownType(p: StreamTokenPayload) {
    || p.eventType == "text_delta" || p.eventType == "thinking_delta" || p.eventType == "thinking_start"
    || p.eventType == "tool_call_update" || p.eventType == "final_text_override"
    || p.eventType == "stream_complete" || p.eventType == "stream_error"
  }

  /** A tool update the live translator does not have to drop: nameless, or complete. */
  predicate WellFormed(p: StreamTokenPayload) {
    p.eventType == "tool_call_update" && Truthy(p.toolName) ==> Truthy(p.toolCallId) && p.toolStatus.Some?
  }

  lemma StringsReadBack(p: StreamTokenPayload, redact: Redaction)
    ensures var fields := SerializedPayload(p, redact);
            && StringAt(fields, "text") == p.text
            && StringAt(fields, "thinking") == p.thinking
  {
  }

  lemma RequestReadsBack(p: StreamTokenPayload, redact: Redaction)
    ensures StringAt(SerializedPayload(p, redact), "request_id") == p.requestId
  {
  }

  lemma ResultReadsBack(p: StreamTokenPayload, redact: Redaction)
    ensures var fields := SerializedPayload(p, redact);
            && StringAt(fields, "tool_result") == p.toolResult
            && StringAt(fields, "reason") == None
  {
  }

  lemma TextsReadBack(p: StreamTokenPayload, redact: Redaction)
    ensures var fields := SerializedPayload(p, redact);
            && StringAt(fields, "text") == p.text
            && StringAt(fields, "thinking") == p.thinking
            && StringAt(fields, "request_id") == p.requestId
            && StringAt(fields, "tool_result") == p.toolResult
            && StringAt(fields, "reason") == None
  {
    StringsReadBack(p, redact);
    RequestReadsBack(p, redact);
    ResultReadsBack(p, redact);
    hide SerializedPayload, StringAt;
  }

  lemma ToolIdReadsBack(p: StreamTokenPayload, redact: Redaction)
    ensures var fields := SerializedPayload(p, redact);
            && StringAt(fields, "tool_call_id") == p.toolCallId
            && StringAt(fields, "tool_name") == p.toolName
  {
  }

  lemma EvidenceReadsBack(p: StreamTokenPayload, redact: Redaction)
    ensures var fields := SerializedPayload(p, redact);
            && StringAt(fields, "effective_workdir") == p.effectiveWorkdir
            && StringAt(fields, "evidence_id") == p.evidenceId
  {
  }

  lemma OutcomeReadsBack(p: StreamTokenPayload, redact: Redaction)
    ensures var fields := SerializedPayload(p, redact);
            && OutcomeAt(fields, "task_outcome") == p.taskOutcome
            && BooleanAt(fields, "resume_available") == p.resumeAvailable
  {
  }

  lemma ReasonsReadBack(p: StreamTokenPayload, redact: Redaction)
    ensures var fields := SerializedPayload(p, redact);
            && StringAt(fields, "degraded_reason") == p.degradedReason
            && StringAt(fields, "resume_cursor") == p.resumeCursor
  {
  }

  lemma EndingReadsBack(p: StreamTokenPayload, redact: Redaction)
    ensures EndingAt(SerializedPayload(p, redact))
            == Ending(p.taskOutcome, p.degradedReason, p.resumeAvailable, p.resumeCursor, p.requestId)
  {
    OutcomeReadsBack(p, redact);
    ReasonsReadBack(p, redact);
    TextsReadBack(p, redact);
    hide SerializedPayload, StringAt, OutcomeAt, BooleanAt;
  }

  lemma NumbersReadBack(p: StreamTokenPayload, redact: Redaction)
    ensures var fields := SerializedPayload(p, redact);
            && ObjectAt(fields, "tool_args") == (if p.toolArgs.Some? then Some(redact(p.toolArgs.value)) else None)
            && NumberAt(fields, "tool_duration_ms") == p.toolDurationMs
  {
  }

  lemma StatusReadsBack(p: StreamTokenPayload, redact: Redaction)
    ensures StatusAt(SerializedPayload(p, redact), "tool_status") == p.toolStatus
  {
    var fields := SerializedPayload(p, redact);
    assert "tool_status" in fields
        && fields["tool_status"] == if p.toolStatus.Some? then Str(StatusName(p.toolStatus.value)) else Null;
    hide SerializedPayload;
  }

  lemma DecisionReadsBack(p: StreamTokenPayload, redact: Redaction)
    ensures ParsePolicyDecision(StringAt(SerializedPayload(p, redact), "policy_decision")) == p.policyDecision
  {
  }

  function AsRecordedOption(e: Option<RuntimeEvent>, r: string, redact: Redaction): Option<RuntimeEvent>
    requires e.Some? ==> e.value.Stream?()
  {
    if e.Some? then Some(AsRecorded(e.value, r, redact)) else None
  }

  lemma TranslatedIsStream(p: StreamTokenPayload, at: int)
    ensures var live := TranslateAgentToken(p, at);
            live.Some? ==> live.value.Stream?() && live.value.runId == p.streamId && !live.value.StreamRunBound?
  {
  }

  lemma RecordedToolReadsBack(p: StreamTokenPayload, entry: RunLogEntry, at: int, redact: Redaction)
    requires p.eventType == "tool_call_update"
    requires entry == RecordPayload(p, entry.sessionId, entry.runId, entry.sequence, at, redact)
    ensures ToolEvent(entry, at) ==
              if !Truthy(p.toolName) then None
              else Some(StreamToolCallUpdate(
                entry.runId,
                p.toolCallId.GetOr("tool-" + DecimalDigits(entry.sequence)),
                p.toolName.value,
                p.toolStatus.GetOr(Completed),
                RecordedDetails(
                  ToolDetails(p.toolArgs, p.toolResult, p.toolDurationMs, p.effectiveWorkdir, p.policyDecision,
                              p.evidenceId, p.requestId), redact),
                at))
  {
    hide SerializedPayload;
    TextsReadBack(p, redact);
    ToolIdReadsBack(p, redact);
    EvidenceReadsBack(p, redact);
    NumbersReadBack(p, redact);
    StatusReadsBack(p, redact);
    DecisionReadsBack(p, redact);
    hide StringAt, ObjectAt, NumberAt, StatusAt, ParsePolicyDecision;
  }

  lemma ToolTypeIsRecorded(p: StreamTokenPayload)
    requires p.eventType == "tool_call_update"
    ensures var t := RecordedType(p);
            && IsToolEntry(t)
            && t != "run_started" && t != "text_delta" && t != "thinking_started" && t != "thinking_start"
            && t != "thinking_delta"
            && (p.toolStatus.Some? ==> StatusFromEventType(t) == p.toolStatus.value)
  {
  }

  /** Live and replay read a payload alike exactly when the live translator keeps what the
      replay keeps: a named tool update also needs an id and a status. */
  lemma PayloadReadsBackIff(p: StreamTokenPayload, entry: RunLogEntry, at: int, redact: Redaction)
    requires KnownType(p)
    requires entry == RecordPayload(p, entry.sessionId, entry.runId, entry.sequence, at, redact)
    ensures TranslateAgentToken(p, at).Some? ==> TranslateAgentToken(p, at).value.Stream?()
    ensures RunLogEntryToEvent(entry) == AsRecordedOption(TranslateAgentToken(p, at), entry.runId, redact)
            <==> WellFormed(p)
  {
    hide SerializedPayload;
    TranslatedIsStream(p, at);
    if p.eventType == "tool_call_update" {
      ToolTypeIsRecorded(p);
      assert RunLogEntryToEvent(entry) == ToolEvent(entry, at);
      RecordedToolReadsBack(p, entry, at, redact);
    } else {
      assert entry.eventType == if p.eventType == "thinking_start" then "thinking_started" else p.eventType;
      OtherPayloadReadsBack(p, entry, at, redact);
    }
  }

  /** An update of a tool called `read` without an id and a status. */
  function NamedOnly(): StreamTokenPayload {
    StreamTokenPayload(
      "s", "tool_call_update", None, None, None, Some("read"), None, None, None, None, None, None, None, None, None,
      None, None, None, None, None, None, None, None, None)
  }

  lemma NamedOnlyIs()
    ensures var p := NamedOnly();
            && p.eventType == "tool_call_update" && p.toolName == Some("read")
            && p.toolCallId == None && p.toolStatus == None
  {
  }

  /** It is not shown live, and comes back from the log as a completed call with an id of the log. */
  lemma NamedUpdateIsReadDifferently(redact: Redaction)
    ensures TranslateAgentToken(NamedOnly(), 1000) == None
    ensures var event := RunLogEntryToEvent(RecordPayload(NamedOnly(), "session", "run", 7, 1000, redact));
            && event.Some? && event.value.StreamToolCallUpdate?
            && event.value.toolCallId == "tool-7" && event.value.toolName == "read"
            && event.value.status == Completed
  {
    NamedOnlyIs();
    hide NamedOnly, SerializedPayload;
    var p := NamedOnly();
    var entry := RecordPayload(p, "session", "run", 7, 1000, redact);
    ToolTypeIsRecorded(p);
    assert RunLogEntryToEvent(entry) == ToolEvent(entry, 1000);
    RecordedToolReadsBack(p, entry, 1000, redact);
    hide ToolEvent, RunLogEntryToEvent, RecordPayload;
    assert DecimalDigits(7) == "7";
  }

  lemma OtherPayloadReadsBack(p: StreamTokenPayload, entry: RunLogEntry, at: int, redact: Redaction)
    requires KnownType(p) && p.eventType != "tool_call_update"
    requires entry == RecordPayload(p, entry.sessionId, entry.runId, entry.sequence, at, redact)
    ensures TranslateAgentToken(p, at).Some? && TranslateAgentToken(p, at).value.Stream?()
    ensures RunLogEntryToEvent(entry) == Some(AsRecorded(TranslateAgentToken(p, at).value, entry.runId, redact))
  {
    TextsReadBack(p, redact);
    EndingReadsBack(p, redact);
    ReasonsReadBack(p, redact);
    hide SerializedPayload, EndingAt, StringAt;
  }

  // ----- whole sessions -----

  /** What happens in a session: a run is started, or its stream emits a payload. */
  datatype Item =
    | Start(streamId: string, preview: string, at: int)
    | Token(payload: StreamTokenPayload, at: int)
  {
    function Stream(): string {
      if Start? then streamId else payload.streamId
    }
  }

  /** The session and the durable run id of each live stream. */
  datatype Binding = Binding(sessionId: string, runId: string)
  type Bindings = map<string, Binding>

  ghost predicate DistinctRuns(bindings: Bindings) {
    forall a, b :: a in bindings && b in bindings && bindings[a].runId == bindings[b].runId ==> a == b
  }

  /** The events dispatched live. */
  function LiveEvent(item: Item, bindings: Bindings): Option<RuntimeEvent>
    requires item.Stream() in bindings
  {
    match item
    case Start(streamId, _, at) => Some(StreamRunBound(streamId, bindings[streamId].sessionId, at))
    case Token(payload, at) => TranslateAgentToken(payload, at)
  }

  function LiveEvents(items: seq<Item>, bindings: Bindings): seq<RuntimeEvent>
    requires forall i :: 0 <= i < |items| ==> items[i].Stream() in bindings
  {
    if items == [] then []
    else
      var event := LiveEvent(items[|items| - 1], bindings);
      LiveEvents(items[..|items| - 1], bindings) + (if event.Some? then [event.value] else [])
  }

  /** The log entry written for an item. */
  ghost predicate Records(entry: RunLogEntry, item: Item, bindings: Bindings, redact: Redaction)
    requires item.Stream() in bindings
  {
    var b := bindings[item.Stream()];
    match item
    case Start(streamId, preview, at) =>
      entry == RecordStart(streamId, b.sessionId, b.runId, entry.sequence, at, preview)
    case Token(payload, at) =>
      entry == RecordPayload(payload, b.sessionId, b.runId, entry.sequence, at, redact)
  }

  function Started(items: seq<Item>): set<string> {
    if items == [] then {}
    else
      var item := items[|items| - 1];
      Started(items[..|items| - 1]) + (if item.Start? then {item.streamId} else {})
  }

  /** Streams are started before they emit, and emit payloads both sides read alike. */
  ghost predicate WellFormedSession(items: seq<Item>, bindings: Bindings) {
    && DistinctRuns(bindings)
    && (forall i :: 0 <= i < |items| ==> items[i].Stream() in bindings)
    && (forall i :: 0 <= i < |items| && items[i].Token? ==>
          && KnownType(items[i].payload) && WellFormed(items[i].payload)
          && items[i].Stream() in Started(items[..i]))
  }

  ghost predicate WellRecorded(entries: seq<RunLogEntry>, items: seq<Item>, bindings: Bindings, redact: Redaction) {
    && |entries| == |items|
    && forall i :: 0 <= i < |items| ==>
         items[i].Stream() in bindings && Records(entries[i], items[i], bindings, redact)
  }

  /** One item, live and replayed. */
  lemma ItemSimulates(item: Item, entry: RunLogEntry, bindings: Bindings, redact: Redaction,
                      run: Option<RunProjection>, bound: bool)
    requires item.Stream() in bindings && Records(entry, item, bindings, redact)
    requires item.Token? ==> bound && KnownType(item.payload) && WellFormed(item.payload)
    ensures var s := item.Stream();
            var live := LiveEvent(item, bindings);
            && entry.runId == bindings[s].runId
            && (live.Some? ==> live.value.Stream?() && live.value.runId == s)
            && ReplayRun(AsReplayedOption(run, entry.runId, redact), entry, bound)
               == AsReplayedOption(if live.Some? then StepRun(run, s, live.value) else run, entry.runId, redact)
  {
    var r, live := entry.runId, LiveEvent(item, bindings);
    var replayed := AsReplayedOption(run, r, redact);
    if item.Start? {
      assert RunLogEntryToEvent(entry) == Some(AsRecorded(live.value, r, redact));
      assert EventsOf(entry, bound) == [AsRecorded(live.value, r, redact)];
      StepCommutes(run, live.value, r, redact);
      FoldRunOne(replayed, r, AsRecorded(live.value, r, redact));
    } else {
      TranslatedIsStream(item.payload, item.at);
      PayloadReadsBackIff(item.payload, entry, item.at, redact);
      if live.Some? {
        assert EventsOf(entry, bound) == [AsRecorded(live.value, r, redact)];
        StepCommutes(run, live.value, r, redact);
        FoldRunOne(replayed, r, AsRecorded(live.value, r, redact));
      } else {
        assert EventsOf(entry, bound) == [];
      }
    }
  }

  ghost predicate Simulates(live: Snapshot, state: ReplayState, b: Binding, s: string, redact: Redaction) {
    Get(state.snapshot.runs, b.runId) == AsReplayedOption(Get(live.runs, s), b.runId, redact)
  }

  function Dispatch(live: Snapshot, event: Option<RuntimeEvent>): Snapshot {
    if event.Some? then ReduceRuntimeEvent(live, event.value) else live
  }

  lemma StepSimulates(live: Snapshot, state: ReplayState, item: Item, entry: RunLogEntry, bindings: Bindings,
                      redact: Redaction, s: string)
    requires DistinctRuns(bindings) && s in bindings
    requires item.Stream() in bindings && Records(entry, item, bindings, redact)
    requires item.Token? ==>
               && bindings[item.Stream()].runId in state.boundRunIds
               && KnownType(item.payload) && WellFormed(item.payload)
    requires Simulates(live, state, bindings[s], s, redact)
    ensures Simulates(Dispatch(live, LiveEvent(item, bindings)), ReplayStep(state, entry), bindings[s], s, redact)
  {
    hide StepRun, FoldRun, ReduceRuntimeEvent, EventsOf;
    var q, r, event := item.Stream(), bindings[s].runId, LiveEvent(item, bindings);
    var bound := entry.runId in state.boundRunIds;
    ItemSimulates(item, entry, bindings, redact, Get(live.runs, q), bound);
    EntryActsOnOneRun(state.snapshot, entry, bound, r);
    assert r == entry.runId <==> s == q;
    if event.Some? {
      ReduceActsPerRun(live, event.value, s);
      if s != q {
        OtherRunUntouched(Get(live.runs, s), s, event.value);
      }
    }
  }

  lemma OtherRunUntouched(run: Option<RunProjection>, r: string, e: RuntimeEvent)
    requires e.Stream?() && e.runId != r
    ensures StepRun(run, r, e) == run
  {
  }

  lemma BoundGrows(entries: seq<RunLogEntry>)
    requires entries != []
    ensures var n := |entries| - 1;
            Replay(entries).boundRunIds == Replay(entries[..n]).boundRunIds + {entries[n].runId}
  {
    hide Fold, EventsOf;
  }

  lemma LastRecord(items: seq<Item>, entries: seq<RunLogEntry>, bindings: Bindings, redact: Redaction)
    requires items != [] && WellRecorded(entries, items, bindings, redact)
    ensures var n := |items| - 1;
            && WellRecorded(entries[..n], items[..n], bindings, redact)
            && entries[n].runId == bindings[items[n].Stream()].runId
  {
    var n := |items| - 1;
    assert Records(entries[n], items[n], bindings, redact);
  }

  lemma {:induction false} StartedIsBound(items: seq<Item>, entries: seq<RunLogEntry>, bindings: Bindings,
                                          redact: Redaction, s: string)
    requires WellRecorded(entries, items, bindings, redact) && s in bindings && s in Started(items)
    ensures bindings[s].runId in Replay(entries).boundRunIds
  {
    var n := |items| - 1;
    assert |entries| == |items|;
    LastRecord(items, entries, bindings, redact);
    BoundGrows(entries);
    hide WellRecorded, Replay;
    if s in Started(items[..n]) {
      StartedIsBound(items[..n], entries[..n], bindings, redact, s);
    }
  }

  /** Replay simulates live: for every session and every run, the run rebuilt from the log is
      the run the live stream produced, except for what recording drops. */
  lemma {:induction false} ReplaySimulatesLive(items: seq<Item>, entries: seq<RunLogEntry>, bindings: Bindings,
                                               redact: Redaction, s: string)
    requires WellFormedSession(items, bindings) && WellRecorded(entries, items, bindings, redact)
    requires s in bindings
    ensures var r := bindings[s].runId;
            var live := Get(Fold(EmptySnapshot(), LiveEvents(items, bindings)).runs, s);
            Get(Replay(entries).snapshot.runs, r) == AsReplayedOption(live, r, redact)
  {
    if items != [] {
      hide ReduceRuntimeEvent, ReplayStep, LiveEvent, Records, KnownType, WellFormed, EventsOf, AsReplayed,
           AsReplayedOption, DistinctRuns;
      var n := |items| - 1;
      var item, before := items[n], LiveEvents(items[..n], bindings);
      SessionPrefix(items, bindings);
      ReplaySimulatesLive(items[..n], entries[..n], bindings, redact, s);
      if item.Token? {
        StartedIsBound(items[..n], entries[..n], bindings, redact, item.Stream());
      }
      var live := Fold(EmptySnapshot(), before);
      StepSimulates(live, Replay(entries[..n]), item, entries[n], bindings, redact, s);
      FoldOption(before, LiveEvent(item, bindings));
    }
  }

  lemma SessionPrefix(items: seq<Item>, bindings: Bindings)
    requires items != [] && WellFormedSession(items, bindings)
    ensures WellFormedSession(items[..|items| - 1], bindings)
  {
    var before := items[..|items| - 1];
    forall i | 0 <= i < |before| ensures before[i] == items[i] && before[..i] == items[..i] {}
  }

  lemma FoldOption(before: seq<RuntimeEvent>, event: Option<RuntimeEvent>)
    ensures Fold(EmptySnapshot(), before + (if event.Some? then [event.value] else []))
            == Dispatch(Fold(EmptySnapshot(), before), event)
  {
    if event.Some? {
      FoldSnoc(EmptySnapshot(), before, event.value);
    } else {
      assert before + [] == before;
    }
  }

  // ----- live streams that start before their run is bound -----

  predicate IsTokenOf(e: RuntimeEvent, s: string) {
    e.Stream?() && e.runId == s && !e.StreamRunBound?
  }

  /** What a stream emits, in order. */
  function TokensOf(events: seq<RuntimeEvent>, s: string): seq<RuntimeEvent> {
    if events == [] then []
    else
      var n := |events| - 1;
      TokensOf(events[..n], s) + (if IsTokenOf(events[n], s) then [events[n]] else [])
  }

  /** The stream is bound somewhere among the events, and never to another session. */
  ghost predicate BindsTo(events: seq<RuntimeEvent>, s: string, sessionId: string) {
    && (exists i :: 0 <= i < |events| && events[i].StreamRunBound? && events[i].runId == s)
    && (forall i :: 0 <= i < |events| && events[i].StreamRunBound? && events[i].runId == s ==>
          events[i].sessionId == sessionId)
  }

  ghost predicate NoDiscards(events: seq<RuntimeEvent>) {
    forall i :: 0 <= i < |events| ==> !events[i].DiscardSessionRuns?
  }

  /** A run without what the position of its bind decides, and without its session. */
  function Loose(run: Option<RunProjection>, s: string): RunProjection {
    run.GetOr(CreateEmptyRun(s, 0)).(sessionId := None, lastUpdatedAt := 0)
  }

  lemma StepIsLoose(run: Option<RunProjection>, s: string, e: RuntimeEvent)
    requires !e.DiscardSessionRuns?
    ensures Loose(StepRun(run, s, e), s) ==
              if IsTokenOf(e, s) then Loose(Some(UpdateRun(Loose(run, s), e)), s) else Loose(run, s)
  {
  }

  lemma {:induction false} FoldIsLoose(events: seq<RuntimeEvent>, s: string)
    requires NoDiscards(events)
    ensures Loose(FoldRun(None, s, events), s) == Loose(FoldRun(None, s, TokensOf(events, s)), s)
  {
    hide StepRun, Loose, UpdateRun;
    if events != [] {
      var n := |events| - 1;
      var tokens := TokensOf(events[..n], s);
      FoldIsLoose(events[..n], s);
      StepIsLoose(FoldRun(None, s, events[..n]), s, events[n]);
      if IsTokenOf(events[n], s) {
        assert (tokens + [events[n]])[..|tokens|] == tokens;
        StepIsLoose(FoldRun(None, s, tokens), s, events[n]);
      } else {
        assert tokens + [] == tokens;
      }
    }
  }

  lemma {:induction false} FoldIsBound(events: seq<RuntimeEvent>, s: string, sessionId: string)
    requires NoDiscards(events)
    requires forall i :: 0 <= i < |events| && events[i].StreamRunBound? && events[i].runId == s ==>
               events[i].sessionId == sessionId
    ensures FoldRun(None, s, events).Some? ==> FoldRun(None, s, events).value.runId == s
    ensures BindsTo(events, s, sessionId) ==> IsRunOf(FoldRun(None, s, events), s, sessionId)
  {
    if events != [] {
      var n := |events| - 1;
      assert forall i :: 0 <= i < n ==> events[..n][i] == events[i];
      FoldIsBound(events[..n], s, sessionId);
    }
  }

  /** What is dispatched live binds every started stream to its session. */
  lemma {:induction false} LiveEventsBind(items: seq<Item>, bindings: Bindings, s: string)
    requires forall i :: 0 <= i < |items| ==> items[i].Stream() in bindings
    requires s in bindings
    ensures NoDiscards(LiveEvents(items, bindings))
    ensures forall e :: e in LiveEvents(items, bindings) && e.StreamRunBound? && e.runId == s ==>
              e.sessionId == bindings[s].sessionId
    ensures s in Started(items) ==> BindsTo(LiveEvents(items, bindings), s, bindings[s].sessionId)
  {
    if items != [] {
      var n := |items| - 1;
      var before, event := LiveEvents(items[..n], bindings), LiveEvent(items[n], bindings);
      LiveEventsBind(items[..n], bindings, s);
      if items[n].Token? {
        TranslatedIsStream(items[n].payload, items[n].at);
      }
      LiveEventsSnoc(before, event, s, bindings[s].sessionId);
      assert items[n].Start? && items[n].streamId == s ==> event.value.StreamRunBound? && event.value.runId == s;
    }
  }

  lemma LiveEventsSnoc(before: seq<RuntimeEvent>, event: Option<RuntimeEvent>, s: string, sessionId: string)
    requires NoDiscards(before) && (event.Some? ==> !event.value.DiscardSessionRuns?)
    requires forall e :: e in before && e.StreamRunBound? && e.runId == s ==> e.sessionId == sessionId
    requires event.Some? && event.value.StreamRunBound? && event.value.runId == s ==> event.value.sessionId == sessionId
    ensures var after := before + (if event.Some? then [event.value] else []);
            && NoDiscards(after)
            && (forall e :: e in after && e.StreamRunBound? && e.runId == s ==> e.sessionId == sessionId)
            && (BindsTo(before, s, sessionId)
                || (event.Some? && event.value.StreamRunBound? && event.value.runId == s)
                ==> BindsTo(after, s, sessionId))
  {
    var after := before + (if event.Some? then [event.value] else []);
    assert forall i :: 0 <= i < |before| ==> after[i] == before[i];
    assert event.Some? ==> after[|before|] == event.value;
    assert forall i :: 0 <= i < |after| ==> after[i] in after;
  }

  /** The same for live events in which the bind of a run may come at any time, also after its
      first tokens: only the time of the last update then depends on the order. */
  lemma ReplaySimulatesAnyLiveOrder(
      items: seq<Item>, entries: seq<RunLogEntry>, bindings: Bindings, redact: Redaction, s: string,
      live: seq<RuntimeEvent>)
    requires WellFormedSession(items, bindings) && WellRecorded(entries, items, bindings, redact)
    requires s in bindings && s in Started(items)
    requires NoDiscards(live) && BindsTo(live, s, bindings[s].sessionId)
    requires TokensOf(live, s) == TokensOf(LiveEvents(items, bindings), s)
    ensures var r := bindings[s].runId;
            var shown, replayed := Get(Fold(EmptySnapshot(), live).runs, s), Get(Replay(entries).snapshot.runs, r);
            && shown.Some? && replayed.Some?
            && replayed.value.(lastUpdatedAt := 0) == AsReplayed(shown.value, r, redact).(lastUpdatedAt := 0)
  {
    hide FoldRun, Fold, Replay, StepRun, RecordedTools, TokensOf, LiveEvents;
    var recorded := LiveEvents(items, bindings);
    ReplaySimulatesLive(items, entries, bindings, redact, s);
    LiveEventsBind(items, bindings, s);
    FoldActsPerRun(EmptySnapshot(), live, s);
    FoldActsPerRun(EmptySnapshot(), recorded, s);
    FoldIsLoose(live, s);
    FoldIsLoose(recorded, s);
    FoldIsBound(live, s, bindings[s].sessionId);
    FoldIsBound(recorded, s, bindings[s].sessionId);
  }
}
