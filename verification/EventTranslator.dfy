/** Translates live stream payloads into canonical events, and records them in the run log. */
module EventTranslator {
  import opened JsValues
  import opened RuntimeTypes

  /** One `agent-token` payload; absent and null fields are `None`. */
  datatype StreamTokenPayload = StreamTokenPayload(
    streamId: string,
    eventType: string,
    text: Option<string>,
    thinking: Option<string>,
    toolCallId: Option<string>,
    toolName: Option<string>,
    toolStatus: Option<ToolCallStatus>,
    toolArgs: Option<Fields>,
    toolResult: Option<string>,
    toolDurationMs: Option<int>,
    effectiveWorkdir: Option<string>,
    policyDecision: Option<PolicyDecision>,
    evidenceId: Option<string>,
    requestId: Option<string>,
    taskOutcome: Option<TaskOutcome>,
    degradedReason: Option<string>,
    resumeAvailable: Option<bool>,
    resumeCursor: Option<string>,
    contextBudgetUsage: Option<Value>,
    memoryContext: Option<seq<Value>>,
    promptDiagnostics: Option<Value>,
    turnCost: Option<Value>,
    routingInfo: Option<Value>,
    sessionTotals: Option<Value>)

  /** JavaScript's truth value of an optional string. */
  predicate Truthy(s: Option<string>) {
    s.Some? && s.value != ""
  }

  function TranslateAgentToken(p: StreamTokenPayload, receivedAt: int): Option<RuntimeEvent> {
    if p.eventType == "text_delta" then
      Some(StreamTextDelta(p.streamId, p.text.GetOr(""), receivedAt))
    else if p.eventType == "thinking_start" then
      Some(StreamThinkingStart(p.streamId, receivedAt))
    else if p.eventType == "thinking_delta" then
      Some(StreamThinkingDelta(p.streamId, p.thinking.GetOr(""), receivedAt))
    else if p.eventType == "tool_call_update" then
      if !Truthy(p.toolCallId) || !Truthy(p.toolName) || p.toolStatus.None? then None
      else
        Some(StreamToolCallUpdate(
          p.streamId, p.toolCallId.value, p.toolName.value, p.toolStatus.value,
          ToolDetails(p.toolArgs, p.toolResult, p.toolDurationMs, p.effectiveWorkdir, p.policyDecision,
                      p.evidenceId, p.requestId),
          receivedAt))
    else if p.eventType == "final_text_override" then
      Some(StreamFinalTextOverride(p.streamId, p.text.GetOr(""), p.requestId, receivedAt))
    else if p.eventType == "stream_complete" then
      Some(StreamComplete(
        p.streamId,
        Ending(p.taskOutcome, p.degradedReason, p.resumeAvailable, p.resumeCursor, p.requestId),
        CompletionExtras(p.contextBudgetUsage, p.memoryContext, p.promptDiagnostics, p.turnCost, p.routingInfo,
                         p.sessionTotals),
        receivedAt))
    else if p.eventType == "stream_error" then
      Some(StreamError(
        p.streamId,
        p.toolResult.Or(p.degradedReason).GetOr("unknown stream error"),
        Ending(p.taskOutcome, p.degradedReason, p.resumeAvailable, p.resumeCursor, p.requestId),
        receivedAt))
    else None
  }

  // ----- the durable run log -----

  /** `occurredAt` is the parsed time stamp; `None` when it cannot be parsed. */
  datatype RunLogEntry = RunLogEntry(
    sessionId: string,
    runId: string,
    sequence: nat,
    eventType: string,
    occurredAt: Option<int>,
    payload: Fields,
    toolCallId: Option<string>)

  /** Removes secrets from recorded tool arguments; the identity when redaction is off. */
  type Redaction = Fields -> Fields

  function NullOr<T>(x: Option<T>, wrap: T -> Value): Value {
    if x.Some? then wrap(x.value) else Null
  }

  function StatusName(status: ToolCallStatus): string {
    match status
    case Queued => "queued"
    case Running => "running"
    case Completed => "completed"
    case Error => "error"
  }

  function DecisionName(decision: PolicyDecision): string {
    match decision
    case Allow => "allow"
    case Deny => "deny"
    case Prompt => "prompt"
  }

  function OutcomeName(outcome: TaskOutcome): string {
    match outcome
    case OutcomeCompleted => "completed"
    case OutcomePartialSuccess => "partial_success"
    case OutcomeFailed => "failed"
  }

  /** The payload serialised as JSON: absent scalar fields are null. The summaries only
      completions carry are recorded too, but nothing reads them back. */
  function SerializedPayload(p: StreamTokenPayload, redact: Redaction): Fields {
    map[
      "stream_id" := Str(p.streamId),
      "event_type" := Str(p.eventType),
      "text" := NullOr(p.text, s => Str(s)),
      "thinking" := NullOr(p.thinking, s => Str(s)),
      "tool_call_id" := NullOr(p.toolCallId, s => Str(s)),
      "tool_name" := NullOr(p.toolName, s => Str(s)),
      "tool_status" := NullOr(p.toolStatus, s => Str(StatusName(s))),
      "tool_args" := NullOr(p.toolArgs, args => Obj(redact(args))),
      "tool_result" := NullOr(p.toolResult, s => Str(s)),
      "tool_duration_ms" := NullOr(p.toolDurationMs, n => Num(n)),
      "effective_workdir" := NullOr(p.effectiveWorkdir, s => Str(s)),
      "policy_decision" := NullOr(p.policyDecision, d => Str(DecisionName(d))),
      "evidence_id" := NullOr(p.evidenceId, s => Str(s)),
      "request_id" := NullOr(p.requestId, s => Str(s)),
      "task_outcome" := NullOr(p.taskOutcome, o => Str(OutcomeName(o))),
      "degraded_reason" := NullOr(p.degradedReason, s => Str(s)),
      "resume_available" := NullOr(p.resumeAvailable, b => Bool(b)),
      "resume_cursor" := NullOr(p.resumeCursor, s => Str(s))]
  }

  /** The event type a payload is recorded under. */
  function RecordedType(p: StreamTokenPayload): string {
    if p.eventType == "thinking_start" then "thinking_started"
    else if p.eventType == "tool_call_update" then
      match p.toolStatus
      case Some(Queued) => "tool_call_queued"
      case Some(Running) => "tool_call_running"
      case Some(Completed) => "tool_call_completed"
      case Some(Error) => "tool_call_failed"
      case None => "tool_call_update"
    else p.eventType
  }

  /** `append_stream_event`, by the logger of run `runId`. */
  function RecordPayload(p: StreamTokenPayload, sessionId: string, runId: string, sequence: nat, at: int,
                         redact: Redaction): RunLogEntry {
    RunLogEntry(sessionId, runId, sequence, RecordedType(p), Some(at), SerializedPayload(p, redact), None)
  }

  /** The first entry of a run, with the fields a replay or a reader of the log looks at. */
  function RecordStart(streamId: string, sessionId: string, runId: string, sequence: nat, at: int, preview: string)
    : RunLogEntry {
    RunLogEntry(
      sessionId, runId, sequence, "run_started", Some(at),
      map["stream_id" := Str(streamId), "message_preview" := Str(preview)], None)
  }
}
