/** Canonical runtime events and the projection state they are folded into.
    Times are integers (milliseconds); payloads no rule looks into are `Value`s. */
module RuntimeTypes {
  import opened JsValues

  datatype ToolCallStatus = Queued | Running | Completed | Error
  datatype TaskOutcome = OutcomeCompleted | OutcomePartialSuccess | OutcomeFailed
  datatype PolicyDecision = Allow | Deny | Prompt
  datatype RunStatus = Streaming | RunCompleted | RunFailed | RunCancelled
  datatype ExecutionMode = DirectExecute | AutoPlanExecute | PlanThenConfirm | SpecializedSurface
  datatype RiskLevel = RiskLow | RiskMedium | RiskHigh
  datatype ComplexityLevel = Trivial | Simple | Moderate | Complex

  /** `extra` carries the optional `scope_kind` hint of an invalidation. */
  datatype MemoryEventPayload = MemoryEventPayload(event: string, extra: Option<Fields>, body: Value)
  datatype QualityResult = QualityResult(accepted: seq<Value>, rejected: seq<Value>, warnings: seq<Value>)

  /** What a `stream_tool_call_update` may leave undefined. */
  datatype ToolDetails = ToolDetails(
    toolArgs: Option<Fields>,
    toolResult: Option<string>,
    toolDurationMs: Option<int>,
    effectiveWorkdir: Option<string>,
    policyDecision: Option<PolicyDecision>,
    evidenceId: Option<string>,
    requestId: Option<string>)

  /** How a run ended: what `stream_complete` and `stream_error` have in common. */
  datatype Ending = Ending(
    taskOutcome: Option<TaskOutcome>,
    degradedReason: Option<string>,
    resumeAvailable: Option<bool>,
    resumeCursor: Option<string>,
    requestId: Option<string>)

  /** What only `stream_complete` carries. */
  datatype CompletionExtras = CompletionExtras(
    contextBudgetUsage: Option<Value>,
    memoryItems: Option<seq<Value>>,
    promptDiagnostics: Option<Value>,
    turnCost: Option<Value>,
    routing: Option<Value>,
    sessionTotals: Option<Value>)

  /** What an `execution_mode_decision` says besides its mode. */
  datatype Judgement = Judgement(
    runId: Option<string>,
    riskLevel: RiskLevel,
    complexityLevel: ComplexityLevel,
    reasonCodes: seq<string>,
    scenarioProfileHint: Option<string>,
    matchedRules: seq<string>,
    slotSummary: Value,
    ambiguousEscalated: bool,
    escalationSource: Option<string>,
    policyVersion: string)

  datatype RuntimeEvent =
    | StreamRunBound(runId: string, sessionId: string, receivedAt: int)
    | StreamTextDelta(runId: string, text: string, receivedAt: int)
    | StreamThinkingStart(runId: string, receivedAt: int)
    | StreamThinkingDelta(runId: string, thinking: string, receivedAt: int)
    | StreamToolCallUpdate(runId: string, toolCallId: string, toolName: string, status: ToolCallStatus,
                           details: ToolDetails, receivedAt: int)
    | StreamFinalTextOverride(runId: string, text: string, requestId: Option<string>, receivedAt: int)
    | StreamComplete(runId: string, ending: Ending, extras: CompletionExtras, receivedAt: int)
    | StreamError(runId: string, reason: string, ending: Ending, receivedAt: int)
    | PermissionRequest(sessionId: string, request: Value, receivedAt: int)
    | PermissionResolved(sessionId: string, receivedAt: int)
    | MemoryLifecycle(payload: MemoryEventPayload, receivedAt: int)
    | MemoryWriteDecision(candidateId: string, decision: Value, receivedAt: int)
    | MemoryAfterTurn(traceVersion: Option<string>, caller: string, policyVersion: string, decidedAt: string,
                      decisions: seq<Value>, quality: QualityResult, conflicts: seq<Value>, receivedAt: int)
    | ActivationSnapshot(statusKind: string, allowsMainShell: bool, receivedAt: int)
    | ExecutionModeDecision(mode: ExecutionMode, judgement: Judgement, receivedAt: int)
    | ExecutionModeManualOverride(override: Option<ExecutionMode>, receivedAt: int)
    | DiscardSessionRuns(sessionId: string, receivedAt: int)
  {
    /** The events that update one run. */
    predicate Stream?() {
      || StreamRunBound? || StreamTextDelta? || StreamThinkingStart? || StreamThinkingDelta?
      || StreamToolCallUpdate? || StreamFinalTextOverride? || StreamComplete? || StreamError?
    }
  }

  datatype ToolCallProjection = ToolCallProjection(
    toolCallId: string,
    toolName: string,
    status: ToolCallStatus,
    details: ToolDetails,
    firstSeenAt: int,
    lastUpdatedAt: int)

  datatype RunProjection = RunProjection(
    runId: string,
    sessionId: Option<string>,
    text: string,
    thinking: string,
    thinkingStarted: bool,
    status: RunStatus,
    taskOutcome: Option<TaskOutcome>,
    degradedReason: Option<string>,
    resumeAvailable: bool,
    resumeCursor: Option<string>,
    toolCalls: Record<ToolCallProjection>,
    contextBudgetUsage: Option<Value>,
    turnCost: Option<Value>,
    routing: Option<Value>,
    sessionTotals: Option<Value>,
    memoryItems: seq<Value>,
    promptDiagnostics: Option<Value>,
    lastUpdatedAt: int)

  datatype Approval = Approval(sessionId: string, request: Value, receivedAt: int)
  datatype WriteDecision = WriteDecision(candidateId: string, decision: Value, receivedAt: int)

  datatype AfterTurn = AfterTurn(
    traceVersion: Option<string>, caller: string, policyVersion: string, decidedAt: string,
    decisionCount: nat, acceptedCount: nat, rejectedCount: nat, warningCount: nat, conflictsCount: nat,
    quality: QualityResult, conflicts: seq<Value>, receivedAt: int)

  datatype MemoryProjection = MemoryProjection(
    recentEvents: seq<MemoryEventPayload>,
    lastRecallItems: seq<Value>,
    writeDecisions: seq<WriteDecision>,
    lastAfterTurn: Option<AfterTurn>,
    invalidationVersion: nat,
    lastInvalidationScope: Option<string>)

  datatype Activation = Activation(statusKind: string, allowsMainShell: bool, capturedAt: int)

  datatype ExecutionModeProjection = ExecutionModeProjection(
    mode: ExecutionMode, judgement: Judgement, manualOverride: Option<ExecutionMode>,
    capturedAt: int, lastUpdatedAt: int)

  datatype Snapshot = Snapshot(
    runs: Record<RunProjection>,
    approvals: Record<Approval>,
    memory: MemoryProjection,
    activation: Option<Activation>,
    executionMode: Option<ExecutionModeProjection>)

  function EmptySnapshot(): Snapshot {
    Snapshot(
      EmptyRecord(), EmptyRecord(), MemoryProjection([], [], [], None, 0, None), None, None)
  }
}
