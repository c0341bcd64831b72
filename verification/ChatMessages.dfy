/** The chat messages shown to the user. */
module ChatMessages {
  import opened JsValues
  import opened RuntimeTypes

  datatype Role = User | Assistant | Tool
  datatype StatusKind = KindInfo | KindSuccess | KindPartial | KindFailed

  /** The wording of a completion label, by the counts it shows; the texts are not modelled. */
  datatype Label =
    | FailedAfter(completed: nat, total: nat)
    | PartialAfter(completed: nat, total: nat)
    | PartialWithoutTools
    | DoneWithoutTools
    | DoneWithFailures(completed: nat, failed: nat)
    | DoneAfter(completed: nat)
    | OtherLabel(text: string)

  /** `timestamp` is `None` for an invalid `Date`. */
  datatype Message = Message(
    id: string,
    role: Role,
    content: string,
    timestamp: Option<int>,
    thinking: Option<string>,
    thinkingTime: Option<int>,
    disableAnimation: Option<bool>,
    isStreaming: Option<bool>,
    streamId: Option<string>,
    toolCallId: Option<string>,
    toolName: Option<string>,
    toolArgs: Option<Fields>,
    toolDurationMs: Option<int>,
    isError: Option<bool>,
    toolStatus: Option<ToolCallStatus>,
    effectiveWorkdir: Option<string>,
    policyDecision: Option<PolicyDecision>,
    memoryScope: Option<string>,
    memoryReasonCode: Option<string>,
    evidenceId: Option<string>,
    requestId: Option<string>,
    taskOutcome: Option<TaskOutcome>,
    degradedReason: Option<string>,
    resumeAvailable: Option<bool>,
    resumeCursor: Option<string>,
    statusLabel: Option<Label>,
    statusKind: Option<StatusKind>,
    isRecovering: Option<bool>,
    memoryContext: Option<seq<Value>>,
    contextBudgetUsage: Option<Value>,
    turnCost: Option<Value>,
    routing: Option<Value>,
    promptDiagnostics: Option<Value>,
    slashCommand: Option<string>)

  /** A message with the four mandatory fields and nothing else. */
  function PlainMessage(id: string, role: Role, content: string, timestamp: Option<int>): Message {
    Message(
      id, role, content, timestamp, None, None, None, None, None, None, None, None, None, None, None, None, None,
      None, None, None, None, None, None, None, None, None, None, None, None, None, None, None, None, None)
  }
}
