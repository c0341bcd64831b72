/** Projects runs into the chat: placeholders are replaced, missing runs are recovered. */
module ChatProjection {
  import opened JsValues
  import opened RuntimeTypes
  import opened ChatMessages
  import opened StableSort

  /** `JSON.parse`; `None` when it throws. */
  type JsonParser = string -> Option<Value>

  type Runs = Record<RunProjection>

  const DEFAULT_RAW_ERROR := "Agent 执行失败，请稍后重试。"
  const UNFINISHED_TOOL := "stream completed before tool reached terminal state"

  // ----- one tool call -----

  datatype MemoryStoreFields = MemoryStoreFields(
    policyDecision: Option<PolicyDecision>, memoryScope: Option<string>, memoryReasonCode: Option<string>)

  function StringAt(fields: Fields, key: string): Option<string> {
    if key in fields && fields[key].Str? then Some(fields[key].s) else None
  }

  function ParsePolicyDecision(s: Option<string>): Option<PolicyDecision> {
    if s == Some("allow") then Some(Allow)
    else if s == Some("deny") then Some(Deny)
    else if s == Some("prompt") then Some(Prompt)
    else None
  }

  function ExtractMemoryStoreFields(parse: JsonParser, raw: Option<string>): Option<MemoryStoreFields> {
    if raw.None? || raw.value == "" then None
    else
      var parsed := parse(raw.value);
      if parsed.None? || !parsed.value.Obj? then None
      else
        var fields := parsed.value.fields;
        var scope := StringAt(fields, "scope");
        var known := scope == Some("global") || scope == Some("project") || scope == Some("session");
        var r := MemoryStoreFields(
          ParsePolicyDecision(StringAt(fields, "policy_decision")),
          if known then scope else None,
          StringAt(fields, "reason_code"));
        if r == MemoryStoreFields(None, None, None) then None else Some(r)
  }

  function ProjectToolCall(run: RunProjection, parse: JsonParser, tool: ToolCallProjection): Message {
    var unfinished := tool.status == Queued || tool.status == Running;
    var status := if run.status != Streaming && unfinished then Error else tool.status;
    var memory :=
      if tool.toolName == "memory_store" then ExtractMemoryStoreFields(parse, tool.details.toolResult) else None;
    var result := tool.details.toolResult.GetOr("");
    var content :=
      if status == Queued || status == Running then ""
      else if result != "" then result
      else if unfinished then UNFINISHED_TOOL
      else "";
    PlainMessage("tool-" + run.runId + "-" + tool.toolCallId, Tool, content, Some(tool.firstSeenAt)).(
      disableAnimation := Some(true),
      streamId := Some(run.runId),
      toolCallId := Some(tool.toolCallId),
      toolName := Some(tool.toolName),
      toolArgs := tool.details.toolArgs,
      toolDurationMs := tool.details.toolDurationMs,
      toolStatus := Some(status),
      isError := Some(status == Error),
      effectiveWorkdir := tool.details.effectiveWorkdir,
      policyDecision :=
        (if memory.Some? then memory.value.policyDecision else None).Or(tool.details.policyDecision),
      memoryScope := if memory.Some? then memory.value.memoryScope else None,
      memoryReasonCode := if memory.Some? then memory.value.memoryReasonCode else None,
      evidenceId := tool.details.evidenceId,
      requestId := tool.details.requestId,
      taskOutcome := run.taskOutcome,
      degradedReason := run.degradedReason,
      resumeAvailable := Some(run.resumeAvailable),
      resumeCursor := run.resumeCursor)
  }

  // ----- one run -----

  function CountStatus(tools: seq<ToolCallProjection>, status: ToolCallStatus): nat {
    if tools == [] then 0
    else (if tools[0].status == status then 1 else 0) + CountStatus(tools[1..], status)
  }

  function CompletionStatus(run: RunProjection): (Option<Label>, Option<StatusKind>) {
    var tools := Values(run.toolCalls);
    var total := |tools|;
    var completed := CountStatus(tools, Completed);
    var failed := CountStatus(tools, Error);
    if run.status == RunFailed || run.taskOutcome == Some(OutcomeFailed) then
      (if total > 0 then Some(FailedAfter(completed, total)) else None, Some(KindFailed))
    else if run.taskOutcome == Some(OutcomePartialSuccess) then
      (Some(if total > 0 then PartialAfter(completed, total) else PartialWithoutTools), Some(KindPartial))
    else if run.status != RunCompleted then (None, None)
    else if total == 0 then (Some(DoneWithoutTools), Some(KindSuccess))
    else if failed > 0 then (Some(DoneWithFailures(completed, failed)), Some(KindPartial))
    else (Some(DoneAfter(completed)), Some(KindSuccess))
  }

  function OutcomeValue(outcome: Option<TaskOutcome>): Value {
    match outcome
    case None => Undefined
    case Some(OutcomeCompleted) => Str("completed")
    case Some(OutcomePartialSuccess) => Str("partial_success")
    case Some(OutcomeFailed) => Str("failed")
  }

  /** `placeholder?.toolArgs?.rawError`, when it is neither null nor undefined. */
  function EarlierRawError(args: Option<Fields>): Option<Value> {
    if args.Some? && "rawError" in args.value && !args.value["rawError"].Nullish()
    then Some(args.value["rawError"]) else None
  }

  function RunErrorToolArgs(run: RunProjection, base: Message): Option<Fields> {
    var failed := run.status == RunFailed || run.taskOutcome == Some(OutcomeFailed);
    var recoverable := run.taskOutcome == Some(OutcomePartialSuccess) && run.resumeAvailable;
    if !failed && !recoverable then base.toolArgs
    else
      var reason := run.degradedReason.Or(base.degradedReason);
      var rawError :=
        if reason.Some? then Str(reason.value)
        else EarlierRawError(base.toolArgs).GetOr(Str(DEFAULT_RAW_ERROR));
      Some(base.toolArgs.GetOr(map[]) + map[
        "rawError" := rawError,
        "taskOutcome" := OutcomeValue(run.taskOutcome.Or(if failed then Some(OutcomeFailed) else None)),
        "degradedReason" := OptStr(reason),
        "resumeCursor" := OptStr(run.resumeCursor.Or(base.resumeCursor))])
  }

  /** What `placeholder?.field` reads for each field; the id and timestamp are the fallbacks. */
  function PlaceholderOr(placeholder: Option<Message>, run: RunProjection): Message {
    placeholder.GetOr(PlainMessage("assistant-" + run.runId, Assistant, "", Some(run.lastUpdatedAt)))
  }

  function ProjectAssistant(placeholder: Option<Message>, run: RunProjection): Message {
    var base := PlaceholderOr(placeholder, run);
    var streaming := run.status == Streaming;
    base.(
      role := Assistant,
      content := run.text,
      thinking := if run.thinking != "" then Some(run.thinking) else base.thinking,
      streamId := Some(run.runId),
      isStreaming := Some(streaming),
      isError := if run.status == RunFailed then Some(true) else base.isError,
      taskOutcome := run.taskOutcome.Or(base.taskOutcome),
      degradedReason := run.degradedReason.Or(base.degradedReason),
      resumeAvailable := Some(run.resumeAvailable),
      resumeCursor := run.resumeCursor.Or(base.resumeCursor),
      memoryContext := if |run.memoryItems| > 0 then Some(run.memoryItems) else base.memoryContext,
      contextBudgetUsage := run.contextBudgetUsage.Or(base.contextBudgetUsage),
      promptDiagnostics := run.promptDiagnostics.Or(base.promptDiagnostics),
      turnCost := run.turnCost.Or(base.turnCost),
      routing := run.routing.Or(base.routing),
      toolArgs := RunErrorToolArgs(run, base),
      statusLabel := if streaming then base.statusLabel else CompletionStatus(run).0,
      statusKind := if streaming then base.statusKind else CompletionStatus(run).1)
  }

  function FirstSeen(tool: ToolCallProjection): int {
    tool.firstSeenAt
  }

  function ToolMessages(run: RunProjection, parse: JsonParser): seq<Message> {
    var tools := SortBy(Values(run.toolCalls), FirstSeen);
    seq(|tools|, i requires 0 <= i < |tools| => ProjectToolCall(run, parse, tools[i]))
  }

  /** `projectRunToChatMessages`: one assistant message, then one message per tool call. */
  function RunBlock(placeholder: Option<Message>, run: RunProjection, parse: JsonParser): seq<Message> {
    [ProjectAssistant(placeholder, run)] + ToolMessages(run, parse)
  }

  // ----- a conversation -----

  /** The known run a message is attached to. */
  function AnchoredRun(message: Message, runs: Runs): Option<RunProjection> {
    if message.streamId.Some? && message.streamId.value != "" then Get(runs, message.streamId.value) else None
  }

  predicate IsAnchor(message: Message, runs: Runs, role: Role) {
    message.role == role && AnchoredRun(message, runs).Some?
  }

  /** The run a message stands for in the conversation, if any. */
  function StandsFor(message: Message, runs: Runs): set<string> {
    if IsAnchor(message, runs, Assistant) || IsAnchor(message, runs, User) then {message.streamId.value} else {}
  }

  /** What the first pass puts in place of one message; `seen` holds the runs already projected. */
  function Segment(m: Message, runs: Runs, seen: set<string>, parse: JsonParser): seq<Message> {
    if IsAnchor(m, runs, Assistant) then
      if m.streamId.value in seen then [] else RunBlock(Some(m), AnchoredRun(m, runs).value, parse)
    else if IsAnchor(m, runs, User) then
      [m] + RunBlock(None, AnchoredRun(m, runs).value, parse)
    else if IsAnchor(m, runs, Tool) then []
    else [m]
  }

  /** First pass, over the conversation. */
  function ReplacePlaceholders(messages: seq<Message>, runs: Runs, seen: set<string>, parse: JsonParser)
    : seq<Message>
  {
    if messages == [] then []
    else
      Segment(messages[0], runs, seen, parse) +
      ReplacePlaceholders(messages[1..], runs, seen + StandsFor(messages[0], runs), parse)
  }

  /** The runs with an assistant or user message attached. */
  function AnchoredIds(messages: seq<Message>, runs: Runs): set<string> {
    if messages == [] then {} else StandsFor(messages[0], runs) + AnchoredIds(messages[1..], runs)
  }

  predicate IsLater(message: Message, than: Option<int>) {
    message.timestamp.Some? && than.Some? && message.timestamp.value > than.value
  }

  /** The index of the first later message, or the end. */
  function InsertionIndex(messages: seq<Message>, than: Option<int>): (i: nat)
    ensures i <= |messages|
    ensures forall j :: 0 <= j < i ==> !IsLater(messages[j], than)
    ensures i < |messages| ==> IsLater(messages[i], than)
  {
    if messages == [] || IsLater(messages[0], than) then 0
    else 1 + InsertionIndex(messages[1..], than)
  }

  function InsertByTimestamp(messages: seq<Message>, recovered: seq<Message>): seq<Message> {
    if recovered == [] then messages
    else
      var i := InsertionIndex(messages, recovered[0].timestamp);
      messages[..i] + recovered + messages[i..]
  }

  predicate NeedsRecovery(run: RunProjection, sessionId: Option<string>, seen: set<string>) {
    sessionId.Some? && sessionId.value != "" && run.sessionId == sessionId && run.runId !in seen
  }

  /** Second pass, over the runs nothing in the conversation stands for. */
  function RecoverRuns(messages: seq<Message>, runs: seq<RunProjection>, sessionId: Option<string>,
                       seen: set<string>, parse: JsonParser): seq<Message>
  {
    if runs == [] then messages
    else
      var before := RecoverRuns(messages, runs[..|runs| - 1], sessionId, seen, parse);
      var run := runs[|runs| - 1];
      if NeedsRecovery(run, sessionId, seen)
      then InsertByTimestamp(before, RunBlock(None, run, parse))
      else before
  }

  function LastUpdate(run: RunProjection): int {
    run.lastUpdatedAt
  }

  function ByUpdate(runs: Runs): seq<RunProjection> {
    SortBy(Values(runs), LastUpdate)
  }

  function Project(messages: seq<Message>, runs: Runs, sessionId: Option<string>, parse: JsonParser): seq<Message> {
    RecoverRuns(
      ReplacePlaceholders(messages, runs, {}, parse), ByUpdate(runs), sessionId, AnchoredIds(messages, runs), parse)
  }

  // ----- the loops -----

  /** An array of messages that is extended and spliced in place. */
  class MessageList {
    var items: seq<Message>

    constructor ()
      ensures items == []
    {
      items := [];
    }

    method Push(more: seq<Message>)
      modifies this
      ensures items == old(items) + more
    {
      items := items + more;
    }

    /** `insertMessagesByTimestamp`. */
    method Insert(recovered: seq<Message>)
      modifies this
      ensures items == InsertByTimestamp(old(items), recovered)
    {
      if recovered == [] {
        return;
      }
      var than := recovered[0].timestamp;
      var i := 0;
      while i < |items| && !IsLater(items[i], than)
        invariant 0 <= i <= |items| && items == old(items)
        invariant InsertionIndex(items, than) == i + InsertionIndex(items[i..], than)
      {
        assert items[i..][1..] == items[i + 1..];
        i := i + 1;
      }
      items := items[..i] + recovered + items[i..];
    }
  }

  lemma FirstPassStep(messages: seq<Message>, i: nat, runs: Runs, seen: set<string>, parse: JsonParser,
                      before: seq<Message>)
    requires i < |messages|
    ensures var m, rest := messages[i], messages[i + 1..];
            && before + ReplacePlaceholders(messages[i..], runs, seen, parse)
               == before + Segment(m, runs, seen, parse) +
                  ReplacePlaceholders(rest, runs, seen + StandsFor(m, runs), parse)
            && seen + AnchoredIds(messages[i..], runs) == seen + StandsFor(m, runs) + AnchoredIds(rest, runs)
  {
    assert messages[i..][0] == messages[i] && messages[i..][1..] == messages[i + 1..];
  }

  /** The body of the first loop. */
  method ProjectMessage(next: MessageList, message: Message, runs: Runs, seen: set<string>, parse: JsonParser)
    returns (projectedRunIds: set<string>)
    modifies next
    ensures next.items == old(next.items) + Segment(message, runs, seen, parse)
    ensures projectedRunIds == seen + StandsFor(message, runs)
  {
    hide RunBlock;
    projectedRunIds := seen;
    var run := AnchoredRun(message, runs);
    if message.role == Assistant && run.Some? {
      var runId := message.streamId.value;
      if runId !in projectedRunIds {
        projectedRunIds := projectedRunIds + {runId};
        next.Push(RunBlock(Some(message), run.value, parse));
      }
    } else if message.role == User && run.Some? {
      projectedRunIds := projectedRunIds + {message.streamId.value};
      next.Push([message]);
      next.Push(RunBlock(None, run.value, parse));
    } else if message.role == Tool && run.Some? {
    } else {
      next.Push([message]);
    }
  }

  /** The second loop. */
  method RecoverMissingRuns(next: MessageList, ordered: seq<RunProjection>, sessionId: Option<string>,
                            projectedRunIds: set<string>, parse: JsonParser)
    modifies next
    ensures next.items == RecoverRuns(old(next.items), ordered, sessionId, projectedRunIds, parse)
  {
    for i := 0 to |ordered|
      invariant next.items == RecoverRuns(old(next.items), ordered[..i], sessionId, projectedRunIds, parse)
    {
      var run := ordered[i];
      assert ordered[..i + 1][..i] == ordered[..i];
      if NeedsRecovery(run, sessionId, projectedRunIds) {
        next.Insert(RunBlock(None, run, parse));
      }
    }
    assert ordered[..|ordered|] == ordered;
  }

  method ProjectConversationMessagesFromRuns(
      messages: seq<Message>, runs: Runs, sessionId: Option<string>, parse: JsonParser)
    returns (projected: seq<Message>)
    ensures projected == Project(messages, runs, sessionId, parse)
  {
    var next := new MessageList();
    var projectedRunIds: set<string> := {};
    for i := 0 to |messages|
      invariant next.items + ReplacePlaceholders(messages[i..], runs, projectedRunIds, parse)
             == ReplacePlaceholders(messages, runs, {}, parse)
      invariant projectedRunIds + AnchoredIds(messages[i..], runs) == AnchoredIds(messages, runs)
      invariant fresh(next)
    {
      FirstPassStep(messages, i, runs, projectedRunIds, parse, next.items);
      projectedRunIds := ProjectMessage(next, messages[i], runs, projectedRunIds, parse);
    }
    assert messages[|messages|..] == [] && next.items == ReplacePlaceholders(messages, runs, {}, parse);
    RecoverMissingRuns(next, ByUpdate(runs), sessionId, projectedRunIds, parse);
    projected := next.items;
  }
}
