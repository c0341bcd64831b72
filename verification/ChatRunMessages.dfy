/** What the messages of one run tell about it. */
module ChatRunMessages {
  import opened JsValues
  import opened RuntimeTypes
  import opened ChatMessages
  import opened StableSort
  import opened ChatProjection
  import opened ChatConservation
  import opened EventTranslator
  import opened SnapshotSummary

  // ----- one message per tool call -----

  lemma {:induction false} ValuesAt<V>(keys: seq<string>, entries: map<string, V>)
    requires forall k :: k in keys ==> k in entries
    ensures |ValuesOf(keys, entries)| == |keys|
    ensures forall i :: 0 <= i < |keys| ==> ValuesOf(keys, entries)[i] == entries[keys[i]]
  {
    if keys != [] {
      ValuesAt(keys[1..], entries);
    }
  }

  /** The tool calls of a run in the order they are shown. */
  function ShownTools(run: RunProjection): seq<ToolCallProjection> {
    SortBy(Values(run.toolCalls), FirstSeen)
  }

  lemma ShownToolsAreTheTools(run: RunProjection)
    requires RunKeysMatch(run, run.runId)
    ensures |ShownTools(run)| == |run.toolCalls.keys|
    ensures Ascending(ShownTools(run), FirstSeen)
    ensures NoDuplicates(ShownTools(run))
    ensures forall tool :: tool in ShownTools(run) <==> Get(run.toolCalls, tool.toolCallId) == Some(tool)
  {
    hide SortBy, ValuesOf, WithKey;
    var tools, keys := Values(run.toolCalls), run.toolCalls.keys;
    ValuesAt(keys, run.toolCalls.entries);
    assert forall i :: 0 <= i < |keys| ==> tools[i].toolCallId == keys[i];
    SortIsStable(tools, FirstSeen, 0);
    PermutationKeepsDistinct(tools, ShownTools(run));
    assert |multiset(tools)| == |multiset(ShownTools(run))|;
    forall tool ensures tool in tools <==> Get(run.toolCalls, tool.toolCallId) == Some(tool) {
      if Get(run.toolCalls, tool.toolCallId) == Some(tool) {
        var i :| 0 <= i < |keys| && keys[i] == tool.toolCallId;
        assert tools[i] == tool;
      }
    }
  }

  /** A run shows each of its tool calls in exactly one message, first seen first. */
  lemma OneMessagePerToolCall(run: RunProjection, parse: JsonParser)
    requires RunKeysMatch(run, run.runId)
    ensures var ms := ToolMessages(run, parse);
            && |ms| == |run.toolCalls.keys|
            && (forall id :: id in run.toolCalls.entries ==>
                  ProjectToolCall(run, parse, run.toolCalls.entries[id]) in ms)
            && (forall i, j :: 0 <= i < j < |ms| ==>
                  && ms[i].toolCallId.Some? && ms[i].toolCallId != ms[j].toolCallId
                  && !IsLater(ms[i], ms[j].timestamp))
  {
    hide ShownTools, ProjectToolCall;
    ShownToolsAreTheTools(run);
    var tools, ms := ShownTools(run), ToolMessages(run, parse);
    ToolMessageAt(run, parse);
    forall id | id in run.toolCalls.entries ensures ProjectToolCall(run, parse, run.toolCalls.entries[id]) in ms {
      var tool := run.toolCalls.entries[id];
      assert Get(run.toolCalls, tool.toolCallId) == Some(tool);
      var i :| 0 <= i < |tools| && tools[i] == tool;
      assert ms[i] == ProjectToolCall(run, parse, tool);
    }
    forall i, j | 0 <= i < j < |ms|
      ensures ms[i].toolCallId.Some? && ms[i].toolCallId != ms[j].toolCallId
      ensures !IsLater(ms[i], ms[j].timestamp)
    {
      assert tools[i] in tools && tools[j] in tools && tools[i] != tools[j];
      assert FirstSeen(tools[i]) <= FirstSeen(tools[j]);
    }
  }

  lemma ToolMessageAt(run: RunProjection, parse: JsonParser)
    ensures var tools, ms := ShownTools(run), ToolMessages(run, parse);
            && |ms| == |tools|
            && forall i :: 0 <= i < |ms| ==>
                 && ms[i] == ProjectToolCall(run, parse, tools[i])
                 && ms[i].toolCallId == Some(tools[i].toolCallId)
                 && ms[i].timestamp == Some(tools[i].firstSeenAt)
  {
  }

  predicate IsUnfinished(status: ToolCallStatus) {
    status == Queued || status == Running
  }

  lemma ToolOfEndedRun(run: RunProjection, parse: JsonParser, tool: ToolCallProjection)
    requires run.status != Streaming
    ensures var m := ProjectToolCall(run, parse, tool);
            && (m.toolStatus == Some(Completed) || m.toolStatus == Some(Error))
            && (m.isError == Some(true) <==> m.toolStatus == Some(Error))
            && (IsUnfinished(tool.status) ==> m.isError == Some(true) && m.content != "")
  {
    hide ExtractMemoryStoreFields;
  }

  /** A run that has ended shows no tool call as still open: one that never finished is shown as
      an error and says so. */
  lemma EndedRunShowsNoOpenTool(run: RunProjection, parse: JsonParser, m: Message)
    requires run.status != Streaming && m in ToolMessages(run, parse)
    ensures m.toolStatus == Some(Completed) || m.toolStatus == Some(Error)
    ensures m.isError == Some(true) <==> m.toolStatus == Some(Error)
    ensures exists tool :: tool in ShownTools(run) && m == ProjectToolCall(run, parse, tool)
              && (IsUnfinished(tool.status) ==> m.isError == Some(true) && m.content != "")
  {
    ToolMessageAt(run, parse);
    hide ShownTools, ToolMessages, ProjectToolCall;
    var i :| 0 <= i < |ToolMessages(run, parse)| && ToolMessages(run, parse)[i] == m;
    ToolOfEndedRun(run, parse, ShownTools(run)[i]);
    assert ShownTools(run)[i] in ShownTools(run);
  }

  // ----- what is seen of a placeholder -----

  const ERROR_KEYS := {"rawError", "taskOutcome", "degradedReason", "resumeCursor"}

  predicate HasFailed(run: RunProjection) {
    run.status == RunFailed || run.taskOutcome == Some(OutcomeFailed)
  }

  predicate IsPartial(run: RunProjection) {
    !HasFailed(run) && run.taskOutcome == Some(OutcomePartialSuccess)
  }

  /** Runs whose message says why they did not succeed. */
  predicate NeedsExplaining(run: RunProjection) {
    HasFailed(run) || (IsPartial(run) && run.resumeAvailable)
  }

  /** A placeholder without the fields a run can have a say in. */
  function Untouched(m: Message): Message {
    PlainMessage(m.id, Assistant, "", m.timestamp).(
      thinkingTime := m.thinkingTime, disableAnimation := m.disableAnimation, toolCallId := m.toolCallId,
      toolName := m.toolName, toolDurationMs := m.toolDurationMs, toolStatus := m.toolStatus,
      effectiveWorkdir := m.effectiveWorkdir, policyDecision := m.policyDecision, memoryScope := m.memoryScope,
      memoryReasonCode := m.memoryReasonCode, evidenceId := m.evidenceId, requestId := m.requestId,
      isRecovering := m.isRecovering, slashCommand := m.slashCommand)
  }

  /** The reason an earlier projection left in the arguments. */
  function EarlierReason(m: Message): Value {
    EarlierRawError(m.toolArgs).GetOr(Str(DEFAULT_RAW_ERROR))
  }

  ghost predicate SameBesidesErrors(a: Fields, b: Fields) {
    forall k :: k !in ERROR_KEYS ==> (k in a <==> k in b) && (k in a && k in b ==> a[k] == b[k])
  }

  ghost predicate AgreeOnArgs(run: RunProjection, a: Message, b: Message) {
    if !NeedsExplaining(run) then a.toolArgs == b.toolArgs
    else
      && SameBesidesErrors(a.toolArgs.GetOr(map[]), b.toolArgs.GetOr(map[]))
      && (run.degradedReason.Some? || a.degradedReason.Some? || EarlierReason(a) == EarlierReason(b))
  }

  /** Two placeholders agree wherever the run leaves a field open. */
  ghost predicate AgreeWhereOpen(run: RunProjection, a: Message, b: Message) {
    && Untouched(a) == Untouched(b)
    && (run.thinking != "" || a.thinking == b.thinking)
    && (run.status == RunFailed || a.isError == b.isError)
    && (run.taskOutcome.Some? || a.taskOutcome == b.taskOutcome)
    && (run.degradedReason.Some? || a.degradedReason == b.degradedReason)
    && (run.resumeCursor.Some? || a.resumeCursor == b.resumeCursor)
    && (run.memoryItems != [] || a.memoryContext == b.memoryContext)
    && (run.contextBudgetUsage.Some? || a.contextBudgetUsage == b.contextBudgetUsage)
    && (run.promptDiagnostics.Some? || a.promptDiagnostics == b.promptDiagnostics)
    && (run.turnCost.Some? || a.turnCost == b.turnCost)
    && (run.routing.Some? || a.routing == b.routing)
    && (run.status != Streaming || (a.statusLabel == b.statusLabel && a.statusKind == b.statusKind))
    && AgreeOnArgs(run, a, b)
  }

  /** What `RunErrorToolArgs` makes of the arguments, key by key. */
  lemma ExplainedArgs(run: RunProjection, m: Message)
    requires NeedsExplaining(run)
    ensures var before, after := m.toolArgs.GetOr(map[]), RunErrorToolArgs(run, m);
            var reason := run.degradedReason.Or(m.degradedReason);
            && after.Some?
            && after.value.Keys == before.Keys + ERROR_KEYS
            && SameBesidesErrors(after.value, before)
            && after.value["rawError"] == (if reason.Some? then Str(reason.value) else EarlierReason(m))
            && after.value["degradedReason"] == OptStr(reason)
            && after.value["resumeCursor"] == OptStr(run.resumeCursor.Or(m.resumeCursor))
            && after.value["taskOutcome"] ==
                 OutcomeValue(run.taskOutcome.Or(if HasFailed(run) then Some(OutcomeFailed) else None))
  {
    hide EarlierRawError, OutcomeValue, OptStr;
  }

  lemma SameErrorsSameArgs(x: Fields, y: Fields, a: Fields, b: Fields)
    requires x.Keys == a.Keys + ERROR_KEYS && y.Keys == b.Keys + ERROR_KEYS
    requires SameBesidesErrors(x, a) && SameBesidesErrors(y, b)
    requires x["taskOutcome"] == y["taskOutcome"] && x["degradedReason"] == y["degradedReason"]
    requires x["resumeCursor"] == y["resumeCursor"]
    ensures x == y <==> SameBesidesErrors(a, b) && x["rawError"] == y["rawError"]
  {
    assert "rawError" in ERROR_KEYS;
    assert forall k :: k in ERROR_KEYS && k != "rawError" ==> x[k] == y[k];
    if SameBesidesErrors(a, b) && x["rawError"] == y["rawError"] {
      assert forall k :: k in x <==> k in y;
      assert forall k :: k in x ==> x[k] == y[k];
    }
  }

  lemma SameArgsIff(run: RunProjection, a: Message, b: Message)
    requires run.degradedReason.Some? || a.degradedReason == b.degradedReason
    requires run.resumeCursor.Some? || a.resumeCursor == b.resumeCursor
    ensures RunErrorToolArgs(run, a) == RunErrorToolArgs(run, b) <==> AgreeOnArgs(run, a, b)
  {
    if NeedsExplaining(run) {
      ExplainedArgs(run, a);
      ExplainedArgs(run, b);
      hide RunErrorToolArgs, EarlierReason, OutcomeValue, OptStr, SameBesidesErrors, NeedsExplaining;
      SameErrorsSameArgs(
        RunErrorToolArgs(run, a).value, RunErrorToolArgs(run, b).value,
        a.toolArgs.GetOr(map[]), b.toolArgs.GetOr(map[]));
    }
  }

  /** Two placeholders of a run project to the same message exactly when they agree wherever the
      run leaves a field open. */
  lemma PlaceholderShowsWhereOpen(run: RunProjection, a: Message, b: Message)
    ensures ProjectAssistant(Some(a), run) == ProjectAssistant(Some(b), run) <==> AgreeWhereOpen(run, a, b)
  {
    var x, y := ProjectAssistant(Some(a), run), ProjectAssistant(Some(b), run);
    assert x.toolArgs == RunErrorToolArgs(run, a) && y.toolArgs == RunErrorToolArgs(run, b);
    if (run.degradedReason.Some? || a.degradedReason == b.degradedReason)
       && (run.resumeCursor.Some? || a.resumeCursor == b.resumeCursor) {
      SameArgsIff(run, a, b);
    }
    hide RunErrorToolArgs, AgreeOnArgs, CompletionStatus;
  }

  /** The answer of a `memory_store` call, when it is an object. */
  function MemoryAnswer(tool: ToolCallProjection, parse: JsonParser): Option<Fields> {
    if tool.toolName != "memory_store" || tool.details.toolResult.GetOr("") == "" then None
    else
      match parse(tool.details.toolResult.value)
      case Some(Obj(fields)) => Some(fields)
      case _ => None
  }

  /** A memory card shows what the tool answered, field by field and only if it is well formed;
      its decision falls back to the one recorded with the call. */
  lemma MemoryCardShowsTheAnswer(run: RunProjection, parse: JsonParser, tool: ToolCallProjection)
    ensures var answer, m := MemoryAnswer(tool, parse).GetOr(map[]), ProjectToolCall(run, parse, tool);
            var scope, decision := StringAt(answer, "scope"), StringAt(answer, "policy_decision");
            && m.memoryReasonCode == StringAt(answer, "reason_code")
            && m.memoryScope ==
                 (if scope.Some? && scope.value in {"global", "project", "session"} then scope else None)
            && (if decision.Some? && decision.value in {"allow", "deny", "prompt"}
                then m.policyDecision.Some? && DecisionName(m.policyDecision.value) == decision.value
                else m.policyDecision == tool.details.policyDecision)
  {
  }

  // ----- how a run ended -----

  /** The tool calls of a run that have a status. */
  function CallsWith(run: RunProjection, status: ToolCallStatus): set<string> {
    set id | id in run.toolCalls.entries && run.toolCalls.entries[id].status == status
  }

  /** What each label says is so. */
  ghost predicate LabelIsTrue(shown: Option<Label>, run: RunProjection) {
    var total, completed, failed :=
      |run.toolCalls.entries|, |CallsWith(run, Completed)|, |CallsWith(run, Error)|;
    match shown
    case None => (HasFailed(run) && total == 0) || (!HasFailed(run) && !IsPartial(run) && run.status != RunCompleted)
    case Some(FailedAfter(done, all)) => HasFailed(run) && done == completed && all == total > 0
    case Some(PartialAfter(done, all)) => IsPartial(run) && done == completed && all == total > 0
    case Some(PartialWithoutTools) => IsPartial(run) && total == 0
    case Some(DoneWithoutTools) => !HasFailed(run) && !IsPartial(run) && run.status == RunCompleted && total == 0
    case Some(DoneWithFailures(done, errors)) =>
      !HasFailed(run) && !IsPartial(run) && run.status == RunCompleted && done == completed && errors == failed > 0
    case Some(DoneAfter(done)) =>
      !HasFailed(run) && !IsPartial(run) && run.status == RunCompleted && done == completed && failed == 0 < total
    case Some(OtherLabel(_)) => false
  }

  /** A run ends as failed, partial or successful, never as two of them: successful when it
      completed with no tool call in error. */
  ghost predicate KindIsTrue(kind: Option<StatusKind>, run: RunProjection) {
    && (kind == Some(KindFailed) <==> HasFailed(run))
    && (kind == Some(KindPartial) <==>
          IsPartial(run) || (!HasFailed(run) && run.status == RunCompleted && CallsWith(run, Error) != {}))
    && (kind == Some(KindSuccess) <==>
          !HasFailed(run) && !IsPartial(run) && run.status == RunCompleted && CallsWith(run, Error) == {})
    && kind != Some(KindInfo)
  }

  /** The kind of a run is the true one. What its label says is true, and the counts in it are
      the numbers of its completed, failed and all tool calls. */
  lemma CompletionMeans(run: RunProjection)
    ensures KindIsTrue(CompletionStatus(run).1, run)
    ensures LabelIsTrue(CompletionStatus(run).0, run)
  {
    CountsAreNumbers(run, Completed);
    CountsAreNumbers(run, Error);
    if |run.toolCalls.entries| == 0 {
      assert run.toolCalls.entries == map[] && CallsWith(run, Error) == {};
    }
    hide CountStatus, ValuesOf, Values, CallsWith;
    assert |CallsWith(run, Error)| == 0 <==> CallsWith(run, Error) == {};
  }

  lemma CountsAreNumbers(run: RunProjection, status: ToolCallStatus)
    ensures CountStatus(Values(run.toolCalls), status) == |CallsWith(run, status)|
    ensures |Values(run.toolCalls)| == |run.toolCalls.entries|
  {
    var keys, entries := run.toolCalls.keys, run.toolCalls.entries;
    ValuesAt(keys, entries);
    CountOverKeys(keys, entries, status);
    assert KeysWith(keys, entries, status) == CallsWith(run, status);
    DistinctKeys(keys, entries.Keys);
  }

  lemma {:induction false} DistinctKeys(keys: seq<string>, all: set<string>)
    requires NoDuplicates(keys) && forall k :: k in keys <==> k in all
    ensures |keys| == |all|
  {
    if keys == [] {
      assert all == {};
    } else {
      assert keys[0] !in keys[1..];
      DistinctKeys(keys[1..], all - {keys[0]});
    }
  }

  function KeysWith(keys: seq<string>, entries: map<string, ToolCallProjection>, status: ToolCallStatus): set<string>
    requires forall k :: k in keys ==> k in entries
  {
    set k | k in keys && entries[k].status == status
  }

  lemma KeysWithCons(keys: seq<string>, entries: map<string, ToolCallProjection>, status: ToolCallStatus)
    requires keys != [] && NoDuplicates(keys) && forall k :: k in keys ==> k in entries
    ensures keys[0] !in KeysWith(keys[1..], entries, status)
    ensures KeysWith(keys, entries, status) ==
              KeysWith(keys[1..], entries, status) + (if entries[keys[0]].status == status then {keys[0]} else {})
  {
    assert keys == [keys[0]] + keys[1..];
  }

  lemma CountCons(tool: ToolCallProjection, tools: seq<ToolCallProjection>, status: ToolCallStatus)
    ensures CountStatus([tool] + tools, status) ==
              (if tool.status == status then 1 else 0) + CountStatus(tools, status)
  {
    assert ([tool] + tools)[1..] == tools;
  }

  lemma {:induction false} CountOverKeys(keys: seq<string>, entries: map<string, ToolCallProjection>,
                                         status: ToolCallStatus)
    requires NoDuplicates(keys) && forall k :: k in keys ==> k in entries
    ensures CountStatus(ValuesOf(keys, entries), status) == |KeysWith(keys, entries, status)|
  {
    if keys == [] {
      assert KeysWith(keys, entries, status) == {};
    } else {
      KeysWithCons(keys, entries, status);
      CountCons(entries[keys[0]], ValuesOf(keys[1..], entries), status);
      hide KeysWith, CountStatus;
      CountOverKeys(keys[1..], entries, status);
    }
  }

  /** The text of the error a message shows: the reason of the run, of its placeholder, or what an
      earlier projection left there; and if there is none, that something went wrong. */
  function ShownError(run: RunProjection, base: Message): Value {
    var args := base.toolArgs.GetOr(map[]);
    if run.degradedReason.Some? then Str(run.degradedReason.value)
    else if base.degradedReason.Some? then Str(base.degradedReason.value)
    else if "rawError" in args && args["rawError"] != Null && args["rawError"] != Undefined then args["rawError"]
    else Str("Agent 执行失败，请稍后重试。")
  }

  function FirstText(a: Option<string>, b: Option<string>): Value {
    if a.Some? then Str(a.value) else if b.Some? then Str(b.value) else Undefined
  }

  /** A failed or resumable run always says why, with what outcome and where to resume, and leaves
      the other arguments of its placeholder alone; any other run leaves all of them alone. */
  lemma ErrorIsExplained(run: RunProjection, placeholder: Option<Message>)
    ensures var base, after := PlaceholderOr(placeholder, run), ProjectAssistant(placeholder, run).toolArgs;
            if NeedsExplaining(run) then
              && after.Some? && ERROR_KEYS <= after.value.Keys
              && after.value["rawError"] == ShownError(run, base)
              && after.value["taskOutcome"] == Str(OutcomeName(run.taskOutcome.GetOr(OutcomeFailed)))
              && after.value["degradedReason"] == FirstText(run.degradedReason, base.degradedReason)
              && after.value["resumeCursor"] == FirstText(run.resumeCursor, base.resumeCursor)
              && SameBesidesErrors(after.value, base.toolArgs.GetOr(map[]))
            else after == base.toolArgs
  {
    var base := PlaceholderOr(placeholder, run);
    assert ProjectAssistant(placeholder, run).toolArgs == RunErrorToolArgs(run, base);
    hide ProjectAssistant, PlaceholderOr;
    if NeedsExplaining(run) {
      ExplainedArgs(run, base);
      hide RunErrorToolArgs;
    }
  }

  /** What the message shows is never nothing. */
  lemma ErrorIsSomething(run: RunProjection, base: Message)
    ensures !ShownError(run, base).Nullish()
  {
  }
}
