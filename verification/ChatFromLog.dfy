/** What the chat shows of a run, read off the log of events. */
module ChatFromLog {
  import opened JsValues
  import opened RuntimeTypes
  import opened RuntimeReducer
  import opened RunClosedForm
  import opened SnapshotSummary
  import opened StableSort
  import opened ChatMessages
  import opened ChatProjection
  import opened ChatConservation
  import opened ChatRunMessages
  import opened EventTranslator

  // ----- what an answer shows -----

  ghost predicate ShowsIfDefined<T>(shown: Option<T>, value: Option<T>) {
    value.Some? ==> shown == value
  }

  function OutcomeAfter(es: seq<RuntimeEvent>): Outcome {
    LastSome(es, OutcomeOf).GetOr(NO_OUTCOME)
  }

  predicate StillStreams(es: seq<RuntimeEvent>) {
    LastSome(es, StatusOf) == None || LastSome(es, StatusOf) == Some(Streaming)
  }

  /** The text of an answer is the last override and the deltas since; the thinking is all that was
      thought; and it streams until its last status-bearing event ends it. */
  ghost predicate ShowsText(m: Message, es: seq<RuntimeEvent>) {
    && m.content == FinalText(es)
    && (Concat(es, 0, ThinkingOf) != "" ==> m.thinking == Some(Concat(es, 0, ThinkingOf)))
    && m.isStreaming == Some(StillStreams(es))
    && (LastSome(es, StatusOf) == Some(RunFailed) ==> m.isError == Some(true))
  }

  /** How it ended is what the last ending said. */
  ghost predicate ShowsOutcome(m: Message, es: seq<RuntimeEvent>) {
    var outcome := OutcomeAfter(es);
    && ShowsIfDefined(m.taskOutcome, outcome.taskOutcome)
    && ShowsIfDefined(m.degradedReason, outcome.degradedReason)
    && ShowsIfDefined(m.resumeCursor, outcome.resumeCursor)
    && m.resumeAvailable == Some(outcome.resumeAvailable)
  }

  /** The summaries are the last ones a completion carried. */
  ghost predicate ShowsSummaries(m: Message, es: seq<RuntimeEvent>) {
    var items := LastSome(es, MemoryOf).GetOr([]);
    && (items != [] ==> m.memoryContext == Some(items))
    && ShowsIfDefined(m.contextBudgetUsage, LastSome(es, BudgetOf).GetOr(None))
    && ShowsIfDefined(m.turnCost, LastSome(es, TurnCostOf))
    && ShowsIfDefined(m.routing, LastSome(es, RoutingOf))
    && ShowsIfDefined(m.promptDiagnostics, LastSome(es, DiagnosticsOf))
  }

  predicate EndedBadly(es: seq<RuntimeEvent>) {
    var outcome := OutcomeAfter(es);
    || LastSome(es, StatusOf) == Some(RunFailed)
    || outcome.taskOutcome == Some(OutcomeFailed)
    || (outcome.taskOutcome == Some(OutcomePartialSuccess) && outcome.resumeAvailable)
  }

  /** An answer that ended badly carries the reason and the outcome among its arguments. */
  ghost predicate ShowsError(m: Message, es: seq<RuntimeEvent>) {
    var outcome := OutcomeAfter(es);
    EndedBadly(es) ==>
      && m.toolArgs.Some? && ERROR_KEYS <= m.toolArgs.value.Keys
      && !m.toolArgs.value["rawError"].Nullish()
      && m.toolArgs.value["taskOutcome"] == Str(OutcomeName(outcome.taskOutcome.GetOr(OutcomeFailed)))
      && (outcome.degradedReason.Some? ==>
            && m.toolArgs.value["rawError"] == Str(outcome.degradedReason.value)
            && m.toolArgs.value["degradedReason"] == Str(outcome.degradedReason.value))
      && (outcome.resumeCursor.Some? ==> m.toolArgs.value["resumeCursor"] == Str(outcome.resumeCursor.value))
  }

  /** Once it has ended, its label and kind are the true ones. */
  ghost predicate ShowsCompletion(m: Message, run: RunProjection) {
    run.status != Streaming ==> KindIsTrue(m.statusKind, run) && LabelIsTrue(m.statusLabel, run)
  }

  lemma AnswerShowsText(placeholder: Option<Message>, run: RunProjection, es: seq<RuntimeEvent>)
    requires es != [] && DescribesText(run, es) && DescribesFields(run, es)
    ensures ShowsText(ProjectAssistant(placeholder, run), es)
  {
    hide LastSome, Concat, FinalText, RunErrorToolArgs, CompletionStatus;
  }

  lemma AnswerShowsOutcome(placeholder: Option<Message>, run: RunProjection, es: seq<RuntimeEvent>)
    requires es != [] && DescribesFields(run, es)
    ensures ShowsOutcome(ProjectAssistant(placeholder, run), es)
    ensures ShowsSummaries(ProjectAssistant(placeholder, run), es)
  {
    hide LastSome, RunErrorToolArgs, CompletionStatus;
  }

  lemma AnswerShowsError(placeholder: Option<Message>, run: RunProjection, es: seq<RuntimeEvent>)
    requires es != [] && DescribesFields(run, es)
    ensures ShowsError(ProjectAssistant(placeholder, run), es)
  {
    ErrorIsExplained(run, placeholder);
    ErrorIsSomething(run, PlaceholderOr(placeholder, run));
    assert run.degradedReason.Some? ==>
        ShownError(run, PlaceholderOr(placeholder, run)) == Str(run.degradedReason.value);
    hide LastSome, ProjectAssistant, PlaceholderOr, ShownError, SameBesidesErrors;
  }

  lemma AnswerShowsCompletion(placeholder: Option<Message>, run: RunProjection)
    ensures ShowsCompletion(ProjectAssistant(placeholder, run), run)
  {
    CompletionMeans(run);
    hide CompletionStatus, KindIsTrue, LabelIsTrue, RunErrorToolArgs;
  }

  // ----- what a tool call shows -----

  /** The message of a tool call of run `r` whose updates are `us`: when it was first seen and, for
      each optional field, the last value an update gave. */
  ghost predicate ShowsCall(m: Message, id: string, us: seq<RuntimeEvent>)
    requires us != [] && us[|us| - 1].StreamToolCallUpdate?
  {
    && m.toolCallId == Some(id)
    && m.toolName == Some(us[|us| - 1].toolName)
    && m.timestamp == Some(us[0].receivedAt)
    && m.toolArgs == LastSome(us, ArgsOf)
    && m.toolDurationMs == LastSome(us, DurationOf)
    && m.effectiveWorkdir == LastSome(us, WorkdirOf)
    && m.evidenceId == LastSome(us, EvidenceOf)
    && m.requestId == LastSome(us, RequestOf)
    && (us[|us| - 1].toolName != "memory_store" ==> m.policyDecision == LastSome(us, PolicyOf))
    && m.disableAnimation == Some(true)
  }

  /** Its status is that of the last update and its content the last result, unless it is still
      open: then it shows nothing while the run streams, and an error once the run has ended. */
  ghost predicate ShowsResult(m: Message, us: seq<RuntimeEvent>, streams: bool)
    requires us != [] && us[|us| - 1].StreamToolCallUpdate?
  {
    var last, result := us[|us| - 1].status, LastSome(us, ResultOf).GetOr("");
    if last == Completed || last == Error then
      m.toolStatus == Some(last) && m.content == result && m.isError == Some(last == Error)
    else if streams then
      m.toolStatus == Some(last) && m.content == "" && m.isError == Some(false)
    else
      && m.toolStatus == Some(Error) && m.isError == Some(true)
      && m.content == (if result != "" then result else "stream completed before tool reached terminal state")
  }

  /** It carries how its run ended. */
  ghost predicate ShowsEndOfRun(m: Message, es: seq<RuntimeEvent>) {
    var outcome := OutcomeAfter(es);
    && m.taskOutcome == outcome.taskOutcome && m.degradedReason == outcome.degradedReason
    && m.resumeAvailable == Some(outcome.resumeAvailable) && m.resumeCursor == outcome.resumeCursor
  }

  ghost predicate ShowsSomeCall(m: Message, es: seq<RuntimeEvent>) {
    exists id :: ShowsUpdates(m, id, Updates(es, id), es)
  }

  ghost predicate ShowsUpdates(m: Message, id: string, us: seq<RuntimeEvent>, es: seq<RuntimeEvent>) {
    && us != [] && us[|us| - 1].StreamToolCallUpdate?
    && ShowsCall(m, id, us) && ShowsResult(m, us, StillStreams(es)) && ShowsEndOfRun(m, es)
  }

  lemma MessageShowsCall(run: RunProjection, parse: JsonParser, tool: ToolCallProjection, id: string,
                         us: seq<RuntimeEvent>)
    requires us != [] && DescribesTool(Some(tool), id, us)
    ensures ShowsCall(ProjectToolCall(run, parse, tool), id, us)
  {
    hide LastSome, ExtractMemoryStoreFields;
  }

  lemma MessageShowsResult(run: RunProjection, parse: JsonParser, tool: ToolCallProjection, id: string,
                           us: seq<RuntimeEvent>, streams: bool)
    requires us != [] && DescribesTool(Some(tool), id, us) && streams == (run.status == Streaming)
    ensures ShowsResult(ProjectToolCall(run, parse, tool), us, streams)
  {
    hide LastSome, ExtractMemoryStoreFields;
  }

  lemma MessageShowsEndOfRun(run: RunProjection, parse: JsonParser, tool: ToolCallProjection, es: seq<RuntimeEvent>)
    requires es != [] && DescribesFields(run, es)
    ensures ShowsEndOfRun(ProjectToolCall(run, parse, tool), es)
  {
    hide LastSome, ExtractMemoryStoreFields;
  }

  // ----- where the messages of a run come from -----

  /** An attached assistant or tool message is one the projector made of its run. */
  ghost predicate IsMade(m: Message, runs: Runs, parse: JsonParser) {
    && (IsAnchor(m, runs, Assistant) ==>
          exists p :: m == ProjectAssistant(p, AnchoredRun(m, runs).value))
    && (IsAnchor(m, runs, Tool) ==>
          exists tool :: tool in ShownTools(AnchoredRun(m, runs).value)
                         && m == ProjectToolCall(AnchoredRun(m, runs).value, parse, tool))
  }

  ghost predicate AllMade(ms: seq<Message>, runs: Runs, parse: JsonParser) {
    forall i :: 0 <= i < |ms| ==> IsMade(ms[i], runs, parse)
  }

  lemma BlockIsMade(placeholder: Option<Message>, run: RunProjection, runs: Runs, parse: JsonParser)
    requires Get(runs, run.runId) == Some(run)
    ensures AllMade(RunBlock(placeholder, run, parse), runs, parse)
  {
    BlockShape(placeholder, run, parse);
    ToolMessageAt(run, parse);
    var block, tools := RunBlock(placeholder, run, parse), ShownTools(run);
    hide RunBlock, ToolMessages, ShownTools, ProjectAssistant, ProjectToolCall;
    forall i | 0 <= i < |block| ensures IsMade(block[i], runs, parse) {
      if i == 0 {
        assert block[0] == ProjectAssistant(placeholder, run);
      } else {
        assert block[i] == block[1..][i - 1] && tools[i - 1] in tools;
      }
    }
  }

  lemma MadeConcat(a: seq<Message>, b: seq<Message>, runs: Runs, parse: JsonParser)
    requires AllMade(a, runs, parse) && AllMade(b, runs, parse)
    ensures AllMade(a + b, runs, parse)
  {
    hide IsMade;
  }

  /** Runs are stored under the id they carry. */
  ghost predicate KeyedRuns(runs: Runs) {
    forall r :: r in runs.entries ==> runs.entries[r].runId == r
  }

  lemma SegmentIsMade(m: Message, runs: Runs, seen: set<string>, parse: JsonParser)
    requires KeyedRuns(runs)
    ensures AllMade(Segment(m, runs, seen, parse), runs, parse)
  {
    hide RunBlock;
    if IsAnchor(m, runs, Assistant) {
      BlockIsMade(Some(m), AnchoredRun(m, runs).value, runs, parse);
    } else if IsAnchor(m, runs, User) {
      BlockIsMade(None, AnchoredRun(m, runs).value, runs, parse);
      MadeConcat([m], RunBlock(None, AnchoredRun(m, runs).value, parse), runs, parse);
    }
  }

  lemma {:induction false} FirstPassIsMade(ms: seq<Message>, runs: Runs, seen: set<string>, parse: JsonParser)
    requires KeyedRuns(runs)
    ensures AllMade(ReplacePlaceholders(ms, runs, seen, parse), runs, parse)
  {
    hide Segment, IsMade;
    if ms != [] {
      var seen' := seen + StandsFor(ms[0], runs);
      SegmentIsMade(ms[0], runs, seen, parse);
      FirstPassIsMade(ms[1..], runs, seen', parse);
      MadeConcat(Segment(ms[0], runs, seen, parse), ReplacePlaceholders(ms[1..], runs, seen', parse), runs, parse);
    }
  }

  lemma InsertedIsMade(before: seq<Message>, block: seq<Message>, runs: Runs, parse: JsonParser)
    requires AllMade(before, runs, parse) && AllMade(block, runs, parse)
    ensures AllMade(InsertByTimestamp(before, block), runs, parse)
  {
    hide IsMade, InsertionIndex;
    if block != [] {
      var i := InsertionIndex(before, block[0].timestamp);
      MadeConcat(before[..i], block, runs, parse);
      MadeConcat(before[..i] + block, before[i..], runs, parse);
    }
  }

  lemma {:induction false} RecoveryIsMade(before: seq<Message>, ordered: seq<RunProjection>, runs: Runs,
                                          sessionId: Option<string>, seen: set<string>, parse: JsonParser)
    requires AllMade(before, runs, parse)
    requires forall run :: run in ordered ==> Get(runs, run.runId) == Some(run)
    ensures AllMade(RecoverRuns(before, ordered, sessionId, seen, parse), runs, parse)
  {
    hide IsMade, RunBlock, InsertByTimestamp;
    if ordered != [] {
      var n := |ordered| - 1;
      assert ordered[n] in ordered;
      RecoveryIsMade(before, ordered[..n], runs, sessionId, seen, parse);
      BlockIsMade(None, ordered[n], runs, parse);
      InsertedIsMade(
        RecoverRuns(before, ordered[..n], sessionId, seen, parse), RunBlock(None, ordered[n], parse), runs, parse);
    }
  }

  lemma OrderedAreRuns(runs: Runs)
    requires KeyedRuns(runs)
    ensures forall run :: run in ByUpdate(runs) ==> Get(runs, run.runId) == Some(run)
  {
    hide SortBy, ValuesOf, WithKey;
    ValuesAt(runs.keys, runs.entries);
    SortIsStable(Values(runs), LastUpdate, 0);
    forall run | run in ByUpdate(runs) ensures Get(runs, run.runId) == Some(run) {
      assert run in multiset(ByUpdate(runs));
      assert run in Values(runs);
      var i :| 0 <= i < |Values(runs)| && Values(runs)[i] == run;
      assert run == runs.entries[runs.keys[i]];
    }
  }

  lemma ProjectionIsMade(ms: seq<Message>, runs: Runs, sessionId: Option<string>, parse: JsonParser)
    requires KeyedRuns(runs)
    ensures AllMade(Project(ms, runs, sessionId, parse), runs, parse)
  {
    hide IsMade, ReplacePlaceholders, ByUpdate, AnchoredIds, RecoverRuns;
    FirstPassIsMade(ms, runs, {}, parse);
    OrderedAreRuns(runs);
    RecoveryIsMade(
      ReplacePlaceholders(ms, runs, {}, parse), ByUpdate(runs), runs, sessionId, AnchoredIds(ms, runs), parse);
  }

  // ----- main results -----

  lemma RunsOfLog(log: seq<RuntimeEvent>)
    ensures KeyedRuns(After(log).runs)
  {
    hide Fold;
    var runs := After(log).runs;
    forall r | r in runs.entries ensures runs.entries[r].runId == r {
      assert Get(runs, r) == Some(runs.entries[r]);
      RunKeysAlwaysMatch(log, r);
    }
  }

  /** The message is attached to run `r` in that role. */
  predicate IsOf(m: Message, runs: Runs, role: Role, r: string) {
    m.role == role && r != "" && m.streamId == Some(r) && r in runs.entries
  }

  /** What every answer of a run in the chat shows, for every log and conversation. */
  lemma AnswersShowTheLog(log: seq<RuntimeEvent>, ms: seq<Message>, sessionId: Option<string>, parse: JsonParser,
                          r: string, m: Message)
    ensures m in Project(ms, After(log).runs, sessionId, parse) && IsOf(m, After(log).runs, Assistant, r) ==>
              var es := Epoch(log, r);
              && ShowsText(m, es) && ShowsOutcome(m, es) && ShowsSummaries(m, es) && ShowsError(m, es)
              && ShowsCompletion(m, After(log).runs.entries[r])
  {
    if m !in Project(ms, After(log).runs, sessionId, parse) || !IsOf(m, After(log).runs, Assistant, r) {
      return;
    }
    var runs, es := After(log).runs, Epoch(log, r);
    RunsOfLog(log);
    ProjectionIsMade(ms, runs, sessionId, parse);
    assert IsMade(m, runs, parse);
    ClosedForm(log, r);
    var run := runs.entries[r];
    assert AnchoredRun(m, runs) == Some(run);
    var p :| m == ProjectAssistant(p, run);
    hide Fold, Project, ProjectAssistant, Epoch, ShowsText, ShowsOutcome, ShowsSummaries, ShowsError, ShowsCompletion,
         DescribesText, DescribesFields, DescribesTools, IsMade, AllMade, KeyedRuns;
    assert Describes(Some(run), r, es);
    AnswerShowsText(p, run, es);
    AnswerShowsOutcome(p, run, es);
    AnswerShowsError(p, run, es);
    AnswerShowsCompletion(p, run);
  }

  /** What every tool message of a run in the chat shows, for every log and conversation. */
  lemma CallsShowTheLog(log: seq<RuntimeEvent>, ms: seq<Message>, sessionId: Option<string>, parse: JsonParser,
                        r: string, m: Message)
    ensures m in Project(ms, After(log).runs, sessionId, parse) && IsOf(m, After(log).runs, Tool, r) ==>
              ShowsSomeCall(m, Epoch(log, r))
  {
    if m !in Project(ms, After(log).runs, sessionId, parse) || !IsOf(m, After(log).runs, Tool, r) {
      return;
    }
    var runs, es := After(log).runs, Epoch(log, r);
    RunsOfLog(log);
    ProjectionIsMade(ms, runs, sessionId, parse);
    assert IsMade(m, runs, parse);
    ClosedForm(log, r);
    RunKeysAlwaysMatch(log, r);
    var run := runs.entries[r];
    assert AnchoredRun(m, runs) == Some(run);
    var tool :| tool in ShownTools(run) && m == ProjectToolCall(run, parse, tool);
    hide Fold, Project, ProjectToolCall, Epoch, DescribesText, DescribesTool, IsMade, AllMade, KeyedRuns, ShownTools,
         ShowsCall, ShowsResult, ShowsEndOfRun, Updates, LastSome;
    assert Describes(Some(run), r, es);
    ShownToolsAreTheTools(run);
    CallIsShown(run, parse, tool, es);
  }

  lemma CallIsShown(run: RunProjection, parse: JsonParser, tool: ToolCallProjection, es: seq<RuntimeEvent>)
    requires es != [] && DescribesFields(run, es) && DescribesTools(run, es)
    requires Get(run.toolCalls, tool.toolCallId) == Some(tool)
    ensures ShowsSomeCall(ProjectToolCall(run, parse, tool), es)
  {
    var id := tool.toolCallId;
    var us := Updates(es, id);
    assert DescribesTool(Get(run.toolCalls, id), id, us);
    assert us != [] && us[|us| - 1].StreamToolCallUpdate?;
    assert StillStreams(es) == (run.status == Streaming);
    hide DescribesTool, DescribesTools, ProjectToolCall, ShowsCall, ShowsResult, ShowsEndOfRun, Updates, LastSome;
    MessageShowsCall(run, parse, tool, id, us);
    MessageShowsResult(run, parse, tool, id, us, StillStreams(es));
    MessageShowsEndOfRun(run, parse, tool, es);
    assert ShowsUpdates(ProjectToolCall(run, parse, tool), id, Updates(es, id), es);
  }
}
