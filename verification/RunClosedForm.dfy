/** What a run looks like after any log, read off the log without folding it. */
module RunClosedForm {
  import opened JsValues
  import opened RuntimeTypes
  import opened RuntimeReducer
  import opened RunIsolation

  // ----- reading a list of events from its end -----

  /** The last defined `f` of a list. */
  function LastSome<T>(es: seq<RuntimeEvent>, f: RuntimeEvent -> Option<T>): (r: Option<T>) {
    if es == [] then None
    else if f(es[|es| - 1]).Some? then f(es[|es| - 1])
    else LastSome(es[..|es| - 1], f)
  }

  /** `i` is the last place where `f` is defined. */
  ghost predicate LastAt<T>(es: seq<RuntimeEvent>, f: RuntimeEvent -> Option<T>, i: int) {
    0 <= i < |es| && f(es[i]).Some? && forall j :: i < j < |es| ==> f(es[j]).None?
  }

  lemma {:induction false} LastSomeMeans<T>(es: seq<RuntimeEvent>, f: RuntimeEvent -> Option<T>)
    ensures LastSome(es, f).None? <==> forall i :: 0 <= i < |es| ==> f(es[i]).None?
    ensures LastSome(es, f).Some? ==> exists i :: LastAt(es, f, i)
    ensures forall i :: LastAt(es, f, i) ==> LastSome(es, f) == f(es[i])
  {
    if es != [] {
      var n := |es| - 1;
      if f(es[n]).Some? {
        assert LastAt(es, f, n);
      } else {
        LastSomeMeans(es[..n], f);
        forall i | LastAt(es, f, i) ensures LastAt(es[..n], f, i) {}
        if i :| LastAt(es[..n], f, i) {
          assert LastAt(es, f, i);
        }
      }
    }
  }

  /** `f` of the events from index `from` on, joined. */
  function Concat(es: seq<RuntimeEvent>, from: nat, f: RuntimeEvent -> string): string {
    if |es| <= from then "" else Concat(es[..|es| - 1], from, f) + f(es[|es| - 1])
  }

  /** The index of the last override, or -1. */
  function LastOverride(es: seq<RuntimeEvent>): (k: int)
    ensures -1 <= k < |es|
    ensures k >= 0 ==> es[k].StreamFinalTextOverride?
    ensures forall i :: k < i < |es| ==> !es[i].StreamFinalTextOverride?
  {
    if es == [] then -1
    else if es[|es| - 1].StreamFinalTextOverride? then |es| - 1
    else LastOverride(es[..|es| - 1])
  }

  // ----- what each kind of event says about each field -----

  datatype Outcome = Outcome(
    taskOutcome: Option<TaskOutcome>, degradedReason: Option<string>, resumeAvailable: bool,
    resumeCursor: Option<string>)

  const NO_OUTCOME := Outcome(None, None, false, None)

  function BoundSession(e: RuntimeEvent): Option<string> {
    if e.StreamRunBound? then Some(e.sessionId) else None
  }

  function TextOf(e: RuntimeEvent): string {
    if e.StreamTextDelta? then e.text else ""
  }

  function ThinkingOf(e: RuntimeEvent): string {
    if e.StreamThinkingDelta? then e.thinking else ""
  }

  predicate StartsThinking(e: RuntimeEvent) {
    e.StreamThinkingStart? || e.StreamThinkingDelta?
  }

  function ThinkingMark(e: RuntimeEvent): Option<RuntimeEvent> {
    if StartsThinking(e) then Some(e) else None
  }

  function StatusOf(e: RuntimeEvent): Option<RunStatus> {
    if e.StreamTextDelta? || StartsThinking(e) then Some(Streaming)
    else if e.StreamComplete? then
      Some(if e.ending.taskOutcome == Some(OutcomeFailed) then RunFailed else RunCompleted)
    else if e.StreamError? then Some(RunFailed)
    else None
  }

  function OutcomeOf(e: RuntimeEvent): Option<Outcome> {
    if e.StreamComplete? then
      Some(Outcome(e.ending.taskOutcome, e.ending.degradedReason, e.ending.resumeAvailable == Some(true),
                   e.ending.resumeCursor))
    else if e.StreamError? then
      Some(Outcome(if e.ending.taskOutcome.Some? then e.ending.taskOutcome else Some(OutcomeFailed),
                   if e.ending.degradedReason.Some? then e.ending.degradedReason else Some(e.reason),
                   e.ending.resumeAvailable == Some(true), e.ending.resumeCursor))
    else None
  }

  function BudgetOf(e: RuntimeEvent): Option<Option<Value>> {
    if e.StreamComplete? then Some(e.extras.contextBudgetUsage) else None
  }

  function TurnCostOf(e: RuntimeEvent): Option<Value> { if e.StreamComplete? then e.extras.turnCost else None }
  function RoutingOf(e: RuntimeEvent): Option<Value> { if e.StreamComplete? then e.extras.routing else None }
  function TotalsOf(e: RuntimeEvent): Option<Value> { if e.StreamComplete? then e.extras.sessionTotals else None }
  function MemoryOf(e: RuntimeEvent): Option<seq<Value>> { if e.StreamComplete? then e.extras.memoryItems else None }
  function DiagnosticsOf(e: RuntimeEvent): Option<Value> {
    if e.StreamComplete? then e.extras.promptDiagnostics else None
  }

  function ArgsOf(e: RuntimeEvent): Option<Fields> {
    if e.StreamToolCallUpdate? then e.details.toolArgs else None
  }
  function ResultOf(e: RuntimeEvent): Option<string> {
    if e.StreamToolCallUpdate? then e.details.toolResult else None
  }
  function DurationOf(e: RuntimeEvent): Option<int> {
    if e.StreamToolCallUpdate? then e.details.toolDurationMs else None
  }
  function WorkdirOf(e: RuntimeEvent): Option<string> {
    if e.StreamToolCallUpdate? then e.details.effectiveWorkdir else None
  }
  function PolicyOf(e: RuntimeEvent): Option<PolicyDecision> {
    if e.StreamToolCallUpdate? then e.details.policyDecision else None
  }
  function EvidenceOf(e: RuntimeEvent): Option<string> {
    if e.StreamToolCallUpdate? then e.details.evidenceId else None
  }
  function RequestOf(e: RuntimeEvent): Option<string> {
    if e.StreamToolCallUpdate? then e.details.requestId else None
  }

  predicate IsUpdateOf(e: RuntimeEvent, id: string) {
    e.StreamToolCallUpdate? && e.toolCallId == id
  }

  /** The updates of one tool call, in order. */
  function Updates(es: seq<RuntimeEvent>, id: string): (us: seq<RuntimeEvent>) {
    if es == [] then []
    else
      var n := |es| - 1;
      Updates(es[..n], id) + (if IsUpdateOf(es[n], id) then [es[n]] else [])
  }

  // ----- the closed form -----

  ghost predicate DescribesDetails(d: ToolDetails, us: seq<RuntimeEvent>) {
    && d.toolArgs == LastSome(us, ArgsOf)
    && d.toolResult == LastSome(us, ResultOf)
    && d.toolDurationMs == LastSome(us, DurationOf)
    && d.effectiveWorkdir == LastSome(us, WorkdirOf)
    && d.policyDecision == LastSome(us, PolicyOf)
    && d.evidenceId == LastSome(us, EvidenceOf)
    && d.requestId == LastSome(us, RequestOf)
  }

  /** A tool call after its updates: the name, status and time of the last one, the time
      of the first one, and for each optional field the last defined value. */
  ghost predicate DescribesTool(tool: Option<ToolCallProjection>, id: string, us: seq<RuntimeEvent>) {
    && (tool.None? <==> us == [])
    && (us != [] ==>
      var last := us[|us| - 1];
      && IsUpdateOf(last, id)
      && tool.value.toolCallId == id
      && tool.value.toolName == last.toolName
      && tool.value.status == last.status
      && tool.value.lastUpdatedAt == last.receivedAt
      && tool.value.firstSeenAt == us[0].receivedAt
      && DescribesDetails(tool.value.details, us))
  }

  /** The last override, followed by all later deltas. */
  function FinalText(es: seq<RuntimeEvent>): string {
    var k := LastOverride(es);
    (if k < 0 then "" else es[k].text) + Concat(es, k + 1, TextOf)
  }

  ghost predicate DescribesText(run: RunProjection, es: seq<RuntimeEvent>) {
    && run.text == FinalText(es)
    && run.thinking == Concat(es, 0, ThinkingOf)
  }

  ghost predicate DescribesFields(run: RunProjection, es: seq<RuntimeEvent>)
    requires es != []
  {
    && run.sessionId == LastSome(es, BoundSession)
    && run.status == LastSome(es, StatusOf).GetOr(Streaming)
    && run.thinkingStarted == LastSome(es, ThinkingMark).Some?
    && Outcome(run.taskOutcome, run.degradedReason, run.resumeAvailable, run.resumeCursor)
       == LastSome(es, OutcomeOf).GetOr(NO_OUTCOME)
    && run.contextBudgetUsage == LastSome(es, BudgetOf).GetOr(None)
    && run.turnCost == LastSome(es, TurnCostOf)
    && run.routing == LastSome(es, RoutingOf)
    && run.sessionTotals == LastSome(es, TotalsOf)
    && run.memoryItems == LastSome(es, MemoryOf).GetOr([])
    && run.promptDiagnostics == LastSome(es, DiagnosticsOf)
    && run.lastUpdatedAt == es[|es| - 1].receivedAt
  }

  ghost predicate DescribesTools(run: RunProjection, es: seq<RuntimeEvent>) {
    forall id :: DescribesTool(Get(run.toolCalls, id), id, Updates(es, id))
  }

  /** Everything there is to say about a run whose stream events are `es`. */
  ghost predicate Describes(run: Option<RunProjection>, r: string, es: seq<RuntimeEvent>) {
    && (run.None? <==> es == [])
    && (run.Some? ==>
      && run.value.runId == r
      && DescribesText(run.value, es)
      && DescribesFields(run.value, es)
      && DescribesTools(run.value, es))
  }

  /** The stream events of run `r` since the last discard of the session it was bound to. */
  function Epoch(events: seq<RuntimeEvent>, r: string): seq<RuntimeEvent> {
    if events == [] then []
    else
      var before := Epoch(events[..|events| - 1], r);
      var e := events[|events| - 1];
      if e.Stream?() && e.runId == r then before + [e]
      else if e.DiscardSessionRuns? && LastSome(before, BoundSession) == Some(e.sessionId) then []
      else before
  }

  // ----- proofs -----

  lemma LastSomeSnoc<T>(es: seq<RuntimeEvent>, e: RuntimeEvent, f: RuntimeEvent -> Option<T>)
    ensures LastSome(es + [e], f) == if f(e).Some? then f(e) else LastSome(es, f)
  {
    assert (es + [e])[..|es|] == es;
  }

  lemma ConcatSnoc(es: seq<RuntimeEvent>, e: RuntimeEvent, from: nat, f: RuntimeEvent -> string)
    requires from <= |es|
    ensures Concat(es + [e], from, f) == Concat(es, from, f) + f(e)
  {
    assert (es + [e])[..|es|] == es;
  }

  lemma LastOverrideSnoc(es: seq<RuntimeEvent>, e: RuntimeEvent)
    ensures LastOverride(es + [e]) == if e.StreamFinalTextOverride? then |es| else LastOverride(es)
  {
    assert (es + [e])[..|es|] == es;
  }

  lemma UpdateRunText(run: RunProjection, e: RuntimeEvent)
    requires e.Stream?()
    ensures UpdateRun(run, e).text == if e.StreamFinalTextOverride? then e.text else run.text + TextOf(e)
    ensures UpdateRun(run, e).thinking == run.thinking + ThinkingOf(e)
  {
    assert run.text + "" == run.text && run.thinking + "" == run.thinking;
  }

  lemma FinalTextSnoc(es: seq<RuntimeEvent>, e: RuntimeEvent)
    ensures FinalText(es + [e]) == if e.StreamFinalTextOverride? then e.text else FinalText(es) + TextOf(e)
  {
    var k := LastOverride(es);
    LastOverrideSnoc(es, e);
    if e.StreamFinalTextOverride? {
      assert Concat(es + [e], |es| + 1, TextOf) == "";
      assert e.text + "" == e.text;
    } else {
      ConcatSnoc(es, e, k + 1, TextOf);
      var base := if k < 0 then "" else es[k].text;
      assert base + Concat(es, k + 1, TextOf) + TextOf(e) == base + (Concat(es, k + 1, TextOf) + TextOf(e));
    }
  }

  lemma TextStep(run: RunProjection, es: seq<RuntimeEvent>, e: RuntimeEvent)
    requires e.Stream?() && DescribesText(run, es)
    ensures DescribesText(UpdateRun(run, e).(lastUpdatedAt := e.receivedAt), es + [e])
  {
    UpdateRunText(run, e);
    ConcatSnoc(es, e, 0, ThinkingOf);
    FinalTextSnoc(es, e);
  }

  lemma FieldsStep(run: RunProjection, es: seq<RuntimeEvent>, e: RuntimeEvent)
    requires e.Stream?() && es != [] && DescribesFields(run, es)
    ensures DescribesFields(UpdateRun(run, e).(lastUpdatedAt := e.receivedAt), es + [e])
  {
    LastSomeSnoc(es, e, BoundSession);
    LastSomeSnoc(es, e, StatusOf);
    LastSomeSnoc(es, e, ThinkingMark);
    LastSomeSnoc(es, e, OutcomeOf);
    LastSomeSnoc(es, e, BudgetOf);
    LastSomeSnoc(es, e, TurnCostOf);
    LastSomeSnoc(es, e, RoutingOf);
    LastSomeSnoc(es, e, TotalsOf);
    LastSomeSnoc(es, e, MemoryOf);
    LastSomeSnoc(es, e, DiagnosticsOf);
  }

  lemma FirstFields(r: string, e: RuntimeEvent)
    requires e.Stream?()
    ensures DescribesFields(UpdateRun(CreateEmptyRun(r, e.receivedAt), e).(lastUpdatedAt := e.receivedAt), [e])
  {
  }

  lemma DetailsStep(d: ToolDetails, us: seq<RuntimeEvent>, e: RuntimeEvent)
    requires e.StreamToolCallUpdate? && DescribesDetails(d, us)
    ensures DescribesDetails(MergeDetails(e.details, d), us + [e])
  {
    LastSomeSnoc(us, e, ArgsOf);
    LastSomeSnoc(us, e, ResultOf);
    LastSomeSnoc(us, e, DurationOf);
    LastSomeSnoc(us, e, WorkdirOf);
    LastSomeSnoc(us, e, PolicyOf);
    LastSomeSnoc(us, e, EvidenceOf);
    LastSomeSnoc(us, e, RequestOf);
  }

  lemma UpdatesSnoc(es: seq<RuntimeEvent>, e: RuntimeEvent, id: string)
    ensures Updates(es + [e], id) == if IsUpdateOf(e, id) then Updates(es, id) + [e] else Updates(es, id)
  {
    assert (es + [e])[..|es|] == es;
  }

  lemma UpdateRunTool(run: RunProjection, e: RuntimeEvent, id: string)
    requires e.Stream?()
    ensures Get(UpdateRun(run, e).toolCalls, id) ==
              if IsUpdateOf(e, id) then Some(UpdateTool(Get(run.toolCalls, id), e)) else Get(run.toolCalls, id)
  {
    hide UpdateTool;
  }

  lemma FirstToolUpdate(e: RuntimeEvent, id: string)
    requires IsUpdateOf(e, id)
    ensures DescribesTool(Some(UpdateTool(None, e)), id, [e])
  {
    DetailsStep(ToolDetails(None, None, None, None, None, None, None), [], e);
    assert [] + [e] == [e];
    hide DescribesDetails;
  }

  lemma NextToolUpdate(tool: ToolCallProjection, us: seq<RuntimeEvent>, e: RuntimeEvent, id: string)
    requires IsUpdateOf(e, id) && us != [] && DescribesTool(Some(tool), id, us)
    ensures DescribesTool(Some(UpdateTool(Some(tool), e)), id, us + [e])
  {
    hide DescribesDetails;
    DetailsStep(tool.details, us, e);
    assert (us + [e])[0] == us[0] && (us + [e])[|us + [e]| - 1] == e;
  }

  lemma ToolStep(run: RunProjection, es: seq<RuntimeEvent>, e: RuntimeEvent, id: string)
    requires e.Stream?() && DescribesTool(Get(run.toolCalls, id), id, Updates(es, id))
    ensures DescribesTool(Get(UpdateRun(run, e).toolCalls, id), id, Updates(es + [e], id))
  {
    hide UpdateRun, Updates, UpdateTool, IsUpdateOf;
    var us, tool := Updates(es, id), Get(run.toolCalls, id);
    assert tool.None? <==> us == [];
    hide DescribesTool;
    UpdatesSnoc(es, e, id);
    UpdateRunTool(run, e, id);
    if IsUpdateOf(e, id) {
      if tool.Some? {
        NextToolUpdate(tool.value, us, e, id);
      } else {
        FirstToolUpdate(e, id);
        assert us + [e] == [e];
      }
    }
  }

  lemma ToolsStep(run: RunProjection, es: seq<RuntimeEvent>, e: RuntimeEvent)
    requires e.Stream?() && DescribesTools(run, es)
    ensures DescribesTools(UpdateRun(run, e).(lastUpdatedAt := e.receivedAt), es + [e])
  {
    forall id ensures DescribesTool(Get(UpdateRun(run, e).toolCalls, id), id, Updates(es + [e], id)) {
      ToolStep(run, es, e, id);
    }
  }

  lemma FirstStep(r: string, e: RuntimeEvent)
    requires e.Stream?() && e.runId == r
    ensures Describes(StepRun(None, r, e), r, [e])
  {
    var blank := CreateEmptyRun(r, e.receivedAt);
    assert [] + [e] == [e];
    TextStep(blank, [], e);
    FirstFields(r, e);
    ToolsStep(blank, [], e);
  }

  lemma NextStep(run: RunProjection, r: string, es: seq<RuntimeEvent>, e: RuntimeEvent)
    requires e.Stream?() && e.runId == r && es != [] && Describes(Some(run), r, es)
    ensures Describes(StepRun(Some(run), r, e), r, es + [e])
  {
    TextStep(run, es, e);
    FieldsStep(run, es, e);
    ToolsStep(run, es, e);
  }

  /** The closed form holds of every run after every log. */
  lemma {:induction false} ClosedForm(events: seq<RuntimeEvent>, r: string)
    ensures Describes(Get(Fold(EmptySnapshot(), events).runs, r), r, Epoch(events, r))
  {
    if events != [] {
      var before, e := events[..|events| - 1], events[|events| - 1];
      ClosedForm(before, r);
      var prev := Fold(EmptySnapshot(), before);
      ReduceActsPerRun(prev, e, r);
      if e.Stream?() && e.runId == r {
        if Get(prev.runs, r).Some? {
          NextStep(Get(prev.runs, r).value, r, Epoch(before, r), e);
        } else {
          assert [] + [e] == [e];
          FirstStep(r, e);
        }
      }
    }
  }

  lemma {:induction false} StatusIsNeverCancelled(es: seq<RuntimeEvent>)
    ensures LastSome(es, StatusOf) != Some(RunCancelled)
  {
    if es != [] {
      StatusIsNeverCancelled(es[..|es| - 1]);
    }
  }

  ghost predicate LastStatusFails(es: seq<RuntimeEvent>) {
    exists i :: LastAt(es, StatusOf, i) && StatusOf(es[i]) == Some(RunFailed)
  }

  lemma LastStatusDecides(es: seq<RuntimeEvent>)
    ensures LastSome(es, StatusOf).GetOr(Streaming) != RunCancelled
    ensures LastSome(es, StatusOf) == Some(RunFailed) <==> LastStatusFails(es)
  {
    StatusIsNeverCancelled(es);
    LastSomeMeans(es, StatusOf);
    hide LastSome, StatusOf;
    if LastSome(es, StatusOf).Some? {
      var i :| LastAt(es, StatusOf, i);
      assert LastSome(es, StatusOf) == StatusOf(es[i]);
    }
  }

  lemma StatusOfDescribed(run: Option<RunProjection>, r: string, es: seq<RuntimeEvent>)
    requires run.Some? && Describes(run, r, es)
    ensures run.value.status == LastSome(es, StatusOf).GetOr(Streaming)
  {
    hide LastSome, StatusOf, DescribesText, DescribesTools;
  }

  /** `cancelled` is a status no log leads to, and a run is failed exactly when its last
      status-bearing event is an error or a completion that failed. */
  lemma StatusIsDecidedByTheLastStatusEvent(events: seq<RuntimeEvent>, r: string)
    ensures var run := Get(Fold(EmptySnapshot(), events).runs, r);
            run.Some? ==>
              && run.value.status != RunCancelled
              && (run.value.status == RunFailed <==> LastStatusFails(Epoch(events, r)))
  {
    hide Epoch, Fold, LastSome, StatusOf, Describes, LastStatusFails;
    var run := Get(Fold(EmptySnapshot(), events).runs, r);
    ClosedForm(events, r);
    if run.Some? {
      StatusOfDescribed(run, r, Epoch(events, r));
      LastStatusDecides(Epoch(events, r));
    }
  }
}
