/** What every reachable snapshot says about the log that produced it. */
module SnapshotSummary {
  import opened JsValues
  import opened RuntimeTypes
  import opened RuntimeReducer
  import opened RunIsolation
  import opened RunClosedForm

  function After(log: seq<RuntimeEvent>): Snapshot {
    Fold(EmptySnapshot(), log)
  }

  // ----- what one event does to each part of the snapshot -----

  /** What an event says about the approval pending for one session. */
  function ApprovalOf(e: RuntimeEvent, sid: string): Option<Option<Approval>> {
    if e.PermissionRequest? && e.sessionId == sid then Some(Some(Approval(sid, e.request, e.receivedAt)))
    else if (e.PermissionResolved? || e.DiscardSessionRuns?) && e.sessionId == sid then Some(None)
    else None
  }

  lemma ReduceActsOnApprovals(s: Snapshot, e: RuntimeEvent)
    ensures ReduceRuntimeEvent(s, e).approvals ==
              if e.PermissionRequest? then
                Put(s.approvals, e.sessionId, Approval(e.sessionId, e.request, e.receivedAt))
              else if e.DiscardSessionRuns? || (e.PermissionResolved? && Get(s.approvals, e.sessionId).Some?) then
                Delete(s.approvals, e.sessionId)
              else s.approvals
  {
    hide Put, Delete, UpdateRun, RunsOutside, ReduceMemory, ReduceExecutionMode;
  }

  lemma ReduceActsPerSession(s: Snapshot, e: RuntimeEvent, sid: string)
    ensures Get(ReduceRuntimeEvent(s, e).approvals, sid) == ApprovalOf(e, sid).GetOr(Get(s.approvals, sid))
  {
    ReduceActsOnApprovals(s, e);
    hide ReduceRuntimeEvent, Put, Delete;
  }

  function RecallOf(e: RuntimeEvent): Option<seq<Value>> {
    if e.StreamComplete? && e.extras.memoryItems.Some? && e.extras.memoryItems.value != []
    then e.extras.memoryItems else None
  }

  predicate ActsOnMemory(e: RuntimeEvent) {
    e.MemoryLifecycle? || e.MemoryAfterTurn? || e.MemoryWriteDecision?
  }

  lemma ReduceActsOnMemory(s: Snapshot, e: RuntimeEvent)
    ensures ReduceRuntimeEvent(s, e).memory ==
              if ActsOnMemory(e) then ReduceMemory(s.memory, e)
              else s.memory.(lastRecallItems := RecallOf(e).GetOr(s.memory.lastRecallItems))
  {
  }

  // ----- keys and times -----

  /** The run and its tool calls are stored under the ids they carry. */
  ghost predicate RunKeysMatch(run: RunProjection, r: string) {
    && run.runId == r
    && forall id :: id in run.toolCalls.entries ==> run.toolCalls.entries[id].toolCallId == id
  }

  ghost predicate ToolTimesOrdered(run: RunProjection) {
    forall id :: id in run.toolCalls.entries ==>
      run.toolCalls.entries[id].firstSeenAt <= run.toolCalls.entries[id].lastUpdatedAt <= run.lastUpdatedAt
  }

  ghost predicate StampsAscend(log: seq<RuntimeEvent>) {
    forall i, j :: 0 <= i < j < |log| ==> log[i].receivedAt <= log[j].receivedAt
  }

  lemma UpdateKeepsRunWellFormed(run: RunProjection, r: string, e: RuntimeEvent)
    requires e.Stream?() && RunKeysMatch(run, r)
    ensures var run' := UpdateRun(run, e).(lastUpdatedAt := e.receivedAt);
            && RunKeysMatch(run', r)
            && (ToolTimesOrdered(run) && run.lastUpdatedAt <= e.receivedAt ==> ToolTimesOrdered(run'))
  {
  }

  ghost predicate WellTimed(run: Option<RunProjection>, now: int) {
    run.Some? ==> ToolTimesOrdered(run.value) && run.value.lastUpdatedAt <= now
  }

  lemma StepKeepsRunWellFormed(run: Option<RunProjection>, r: string, e: RuntimeEvent, now: int)
    requires run.Some? ==> RunKeysMatch(run.value, r)
    ensures StepRun(run, r, e).Some? ==> RunKeysMatch(StepRun(run, r, e).value, r)
    ensures WellTimed(run, now) && now <= e.receivedAt ==> WellTimed(StepRun(run, r, e), e.receivedAt)
  {
    if e.Stream?() && e.runId == r {
      UpdateKeepsRunWellFormed(run.GetOr(CreateEmptyRun(r, e.receivedAt)), r, e);
    }
  }

  /** In every reachable snapshot runs and tool calls are stored under the ids they carry. */
  lemma {:induction false} RunKeysAlwaysMatch(log: seq<RuntimeEvent>, r: string)
    ensures Get(After(log).runs, r).Some? ==> RunKeysMatch(Get(After(log).runs, r).value, r)
  {
    if log != [] {
      var before, e := log[..|log| - 1], log[|log| - 1];
      RunKeysAlwaysMatch(before, r);
      ReduceActsPerRun(After(before), e, r);
      StepKeepsRunWellFormed(Get(After(before).runs, r), r, e, 0);
    }
  }

  /** If the stamps of the log never go back, tool times lie within their run's and no run
      is newer than the log. */
  lemma {:induction false} RunTimesAreOrdered(log: seq<RuntimeEvent>, r: string)
    requires log != [] && StampsAscend(log)
    ensures WellTimed(Get(After(log).runs, r), log[|log| - 1].receivedAt)
  {
    var n := |log| - 1;
    RunKeysAlwaysMatch(log[..n], r);
    ReduceActsPerRun(After(log[..n]), log[n], r);
    if n == 0 {
      StepKeepsRunWellFormed(None, r, log[n], log[n].receivedAt);
    } else {
      RunTimesAreOrdered(log[..n], r);
      StepKeepsRunWellFormed(Get(After(log[..n]).runs, r), r, log[n], log[n - 1].receivedAt);
    }
  }

  /** The records of every reachable snapshot are enumerated in an order JavaScript has. */
  lemma {:induction false} KeysAlwaysInOrder(log: seq<RuntimeEvent>)
    ensures InOrder(After(log).runs.keys) && InOrder(After(log).approvals.keys)
  {
    if log != [] {
      KeysAlwaysInOrder(log[..|log| - 1]);
      StepKeepsOrder(After(log[..|log| - 1]), log[|log| - 1]);
    }
  }

  lemma StepKeepsOrder(s: Snapshot, e: RuntimeEvent)
    requires InOrder(s.runs.keys) && InOrder(s.approvals.keys)
    ensures InOrder(ReduceRuntimeEvent(s, e).runs.keys) && InOrder(ReduceRuntimeEvent(s, e).approvals.keys)
  {
    hide InOrder, UpdateRun, ReduceMemory, ReduceExecutionMode;
    if e.Stream?() {
      var existing := Get(s.runs, e.runId).GetOr(CreateEmptyRun(e.runId, e.receivedAt));
      PutKeepsOrder(s.runs, e.runId, UpdateRun(existing, e).(lastUpdatedAt := e.receivedAt));
    } else if e.PermissionRequest? {
      PutKeepsOrder(s.approvals, e.sessionId, Approval(e.sessionId, e.request, e.receivedAt));
    } else if e.PermissionResolved? || e.DiscardSessionRuns? {
      FilterKeepsOrder(s.approvals.keys, s.approvals.entries.Keys - {e.sessionId});
      FilterKeepsOrder(
        s.runs.keys, set k | k in s.runs.entries && s.runs.entries[k].sessionId != Some(e.sessionId));
    }
  }

  // ----- memory rings and counters -----

  lemma NewestOfNewest<T>(xs: seq<T>, x: T, n: nat)
    requires n > 0
    ensures Newest(Newest(xs, n) + [x], n) == Newest(xs + [x], n)
  {
  }

  /** A ring keeps its end: nothing is lost while it fits, and the oldest go first. */
  lemma NewestMeans<T>(xs: seq<T>, cap: nat, k: nat)
    ensures |Newest(xs, cap)| == if |xs| <= cap then |xs| else cap
    ensures k < |xs| && k < cap ==> Newest(xs, cap)[|Newest(xs, cap)| - 1 - k] == xs[|xs| - 1 - k]
  {
  }

  function MemoryEvents(log: seq<RuntimeEvent>): seq<MemoryEventPayload> {
    if log == [] then []
    else
      var e := log[|log| - 1];
      MemoryEvents(log[..|log| - 1]) + (if e.MemoryLifecycle? then [e.payload] else [])
  }

  function Decisions(log: seq<RuntimeEvent>): seq<WriteDecision> {
    if log == [] then []
    else
      var e := log[|log| - 1];
      Decisions(log[..|log| - 1]) +
      (if e.MemoryWriteDecision? then [WriteDecision(e.candidateId, e.decision, e.receivedAt)] else [])
  }

  /** A lifecycle event that tells the views to fetch again. */
  predicate TellsToRefetch(payload: MemoryEventPayload) {
    payload.event == "memory_invalidated"
  }

  function Invalidations(payloads: seq<MemoryEventPayload>): seq<MemoryEventPayload> {
    if payloads == [] then []
    else
      var n := |payloads| - 1;
      Invalidations(payloads[..n]) + (if TellsToRefetch(payloads[n]) then [payloads[n]] else [])
  }

  /** What is to be fetched again: the string under `scope_kind`, otherwise the entries. */
  function RefetchScope(payload: MemoryEventPayload): string {
    match payload.extra
    case Some(extra) =>
      if "scope_kind" !in extra then "entries"
      else (match extra["scope_kind"] case Str(scope) => scope case _ => "entries")
    case None => "entries"
  }

  function AfterTurnOf(e: RuntimeEvent): Option<AfterTurn> {
    if e.MemoryAfterTurn? then
      Some(AfterTurn(
        e.traceVersion, e.caller, e.policyVersion, e.decidedAt, |e.decisions|, |e.quality.accepted|,
        |e.quality.rejected|, |e.quality.warnings|, |e.conflicts|, e.quality, e.conflicts, e.receivedAt))
    else None
  }

  /** The rings hold the newest 64 lifecycle events and 32 decisions; the counter counts
      the invalidations and the scope is that of the last one. */
  ghost predicate MemorySummarises(m: MemoryProjection, log: seq<RuntimeEvent>) {
    var invalidations := Invalidations(MemoryEvents(log));
    && m.recentEvents == Newest(MemoryEvents(log), 64)
    && m.writeDecisions == Newest(Decisions(log), 32)
    && m.invalidationVersion == |invalidations|
    && m.lastInvalidationScope ==
         (if invalidations == [] then None else Some(RefetchScope(invalidations[|invalidations| - 1])))
    && m.lastRecallItems == LastSome(log, RecallOf).GetOr([])
    && m.lastAfterTurn == LastSome(log, AfterTurnOf)
  }

  lemma SameDecisions(log: seq<RuntimeEvent>)
    requires log != [] && !log[|log| - 1].MemoryWriteDecision?
    ensures Decisions(log) == Decisions(log[..|log| - 1])
  {
  }

  lemma SameMemoryEvents(log: seq<RuntimeEvent>)
    requires log != [] && !log[|log| - 1].MemoryLifecycle?
    ensures MemoryEvents(log) == MemoryEvents(log[..|log| - 1])
  {
  }

  lemma LifecycleStep(log: seq<RuntimeEvent>)
    requires log != [] && log[|log| - 1].MemoryLifecycle?
    ensures var earlier, payload := MemoryEvents(log[..|log| - 1]), log[|log| - 1].payload;
            && MemoryEvents(log) == earlier + [payload]
            && Newest(MemoryEvents(log), 64) == Newest(Newest(earlier, 64) + [payload], MEMORY_RING_CAP)
            && Invalidations(MemoryEvents(log)) ==
                 Invalidations(earlier) + (if TellsToRefetch(payload) then [payload] else [])
  {
    var earlier, payload := MemoryEvents(log[..|log| - 1]), log[|log| - 1].payload;
    NewestOfNewest(earlier, payload, 64);
    assert (earlier + [payload])[..|earlier|] == earlier;
  }

  lemma MemoryStep(m: MemoryProjection, log: seq<RuntimeEvent>)
    requires log != [] && MemorySummarises(m, log[..|log| - 1])
    ensures var e := log[|log| - 1];
            MemorySummarises(
              if ActsOnMemory(e) then ReduceMemory(m, e)
              else m.(lastRecallItems := RecallOf(e).GetOr(m.lastRecallItems)),
              log)
  {
    hide Newest, Invalidations;
    var before, e := log[..|log| - 1], log[|log| - 1];
    if e.MemoryLifecycle? {
      hide Decisions;
      SameDecisions(log);
      LifecycleStep(log);
    } else if e.MemoryWriteDecision? {
      SameMemoryEvents(log);
      NewestOfNewest(Decisions(before), WriteDecision(e.candidateId, e.decision, e.receivedAt), 32);
    } else {
      SameDecisions(log);
      SameMemoryEvents(log);
    }
  }

  lemma {:induction false} MemoryIsASummary(log: seq<RuntimeEvent>)
    ensures MemorySummarises(After(log).memory, log)
  {
    if log != [] {
      var before := log[..|log| - 1];
      MemoryIsASummary(before);
      ReduceActsOnMemory(After(before), log[|log| - 1]);
      MemoryStep(After(before).memory, log);
    }
  }

  // ----- approvals, activation, execution mode -----

  /** A prompt is pending exactly when the last event about its session is the request. */
  lemma {:induction false} ApprovalIsTheLastRequest(log: seq<RuntimeEvent>, sid: string)
    ensures Get(After(log).approvals, sid) == LastSome(log, e => ApprovalOf(e, sid)).GetOr(None)
  {
    if log != [] {
      var before := log[..|log| - 1];
      ApprovalIsTheLastRequest(before, sid);
      ReduceActsPerSession(After(before), log[|log| - 1], sid);
    }
  }

  function ActivationOf(e: RuntimeEvent): Option<Activation> {
    if e.ActivationSnapshot? then Some(Activation(e.statusKind, e.allowsMainShell, e.receivedAt)) else None
  }

  function DecisionOf(e: RuntimeEvent): Option<(ExecutionMode, Judgement, int)> {
    if e.ExecutionModeDecision? then Some((e.mode, e.judgement, e.receivedAt)) else None
  }

  function OverrideOf(e: RuntimeEvent): Option<Option<ExecutionMode>> {
    if e.ExecutionModeManualOverride? then Some(e.override) else None
  }

  /** The stamp of an event about the mode. */
  function ModeStamp(e: RuntimeEvent): Option<int> {
    if e.ExecutionModeDecision? || e.ExecutionModeManualOverride? then Some(e.receivedAt) else None
  }

  /** The first mode the user set, and when. */
  function FirstMode(log: seq<RuntimeEvent>): Option<(ExecutionMode, int)> {
    if log == [] then None
    else
      var earlier, mode := FirstMode(log[..|log| - 1]), OverrideOf(log[|log| - 1]).GetOr(None);
      if earlier.Some? || mode.None? then earlier else Some((mode.value, log[|log| - 1].receivedAt))
  }

  lemma ReduceActsOnMode(s: Snapshot, e: RuntimeEvent)
    ensures ReduceRuntimeEvent(s, e).activation == ActivationOf(e).Or(s.activation)
    ensures ReduceRuntimeEvent(s, e).executionMode ==
              if e.ExecutionModeDecision? || e.ExecutionModeManualOverride?
              then ReduceExecutionMode(s.executionMode, e) else s.executionMode
  {
  }

  /** A judgement that says nothing: lowest risk, nothing matched, no reasons, no hint. */
  predicate IsBlank(j: Judgement) {
    && j.runId == None && j.riskLevel == RiskLow && j.complexityLevel == Trivial && j.reasonCodes == []
    && j.scenarioProfileHint == None && j.matchedRules == [] && j.slotSummary == Null
    && !j.ambiguousEscalated && j.escalationSource == None && j.policyVersion == ""
  }

  /** The judgement and its time are those of the classifier's last decision and no override ever
      changes them (only while there is none does the first override stand in, with no judgement);
      the override is the last one the user set, whatever the classifier said since; and the last
      update is that of the last event about the mode. */
  ghost predicate ModeSummarises(mode: Option<ExecutionModeProjection>, log: seq<RuntimeEvent>) {
    var decision, first := LastSome(log, DecisionOf), FirstMode(log);
    && (mode.None? <==> decision.None? && first.None?)
    && (if mode.Some? then mode.value.manualOverride else None) == LastSome(log, OverrideOf).GetOr(None)
    && (mode.Some? ==>
          && Some(mode.value.lastUpdatedAt) == LastSome(log, ModeStamp)
          && (if decision.Some? then
                (mode.value.mode, mode.value.judgement, mode.value.capturedAt) == decision.value
              else
                (mode.value.mode, mode.value.capturedAt) == first.value && IsBlank(mode.value.judgement)))
  }

  lemma ModeStep(mode: Option<ExecutionModeProjection>, log: seq<RuntimeEvent>)
    requires log != [] && ModeSummarises(mode, log[..|log| - 1])
    ensures var e := log[|log| - 1];
            ModeSummarises(
              if e.ExecutionModeDecision? || e.ExecutionModeManualOverride? then ReduceExecutionMode(mode, e) else mode,
              log)
  {
  }

  lemma {:induction false} ModeIsASummary(log: seq<RuntimeEvent>)
    ensures After(log).activation == LastSome(log, ActivationOf)
    ensures ModeSummarises(After(log).executionMode, log)
  {
    if log != [] {
      var before := log[..|log| - 1];
      ModeIsASummary(before);
      ReduceActsOnMode(After(before), log[|log| - 1]);
      ModeStep(After(before).executionMode, log);
    }
  }
}
