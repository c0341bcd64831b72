/** The reducer: folds canonical runtime events into a snapshot. */
module RuntimeReducer {
  import opened JsValues
  import opened RuntimeTypes

  const MEMORY_RING_CAP := 64
  const MEMORY_DECISION_RING_CAP := 32

  function CreateEmptyRun(runId: string, receivedAt: int): RunProjection {
    RunProjection(
      runId, None, "", "", false, Streaming, None, None, false, None, EmptyRecord(),
      None, None, None, None, [], None, receivedAt)
  }

  function DeriveCompletionStatus(outcome: Option<TaskOutcome>): RunStatus {
    if outcome == Some(OutcomeFailed) then RunFailed else RunCompleted
  }

  /** Fields the update leaves undefined keep their earlier value. */
  function MergeDetails(update: ToolDetails, earlier: ToolDetails): ToolDetails {
    ToolDetails(
      update.toolArgs.Or(earlier.toolArgs),
      update.toolResult.Or(earlier.toolResult),
      update.toolDurationMs.Or(earlier.toolDurationMs),
      update.effectiveWorkdir.Or(earlier.effectiveWorkdir),
      update.policyDecision.Or(earlier.policyDecision),
      update.evidenceId.Or(earlier.evidenceId),
      update.requestId.Or(earlier.requestId))
  }

  function UpdateTool(existing: Option<ToolCallProjection>, event: RuntimeEvent): ToolCallProjection
    requires event.StreamToolCallUpdate?
  {
    var details := if existing.Some? then MergeDetails(event.details, existing.value.details) else event.details;
    var firstSeenAt := if existing.Some? then existing.value.firstSeenAt else event.receivedAt;
    ToolCallProjection(event.toolCallId, event.toolName, event.status, details, firstSeenAt, event.receivedAt)
  }

  /** What a stream event changes in its run, apart from `lastUpdatedAt`. */
  function UpdateRun(run: RunProjection, event: RuntimeEvent): RunProjection
    requires event.Stream?()
  {
    match event
    case StreamRunBound(_, sessionId, _) =>
      run.(sessionId := Some(sessionId))
    case StreamTextDelta(_, text, _) =>
      run.(text := run.text + text, status := Streaming)
    case StreamThinkingStart(_, _) =>
      run.(thinkingStarted := true, status := Streaming)
    case StreamThinkingDelta(_, thinking, _) =>
      run.(thinking := run.thinking + thinking, thinkingStarted := true, status := Streaming)
    case StreamToolCallUpdate(_, toolCallId, _, _, _, _) =>
      run.(toolCalls := Put(run.toolCalls, toolCallId, UpdateTool(Get(run.toolCalls, toolCallId), event)))
    case StreamFinalTextOverride(_, text, _, _) =>
      run.(text := text)
    case StreamComplete(_, ending, extras, _) =>
      run.(
        status := DeriveCompletionStatus(ending.taskOutcome),
        taskOutcome := ending.taskOutcome,
        degradedReason := ending.degradedReason,
        resumeAvailable := ending.resumeAvailable.GetOr(false),
        resumeCursor := ending.resumeCursor,
        contextBudgetUsage := extras.contextBudgetUsage,
        turnCost := extras.turnCost.Or(run.turnCost),
        routing := extras.routing.Or(run.routing),
        sessionTotals := extras.sessionTotals.Or(run.sessionTotals),
        memoryItems := extras.memoryItems.GetOr(run.memoryItems),
        promptDiagnostics := extras.promptDiagnostics.Or(run.promptDiagnostics))
    case StreamError(_, reason, ending, _) =>
      run.(
        status := RunFailed,
        taskOutcome := ending.taskOutcome.Or(Some(OutcomeFailed)),
        degradedReason := ending.degradedReason.Or(Some(reason)),
        resumeAvailable := ending.resumeAvailable.GetOr(false),
        resumeCursor := ending.resumeCursor)
  }

  function MergeRun(prev: Snapshot, event: RuntimeEvent): Snapshot
    requires event.Stream?()
  {
    var existing := Get(prev.runs, event.runId).GetOr(CreateEmptyRun(event.runId, event.receivedAt));
    var updated := UpdateRun(existing, event).(lastUpdatedAt := event.receivedAt);
    prev.(runs := Put(prev.runs, event.runId, updated))
  }

  /** The newest `cap` elements. */
  function Newest<T>(ring: seq<T>, cap: nat): seq<T> {
    if |ring| > cap then ring[|ring| - cap..] else ring
  }

  predicate IsInvalidation(payload: MemoryEventPayload) {
    payload.event == "memory_invalidated"
  }

  function InvalidationScope(payload: MemoryEventPayload): string {
    if payload.extra.Some? && "scope_kind" in payload.extra.value && payload.extra.value["scope_kind"].Str?
    then payload.extra.value["scope_kind"].s
    else "entries"
  }

  function RunsOutside(runs: Record<RunProjection>, sessionId: string): (left: Record<RunProjection>)
    ensures forall k :: Get(left, k) ==
              if Get(runs, k).Some? && Get(runs, k).value.sessionId == Some(sessionId) then None else Get(runs, k)
  {
    Restrict(runs, set k | k in runs.entries && runs.entries[k].sessionId != Some(sessionId))
  }

  function ReduceMemory(memory: MemoryProjection, event: RuntimeEvent): MemoryProjection
    requires event.MemoryLifecycle? || event.MemoryAfterTurn? || event.MemoryWriteDecision?
  {
    match event
    case MemoryLifecycle(payload, _) =>
      var invalidates := IsInvalidation(payload);
      memory.(
        recentEvents := Newest(memory.recentEvents + [payload], MEMORY_RING_CAP),
        invalidationVersion := memory.invalidationVersion + (if invalidates then 1 else 0),
        lastInvalidationScope :=
          if invalidates then Some(InvalidationScope(payload)) else memory.lastInvalidationScope)
    case MemoryAfterTurn(traceVersion, caller, policyVersion, decidedAt, decisions, quality, conflicts, at) =>
      memory.(lastAfterTurn := Some(AfterTurn(
        traceVersion, caller, policyVersion, decidedAt, |decisions|, |quality.accepted|, |quality.rejected|,
        |quality.warnings|, |conflicts|, quality, conflicts, at)))
    case MemoryWriteDecision(candidateId, decision, at) =>
      memory.(writeDecisions :=
        Newest(memory.writeDecisions + [WriteDecision(candidateId, decision, at)], MEMORY_DECISION_RING_CAP))
  }

  /** What is shown while the classifier has said nothing. */
  const NO_JUDGEMENT := Judgement(None, RiskLow, Trivial, [], None, [], Null, false, None, "")

  function ReduceExecutionMode(base: Option<ExecutionModeProjection>, event: RuntimeEvent)
    : Option<ExecutionModeProjection>
    requires event.ExecutionModeDecision? || event.ExecutionModeManualOverride?
  {
    match event
    case ExecutionModeDecision(mode, judgement, at) =>
      var manualOverride := if base.Some? then base.value.manualOverride else None;
      Some(ExecutionModeProjection(mode, judgement, manualOverride, at, at))
    case ExecutionModeManualOverride(override, at) =>
      if base.Some? then
        Some(base.value.(manualOverride := override, lastUpdatedAt := at))
      else if override.None? then
        None
      else
        Some(ExecutionModeProjection(override.value, NO_JUDGEMENT, override, at, at))
  }

  function ReduceRuntimeEvent(prev: Snapshot, event: RuntimeEvent): Snapshot {
    match event
    case StreamComplete(_, _, extras, _) =>
      var snap := MergeRun(prev, event);
      if extras.memoryItems.Some? && |extras.memoryItems.value| > 0 then
        snap.(memory := snap.memory.(lastRecallItems := extras.memoryItems.value))
      else
        snap
    case PermissionRequest(sessionId, request, at) =>
      prev.(approvals := Put(prev.approvals, sessionId, Approval(sessionId, request, at)))
    case PermissionResolved(sessionId, _) =>
      if Get(prev.approvals, sessionId).None? then prev
      else prev.(approvals := Delete(prev.approvals, sessionId))
    case MemoryLifecycle(_, _) => prev.(memory := ReduceMemory(prev.memory, event))
    case MemoryAfterTurn(_, _, _, _, _, _, _, _) => prev.(memory := ReduceMemory(prev.memory, event))
    case MemoryWriteDecision(_, _, _) => prev.(memory := ReduceMemory(prev.memory, event))
    case ActivationSnapshot(statusKind, allowsMainShell, at) =>
      prev.(activation := Some(Activation(statusKind, allowsMainShell, at)))
    case ExecutionModeDecision(_, _, _) =>
      prev.(executionMode := ReduceExecutionMode(prev.executionMode, event))
    case ExecutionModeManualOverride(_, _) =>
      prev.(executionMode := ReduceExecutionMode(prev.executionMode, event))
    case DiscardSessionRuns(sessionId, _) =>
      prev.(runs := RunsOutside(prev.runs, sessionId), approvals := Delete(prev.approvals, sessionId))
    case _ => MergeRun(prev, event)
  }

  /** The snapshot after a whole log. */
  function Fold(prev: Snapshot, events: seq<RuntimeEvent>): Snapshot {
    if events == [] then prev
    else ReduceRuntimeEvent(Fold(prev, events[..|events| - 1]), events[|events| - 1])
  }

  lemma {:induction false} FoldConcat(prev: Snapshot, a: seq<RuntimeEvent>, b: seq<RuntimeEvent>)
    ensures Fold(prev, a + b) == Fold(Fold(prev, a), b)
  {
    hide ReduceRuntimeEvent;
    if b == [] {
      assert a + b == a;
    } else {
      var n := |b| - 1;
      var whole := a + b;
      assert whole[..|whole| - 1] == a + b[..n] && whole[|whole| - 1] == b[n];
      FoldConcat(prev, a, b[..n]);
    }
  }

  lemma FoldSnoc(prev: Snapshot, events: seq<RuntimeEvent>, event: RuntimeEvent)
    ensures Fold(prev, events + [event]) == ReduceRuntimeEvent(Fold(prev, events), event)
  {
    assert (events + [event])[..|events|] == events;
  }

  method ReduceRuntimeEventBatch(prev: Snapshot, events: seq<RuntimeEvent>) returns (next: Snapshot)
    ensures next == Fold(prev, events)
  {
    next := prev;
    for i := 0 to |events|
      invariant next == Fold(prev, events[..i])
    {
      assert events[..i + 1][..i] == events[..i];
      next := ReduceRuntimeEvent(next, events[i]);
    }
    assert events[..|events|] == events;
  }

  /** A record on its way from `old_` to `target`: the visited entries have arrived. */
  ghost predicate Underway<V>(r: Record<V>, old_: Record<V>, target: Record<V>, visited: set<string>) {
    forall k :: Get(r, k) == if k in visited then Get(target, k) else Get(old_, k)
  }

  lemma OneMoreArrives<V>(r: Record<V>, r': Record<V>, old_: Record<V>, target: Record<V>, visited: set<string>,
                          key: string)
    requires Underway(r, old_, target, visited)
    requires forall k :: k != key ==> Get(r', k) == Get(r, k)
    requires Get(r', key) == Get(target, key)
    ensures Underway(r', old_, target, visited + {key})
  {
  }

  lemma AllArrived<V>(r: Record<V>, old_: Record<V>, target: Record<V>, visited: set<string>)
    requires Underway(r, old_, target, visited)
    requires forall k :: k !in visited ==> Get(old_, k) == Get(target, k)
    ensures forall k :: Get(r, k) == Get(target, k)
  {
  }

  lemma DiscardStep(runs: Record<RunProjection>, left: Record<RunProjection>, sessionId: string,
                    visited: set<string>, runId: string)
    requires Underway(left, runs, RunsOutside(runs, sessionId), visited) && Follows(left, runs)
    requires runId in runs.entries
    ensures var left' := if runs.entries[runId].sessionId == Some(sessionId) then Delete(left, runId) else left;
            Underway(left', runs, RunsOutside(runs, sessionId), visited + {runId}) && Follows(left', runs)
  {
    hide Restrict, RunsOutside, Follows, Delete;
    var target := RunsOutside(runs, sessionId);
    assert Get(runs, runId) == Some(runs.entries[runId]);
    assert Get(left, runId) == if runId in visited then Get(target, runId) else Get(runs, runId);
    hide Underway;
    if runs.entries[runId].sessionId == Some(sessionId) {
      DeleteFollows(left, runs, runId);
      OneMoreArrives(left, Delete(left, runId), runs, target, visited, runId);
    } else {
      OneMoreArrives(left, left, runs, target, visited, runId);
    }
  }

  lemma NothingDiscarded(runs: Record<RunProjection>, target: Record<RunProjection>)
    ensures Underway(runs, runs, target, {}) && Follows(runs, runs)
  {
    KeepAll(runs.keys, runs.entries.Keys);
  }

  lemma AllDiscarded(runs: Record<RunProjection>, left: Record<RunProjection>, sessionId: string,
                     visited: set<string>)
    requires Underway(left, runs, RunsOutside(runs, sessionId), visited) && Follows(left, runs)
    requires forall k :: k in runs.keys ==> k in visited
    ensures left == RunsOutside(runs, sessionId)
  {
    hide Follows, Underway, RunsOutside, Restrict;
    AllArrived(left, runs, RunsOutside(runs, sessionId), visited);
    RunsOutsideFollows(runs, sessionId);
    FollowersAgree(left, RunsOutside(runs, sessionId), runs);
  }

  /** The loop of `projection_discard_session_runs` over a copy of the runs. */
  method DiscardRuns(runs: Record<RunProjection>, sessionId: string) returns (left: Record<RunProjection>)
    ensures left == RunsOutside(runs, sessionId)
  {
    hide Restrict, RunsOutside, Follows, Underway, Delete, InOrder;
    left := runs;
    ghost var target := RunsOutside(runs, sessionId);
    ghost var visited: set<string> := {};
    NothingDiscarded(runs, target);
    for i := 0 to |runs.keys|
      invariant forall j :: 0 <= j < i ==> runs.keys[j] in visited
      invariant Underway(left, runs, target, visited)
      invariant Follows(left, runs)
    {
      var runId := runs.keys[i];
      DiscardStep(runs, left, sessionId, visited, runId);
      if runs.entries[runId].sessionId == Some(sessionId) {
        left := Delete(left, runId);
      }
      visited := visited + {runId};
    }
    assert forall k :: k in runs.keys ==> k in visited;
    AllDiscarded(runs, left, sessionId, visited);
  }

  lemma RunsOutsideFollows(runs: Record<RunProjection>, sessionId: string)
    ensures Follows(RunsOutside(runs, sessionId), runs)
  {
    RestrictFollows(runs, set k | k in runs.entries && runs.entries[k].sessionId != Some(sessionId));
  }

  /** The loop of `permission_resolved`: copies every approval but one. A record whose keys are
      in order keeps that order. */
  method StripApproval(approvals: Record<Approval>, sessionId: string) returns (next: Record<Approval>)
    ensures forall k :: Get(next, k) == Get(Delete(approvals, sessionId), k)
    ensures InOrder(approvals.keys) ==> next == Delete(approvals, sessionId)
  {
    hide Delete, InOrder, CopiesInOrder, Underway, Put;
    next := EmptyRecord();
    ghost var start, target := next, Delete(approvals, sessionId);
    ghost var visited: set<string> := {};
    ghost var keep := approvals.entries.Keys - {sessionId};
    NothingCopied(approvals, target, keep);
    for i := 0 to |approvals.keys|
      invariant forall j :: 0 <= j < i ==> approvals.keys[j] in visited
      invariant visited <= approvals.entries.Keys
      invariant Underway(next, start, target, visited)
      invariant CopiesInOrder(approvals, next, i, keep)
    {
      var key := approvals.keys[i];
      CopyStep(approvals, next, i, keep);
      StripStep(approvals, next, sessionId, visited, key);
      if key != sessionId {
        next := Put(next, key, approvals.entries[key]);
      }
      visited := visited + {key};
    }
    assert forall k :: k in approvals.keys ==> k in visited;
    AllArrived(next, start, target, visited);
    AllCopied(approvals, next, sessionId);
  }

  lemma NothingCopied(approvals: Record<Approval>, target: Record<Approval>, keep: set<string>)
    ensures Underway(EmptyRecord(), EmptyRecord(), target, {})
    ensures CopiesInOrder(approvals, EmptyRecord(), 0, keep)
  {
  }

  lemma StripStep(approvals: Record<Approval>, next: Record<Approval>, sessionId: string, visited: set<string>,
                  key: string)
    requires key in approvals.entries && Underway(next, EmptyRecord(), Delete(approvals, sessionId), visited)
    ensures var next' := if key != sessionId then Put(next, key, approvals.entries[key]) else next;
            Underway(next', EmptyRecord(), Delete(approvals, sessionId), visited + {key})
  {
    hide Delete, Put;
    var next' := if key != sessionId then Put(next, key, approvals.entries[key]) else next;
    assert Get(next', key) == Get(Delete(approvals, sessionId), key);
    hide Underway;
    OneMoreArrives(next, next', EmptyRecord(), Delete(approvals, sessionId), visited, key);
  }

  lemma AllCopied<V>(original: Record<V>, copy: Record<V>, key: string)
    requires CopiesInOrder(original, copy, |original.keys|, original.entries.Keys - {key})
    requires forall k :: Get(copy, k) == Get(Delete(original, key), k)
    ensures InOrder(original.keys) ==> copy == Delete(original, key)
  {
    hide InOrder, Delete;
    assert original.keys[..|original.keys|] == original.keys;
    if InOrder(original.keys) {
      DeletedKeys(original, key);
      SameContentsSameRecord(copy, Delete(original, key));
    }
  }

  lemma DeletedKeys<V>(r: Record<V>, key: string)
    ensures Delete(r, key).keys == FilterKeys(r.keys, r.entries.Keys - {key})
  {
  }

  /** The first `i` keys that are kept have been copied, in order. */
  ghost predicate CopiesInOrder<V>(original: Record<V>, copy: Record<V>, i: nat, keep: set<string>)
    requires i <= |original.keys|
  {
    InOrder(original.keys) ==> copy.keys == FilterKeys(original.keys[..i], keep)
  }

  lemma CopyStep<V>(original: Record<V>, copy: Record<V>, i: nat, keep: set<string>)
    requires i < |original.keys| && CopiesInOrder(original, copy, i, keep)
    ensures var key := original.keys[i];
            key in original.entries &&
            CopiesInOrder(
              original, if key in keep then Put(copy, key, original.entries[key]) else copy, i + 1, keep)
  {
    var keys, key := original.keys, original.keys[i];
    assert keys[..i + 1] == keys[..i] + [key];
    FilterSnoc(keys[..i], key, keep);
    if InOrder(keys) && key in keep {
      CopiedInOrder(keys, i, keep);
      assert key !in keys[..i] by {
        assert forall j :: 0 <= j < i ==> keys[..i][j] == keys[j] != key;
      }
      AppendedKey(copy, key, original.entries[key]);
    }
  }

  lemma AppendedKey<V>(r: Record<V>, key: string, v: V)
    requires key !in r.keys && InsertionPoint(r.keys, key) == |r.keys|
    ensures Put(r, key, v).keys == r.keys + [key]
  {
    hide InsertionPoint;
    assert key !in r.entries;
    assert r.keys[..|r.keys|] == r.keys && r.keys[|r.keys|..] == [];
  }

  lemma SameContentsSameRecord<V>(a: Record<V>, b: Record<V>)
    requires a.keys == b.keys && forall k :: Get(a, k) == Get(b, k)
    ensures a == b
  {
    assert forall k :: k in a.entries ==> Get(a, k) == Some(a.entries[k]) && Get(b, k) == Some(b.entries[k]);
    assert forall k :: k in b.entries ==> Get(a, k) == Some(a.entries[k]);
    assert a.entries == b.entries;
  }

  /** A key copied after those that precede it goes to the end. */
  lemma CopiedInOrder(keys: seq<string>, i: nat, keep: set<string>)
    requires InOrder(keys) && i < |keys|
    ensures InsertionPoint(FilterKeys(keys[..i], keep), keys[i]) == |FilterKeys(keys[..i], keep)|
  {
    var copied := FilterKeys(keys[..i], keep);
    forall j | 0 <= j < |copied| ensures Precedes(copied[j], keys[i]) {
      assert copied[j] in keys[..i];
    }
    LastKeyIsAppended(copied, keys[i]);
  }
}
