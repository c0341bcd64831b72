/** What a live payload becomes: whether it is an event, and what a completion leaves behind. */
module LiveTokens {
  import opened JsValues
  import opened RuntimeTypes
  import opened RuntimeReducer
  import opened RunIsolation
  import opened SnapshotSummary
  import opened EventTranslator

  predicate IsMissing(s: Option<string>) {
    s == None || s == Some("")
  }

  /** Payloads nothing comes of: those of a kind the program does not know, and tool updates that
      do not say which tool, which call and how it is. */
  predicate IsDropped(p: StreamTokenPayload) {
    || p.eventType !in {"text_delta", "thinking_start", "thinking_delta", "tool_call_update", "final_text_override",
                        "stream_complete", "stream_error"}
    || (p.eventType == "tool_call_update"
        && (IsMissing(p.toolCallId) || IsMissing(p.toolName) || p.toolStatus == None))
  }

  lemma DroppedIff(p: StreamTokenPayload, at: int)
    ensures TranslateAgentToken(p, at) == None <==> IsDropped(p)
    ensures !IsDropped(p) ==>
              var event := TranslateAgentToken(p, at).value;
              event.Stream?() && event.runId == p.streamId && event.receivedAt == at
  {
  }

  /** A run that has completed holds every summary of the payload under its own name, and an
      earlier one where the payload has none; only the context budget is then forgotten. */
  ghost predicate HoldsSummaries(run: RunProjection, p: StreamTokenPayload, earlier: Option<RunProjection>) {
    && run.contextBudgetUsage == p.contextBudgetUsage
    && (match p.memoryContext
        case Some(items) => run.memoryItems == items
        case None => run.memoryItems == if earlier.Some? then earlier.value.memoryItems else [])
    && IsNewOrKept(run.promptDiagnostics, p.promptDiagnostics,
                   if earlier.Some? then earlier.value.promptDiagnostics else None)
    && IsNewOrKept(run.turnCost, p.turnCost, if earlier.Some? then earlier.value.turnCost else None)
    && IsNewOrKept(run.routing, p.routingInfo, if earlier.Some? then earlier.value.routing else None)
    && IsNewOrKept(run.sessionTotals, p.sessionTotals, if earlier.Some? then earlier.value.sessionTotals else None)
  }

  predicate IsNewOrKept<T(==)>(now: Option<T>, given: Option<T>, earlier: Option<T>) {
    if given == None then now == earlier else now == given
  }

  lemma StepLeavesSummaries(run: Option<RunProjection>, p: StreamTokenPayload, at: int)
    requires p.eventType == "stream_complete"
    ensures var event := TranslateAgentToken(p, at);
            && event.Some? && event.value.StreamComplete? && event.value.runId == p.streamId
            && StepRun(run, p.streamId, event.value).Some?
            && HoldsSummaries(StepRun(run, p.streamId, event.value).value, p, run)
            && event.value.extras.memoryItems == p.memoryContext
  {
  }

  /** What was recalled for a turn is shown until another turn recalls something. */
  lemma CompletionLeavesSummaries(log: seq<RuntimeEvent>, p: StreamTokenPayload, at: int)
    requires p.eventType == "stream_complete"
    ensures TranslateAgentToken(p, at).Some?
    ensures var before, after := After(log), After(log + [TranslateAgentToken(p, at).value]);
            var run := Get(after.runs, p.streamId);
            && run.Some? && HoldsSummaries(run.value, p, Get(before.runs, p.streamId))
            && after.memory == before.memory.(lastRecallItems :=
                 if p.memoryContext.Some? && p.memoryContext.value != [] then p.memoryContext.value
                 else before.memory.lastRecallItems)
  {
    StepLeavesSummaries(Get(After(log).runs, p.streamId), p, at);
    hide TranslateAgentToken, Fold, ReduceRuntimeEvent, ReduceMemory, HoldsSummaries, StepRun;
    var event := TranslateAgentToken(p, at).value;
    FoldSnoc(EmptySnapshot(), log, event);
    ReduceActsPerRun(After(log), event, p.streamId);
    ReduceActsOnMemory(After(log), event);
  }
}
