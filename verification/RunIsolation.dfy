/** Each run depends on its own stream events and on session discards only. */
module RunIsolation {
  import opened JsValues
  import opened RuntimeTypes
  import opened RuntimeReducer

  /** What one event does to run `r` alone. */
  function StepRun(run: Option<RunProjection>, r: string, event: RuntimeEvent): Option<RunProjection> {
    if event.Stream?() && event.runId == r then
      var existing := run.GetOr(CreateEmptyRun(r, event.receivedAt));
      Some(UpdateRun(existing, event).(lastUpdatedAt := event.receivedAt))
    else if event.DiscardSessionRuns? && run.Some? && run.value.sessionId == Some(event.sessionId) then
      None
    else
      run
  }

  lemma MergeActsPerRun(prev: Snapshot, event: RuntimeEvent, r: string)
    requires event.Stream?()
    ensures Get(MergeRun(prev, event).runs, r) == StepRun(Get(prev.runs, r), r, event)
  {
    hide UpdateRun, CreateEmptyRun;
  }

  lemma ReduceMerges(prev: Snapshot, event: RuntimeEvent)
    requires event.Stream?()
    ensures ReduceRuntimeEvent(prev, event).runs == MergeRun(prev, event).runs
  {
    hide UpdateRun;
  }

  lemma ReduceKeepsRuns(prev: Snapshot, event: RuntimeEvent)
    requires !event.Stream?()
    ensures ReduceRuntimeEvent(prev, event).runs ==
              if event.DiscardSessionRuns? then RunsOutside(prev.runs, event.sessionId) else prev.runs
  {
    hide RunsOutside;
  }

  lemma ReduceActsPerRun(prev: Snapshot, event: RuntimeEvent, r: string)
    ensures Get(ReduceRuntimeEvent(prev, event).runs, r) == StepRun(Get(prev.runs, r), r, event)
  {
    if event.Stream?() {
      hide ReduceRuntimeEvent, MergeRun, StepRun;
      ReduceMerges(prev, event);
      MergeActsPerRun(prev, event, r);
    } else {
      ReduceKeepsRuns(prev, event);
      hide ReduceRuntimeEvent;
    }
  }

  /** Run `r` after a log, computed from `r` alone. */
  function FoldRun(run: Option<RunProjection>, r: string, events: seq<RuntimeEvent>): Option<RunProjection> {
    if events == [] then run
    else StepRun(FoldRun(run, r, events[..|events| - 1]), r, events[|events| - 1])
  }

  lemma {:induction false} FoldActsPerRun(prev: Snapshot, events: seq<RuntimeEvent>, r: string)
    ensures Get(Fold(prev, events).runs, r) == FoldRun(Get(prev.runs, r), r, events)
  {
    if events != [] {
      var n := |events| - 1;
      FoldActsPerRun(prev, events[..n], r);
      ReduceActsPerRun(Fold(prev, events[..n]), events[n], r);
    }
  }

  predicate Concerns(event: RuntimeEvent, r: string) {
    (event.Stream?() && event.runId == r) || event.DiscardSessionRuns?
  }

  /** The events of a log that concern run `r`, in order. */
  function Concerning(events: seq<RuntimeEvent>, r: string): seq<RuntimeEvent> {
    if events == [] then []
    else
      var n := |events| - 1;
      Concerning(events[..n], r) + (if Concerns(events[n], r) then [events[n]] else [])
  }

  lemma {:induction false} FoldRunConcerning(run: Option<RunProjection>, r: string, events: seq<RuntimeEvent>)
    ensures FoldRun(run, r, Concerning(events, r)) == FoldRun(run, r, events)
  {
    if events != [] {
      var n := |events| - 1;
      FoldRunConcerning(run, r, events[..n]);
      if Concerns(events[n], r) {
        var before := Concerning(events[..n], r);
        assert Concerning(events, r)[..|before|] == before;
      } else {
        assert Concerning(events, r) == Concerning(events[..n], r);
      }
    }
  }

  /** Isolation: the rest of the log might as well not be there. */
  lemma RunIsIsolated(prev: Snapshot, events: seq<RuntimeEvent>, r: string)
    ensures Get(Fold(prev, events).runs, r) == Get(Fold(prev, Concerning(events, r)).runs, r)
  {
    FoldActsPerRun(prev, events, r);
    FoldActsPerRun(prev, Concerning(events, r), r);
    FoldRunConcerning(Get(prev.runs, r), r, events);
  }

  /** Confluence: two interleavings that keep, for each run, the order of its own events
      relative to each other and to the discards produce the same runs. */
  lemma InterleavingsAgree(prev: Snapshot, a: seq<RuntimeEvent>, b: seq<RuntimeEvent>)
    requires forall r :: Concerning(a, r) == Concerning(b, r)
    ensures Fold(prev, a).runs.entries == Fold(prev, b).runs.entries
  {
    var left, right := Fold(prev, a).runs, Fold(prev, b).runs;
    forall r ensures Get(left, r) == Get(right, r) {
      RunIsIsolated(prev, a, r);
      RunIsIsolated(prev, b, r);
    }
    assert forall r :: r in left.entries <==> Get(left, r).Some?;
    assert forall r :: r in right.entries <==> Get(right, r).Some?;
  }
}
