/** The event queue and the snapshot store it feeds. */
module RuntimeStore {
  import opened JsValues
  import opened RuntimeTypes
  import opened RuntimeReducer

  /** True for the events the reducer answers with the very snapshot it was given. */
  predicate IsNoOp(s: Snapshot, event: RuntimeEvent) {
    || (event.PermissionResolved? && Get(s.approvals, event.sessionId).None?)
    || (event.ExecutionModeManualOverride? && s.executionMode.None? && event.override.None?)
  }

  /** Whether folding a batch yields a new snapshot object. */
  function Replaces(s: Snapshot, batch: seq<RuntimeEvent>): bool {
    batch != [] &&
    (var n := |batch| - 1;
     Replaces(s, batch[..n]) || !IsNoOp(Fold(s, batch[..n]), batch[n]))
  }

  lemma {:induction false} UnreplacedIsUnchanged(s: Snapshot, batch: seq<RuntimeEvent>)
    requires !Replaces(s, batch)
    ensures Fold(s, batch) == s
  {
    if batch != [] {
      UnreplacedIsUnchanged(s, batch[..|batch| - 1]);
    }
  }

  // ----- the queue -----

  /** A FIFO buffer. `microtasks` counts the `doFlush` callbacks the host still has to run. */
  class RuntimeEventQueue {
    const sync: bool
    var buffer: seq<RuntimeEvent>
    var flushScheduled: bool
    var microtasks: nat

    constructor (sync: bool)
      ensures this.sync == sync && buffer == [] && !flushScheduled && microtasks == 0
    {
      this.sync := sync;
      buffer := [];
      flushScheduled := false;
      microtasks := 0;
    }

    /** Returns the batch handed to the subscribers; none are called for an empty one. */
    method DoFlush() returns (batch: seq<RuntimeEvent>)
      modifies this`buffer, this`flushScheduled
      ensures batch == old(buffer) && buffer == [] && !flushScheduled
    {
      batch := buffer;
      buffer := [];
      flushScheduled := false;
    }

    method ScheduleFlush()
      modifies this`flushScheduled, this`microtasks
      ensures flushScheduled && microtasks == old(microtasks) + (if old(flushScheduled) then 0 else 1)
    {
      if flushScheduled {
        return;
      }
      flushScheduled := true;
      microtasks := microtasks + 1;
    }

    method Push(event: RuntimeEvent) returns (batch: seq<RuntimeEvent>)
      modifies this
      ensures sync ==> batch == old(buffer) + [event] && buffer == [] && !flushScheduled
                       && microtasks == old(microtasks)
      ensures !sync ==> batch == [] && buffer == old(buffer) + [event] && flushScheduled
                        && microtasks == old(microtasks) + (if old(flushScheduled) then 0 else 1)
    {
      buffer := buffer + [event];
      batch := [];
      if sync {
        batch := DoFlush();
      } else {
        ScheduleFlush();
      }
    }

    method Reset()
      modifies this`buffer, this`flushScheduled
      ensures buffer == [] && !flushScheduled
    {
      buffer := [];
      flushScheduled := false;
    }
  }

  // ----- the store -----

  datatype StoreState = StoreState(
    buffer: seq<RuntimeEvent>, flushScheduled: bool, microtasks: nat, snapshot: Snapshot, notifications: nat)

  /** What can happen to a store; `Microtask` is the host running one outstanding callback. */
  datatype Action = Dispatch(event: RuntimeEvent) | Microtask | Flush | Reset

  function Deliver(s: StoreState, batch: seq<RuntimeEvent>): StoreState {
    s.(snapshot := Fold(s.snapshot, batch),
       notifications := s.notifications + (if Replaces(s.snapshot, batch) then 1 else 0))
  }

  function FlushBuffer(s: StoreState): StoreState {
    Deliver(s.(buffer := [], flushScheduled := false), s.buffer)
  }

  function StepStore(s: StoreState, sync: bool, action: Action): StoreState {
    match action
    case Dispatch(event) =>
      if sync then FlushBuffer(s.(buffer := s.buffer + [event]))
      else s.(buffer := s.buffer + [event], flushScheduled := true,
              microtasks := s.microtasks + (if s.flushScheduled then 0 else 1))
    case Microtask => if s.microtasks == 0 then s else FlushBuffer(s.(microtasks := s.microtasks - 1))
    case Flush => FlushBuffer(s)
    case Reset =>
      s.(buffer := [], flushScheduled := false, snapshot := EmptySnapshot(), notifications := s.notifications + 1)
  }

  class RuntimeProjectionStore {
    const queue: RuntimeEventQueue
    var snapshot: Snapshot
    /** How often the listeners have been called. */
    var notifications: nat

    constructor (sync: bool)
      ensures State() == StoreState([], false, 0, EmptySnapshot(), 0) && queue.sync == sync && fresh(queue)
    {
      queue := new RuntimeEventQueue(sync);
      snapshot := EmptySnapshot();
      notifications := 0;
    }

    ghost function State(): StoreState
      reads this, queue
    {
      StoreState(queue.buffer, queue.flushScheduled, queue.microtasks, snapshot, notifications)
    }

    /** The queue's subscriber. */
    method OnBatch(batch: seq<RuntimeEvent>)
      modifies this
      ensures State() == Deliver(old(State()), batch)
    {
      if batch == [] {
        return;
      }
      var next := ReduceRuntimeEventBatch(snapshot, batch);
      if !Replaces(snapshot, batch) {
        UnreplacedIsUnchanged(snapshot, batch);
        return;
      }
      snapshot := next;
      notifications := notifications + 1;
    }

    method DispatchEvent(event: RuntimeEvent)
      modifies this, queue
      ensures State() == StepStore(old(State()), queue.sync, Dispatch(event))
    {
      var batch := queue.Push(event);
      OnBatch(batch);
    }

    method RunMicrotask()
      modifies this, queue
      ensures State() == StepStore(old(State()), queue.sync, Microtask)
    {
      if queue.microtasks > 0 {
        queue.microtasks := queue.microtasks - 1;
        var batch := queue.DoFlush();
        OnBatch(batch);
      }
    }

    method FlushNow()
      modifies this, queue
      ensures State() == StepStore(old(State()), queue.sync, Flush)
    {
      var batch := queue.DoFlush();
      OnBatch(batch);
    }

    method ResetAll()
      modifies this, queue
      ensures State() == StepStore(old(State()), queue.sync, Reset)
    {
      queue.Reset();
      snapshot := EmptySnapshot();
      notifications := notifications + 1;
    }
  }

  // ----- every schedule -----

  function RunSchedule(sync: bool, schedule: seq<Action>): StoreState {
    if schedule == [] then StoreState([], false, 0, EmptySnapshot(), 0)
    else StepStore(RunSchedule(sync, schedule[..|schedule| - 1]), sync, schedule[|schedule| - 1])
  }

  /** The events dispatched since the last reset. */
  function Dispatched(schedule: seq<Action>): seq<RuntimeEvent> {
    if schedule == [] then []
    else
      var before, action := Dispatched(schedule[..|schedule| - 1]), schedule[|schedule| - 1];
      if action.Dispatch? then before + [action.event]
      else if action.Reset? then []
      else before
  }

  /** The delivered events and the pending ones are, in order, what was dispatched; the
      snapshot is the fold of the delivered ones; and in microtask mode pending events have
      a flush scheduled with a callback outstanding. */
  ghost predicate StoreInvariant(s: StoreState, sync: bool, dispatched: seq<RuntimeEvent>) {
    && |s.buffer| <= |dispatched|
    && (var n := |dispatched| - |s.buffer|;
        dispatched[n..] == s.buffer && s.snapshot == Fold(EmptySnapshot(), dispatched[..n]))
    && (s.buffer != [] ==> s.flushScheduled && !sync)
    && (s.flushScheduled ==> s.microtasks > 0)
  }

  lemma FlushKeepsInvariant(s: StoreState, sync: bool, dispatched: seq<RuntimeEvent>)
    requires |s.buffer| <= |dispatched|
    requires dispatched[|dispatched| - |s.buffer|..] == s.buffer
    requires s.snapshot == Fold(EmptySnapshot(), dispatched[..|dispatched| - |s.buffer|])
    ensures StoreInvariant(FlushBuffer(s), sync, dispatched)
  {
    hide Fold, Replaces;
    var n := |dispatched| - |s.buffer|;
    assert dispatched[..n] + s.buffer == dispatched;
    FoldConcat(EmptySnapshot(), dispatched[..n], s.buffer);
    assert dispatched[..|dispatched|] == dispatched;
  }

  lemma StepKeepsInvariant(s: StoreState, sync: bool, action: Action, dispatched: seq<RuntimeEvent>)
    requires StoreInvariant(s, sync, dispatched)
    ensures StoreInvariant(
              StepStore(s, sync, action), sync,
              if action.Dispatch? then dispatched + [action.event] else if action.Reset? then [] else dispatched)
  {
    hide Fold, Replaces;
    var n := |dispatched| - |s.buffer|;
    match action {
      case Dispatch(event) =>
        var s' := s.(buffer := s.buffer + [event]);
        assert (dispatched + [event])[n..] == dispatched[n..] + [event];
        assert (dispatched + [event])[..n] == dispatched[..n];
        if sync {
          FlushKeepsInvariant(s', sync, dispatched + [event]);
        }
      case Microtask =>
        if s.microtasks > 0 {
          FlushKeepsInvariant(s.(microtasks := s.microtasks - 1), sync, dispatched);
        }
      case Flush => FlushKeepsInvariant(s, sync, dispatched);
      case Reset => EmptyFold();
    }
  }

  lemma EmptyFold()
    ensures Fold(EmptySnapshot(), []) == EmptySnapshot()
  {
  }

  lemma {:induction false} EveryScheduleKeepsInvariant(sync: bool, schedule: seq<Action>)
    ensures StoreInvariant(RunSchedule(sync, schedule), sync, Dispatched(schedule))
  {
    if schedule != [] {
      var n := |schedule| - 1;
      EveryScheduleKeepsInvariant(sync, schedule[..n]);
      StepKeepsInvariant(RunSchedule(sync, schedule[..n]), sync, schedule[n], Dispatched(schedule[..n]));
    }
  }

  ghost predicate Quiescent(sync: bool, schedule: seq<Action>) {
    sync || RunSchedule(sync, schedule).microtasks == 0
  }

  /** Batching is unobservable: whenever no callback is outstanding the snapshot is the fold of
      everything dispatched since the last reset, so two schedules that dispatched the same
      events agree, whatever their modes, microtasks and flushes. */
  lemma BatchingIsUnobservable(syncA: bool, a: seq<Action>, syncB: bool, b: seq<Action>)
    requires Quiescent(syncA, a) && Quiescent(syncB, b) && Dispatched(a) == Dispatched(b)
    ensures RunSchedule(syncA, a).snapshot == Fold(EmptySnapshot(), Dispatched(a))
    ensures RunSchedule(syncA, a).snapshot == RunSchedule(syncB, b).snapshot
  {
    QuiescentIsFolded(syncA, a);
    QuiescentIsFolded(syncB, b);
  }

  lemma QuiescentIsFolded(sync: bool, schedule: seq<Action>)
    requires Quiescent(sync, schedule)
    ensures RunSchedule(sync, schedule).buffer == []
    ensures RunSchedule(sync, schedule).snapshot == Fold(EmptySnapshot(), Dispatched(schedule))
  {
    EveryScheduleKeepsInvariant(sync, schedule);
    var d := Dispatched(schedule);
    assert d[..|d|] == d;
  }

  /** Listeners hear of every change of the snapshot. */
  lemma NoSilentChange(s: StoreState, sync: bool, action: Action)
    ensures StepStore(s, sync, action).snapshot != s.snapshot ==>
              StepStore(s, sync, action).notifications == s.notifications + 1
  {
    if action.Dispatch? && sync && !Replaces(s.snapshot, s.buffer + [action.event]) {
      UnreplacedIsUnchanged(s.snapshot, s.buffer + [action.event]);
    }
    if !Replaces(s.snapshot, s.buffer) {
      UnreplacedIsUnchanged(s.snapshot, s.buffer);
    }
  }

  lemma ScheduleSnoc(sync: bool, schedule: seq<Action>, action: Action)
    ensures RunSchedule(sync, schedule + [action]) == StepStore(RunSchedule(sync, schedule), sync, action)
    ensures Dispatched(schedule + [action]) ==
              if action.Dispatch? then Dispatched(schedule) + [action.event]
              else if action.Reset? then [] else Dispatched(schedule)
  {
    hide StepStore;
    assert (schedule + [action])[..|schedule|] == schedule;
  }

  /** After an explicit flush, whatever came before it, nothing is pending and everything
      dispatched since the last reset is in the snapshot. */
  lemma FlushDeliversEverything(sync: bool, schedule: seq<Action>)
    ensures var s := RunSchedule(sync, schedule + [Flush]);
            && s.buffer == [] && !s.flushScheduled
            && s.snapshot == Fold(EmptySnapshot(), Dispatched(schedule))
  {
    EveryScheduleKeepsInvariant(sync, schedule + [Flush]);
    ScheduleSnoc(sync, schedule, Flush);
    hide Fold, Replaces, RunSchedule, Dispatched;
    var d := Dispatched(schedule);
    assert d[..|d|] == d;
  }

  /** So once a discard has been dispatched and flushed, no run and no approval of the session is
      left, and every other run is as it would have been. */
  lemma DiscardedSessionIsGone(sync: bool, schedule: seq<Action>, sessionId: string, at: int, r: string)
    ensures var discard := Dispatch(DiscardSessionRuns(sessionId, at));
            var s := RunSchedule(sync, schedule + [discard] + [Flush]);
            var run := Get(Fold(EmptySnapshot(), Dispatched(schedule)).runs, r);
            && s.buffer == [] && Get(s.snapshot.approvals, sessionId).None?
            && Get(s.snapshot.runs, r) ==
                 if run.Some? && run.value.sessionId == Some(sessionId) then None else run
  {
    var event := DiscardSessionRuns(sessionId, at);
    FlushDeliversEverything(sync, schedule + [Dispatch(event)]);
    ScheduleSnoc(sync, schedule, Dispatch(event));
    FoldSnoc(EmptySnapshot(), Dispatched(schedule), event);
    DiscardActs(Fold(EmptySnapshot(), Dispatched(schedule)), sessionId, at, r);
    hide RunSchedule, Dispatched, Fold, ReduceRuntimeEvent;
  }

  lemma DiscardActs(s: Snapshot, sessionId: string, at: int, r: string)
    ensures var after := ReduceRuntimeEvent(s, DiscardSessionRuns(sessionId, at));
            && Get(after.approvals, sessionId).None?
            && Get(after.runs, r) ==
                 if Get(s.runs, r).Some? && Get(s.runs, r).value.sessionId == Some(sessionId) then None
                 else Get(s.runs, r)
  {
    hide Restrict, UpdateRun;
  }

  /** A reset drops what is pending, empties the snapshot and always tells the listeners; the next
      event schedules anew. */
  lemma ResetForgetsEverything(sync: bool, schedule: seq<Action>)
    ensures var s := RunSchedule(sync, schedule + [Reset]);
            && s.buffer == [] && !s.flushScheduled && s.snapshot == EmptySnapshot()
            && s.notifications == RunSchedule(sync, schedule).notifications + 1
  {
    ScheduleSnoc(sync, schedule, Reset);
    hide RunSchedule, Dispatched;
  }

  function DispatchAll(events: seq<RuntimeEvent>): (actions: seq<Action>)
    ensures |actions| == |events| && forall i :: 0 <= i < |events| ==> actions[i] == Dispatch(events[i])
  {
    if events == [] then [] else DispatchAll(events[..|events| - 1]) + [Dispatch(events[|events| - 1])]
  }

  /** The events are pending, with one callback for them, and nothing else has happened. */
  ghost predicate IsPending(before: StoreState, events: seq<RuntimeEvent>, after: StoreState) {
    && after.buffer == before.buffer + events && after.flushScheduled
    && after.microtasks == before.microtasks + (if before.flushScheduled then 0 else 1)
    && after.snapshot == before.snapshot && after.notifications == before.notifications
  }

  lemma OneMoreIsPending(before: StoreState, events: seq<RuntimeEvent>, s: StoreState, event: RuntimeEvent)
    requires if events == [] then s == before else IsPending(before, events, s)
    ensures IsPending(before, events + [event], StepStore(s, false, Dispatch(event)))
  {
    hide Replaces, Fold;
    assert events == [] ==> events + [event] == [event];
  }

  /** In microtask mode a burst of events delivers nothing by itself and asks the host for one
      callback, or for none if one was scheduled already. */
  lemma {:induction false} BurstSchedulesOnce(schedule: seq<Action>, events: seq<RuntimeEvent>)
    requires events != []
    ensures IsPending(
              RunSchedule(false, schedule), events, RunSchedule(false, schedule + DispatchAll(events)))
  {
    hide RunSchedule, Dispatched, StepStore, IsPending;
    var n := |events| - 1;
    var burst := schedule + DispatchAll(events[..n]);
    assert schedule + DispatchAll(events) == burst + [Dispatch(events[n])];
    assert n == 0 ==> burst == schedule;
    ScheduleSnoc(false, burst, Dispatch(events[n]));
    if n > 0 {
      BurstSchedulesOnce(schedule, events[..n]);
    }
    OneMoreIsPending(RunSchedule(false, schedule), events[..n], RunSchedule(false, burst), events[n]);
    assert events == events[..n] + [events[n]];
  }

  /** An event without effect: it resolves a permission no one waits for, or takes back an override
      while there is no mode. */
  ghost predicate HasNoEffect(s: Snapshot, event: RuntimeEvent) {
    match event
    case PermissionResolved(sessionId, _) => sessionId !in s.approvals.entries
    case ExecutionModeManualOverride(override, _) => override == None && s.executionMode == None
    case _ => false
  }

  /** The listeners are left alone exactly by the batches in which no event has an effect. */
  lemma {:induction false} SilentIff(s: Snapshot, batch: seq<RuntimeEvent>)
    ensures !Replaces(s, batch) <==> forall i :: 0 <= i < |batch| ==> HasNoEffect(s, batch[i])
  {
    if batch != [] {
      var n := |batch| - 1;
      SilentIff(s, batch[..n]);
      if !Replaces(s, batch[..n]) {
        UnreplacedIsUnchanged(s, batch[..n]);
      }
      hide Fold, ReduceRuntimeEvent;
      assert IsNoOp(s, batch[n]) <==> HasNoEffect(s, batch[n]);
      assert forall i :: 0 <= i < n ==> batch[..n][i] == batch[i];
    }
  }
}
