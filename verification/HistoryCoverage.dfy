/** What a replayed log shows: every run once, every question once. */
module HistoryCoverage {
  import opened JsValues
  import opened RuntimeTypes
  import opened RuntimeReducer
  import opened RunIsolation
  import opened ChatMessages
  import opened ChatProjection
  import opened ChatConservation
  import opened EventTranslator
  import opened HistoryReplay

  function RunIds(entries: seq<RunLogEntry>): set<string> {
    if entries == [] then {} else RunIds(entries[..|entries| - 1]) + {entries[|entries| - 1].runId}
  }

  /** The run of one log entry, before and after the entry. */
  function ReplayRun(run: Option<RunProjection>, entry: RunLogEntry, bound: bool): Option<RunProjection> {
    FoldRun(run, entry.runId, EventsOf(entry, bound))
  }

  lemma EventIsOfItsRun(entry: RunLogEntry)
    ensures var event := RunLogEntryToEvent(entry);
            event.Some? ==> event.value.Stream?() && event.value.runId == entry.runId
  {
  }

  lemma EventsAreOfTheirRun(entry: RunLogEntry, bound: bool)
    ensures forall i :: 0 <= i < |EventsOf(entry, bound)| ==>
              EventsOf(entry, bound)[i].Stream?() && EventsOf(entry, bound)[i].runId == entry.runId
  {
    EventIsOfItsRun(entry);
    hide RunLogEntryToEvent;
  }

  /** An entry changes its own run only. */
  lemma EntryActsOnOneRun(prev: Snapshot, entry: RunLogEntry, bound: bool, r: string)
    ensures Get(Fold(prev, EventsOf(entry, bound)).runs, r) ==
              if r == entry.runId then ReplayRun(Get(prev.runs, r), entry, bound) else Get(prev.runs, r)
  {
    hide RunLogEntryToEvent, StepRun, EventsOf, Fold, FoldRun;
    FoldActsPerRun(prev, EventsOf(entry, bound), r);
    if r != entry.runId {
      EventsAreOfTheirRun(entry, bound);
      OtherRunsUntouched(Get(prev.runs, r), r, EventsOf(entry, bound));
    }
  }

  lemma {:induction false} OtherRunsUntouched(run: Option<RunProjection>, r: string, events: seq<RuntimeEvent>)
    requires forall i :: 0 <= i < |events| ==> events[i].Stream?() && events[i].runId != r
    ensures FoldRun(run, r, events) == run
  {
    if events != [] {
      OtherRunsUntouched(run, r, events[..|events| - 1]);
    }
  }

  lemma FoldRunOne(run: Option<RunProjection>, r: string, a: RuntimeEvent)
    ensures FoldRun(run, r, [a]) == StepRun(run, r, a)
  {
    assert [a][..0] == [];
  }

  lemma FoldRunTwo(run: Option<RunProjection>, r: string, a: RuntimeEvent, b: RuntimeEvent)
    ensures FoldRun(run, r, [a] + [b]) == StepRun(StepRun(run, r, a), r, b)
  {
    assert ([a] + [b])[..1] == [a];
    FoldRunOne(run, r, a);
  }

  /** After its entry a run exists, under its own id, in the session of the log. */
  ghost predicate IsRunOf(run: Option<RunProjection>, r: string, sessionId: string) {
    run.Some? && run.value.runId == r && run.value.sessionId == Some(sessionId)
  }

  lemma StepIsRunOf(run: Option<RunProjection>, r: string, e: RuntimeEvent, sessionId: string)
    requires e.Stream?() && e.runId == r
    requires IsRunOf(run, r, sessionId) || (e.StreamRunBound? && (run.Some? ==> run.value.runId == r))
    requires e.StreamRunBound? ==> e.sessionId == sessionId
    ensures IsRunOf(StepRun(run, r, e), r, sessionId)
  {
  }

  lemma EntryBindsItsRun(run: Option<RunProjection>, entry: RunLogEntry, bound: bool)
    requires if bound then IsRunOf(run, entry.runId, entry.sessionId) else run.None?
    ensures IsRunOf(ReplayRun(run, entry, bound), entry.runId, entry.sessionId)
  {
    var r, sid, event := entry.runId, entry.sessionId, RunLogEntryToEvent(entry);
    EventIsOfItsRun(entry);
    var bind := StreamRunBound(r, sid, TimestampFromEntry(entry));
    var events := EventsOf(entry, bound);
    assert event.Some? && event.value.StreamRunBound? ==> event.value.sessionId == sid;
    if !bound && !(event.Some? && event.value.StreamRunBound?) {
      StepIsRunOf(run, r, bind, sid);
      if event.Some? {
        FoldRunTwo(run, r, bind, event.value);
        StepIsRunOf(StepRun(run, r, bind), r, event.value, sid);
      } else {
        assert events == [bind];
        FoldRunOne(run, r, bind);
      }
    } else if event.Some? {
      assert events == [event.value];
      FoldRunOne(run, r, event.value);
      StepIsRunOf(run, r, event.value, sid);
    } else {
      assert events == [];
    }
  }

  ghost predicate SingleSession(entries: seq<RunLogEntry>, sessionId: string) {
    forall i :: 0 <= i < |entries| ==> entries[i].sessionId == sessionId
  }

  /** The bound runs, the projected runs and the runs seen so far coincide at every step, and
      each is a run of the session. */
  lemma {:induction false} BoundRunsAreSeenRuns(entries: seq<RunLogEntry>, sessionId: string, r: string)
    requires SingleSession(entries, sessionId)
    ensures var state := Replay(entries);
            && state.boundRunIds == RunIds(entries)
            && (if r in RunIds(entries) then IsRunOf(Get(state.snapshot.runs, r), r, sessionId)
                else Get(state.snapshot.runs, r).None?)
  {
    hide EventsOf, Fold, ReplayRun, IsRunOf;
    if entries != [] {
      var n := |entries| - 1;
      var entry, state := entries[n], Replay(entries[..n]);
      BoundRunsAreSeenRuns(entries[..n], sessionId, r);
      var bound := entry.runId in state.boundRunIds;
      EntryActsOnOneRun(state.snapshot, entry, bound, r);
      if r == entry.runId {
        EntryBindsItsRun(Get(state.snapshot.runs, r), entry, bound);
      }
    }
  }

  /** The `run_started` entries, in order. */
  function Starts(entries: seq<RunLogEntry>): seq<RunLogEntry> {
    if entries == [] then []
    else
      var n := |entries| - 1;
      Starts(entries[..n]) + (if entries[n].eventType == "run_started" then [entries[n]] else [])
  }

  function StartsOf(entries: seq<RunLogEntry>, r: string): nat {
    if entries == [] then 0
    else
      var n := |entries| - 1;
      StartsOf(entries[..n], r) + (if entries[n].eventType == "run_started" && entries[n].runId == r then 1 else 0)
  }

  function Questions(starts: seq<RunLogEntry>): seq<Message> {
    if starts == [] then [] else Questions(starts[..|starts| - 1]) + [UserMessage(starts[|starts| - 1])]
  }

  lemma {:induction false} BaseMessagesAreQuestions(entries: seq<RunLogEntry>)
    ensures Replay(entries).baseMessages == Questions(Starts(entries))
  {
    if entries != [] {
      var n := |entries| - 1;
      BaseMessagesAreQuestions(entries[..n]);
      if entries[n].eventType == "run_started" {
        assert Starts(entries)[..|Starts(entries[..n])|] == Starts(entries[..n]);
      } else {
        assert Starts(entries) == Starts(entries[..n]);
      }
    }
  }

  lemma {:induction false} UserAnchorsConcat(a: seq<Message>, b: seq<Message>, runs: Runs, r: string)
    ensures UserAnchors(a + b, runs, r) == UserAnchors(a, runs, r) + UserAnchors(b, runs, r)
  {
    if a == [] {
      assert a + b == b;
    } else {
      assert (a + b)[1..] == a[1..] + b;
      UserAnchorsConcat(a[1..], b, runs, r);
    }
  }

  lemma {:induction false} QuestionsAreAnchors(entries: seq<RunLogEntry>, runs: Runs, r: string)
    requires r != "" && r in runs.entries
    ensures var questions := Replay(entries).baseMessages;
            && UserAnchors(questions, runs, r) == StartsOf(entries, r)
            && forall i :: 0 <= i < |questions| ==> questions[i].role == User
  {
    hide EventsOf, Fold;
    if entries != [] {
      var n := |entries| - 1;
      QuestionsAreAnchors(entries[..n], runs, r);
      if entries[n].eventType == "run_started" {
        var question := UserMessage(entries[n]);
        assert IsAnchorOf(question, runs, User, r) <==> entries[n].runId == r;
        assert [question][1..] == [];
        UserAnchorsConcat(Replay(entries[..n]).baseMessages, [question], runs, r);
        assert Replay(entries).baseMessages == Replay(entries[..n]).baseMessages + [question];
      } else {
        assert Replay(entries).baseMessages == Replay(entries[..n]).baseMessages;
      }
    }
  }

  lemma {:induction false} UsersAreKept(ms: seq<Message>, runs: Runs, r: string)
    requires forall i :: 0 <= i < |ms| ==> ms[i].role == User
    ensures Kept(ms, runs) == ms
    ensures !AnswerFirst(ms, runs, r)
    ensures r in AnchoredIds(ms, runs) <==> UserAnchors(ms, runs, r) > 0
  {
    if ms != [] {
      UsersAreKept(ms[1..], runs, r);
    }
  }

  /** The replay of a single-session log shows the questions of its `run_started` entries, in
      order and nothing else that is not an answer, and answers every run of the log: once per
      question, or once if its start is not in the log. */
  lemma ReplayCovers(entries: seq<RunLogEntry>, sessionId: string, r: string, parse: JsonParser)
    requires SingleSession(entries, sessionId) && sessionId != ""
    requires r in RunIds(entries) && "" !in RunIds(entries)
    ensures var runs := Replay(entries).snapshot.runs;
            var out := Project(Replay(entries).baseMessages, runs, Some(sessionId), parse);
            && Kept(out, runs) == Questions(Starts(entries))
            && Assistants(out, runs, r) == (if StartsOf(entries, r) == 0 then 1 else StartsOf(entries, r))
  {
    hide Replay, Fold, Project, Kept, Assistants, SingleSession, RunIds;
    var runs, questions := Replay(entries).snapshot.runs, Replay(entries).baseMessages;
    ReplayedRunsAreWellKeyed(entries, sessionId);
    BoundRunsAreSeenRuns(entries, sessionId, r);
    QuestionsAreAnchors(entries, runs, r);
    UsersAreKept(questions, runs, r);
    BaseMessagesAreQuestions(entries);
    ProjectionKeeps(questions, runs, Some(sessionId), parse);
    AnswersPerRun(questions, runs, Some(sessionId), r, parse);
  }

  lemma ReplayedRunsAreWellKeyed(entries: seq<RunLogEntry>, sessionId: string)
    requires SingleSession(entries, sessionId) && "" !in RunIds(entries)
    ensures WellKeyed(Replay(entries).snapshot.runs)
  {
    hide Replay, Fold, SingleSession, RunIds;
    var runs := Replay(entries).snapshot.runs;
    forall q | q in runs.entries ensures q != "" && runs.entries[q].runId == q {
      BoundRunsAreSeenRuns(entries, sessionId, q);
      assert Get(runs, q) == Some(runs.entries[q]);
    }
  }
}
