/** The questions of a replayed chat, and what each entry of a log does to its run. */
module ReplayQuestions {
  import opened JsValues
  import opened RuntimeTypes
  import opened RuntimeReducer
  import opened RunIsolation
  import opened ChatMessages
  import opened ChatProjection
  import opened ChatConservation
  import opened EventTranslator
  import opened HistoryReplay
  import opened HistoryCoverage
  import opened ReplaySimulation

  // ----- questions -----

  /** The message is a question of run `r` and nothing else. */
  ghost predicate IsQuestion(m: Message, r: string, content: string, timestamp: Option<int>) {
    && m.role == User && m.id == "history-user-" + r && m.streamId == Some(r)
    && m.content == content && m.timestamp == timestamp
    && m.thinking == None && m.isStreaming == None && m.isError == None && m.toolArgs == None
    && m.statusLabel == None && m.memoryContext == None
  }

  /** What was asked, as far as the log says. */
  function Preview(entry: RunLogEntry): string {
    if "message_preview" !in entry.payload then ""
    else match entry.payload["message_preview"] case Str(preview) => preview case _ => ""
  }

  ghost predicate AreQuestions(ms: seq<Message>, starts: seq<RunLogEntry>) {
    && |ms| == |starts|
    && forall i :: 0 <= i < |starts| ==>
         IsQuestion(ms[i], starts[i].runId, Preview(starts[i]), starts[i].occurredAt)
  }

  /** Every `run_started` entry of a log is a question: its preview, or nothing if it has none. */
  lemma {:induction false} EveryStartIsAQuestion(entries: seq<RunLogEntry>)
    ensures AreQuestions(Replay(entries).baseMessages, Starts(entries))
  {
    if entries != [] {
      var n := |entries| - 1;
      EveryStartIsAQuestion(entries[..n]);
      ReplayAddsQuestion(entries);
      hide Replay, IsQuestion, UserMessage;
    }
  }

  lemma ReplayAddsQuestion(entries: seq<RunLogEntry>)
    requires entries != []
    ensures var n := |entries| - 1;
            var entry, question := entries[n], UserMessage(entries[n]);
            && Replay(entries).baseMessages ==
                 Replay(entries[..n]).baseMessages + (if entry.eventType == "run_started" then [question] else [])
            && IsQuestion(question, entry.runId, Preview(entry), entry.occurredAt)
  {
    UserMessageIsAQuestion(entries[|entries| - 1]);
    hide Fold, EventsOf, UserMessage, IsQuestion;
  }

  lemma UserMessageIsAQuestion(entry: RunLogEntry)
    ensures IsQuestion(UserMessage(entry), entry.runId, Preview(entry), entry.occurredAt)
  {
  }

  function StartItems(items: seq<Item>): seq<Item> {
    if items == [] then []
    else
      var n := |items| - 1;
      StartItems(items[..n]) + (if items[n].Start? then [items[n]] else [])
  }

  /** One question per item, in order, each with the text and time of its item, for its run. */
  ghost predicate Asks(ms: seq<Message>, starts: seq<Item>, bindings: Bindings) {
    && |ms| == |starts|
    && forall i :: 0 <= i < |starts| ==>
         starts[i].Start? && starts[i].streamId in bindings
         && IsQuestion(ms[i], bindings[starts[i].streamId].runId, starts[i].preview, Some(starts[i].at))
  }

  lemma RecordedStart(item: Item, entry: RunLogEntry, bindings: Bindings, redact: Redaction)
    requires item.Stream() in bindings && Records(entry, item, bindings, redact)
    requires item.Token? ==> KnownType(item.payload)
    ensures entry.eventType == "run_started" <==> item.Start?
    ensures item.Start? ==> entry.runId == bindings[item.streamId].runId && Preview(entry) == item.preview
                            && entry.occurredAt == Some(item.at)
  {
    if item.Token? {
      hide SerializedPayload, Preview;
    }
  }

  ghost predicate AreRecorded(starts: seq<RunLogEntry>, items: seq<Item>, bindings: Bindings) {
    && |starts| == |items|
    && forall i :: 0 <= i < |items| ==>
         items[i].Start? && items[i].streamId in bindings
         && starts[i].runId == bindings[items[i].streamId].runId
         && Preview(starts[i]) == items[i].preview && starts[i].occurredAt == Some(items[i].at)
  }

  lemma {:induction false} StartsAreRecorded(items: seq<Item>, entries: seq<RunLogEntry>, bindings: Bindings,
                                             redact: Redaction)
    requires WellFormedSession(items, bindings) && WellRecorded(entries, items, bindings, redact)
    ensures AreRecorded(Starts(entries), StartItems(items), bindings)
  {
    hide Records, WellFormedSession, WellRecorded, Preview, AreRecorded;
    if items == [] {
      NothingIsRecorded(entries, items, bindings, redact);
    } else {
      var n := |items| - 1;
      LastStartIsRecorded(items, entries, bindings, redact);
      StartsAreRecorded(items[..n], entries[..n], bindings, redact);
      if items[n].Start? {
        OneMoreIsRecorded(Starts(entries[..n]), StartItems(items[..n]), entries[n], items[n], bindings);
      } else {
        assert Starts(entries) == Starts(entries[..n]) && StartItems(items) == StartItems(items[..n]);
      }
    }
  }

  lemma NothingIsRecorded(entries: seq<RunLogEntry>, items: seq<Item>, bindings: Bindings, redact: Redaction)
    requires WellRecorded(entries, items, bindings, redact) && items == []
    ensures entries == [] && AreRecorded([], [], bindings)
  {
  }

  lemma LastStartIsRecorded(items: seq<Item>, entries: seq<RunLogEntry>, bindings: Bindings, redact: Redaction)
    requires items != [] && WellFormedSession(items, bindings) && WellRecorded(entries, items, bindings, redact)
    ensures var n := |items| - 1;
            var entry, item := entries[n], items[n];
            && |entries| == |items| && WellFormedSession(items[..n], bindings)
            && WellRecorded(entries[..n], items[..n], bindings, redact)
            && (entry.eventType == "run_started" <==> item.Start?)
            && (item.Start? ==> item.streamId in bindings && entry.runId == bindings[item.streamId].runId
                                && Preview(entry) == item.preview && entry.occurredAt == Some(item.at))
  {
    var n := |items| - 1;
    SessionPrefix(items, bindings);
    LastRecord(items, entries, bindings, redact);
    assert Records(entries[n], items[n], bindings, redact);
    assert items[n].Token? ==> KnownType(items[n].payload);
    RecordedStart(items[n], entries[n], bindings, redact);
    hide Records, Preview;
  }

  lemma OneMoreIsRecorded(starts: seq<RunLogEntry>, items: seq<Item>, entry: RunLogEntry, item: Item,
                          bindings: Bindings)
    requires AreRecorded(starts, items, bindings)
    requires item.Start? && item.streamId in bindings && entry.runId == bindings[item.streamId].runId
    requires Preview(entry) == item.preview && entry.occurredAt == Some(item.at)
    ensures AreRecorded(starts + [entry], items + [item], bindings)
  {
    hide Preview;
  }

  /** A recorded session is replayed with the questions that were asked. */
  lemma ReplayAsksWhatWasAsked(items: seq<Item>, entries: seq<RunLogEntry>, bindings: Bindings, redact: Redaction)
    requires WellFormedSession(items, bindings) && WellRecorded(entries, items, bindings, redact)
    ensures Asks(Replay(entries).baseMessages, StartItems(items), bindings)
  {
    StartsAreRecorded(items, entries, bindings, redact);
    EveryStartIsAQuestion(entries);
    hide Replay, Starts, StartItems, WellFormedSession, WellRecorded, IsQuestion, Preview;
  }

  function UsersOf(ms: seq<Message>): seq<Message> {
    if ms == [] then [] else (if ms[0].role == User then [ms[0]] else []) + UsersOf(ms[1..])
  }

  lemma {:induction false} UsersAreAmongTheKept(ms: seq<Message>, runs: Runs)
    ensures UsersOf(Kept(ms, runs)) == UsersOf(ms)
  {
    if ms != [] {
      UsersAreAmongTheKept(ms[1..], runs);
      var rest := Kept(ms[1..], runs);
      assert ([ms[0]] + rest)[1..] == rest;
      assert [] + rest == rest;
    }
  }

  lemma {:induction false} OnlyUsers(ms: seq<Message>)
    requires forall i :: 0 <= i < |ms| ==> ms[i].role == User
    ensures UsersOf(ms) == ms
  {
    if ms != [] {
      OnlyUsers(ms[1..]);
    }
  }

  /** And so the user messages of the replayed chat are the questions of the session, in order. */
  lemma ReplayedChatAsksWhatWasAsked(items: seq<Item>, entries: seq<RunLogEntry>, bindings: Bindings,
                                     redact: Redaction, sessionId: string, parse: JsonParser)
    requires WellFormedSession(items, bindings) && WellRecorded(entries, items, bindings, redact)
    requires SingleSession(entries, sessionId) && "" !in RunIds(entries)
    ensures var replay := Replay(entries);
            Asks(UsersOf(Project(replay.baseMessages, replay.snapshot.runs, Some(sessionId), parse)),
                 StartItems(items), bindings)
  {
    hide Replay, StartItems, WellFormedSession, WellRecorded, SingleSession, RunIds, Project, Kept, UsersOf;
    var questions, runs := Replay(entries).baseMessages, Replay(entries).snapshot.runs;
    ReplayAsksWhatWasAsked(items, entries, bindings, redact);
    assert forall i :: 0 <= i < |questions| ==> questions[i].role == User;
    ReplayedRunsAreWellKeyed(entries, sessionId);
    UsersAreKept(questions, runs, "");
    ProjectionKeeps(questions, runs, Some(sessionId), parse);
    UsersAreAmongTheKept(Project(questions, runs, Some(sessionId), parse), runs);
    OnlyUsers(questions);
  }
}
