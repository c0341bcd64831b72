/** The chat rebuilt from the run log shows the answers the live chat showed. */
module ReplayChat {
  import opened JsValues
  import opened RuntimeTypes
  import opened RuntimeReducer
  import opened RunIsolation
  import opened SnapshotSummary
  import opened StableSort
  import opened ChatMessages
  import opened ChatProjection
  import opened ChatConservation
  import opened ChatIdempotence
  import opened EventTranslator
  import opened HistoryReplay
  import opened HistoryCoverage
  import opened ReplaySimulation

  // ----- what recording does to messages -----

  /** A live message of a run as it is shown after a replay: under the ids of the durable run `r`,
      an answer at the time `at` of the run's last update and without the summaries only
      completions carry, a tool call with its arguments redacted. */
  function AsReplayedMessage(m: Message, r: string, at: int, redact: Redaction): Message {
    if m.role == Tool then
      m.(id := "tool-" + r + "-" + m.toolCallId.GetOr(""), streamId := Some(r),
         toolArgs := if m.toolArgs.Some? then Some(redact(m.toolArgs.value)) else None)
    else
      m.(id := "assistant-" + r, timestamp := Some(at), streamId := Some(r), memoryContext := None,
         contextBudgetUsage := None, promptDiagnostics := None, turnCost := None, routing := None)
  }

  function AsReplayedMessages(ms: seq<Message>, r: string, at: int, redact: Redaction): (replayed: seq<Message>)
    ensures |replayed| == |ms|
    ensures forall i :: 0 <= i < |ms| ==> replayed[i] == AsReplayedMessage(ms[i], r, at, redact)
  {
    if ms == [] then []
    else [AsReplayedMessage(ms[0], r, at, redact)] + AsReplayedMessages(ms[1..], r, at, redact)
  }

  // ----- the tool calls of a run -----

  function RecordedSeq(tools: seq<ToolCallProjection>, redact: Redaction): (recorded: seq<ToolCallProjection>)
    ensures |recorded| == |tools|
    ensures forall i :: 0 <= i < |tools| ==> recorded[i] == RecordedTool(tools[i], redact)
  {
    if tools == [] then [] else [RecordedTool(tools[0], redact)] + RecordedSeq(tools[1..], redact)
  }

  lemma RecordedSnoc(tools: seq<ToolCallProjection>, tool: ToolCallProjection, redact: Redaction)
    ensures RecordedSeq(tools + [tool], redact) == RecordedSeq(tools, redact) + [RecordedTool(tool, redact)]
  {
    hide RecordedSeq, RecordedTool;
  }

  lemma {:induction false} ValuesRecorded(keys: seq<string>, tools: Record<ToolCallProjection>, redact: Redaction)
    requires forall k :: k in keys ==> k in tools.entries
    ensures ValuesOf(keys, RecordedTools(tools, redact).entries) == RecordedSeq(ValuesOf(keys, tools.entries), redact)
  {
    if keys != [] {
      ValuesRecorded(keys[1..], tools, redact);
      var rest := ValuesOf(keys[1..], tools.entries);
      assert ([tools.entries[keys[0]]] + rest)[1..] == rest;
    }
  }

  lemma {:induction false} InsertRecorded(sorted: seq<ToolCallProjection>, tool: ToolCallProjection, redact: Redaction)
    ensures Insert(RecordedSeq(sorted, redact), RecordedTool(tool, redact), FirstSeen)
            == RecordedSeq(Insert(sorted, tool, FirstSeen), redact)
  {
    hide RecordedSeq;
    if sorted == [] {
      assert RecordedSeq(sorted, redact) == [];
      assert RecordedSeq([tool], redact) == [RecordedTool(tool, redact)];
    } else {
      var n := |sorted| - 1;
      var recorded := RecordedSeq(sorted, redact);
      assert recorded[..n] == RecordedSeq(sorted[..n], redact);
      if sorted[n].firstSeenAt <= tool.firstSeenAt {
        RecordedSnoc(sorted, tool, redact);
      } else {
        InsertRecorded(sorted[..n], tool, redact);
        RecordedSnoc(Insert(sorted[..n], tool, FirstSeen), sorted[n], redact);
      }
    }
  }

  lemma {:induction false} SortRecorded(tools: seq<ToolCallProjection>, redact: Redaction)
    ensures SortBy(RecordedSeq(tools, redact), FirstSeen) == RecordedSeq(SortBy(tools, FirstSeen), redact)
  {
    hide RecordedSeq, RecordedTool, Insert;
    if tools == [] {
      assert RecordedSeq(tools, redact) == [];
    } else {
      var n := |tools| - 1;
      assert RecordedSeq(tools, redact)[..n] == RecordedSeq(tools[..n], redact);
      SortRecorded(tools[..n], redact);
      InsertRecorded(SortBy(tools[..n], FirstSeen), tools[n], redact);
    }
  }

  lemma {:induction false} CountRecorded(tools: seq<ToolCallProjection>, status: ToolCallStatus, redact: Redaction)
    ensures CountStatus(RecordedSeq(tools, redact), status) == CountStatus(tools, status)
  {
    hide RecordedSeq;
    if tools == [] {
      assert RecordedSeq(tools, redact) == [];
    } else {
      assert RecordedSeq(tools, redact)[1..] == RecordedSeq(tools[1..], redact);
      CountRecorded(tools[1..], status, redact);
    }
  }

  // ----- the block of a run -----

  /** The run as replayed, last updated at `at`. */
  function Replayed(run: RunProjection, r: string, at: int, redact: Redaction): RunProjection {
    AsReplayed(run, r, redact).(lastUpdatedAt := at)
  }

  lemma ToolMessageRecorded(run: RunProjection, tool: ToolCallProjection, r: string, at: int, redact: Redaction,
                            parse: JsonParser)
    ensures ProjectToolCall(Replayed(run, r, at, redact), parse, RecordedTool(tool, redact))
            == AsReplayedMessage(ProjectToolCall(run, parse, tool), r, at, redact)
  {
    hide ExtractMemoryStoreFields, RecordedTools;
  }

  lemma ToolMessagesRecorded(run: RunProjection, r: string, at: int, redact: Redaction, parse: JsonParser)
    ensures ToolMessages(Replayed(run, r, at, redact), parse)
            == AsReplayedMessages(ToolMessages(run, parse), r, at, redact)
  {
    var tools := SortBy(Values(run.toolCalls), FirstSeen);
    var recorded := SortBy(Values(Replayed(run, r, at, redact).toolCalls), FirstSeen);
    ValuesRecorded(run.toolCalls.keys, run.toolCalls, redact);
    SortRecorded(Values(run.toolCalls), redact);
    assert recorded == RecordedSeq(tools, redact);
    hide SortBy, Values, RecordedSeq, ProjectToolCall, AsReplayedMessage, AsReplayedMessages, RecordedTool, Replayed;
    forall i | 0 <= i < |tools|
      ensures ProjectToolCall(Replayed(run, r, at, redact), parse, recorded[i])
              == AsReplayedMessage(ProjectToolCall(run, parse, tools[i]), r, at, redact)
    {
      ToolMessageRecorded(run, tools[i], r, at, redact, parse);
    }
  }

  lemma CompletionRecorded(run: RunProjection, r: string, at: int, redact: Redaction)
    ensures CompletionStatus(Replayed(run, r, at, redact)) == CompletionStatus(run)
  {
    var tools := Values(run.toolCalls);
    ValuesRecorded(run.toolCalls.keys, run.toolCalls, redact);
    assert Values(Replayed(run, r, at, redact).toolCalls) == RecordedSeq(tools, redact);
    CountRecorded(tools, Completed, redact);
    CountRecorded(tools, Error, redact);
    hide CountStatus, Values, RecordedSeq, RecordedTools;
  }

  /** A message put up before an answer arrives: nothing but its id, text, time and stream, and a
      label while something is being recovered. A run that still streams keeps that label. */
  ghost predicate IsFresh(placeholder: Option<Message>, run: RunProjection) {
    placeholder.Some? ==>
      var p := placeholder.value;
      && p == PlainMessage(p.id, Assistant, p.content, p.timestamp).(
           streamId := p.streamId, isStreaming := p.isStreaming, statusLabel := p.statusLabel,
           statusKind := p.statusKind)
      && (run.status == Streaming ==> p.statusLabel.None? && p.statusKind.None?)
  }

  lemma AssistantRecorded(placeholder: Option<Message>, run: RunProjection, r: string, at: int, redact: Redaction)
    requires IsFresh(placeholder, run)
    ensures ProjectAssistant(None, Replayed(run, r, at, redact))
            == AsReplayedMessage(ProjectAssistant(placeholder, run), r, at, redact)
  {
    CompletionRecorded(run, r, at, redact);
    hide CompletionStatus, RecordedTools;
  }

  lemma BlockRecorded(placeholder: Option<Message>, run: RunProjection, r: string, at: int, redact: Redaction,
                      parse: JsonParser)
    requires IsFresh(placeholder, run)
    ensures RunBlock(None, Replayed(run, r, at, redact), parse)
            == AsReplayedMessages(RunBlock(placeholder, run, parse), r, at, redact)
  {
    AssistantRecorded(placeholder, run, r, at, redact);
    ToolMessagesRecorded(run, r, at, redact, parse);
    hide ProjectAssistant, ToolMessages, AsReplayedMessage, Replayed, IsFresh;
    var block := RunBlock(placeholder, run, parse);
    assert block[0] == ProjectAssistant(placeholder, run) && block[1..] == ToolMessages(run, parse);
  }

  // ----- a run that is answered once -----

  lemma {:induction false} BlocksWithoutQuestion(ms: seq<Message>, runs: Runs, r: string, seen: bool,
                                                 parse: JsonParser)
    requires r in runs.entries && UserAnchors(ms, runs, r) == 0
    ensures AnchoredBlocks(ms, runs, r, seen, parse) ==
              (if AnswerFirst(ms, runs, r) && !seen
               then RunBlock(FirstAssistant(ms, runs, r), runs.entries[r], parse) else [])
    ensures r in AnchoredIds(ms, runs) <==> AnswerFirst(ms, runs, r)
    ensures AnswerFirst(ms, runs, r) ==> FirstAssistant(ms, runs, r).Some?
  {
    hide RunBlock;
    if ms != [] {
      BlocksWithoutQuestion(ms[1..], runs, r, seen || IsAnchorOf(ms[0], runs, Assistant, r), parse);
    }
  }

  lemma {:induction false} BlocksOfOneQuestion(ms: seq<Message>, runs: Runs, r: string, parse: JsonParser)
    requires r in runs.entries && UserAnchors(ms, runs, r) == 1 && !AnswerFirst(ms, runs, r)
    ensures AnchoredBlocks(ms, runs, r, false, parse) == RunBlock(None, runs.entries[r], parse)
    ensures r in AnchoredIds(ms, runs)
  {
    hide RunBlock;
    if IsAnchorOf(ms[0], runs, User, r) {
      BlocksWithoutQuestion(ms[1..], runs, r, true, parse);
    } else {
      BlocksOfOneQuestion(ms[1..], runs, r, parse);
    }
  }

  /** The conversation asks for at most one answer of the run: a question attached to it, or an
      answer that comes first. */
  predicate AsksOnce(ms: seq<Message>, runs: Runs, r: string) {
    UserAnchors(ms, runs, r) + (if AnswerFirst(ms, runs, r) then 1 else 0) <= 1
  }

  /** The placeholder of that answer. */
  function PlaceholderOf(ms: seq<Message>, runs: Runs, r: string): Option<Message> {
    if AnswerFirst(ms, runs, r) then FirstAssistant(ms, runs, r) else None
  }

  /** A run of the session then shows exactly one block. */
  lemma OneBlockIsShown(ms: seq<Message>, runs: Runs, sessionId: string, r: string, parse: JsonParser)
    requires WellKeyed(runs) && sessionId != "" && IsRunOf(Get(runs, r), r, sessionId)
    requires AsksOnce(ms, runs, r)
    ensures RunView(Project(ms, runs, Some(sessionId), parse), runs, r) ==
              RunBlock(PlaceholderOf(ms, runs, r), runs.entries[r], parse)
  {
    ProjectionIsFaithful(ms, runs, Some(sessionId), r, parse);
    if UserAnchors(ms, runs, r) == 0 {
      BlocksWithoutQuestion(ms, runs, r, false, parse);
    } else {
      BlocksOfOneQuestion(ms, runs, r, parse);
    }
    hide RunBlock, Project, RunView, AnchoredBlocks, WellKeyed;
  }

  // ----- main result -----

  /** The replay asks once for a run that was started once. */
  lemma ReplayAsksOnce(entries: seq<RunLogEntry>, sessionId: string, r: string)
    requires SingleSession(entries, sessionId) && "" !in RunIds(entries)
    requires r in RunIds(entries) && StartsOf(entries, r) == 1
    ensures var runs, questions := Replay(entries).snapshot.runs, Replay(entries).baseMessages;
            && WellKeyed(runs) && IsRunOf(Get(runs, r), r, sessionId)
            && AsksOnce(questions, runs, r) && PlaceholderOf(questions, runs, r) == None
  {
    hide Replay, Fold, SingleSession, RunIds;
    var runs, questions := Replay(entries).snapshot.runs, Replay(entries).baseMessages;
    ReplayedRunsAreWellKeyed(entries, sessionId);
    BoundRunsAreSeenRuns(entries, sessionId, r);
    QuestionsAreAnchors(entries, runs, r);
    UsersAreKept(questions, runs, r);
  }

  lemma LiveRunsAreWellKeyed(live: seq<RuntimeEvent>)
    requires forall i :: 0 <= i < |live| && live[i].Stream?() ==> live[i].runId != ""
    ensures WellKeyed(After(live).runs)
  {
    hide Fold;
    var runs := After(live).runs;
    NoUnnamedRun(live);
    forall s | s in runs.entries ensures s != "" && runs.entries[s].runId == s {
      assert Get(runs, s) == Some(runs.entries[s]);
      RunKeysAlwaysMatch(live, s);
    }
  }

  lemma {:induction false} StartedRunIsLogged(items: seq<Item>, entries: seq<RunLogEntry>, bindings: Bindings,
                                              redact: Redaction, s: string)
    requires WellRecorded(entries, items, bindings, redact) && s in bindings && s in Started(items)
    ensures bindings[s].runId in RunIds(entries)
    ensures exists i :: 0 <= i < |entries| && entries[i].sessionId == bindings[s].sessionId
  {
    var n := |items| - 1;
    assert |entries| == |items|;
    assert Records(entries[n], items[n], bindings, redact);
    LastRecord(items, entries, bindings, redact);
    if s in Started(items[..n]) {
      StartedRunIsLogged(items[..n], entries[..n], bindings, redact, s);
      var i :| 0 <= i < n && entries[..n][i].sessionId == bindings[s].sessionId;
      assert entries[i].sessionId == bindings[s].sessionId;
    }
  }

  /** A well-formed session of one log, with the live events of stream `s` in any order of its bind;
      the run of `s` was started once. */
  ghost predicate IsRecordedSession(
      items: seq<Item>, entries: seq<RunLogEntry>, bindings: Bindings, redact: Redaction, s: string,
      live: seq<RuntimeEvent>, sessionId: string)
  {
    && WellFormedSession(items, bindings) && WellRecorded(entries, items, bindings, redact)
    && SingleSession(entries, sessionId) && sessionId != "" && "" !in RunIds(entries)
    && s in bindings && s in Started(items) && StartsOf(entries, bindings[s].runId) == 1
    && NoDiscards(live) && BindsTo(live, s, bindings[s].sessionId)
    && TokensOf(live, s) == TokensOf(LiveEvents(items, bindings), s)
    && forall i :: 0 <= i < |live| && live[i].Stream?() ==> live[i].runId != ""
  }

  /** The replayed chat shows the live chat: for every session and every run that was started once
      and is asked for at most once in the live conversation, what the replay shows of the run is,
      message by message, what was shown live, with the ids and the time of the log. */
  lemma ReplayShowsTheLiveChat(
      items: seq<Item>, entries: seq<RunLogEntry>, bindings: Bindings, redact: Redaction, s: string,
      live: seq<RuntimeEvent>, ms: seq<Message>, sessionId: string, parse: JsonParser)
    requires IsRecordedSession(items, entries, bindings, redact, s, live, sessionId)
    ensures var r, shown, replayed := bindings[s].runId, After(live).runs, Replay(entries).snapshot.runs;
            && s in shown.entries && r in replayed.entries
            && (AsksOnce(ms, shown, s) && IsFresh(PlaceholderOf(ms, shown, s), shown.entries[s]) ==>
               RunView(Project(Replay(entries).baseMessages, replayed, Some(sessionId), parse), replayed, r)
               == AsReplayedMessages(RunView(Project(ms, shown, Some(sessionId), parse), shown, s), r,
                                     replayed.entries[r].lastUpdatedAt, redact))
  {
    hide Fold, Replay, Project, RunView, RunBlock, SingleSession, WellRecorded, WellFormedSession, RunIds, StartsOf,
         AsksOnce, PlaceholderOf, IsFresh, TokensOf, LiveEvents, Started, WellKeyed, FoldRun, StepRun,
         AsReplayedMessages, RecordedTools;
    var r, shown, replayed := bindings[s].runId, After(live).runs, Replay(entries).snapshot.runs;
    StartedRunIsLogged(items, entries, bindings, redact, s);
    SessionOfLog(entries, sessionId, bindings[s].sessionId);
    ReplaySimulatesAnyLiveOrder(items, entries, bindings, redact, s, live);
    LiveRunsAreWellKeyed(live);
    ReplayAsksOnce(entries, sessionId, r);
    LiveRunIsOfSession(live, s, sessionId);
    OneBlockIsShown(Replay(entries).baseMessages, replayed, sessionId, r, parse);
    var at := replayed.entries[r].lastUpdatedAt;
    assert replayed.entries[r] == Replayed(shown.entries[s], r, at, redact);
    if AsksOnce(ms, shown, s) && IsFresh(PlaceholderOf(ms, shown, s), shown.entries[s]) {
      OneBlockIsShown(ms, shown, sessionId, s, parse);
      BlockRecorded(PlaceholderOf(ms, shown, s), shown.entries[s], r, at, redact, parse);
    }
  }

  lemma SessionOfLog(entries: seq<RunLogEntry>, sessionId: string, other: string)
    requires SingleSession(entries, sessionId)
    requires exists i :: 0 <= i < |entries| && entries[i].sessionId == other
    ensures other == sessionId
  {
  }

  lemma LiveRunIsOfSession(live: seq<RuntimeEvent>, s: string, sessionId: string)
    requires NoDiscards(live) && BindsTo(live, s, sessionId)
    ensures IsRunOf(Get(After(live).runs, s), s, sessionId)
  {
    hide FoldRun, Fold;
    FoldActsPerRun(EmptySnapshot(), live, s);
    FoldIsBound(live, s, sessionId);
  }

  // ----- a session whose first token precedes the bind -----

  function Greeting(): StreamTokenPayload {
    StreamTokenPayload(
      "s", "text_delta", Some("hello"), None, None, None, None, None, None, None, None, None, None, None, None, None,
      None, None, None, None, None, None, None, None)
  }

  lemma GreetingIs()
    ensures var p := Greeting();
            p.streamId == "s" && p.eventType == "text_delta" && p.text == Some("hello")
  {
  }

  const TURN_BINDINGS: Bindings := map["s" := Binding("session", "run")]

  function Turn(): seq<Item> {
    [Start("s", "hi", 1), Token(Greeting(), 2)]
  }

  function TurnLog(redact: Redaction): seq<RunLogEntry> {
    [RecordStart("s", "session", "run", 0, 1, "hi"), RecordPayload(Greeting(), "session", "run", 1, 2, redact)]
  }

  const TOKEN_FIRST := [StreamTextDelta("s", "hello", 2), StreamRunBound("s", "session", 3)]

  /** Such a session is one the theorem is about. */
  lemma TurnIsARecordedSession(redact: Redaction)
    ensures IsRecordedSession(Turn(), TurnLog(redact), TURN_BINDINGS, redact, "s", TOKEN_FIRST, "session")
  {
    TurnIsWellFormed(redact);
    TurnLogIsWellFormed(redact);
    TurnTokens();
    hide WellFormedSession, WellRecorded, SingleSession, RunIds, Started, StartsOf, NoDiscards, BindsTo, TokensOf,
         LiveEvents, Turn, TurnLog;
  }

  lemma TurnIsWellFormed(redact: Redaction)
    ensures WellFormedSession(Turn(), TURN_BINDINGS) && "s" in Started(Turn())
    ensures WellRecorded(TurnLog(redact), Turn(), TURN_BINDINGS, redact)
  {
    GreetingIs();
    hide Greeting, SerializedPayload;
    var items := Turn();
    assert items[..1] == [items[0]] && items[..1][..0] == [] && items[..0] == [];
    assert Started([items[0]]) == {"s"} by {
      assert [items[0]][..0] == [];
    }
    assert KnownType(items[1].payload) && WellFormed(items[1].payload);
  }

  lemma TurnLogIsWellFormed(redact: Redaction)
    ensures var log := TurnLog(redact);
            SingleSession(log, "session") && "run" in RunIds(log) && "" !in RunIds(log) && StartsOf(log, "run") == 1
  {
    GreetingIs();
    hide Greeting, SerializedPayload;
    var log := TurnLog(redact);
    var first := log[..1];
    assert first[..0] == [] && first[0] == log[0];
    assert RunIds(first) == {"run"} && StartsOf(first, "run") == 1;
    assert log[1].eventType == "text_delta" && log[1].runId == "run";
    assert log[..|log| - 1] == first;
    assert RunIds(log) == {"run"} && StartsOf(log, "run") == 1;
    assert "" != "run";
  }

  lemma TokensOfTwo(a: RuntimeEvent, b: RuntimeEvent, s: string)
    ensures TokensOf([a, b], s) == (if IsTokenOf(a, s) then [a] else []) + (if IsTokenOf(b, s) then [b] else [])
  {
    hide IsTokenOf;
    assert [a, b][..1] == [a] && [a][..0] == [];
    assert TokensOf([a], s) == (if IsTokenOf(a, s) then [a] else []);
    assert [a, b][1] == b;
  }

  lemma LiveEventsOfTwo(x: Item, y: Item, bindings: Bindings)
    requires x.Stream() in bindings && y.Stream() in bindings
    requires LiveEvent(x, bindings).Some? && LiveEvent(y, bindings).Some?
    ensures LiveEvents([x, y], bindings) == [LiveEvent(x, bindings).value, LiveEvent(y, bindings).value]
  {
    hide LiveEvent;
    assert [x, y][..1] == [x] && [x][..0] == [];
    assert LiveEvents([x], bindings) == [LiveEvent(x, bindings).value];
  }

  lemma GreetingIsTranslated()
    ensures TranslateAgentToken(Greeting(), 2) == Some(StreamTextDelta("s", "hello", 2))
  {
    GreetingIs();
    hide Greeting;
  }

  lemma TurnTokens()
    ensures NoDiscards(TOKEN_FIRST) && BindsTo(TOKEN_FIRST, "s", "session")
    ensures forall i :: 0 <= i < |Turn()| ==> Turn()[i].Stream() in TURN_BINDINGS
    ensures TokensOf(TOKEN_FIRST, "s") == TokensOf(LiveEvents(Turn(), TURN_BINDINGS), "s")
  {
    GreetingIs();
    GreetingIsTranslated();
    hide Greeting, TranslateAgentToken, LiveEvents, TokensOf;
    var token := StreamTextDelta("s", "hello", 2);
    LiveEventsOfTwo(Turn()[0], Turn()[1], TURN_BINDINGS);
    TokensOfTwo(StreamRunBound("s", "session", 1), token, "s");
    TokensOfTwo(token, StreamRunBound("s", "session", 3), "s");
    assert TOKEN_FIRST[1].StreamRunBound?;
  }
}
