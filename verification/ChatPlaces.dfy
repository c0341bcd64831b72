/** How many answers a run gets in the chat and where recovered ones go, in terms of the messages
    and runs as they are given. */
module ChatPlaces {
  import opened JsValues
  import opened RuntimeTypes
  import opened ChatMessages
  import opened StableSort
  import opened ChatProjection
  import opened ChatConservation

  // ----- how many -----

  predicate IsAttached(m: Message, role: Role, r: string) {
    m.role == role && m.streamId == Some(r)
  }

  function CountAttached(ms: seq<Message>, role: Role, r: string): nat {
    if ms == [] then 0 else (if IsAttached(ms[0], role, r) then 1 else 0) + CountAttached(ms[1..], role, r)
  }

  /** An assistant message is attached to the run before any user message is. */
  ghost predicate AnswerComesFirst(ms: seq<Message>, r: string) {
    exists i :: 0 <= i < |ms| && IsFirstAttached(ms, r, i) && ms[i].role == Assistant
  }

  ghost predicate IsFirstAttached(ms: seq<Message>, r: string, i: nat) {
    && i < |ms| && (IsAttached(ms[i], Assistant, r) || IsAttached(ms[i], User, r))
    && forall j :: 0 <= j < i ==> !IsAttached(ms[j], User, r)
  }

  ghost predicate IsUnattached(ms: seq<Message>, r: string) {
    forall i :: 0 <= i < |ms| ==> !IsAttached(ms[i], Assistant, r) && !IsAttached(ms[i], User, r)
  }

  /** The run belongs to the session that is shown. */
  predicate IsOfSession(run: RunProjection, sessionId: Option<string>) {
    match sessionId
    case Some(shown) => shown != "" && run.sessionId == Some(shown)
    case None => false
  }

  lemma AnchorIff(m: Message, runs: Runs, role: Role, r: string)
    requires WellKeyed(runs) && r in runs.entries
    ensures IsAnchorOf(m, runs, role, r) <==> IsAttached(m, role, r)
  {
  }

  lemma {:induction false} CountsAgree(ms: seq<Message>, runs: Runs, r: string)
    requires WellKeyed(runs) && r in runs.entries
    ensures UserAnchors(ms, runs, r) == CountAttached(ms, User, r)
    ensures Assistants(ms, runs, r) == CountAttached(ms, Assistant, r)
  {
    if ms != [] {
      CountsAgree(ms[1..], runs, r);
      AnchorIff(ms[0], runs, User, r);
      AnchorIff(ms[0], runs, Assistant, r);
      hide WellKeyed;
    }
  }

  lemma {:induction false} FirstAnswerIff(ms: seq<Message>, runs: Runs, r: string)
    requires WellKeyed(runs) && r in runs.entries
    ensures AnswerFirst(ms, runs, r) <==> AnswerComesFirst(ms, r)
  {
    if ms != [] {
      var rest := ms[1..];
      FirstAnswerIff(rest, runs, r);
      AnchorIff(ms[0], runs, User, r);
      AnchorIff(ms[0], runs, Assistant, r);
      hide WellKeyed, IsAnchorOf, IsAttached;
      if IsAttached(ms[0], Assistant, r) {
        assert IsFirstAttached(ms, r, 0);
      } else if AnswerComesFirst(rest, r) && !IsAttached(ms[0], User, r) {
        var i: nat :| i < |rest| && IsFirstAttached(rest, r, i) && rest[i].role == Assistant;
        forall j | 0 <= j < i + 1 ensures !IsAttached(ms[j], User, r) {
          assert j > 0 ==> ms[j] == rest[j - 1];
        }
        assert IsFirstAttached(ms, r, i + 1);
      }
      if AnswerComesFirst(ms, r) && !IsAttached(ms[0], Assistant, r) {
        var i: nat :| i < |ms| && IsFirstAttached(ms, r, i) && ms[i].role == Assistant;
        RestIsFirstAttached(ms, r, i);
      }
    }
  }

  lemma RestIsFirstAttached(ms: seq<Message>, r: string, i: nat)
    requires i < |ms| && IsFirstAttached(ms, r, i) && ms[i].role == Assistant && !IsAttached(ms[0], Assistant, r)
    ensures i > 0 && !IsAttached(ms[0], User, r) && IsFirstAttached(ms[1..], r, i - 1)
  {
    assert forall j :: 0 <= j < i ==> ms[1..][j] == ms[j + 1];
  }

  lemma {:induction false} UnattachedIff(ms: seq<Message>, runs: Runs, r: string)
    requires WellKeyed(runs) && r in runs.entries
    ensures r !in AnchoredIds(ms, runs) <==> IsUnattached(ms, r)
  {
    if ms != [] {
      UnattachedIff(ms[1..], runs, r);
      AnchorIff(ms[0], runs, User, r);
      AnchorIff(ms[0], runs, Assistant, r);
      assert r in StandsFor(ms[0], runs) <==> IsAttached(ms[0], User, r) || IsAttached(ms[0], Assistant, r);
      hide WellKeyed, IsAttached, StandsFor;
      assert forall i :: 0 < i < |ms| ==> ms[i] == ms[1..][i - 1];
    }
  }

  /** A run is answered once for every user message attached to it, once if an assistant message
      is attached to it before any of those, and once if no such message is attached to it and it
      belongs to the session that is shown. */
  lemma AnswersOfARun(ms: seq<Message>, runs: Runs, sessionId: Option<string>, r: string, parse: JsonParser)
    requires WellKeyed(runs) && r in runs.entries
    ensures CountAttached(Project(ms, runs, sessionId, parse), Assistant, r) ==
              CountAttached(ms, User, r) +
              (if AnswerComesFirst(ms, r) || (IsUnattached(ms, r) && IsOfSession(runs.entries[r], sessionId))
               then 1 else 0)
  {
    AnswersPerRun(ms, runs, sessionId, r, parse);
    CountsAgree(Project(ms, runs, sessionId, parse), runs, r);
    CountsAgree(ms, runs, r);
    FirstAnswerIff(ms, runs, r);
    UnattachedIff(ms, runs, r);
    assert runs.entries[r].runId == r;
    hide WellKeyed, Project, Assistants, CountAttached, AnswerComesFirst, IsUnattached, AnchoredIds, UserAnchors;
  }

  // ----- where -----

  /** The message has a valid time, and a later one than a valid `than`. */
  predicate IsNewer(m: Message, than: Option<int>) {
    match (m.timestamp, than)
    case (Some(at), Some(limit)) => limit < at
    case _ => false
  }

  /** A recovered block goes, in one piece, in front of the first message newer than its answer,
      and to the end if there is none. */
  lemma RecoveredBlockGoesBeforeTheFirstNewer(ms: seq<Message>, run: RunProjection, parse: JsonParser)
    ensures exists i :: 0 <= i <= |ms|
              && InsertByTimestamp(ms, RunBlock(None, run, parse)) == ms[..i] + RunBlock(None, run, parse) + ms[i..]
              && (forall j :: 0 <= j < i ==> !IsNewer(ms[j], Some(run.lastUpdatedAt)))
              && (i < |ms| ==> IsNewer(ms[i], Some(run.lastUpdatedAt)))
  {
    var block := RunBlock(None, run, parse);
    assert block != [] && block[0].timestamp == Some(run.lastUpdatedAt) by {
      BlockShape(None, run, parse);
      hide ToolMessages;
    }
    hide RunBlock;
    var i := InsertionIndex(ms, block[0].timestamp);
    assert InsertByTimestamp(ms, block) == ms[..i] + block + ms[i..];
    forall j | 0 <= j < |ms| ensures IsNewer(ms[j], Some(run.lastUpdatedAt)) <==> IsLater(ms[j], block[0].timestamp) {}
  }

  /** Missing runs are recovered in the order of their last updates, and each run once. */
  lemma RecoveryOrder(runs: Runs)
    ensures var ordered := ByUpdate(runs);
            && multiset(ordered) == multiset(Values(runs))
            && forall i, j :: 0 <= i < j < |ordered| ==> ordered[i].lastUpdatedAt <= ordered[j].lastUpdatedAt
  {
    SortIsStable(Values(runs), LastUpdate, 0);
    hide SortBy, ValuesOf, WithKey;
  }
}
