/** What the projector keeps, and what it adds for each run. */
module ChatConservation {
  import opened JsValues
  import opened RuntimeTypes
  import opened ChatMessages
  import opened StableSort
  import opened ChatProjection

  /** Runs are stored under their own, non-empty id. */
  ghost predicate WellKeyed(runs: Runs) {
    forall r :: r in runs.entries ==> r != "" && runs.entries[r].runId == r
  }

  /** Messages the first pass neither replaces nor drops. */
  predicate IsKept(m: Message, runs: Runs) {
    !IsAnchor(m, runs, Assistant) && !IsAnchor(m, runs, Tool)
  }

  function Kept(ms: seq<Message>, runs: Runs): seq<Message> {
    if ms == [] then [] else (if IsKept(ms[0], runs) then [ms[0]] else []) + Kept(ms[1..], runs)
  }

  /** The assistant and tool messages of run `r`. */
  predicate BelongsTo(m: Message, runs: Runs, r: string) {
    (IsAnchor(m, runs, Assistant) || IsAnchor(m, runs, Tool)) && m.streamId.value == r
  }

  function RunView(ms: seq<Message>, runs: Runs, r: string): seq<Message> {
    if ms == [] then [] else (if BelongsTo(ms[0], runs, r) then [ms[0]] else []) + RunView(ms[1..], runs, r)
  }

  // ----- the reference: one run's messages, from its own anchors alone -----

  predicate IsAnchorOf(m: Message, runs: Runs, role: Role, r: string) {
    IsAnchor(m, runs, role) && m.streamId.value == r
  }

  /** One block for every user message attached to `r`, and one for its first assistant
      message unless a user message came before it. */
  function AnchoredBlocks(ms: seq<Message>, runs: Runs, r: string, seen: bool, parse: JsonParser): seq<Message>
    requires r in runs.entries
  {
    if ms == [] then []
    else if IsAnchorOf(ms[0], runs, Assistant, r) then
      (if seen then [] else RunBlock(Some(ms[0]), runs.entries[r], parse)) +
      AnchoredBlocks(ms[1..], runs, r, true, parse)
    else if IsAnchorOf(ms[0], runs, User, r) then
      RunBlock(None, runs.entries[r], parse) + AnchoredBlocks(ms[1..], runs, r, true, parse)
    else
      AnchoredBlocks(ms[1..], runs, r, seen, parse)
  }

  /** The messages run `r` must contribute to the projected chat. */
  function ExpectedView(ms: seq<Message>, runs: Runs, sessionId: Option<string>, r: string, parse: JsonParser)
    : seq<Message>
    requires r in runs.entries
  {
    AnchoredBlocks(ms, runs, r, false, parse) +
    (if NeedsRecovery(runs.entries[r], sessionId, AnchoredIds(ms, runs))
     then RunBlock(None, runs.entries[r], parse) else [])
  }

  // ----- filters and concatenation -----

  lemma {:induction false} KeptConcat(a: seq<Message>, b: seq<Message>, runs: Runs)
    ensures Kept(a + b, runs) == Kept(a, runs) + Kept(b, runs)
  {
    if a == [] {
      assert a + b == b;
    } else {
      assert (a + b)[1..] == a[1..] + b;
      KeptConcat(a[1..], b, runs);
    }
  }

  lemma {:induction false} RunViewConcat(a: seq<Message>, b: seq<Message>, runs: Runs, r: string)
    ensures RunView(a + b, runs, r) == RunView(a, runs, r) + RunView(b, runs, r)
  {
    if a == [] {
      assert a + b == b;
    } else {
      assert (a + b)[1..] == a[1..] + b;
      RunViewConcat(a[1..], b, runs, r);
    }
  }

  lemma {:induction false} OnlyRunMessages(ms: seq<Message>, runs: Runs, r: string, q: string)
    requires forall i :: 0 <= i < |ms| ==> BelongsTo(ms[i], runs, r)
    ensures Kept(ms, runs) == []
    ensures RunView(ms, runs, q) == if q == r then ms else []
  {
    if ms != [] {
      assert BelongsTo(ms[0], runs, r);
      OnlyRunMessages(ms[1..], runs, r, q);
    }
  }

  /** A block consists of one assistant message of its run followed by tool messages of it. */
  lemma BlockShape(placeholder: Option<Message>, run: RunProjection, parse: JsonParser)
    ensures var block := RunBlock(placeholder, run, parse);
            && |block| == 1 + |ToolMessages(run, parse)|
            && block[0] == ProjectAssistant(placeholder, run)
            && block[0].role == Assistant && block[0].streamId == Some(run.runId)
            && block[1..] == ToolMessages(run, parse)
            && forall i :: 1 <= i < |block| ==> block[i].role == Tool && block[i].streamId == Some(run.runId)
  {
  }

  lemma BlockViews(placeholder: Option<Message>, runs: Runs, r: string, q: string, parse: JsonParser)
    requires WellKeyed(runs) && r in runs.entries
    ensures var block := RunBlock(placeholder, runs.entries[r], parse);
            && Kept(block, runs) == []
            && RunView(block, runs, q) == if q == r then block else []
  {
    BlockShape(placeholder, runs.entries[r], parse);
    OnlyRunMessages(RunBlock(placeholder, runs.entries[r], parse), runs, r, q);
  }

  // ----- first pass -----

  lemma SegmentViews(m: Message, runs: Runs, seen: set<string>, q: string, parse: JsonParser)
    requires WellKeyed(runs) && q in runs.entries
    ensures var segment := Segment(m, runs, seen, parse);
            && Kept(segment, runs) == Kept([m], runs)
            && RunView(segment, runs, q) == AnchoredBlocks([m], runs, q, q in seen, parse)
  {
    hide RunBlock;
    assert [m][1..] == [];
    if IsAnchor(m, runs, Assistant) {
      BlockViews(Some(m), runs, m.streamId.value, q, parse);
    } else if IsAnchor(m, runs, User) {
      var block := RunBlock(None, runs.entries[m.streamId.value], parse);
      BlockViews(None, runs, m.streamId.value, q, parse);
      KeptConcat([m], block, runs);
      RunViewConcat([m], block, runs, q);
    }
  }

  lemma NothingInNothing(runs: Runs, q: string, seen: bool, parse: JsonParser)
    requires q in runs.entries
    ensures Kept([], runs) == [] && RunView([], runs, q) == [] && AnchoredBlocks([], runs, q, seen, parse) == []
  {
  }

  lemma BlocksOfFirst(ms: seq<Message>, runs: Runs, q: string, seen: bool, parse: JsonParser)
    requires ms != [] && q in runs.entries
    ensures AnchoredBlocks(ms, runs, q, seen, parse) ==
              AnchoredBlocks([ms[0]], runs, q, seen, parse) +
              AnchoredBlocks(ms[1..], runs, q, seen || q in StandsFor(ms[0], runs), parse)
  {
    hide RunBlock;
    assert [ms[0]][1..] == [];
  }

  lemma {:induction false} FirstPassViews(ms: seq<Message>, runs: Runs, seen: set<string>, q: string,
                                          parse: JsonParser)
    requires WellKeyed(runs) && q in runs.entries
    ensures var first := ReplacePlaceholders(ms, runs, seen, parse);
            && Kept(first, runs) == Kept(ms, runs)
            && RunView(first, runs, q) == AnchoredBlocks(ms, runs, q, q in seen, parse)
  {
    hide RunBlock, Segment, AnchoredBlocks, Kept, RunView;
    if ms == [] {
      NothingInNothing(runs, q, q in seen, parse);
    } else {
      var seen' := seen + StandsFor(ms[0], runs);
      var segment, rest := Segment(ms[0], runs, seen, parse), ReplacePlaceholders(ms[1..], runs, seen', parse);
      SegmentViews(ms[0], runs, seen, q, parse);
      FirstPassViews(ms[1..], runs, seen', q, parse);
      KeptConcat(segment, rest, runs);
      RunViewConcat(segment, rest, runs, q);
      assert ms == [ms[0]] + ms[1..];
      KeptConcat([ms[0]], ms[1..], runs);
      BlocksOfFirst(ms, runs, q, q in seen, parse);
    }
  }

  lemma {:induction false} NoAnchorNoBlock(ms: seq<Message>, runs: Runs, q: string, parse: JsonParser)
    requires q in runs.entries && q !in AnchoredIds(ms, runs)
    ensures AnchoredBlocks(ms, runs, q, false, parse) == []
  {
    if ms != [] {
      NoAnchorNoBlock(ms[1..], runs, q, parse);
    }
  }

  // ----- second pass -----

  lemma SpliceViews(a: seq<Message>, mid: seq<Message>, b: seq<Message>, runs: Runs, q: string)
    ensures Kept(a + mid + b, runs) == Kept(a, runs) + Kept(mid, runs) + Kept(b, runs)
    ensures RunView(a + mid + b, runs, q) == RunView(a, runs, q) + RunView(mid, runs, q) + RunView(b, runs, q)
  {
    KeptConcat(a + mid, b, runs);
    KeptConcat(a, mid, runs);
    RunViewConcat(a + mid, b, runs, q);
    RunViewConcat(a, mid, runs, q);
  }

  lemma InsertedViews(ms: seq<Message>, i: nat, block: seq<Message>, runs: Runs, q: string)
    requires i <= |ms| && Kept(block, runs) == []
    ensures Kept(ms[..i] + block + ms[i..], runs) == Kept(ms, runs)
    ensures RunView(block, runs, q) == [] ==>
              RunView(ms[..i] + block + ms[i..], runs, q) == RunView(ms, runs, q)
    ensures RunView(ms, runs, q) == [] ==>
              RunView(ms[..i] + block + ms[i..], runs, q) == RunView(block, runs, q)
  {
    hide Kept, RunView;
    assert ms == ms[..i] + ms[i..];
    KeptConcat(ms[..i], ms[i..], runs);
    RunViewConcat(ms[..i], ms[i..], runs, q);
    SpliceViews(ms[..i], block, ms[i..], runs, q);
  }

  lemma InsertViews(ms: seq<Message>, runs: Runs, r: string, q: string, parse: JsonParser)
    requires WellKeyed(runs) && r in runs.entries
    ensures var block := RunBlock(None, runs.entries[r], parse);
            var out := InsertByTimestamp(ms, block);
            && Kept(out, runs) == Kept(ms, runs)
            && (q != r ==> RunView(out, runs, q) == RunView(ms, runs, q))
            && (q == r && RunView(ms, runs, q) == [] ==> RunView(out, runs, q) == block)
  {
    hide RunBlock, Kept, RunView, InsertionIndex;
    var block := RunBlock(None, runs.entries[r], parse);
    BlockShape(None, runs.entries[r], parse);
    BlockViews(None, runs, r, q, parse);
    var i := InsertionIndex(ms, block[0].timestamp);
    InsertedViews(ms, i, block, runs, q);
  }

  /** Distinct runs of the table. */
  ghost predicate AreRuns(ordered: seq<RunProjection>, runs: Runs) {
    && NoDuplicates(ordered)
    && forall i :: 0 <= i < |ordered| ==> Get(runs, ordered[i].runId) == Some(ordered[i])
  }

  lemma {:induction false} RecoveryViews(ms: seq<Message>, ordered: seq<RunProjection>, runs: Runs,
                                         sessionId: Option<string>, seen: set<string>, q: string, parse: JsonParser)
    requires WellKeyed(runs) && AreRuns(ordered, runs) && q in runs.entries
    requires q in seen || RunView(ms, runs, q) == []
    ensures var out := RecoverRuns(ms, ordered, sessionId, seen, parse);
            && Kept(out, runs) == Kept(ms, runs)
            && RunView(out, runs, q) ==
                 if runs.entries[q] in ordered && NeedsRecovery(runs.entries[q], sessionId, seen)
                 then RunBlock(None, runs.entries[q], parse)
                 else RunView(ms, runs, q)
  {
    if ordered != [] {
      var n := |ordered| - 1;
      var run := ordered[n];
      assert ordered == ordered[..n] + [run];
      assert run !in ordered[..n];
      assert Get(runs, run.runId) == Some(run);
      RecoveryViews(ms, ordered[..n], runs, sessionId, seen, q, parse);
      if NeedsRecovery(run, sessionId, seen) {
        InsertViews(RecoverRuns(ms, ordered[..n], sessionId, seen, parse), runs, run.runId, q, parse);
      }
    }
  }

  lemma {:induction false} ValuesAreRuns(keys: seq<string>, runs: Runs)
    requires WellKeyed(runs) && NoDuplicates(keys) && forall k :: k in keys ==> k in runs.entries
    ensures var vs := ValuesOf(keys, runs.entries);
            && |vs| == |keys|
            && (forall i :: 0 <= i < |keys| ==> vs[i] == runs.entries[keys[i]])
            && AreRuns(vs, runs)
  {
    if keys != [] {
      ValuesAreRuns(keys[1..], runs);
    }
    var vs := ValuesOf(keys, runs.entries);
    assert forall i :: 0 <= i < |keys| ==> vs[i].runId == keys[i];
  }

  lemma {:induction false} DistinctCount<T>(a: seq<T>)
    ensures NoDuplicates(a) <==> forall x :: multiset(a)[x] <= 1
  {
    if a != [] {
      DistinctCount(a[1..]);
      assert a == [a[0]] + a[1..];
      if NoDuplicates(a) {
        assert a[0] !in a[1..];
      } else if NoDuplicates(a[1..]) {
        assert a[0] in a[1..];
        assert multiset(a)[a[0]] >= 2;
      } else {
        var x :| multiset(a[1..])[x] > 1;
        assert multiset(a)[x] > 1;
      }
    }
  }

  lemma PermutationKeepsDistinct<T>(a: seq<T>, b: seq<T>)
    requires multiset(a) == multiset(b) && NoDuplicates(a)
    ensures NoDuplicates(b) && forall x :: x in a <==> x in b
  {
    DistinctCount(a);
    DistinctCount(b);
    assert forall x :: x in a <==> x in multiset(a);
  }

  lemma OrderedRuns(runs: Runs)
    requires WellKeyed(runs)
    ensures AreRuns(ByUpdate(runs), runs)
    ensures forall r :: r in runs.entries ==> runs.entries[r] in ByUpdate(runs)
  {
    hide SortBy, ValuesOf, WithKey, WellKeyed;
    ValuesAreRuns(runs.keys, runs);
    SortIsStable(Values(runs), LastUpdate, 0);
    PermutationKeepsDistinct(Values(runs), ByUpdate(runs));
    forall run | run in ByUpdate(runs) ensures Get(runs, run.runId) == Some(run) {
      assert run in Values(runs);
    }
    forall r | r in runs.entries ensures runs.entries[r] in ByUpdate(runs) {
      var i :| 0 <= i < |runs.keys| && runs.keys[i] == r;
      assert Values(runs)[i] == runs.entries[r];
    }
  }

  // ----- main results -----

  /** Kept messages come out unchanged and in their order, whatever was spliced between them;
      and what comes out for a run, in order, is exactly its expected blocks. */
  lemma ProjectionIsFaithful(ms: seq<Message>, runs: Runs, sessionId: Option<string>, r: string, parse: JsonParser)
    requires WellKeyed(runs) && r in runs.entries
    ensures var out := Project(ms, runs, sessionId, parse);
            && Kept(out, runs) == Kept(ms, runs)
            && RunView(out, runs, r) == ExpectedView(ms, runs, sessionId, r, parse)
  {
    var seen := AnchoredIds(ms, runs);
    var first := ReplacePlaceholders(ms, runs, {}, parse);
    FirstPassViews(ms, runs, {}, r, parse);
    OrderedRuns(runs);
    if r !in seen {
      NoAnchorNoBlock(ms, runs, r, parse);
    }
    RecoveryViews(first, ByUpdate(runs), runs, sessionId, seen, r, parse);
    assert runs.entries[r] in ByUpdate(runs);
  }

  /** The first assistant message attached to `r`. */
  function FirstAssistant(ms: seq<Message>, runs: Runs, r: string): Option<Message> {
    if ms == [] then None
    else if IsAnchorOf(ms[0], runs, Assistant, r) then Some(ms[0])
    else FirstAssistant(ms[1..], runs, r)
  }

  ghost predicate NoUserAnchor(ms: seq<Message>, runs: Runs) {
    forall i :: 0 <= i < |ms| ==> !IsAnchor(ms[i], runs, User)
  }

  lemma {:induction false} BlocksWithoutUserAnchors(ms: seq<Message>, runs: Runs, r: string, seen: bool,
                                                    parse: JsonParser)
    requires r in runs.entries && NoUserAnchor(ms, runs)
    ensures var first := FirstAssistant(ms, runs, r);
            && AnchoredBlocks(ms, runs, r, seen, parse) ==
                 (if first.Some? && !seen then RunBlock(first, runs.entries[r], parse) else [])
            && (r in AnchoredIds(ms, runs) <==> first.Some?)
  {
    if ms != [] {
      var seen' := seen || IsAnchorOf(ms[0], runs, Assistant, r);
      BlocksWithoutUserAnchors(ms[1..], runs, r, seen', parse);
    }
  }

  /** Exactly one block for a run with an assistant placeholder or of the session, none otherwise. */
  function SingleBlock(ms: seq<Message>, runs: Runs, sessionId: Option<string>, r: string, parse: JsonParser)
    : seq<Message>
    requires r in runs.entries
  {
    var first, run := FirstAssistant(ms, runs, r), runs.entries[r];
    if first.Some? || (sessionId.Some? && sessionId.value != "" && run.sessionId == sessionId)
    then RunBlock(first, run, parse) else []
  }

  function SumViews(ms: seq<Message>, runs: Runs, ids: seq<string>): multiset<Message> {
    if ids == [] then multiset{}
    else SumViews(ms, runs, ids[1..]) + multiset(RunView(ms, runs, ids[0]))
  }

  function SumBlocks(ms: seq<Message>, runs: Runs, sessionId: Option<string>, ids: seq<string>, parse: JsonParser)
    : multiset<Message>
    requires forall r :: r in ids ==> r in runs.entries
  {
    if ids == [] then multiset{}
    else SumBlocks(ms, runs, sessionId, ids[1..], parse) + multiset(SingleBlock(ms, runs, sessionId, ids[0], parse))
  }

  lemma RunViewCons(m: Message, ms: seq<Message>, runs: Runs, r: string)
    ensures RunView([m] + ms, runs, r) ==
              (if BelongsTo(m, runs, r) then [m] + RunView(ms, runs, r) else RunView(ms, runs, r))
  {
    assert ([m] + ms)[1..] == ms;
  }

  lemma {:induction false} SumViewsCons(m: Message, ms: seq<Message>, runs: Runs, ids: seq<string>)
    requires NoDuplicates(ids)
    ensures SumViews([m] + ms, runs, ids) == SumViews(ms, runs, ids) +
              (if !IsKept(m, runs) && m.streamId.value in ids then multiset{m} else multiset{})
  {
    if ids != [] {
      var r, rest := ids[0], ids[1..];
      assert ids == [r] + rest;
      SumViewsCons(m, ms, runs, rest);
      RunViewCons(m, ms, runs, r);
      if BelongsTo(m, runs, r) {
        assert r !in rest;
        assert multiset([m] + RunView(ms, runs, r)) == multiset{m} + multiset(RunView(ms, runs, r));
      }
    }
  }

  lemma KeptCons(m: Message, ms: seq<Message>, runs: Runs)
    ensures Kept([m] + ms, runs) == if IsKept(m, runs) then [m] + Kept(ms, runs) else Kept(ms, runs)
  {
    assert ([m] + ms)[1..] == ms;
  }

  lemma MultisetCons<T>(x: T, s: seq<T>)
    ensures multiset([x] + s) == multiset{x} + multiset(s)
  {
  }

  lemma SumViewsOfOneMore(m: Message, ms: seq<Message>, runs: Runs)
    ensures SumViews([m] + ms, runs, runs.keys) ==
              (if IsKept(m, runs) then SumViews(ms, runs, runs.keys)
               else SumViews(ms, runs, runs.keys) + multiset{m})
  {
    SumViewsCons(m, ms, runs, runs.keys);
    assert !IsKept(m, runs) ==> m.streamId.value in runs.keys;
  }

  /** Every message is kept or belongs to exactly one run. */
  lemma {:induction false} MessagesPartition(ms: seq<Message>, runs: Runs)
    ensures multiset(ms) == multiset(Kept(ms, runs)) + SumViews(ms, runs, runs.keys)
  {
    if ms == [] {
      SumViewsOfNothing(runs, runs.keys);
    } else {
      hide Kept, SumViews, IsKept;
      var m, rest := ms[0], ms[1..];
      assert ms == [m] + rest;
      MultisetCons(m, rest);
      MessagesPartition(rest, runs);
      SumViewsOfOneMore(m, rest, runs);
      KeptCons(m, rest, runs);
      MultisetCons(m, Kept(rest, runs));
    }
  }

  lemma {:induction false} SumViewsOfNothing(runs: Runs, ids: seq<string>)
    ensures SumViews([], runs, ids) == multiset{}
  {
    if ids != [] {
      SumViewsOfNothing(runs, ids[1..]);
    }
  }

  lemma {:induction false} ViewsAreSingleBlocks(ms: seq<Message>, runs: Runs, sessionId: Option<string>,
                                                ids: seq<string>, parse: JsonParser)
    requires WellKeyed(runs) && NoUserAnchor(ms, runs)
    requires forall r :: r in ids ==> r in runs.entries
    ensures SumViews(Project(ms, runs, sessionId, parse), runs, ids) == SumBlocks(ms, runs, sessionId, ids, parse)
  {
    if ids != [] {
      ViewsAreSingleBlocks(ms, runs, sessionId, ids[1..], parse);
      ProjectionIsFaithful(ms, runs, sessionId, ids[0], parse);
      BlocksWithoutUserAnchors(ms, runs, ids[0], false, parse);
    }
  }

  /** Conservation: with no user message attached to a run, the projected chat is, as a multiset,
      the kept messages and one block for each run that has a placeholder or is of the session. */
  lemma ProjectionConserves(ms: seq<Message>, runs: Runs, sessionId: Option<string>, parse: JsonParser)
    requires WellKeyed(runs) && NoUserAnchor(ms, runs)
    ensures multiset(Project(ms, runs, sessionId, parse)) ==
              multiset(Kept(ms, runs)) + SumBlocks(ms, runs, sessionId, runs.keys, parse)
  {
    var out := Project(ms, runs, sessionId, parse);
    MessagesPartition(out, runs);
    ViewsAreSingleBlocks(ms, runs, sessionId, runs.keys, parse);
    ProjectionKeeps(ms, runs, sessionId, parse);
  }

  lemma ProjectionKeeps(ms: seq<Message>, runs: Runs, sessionId: Option<string>, parse: JsonParser)
    requires WellKeyed(runs)
    ensures Kept(Project(ms, runs, sessionId, parse), runs) == Kept(ms, runs)
  {
    if runs.keys != [] {
      ProjectionIsFaithful(ms, runs, sessionId, runs.keys[0], parse);
    } else {
      NoRunsNoChange(ms, runs, {}, parse);
    }
  }

  lemma {:induction false} NoRunsNoChange(ms: seq<Message>, runs: Runs, seen: set<string>, parse: JsonParser)
    requires runs.keys == []
    ensures ReplacePlaceholders(ms, runs, seen, parse) == ms
  {
    if ms != [] {
      NoRunsNoChange(ms[1..], runs, seen + StandsFor(ms[0], runs), parse);
    }
  }

  // ----- how many answers a run gets -----

  function Assistants(ms: seq<Message>, runs: Runs, r: string): nat {
    if ms == [] then 0 else (if IsAnchorOf(ms[0], runs, Assistant, r) then 1 else 0) + Assistants(ms[1..], runs, r)
  }

  function UserAnchors(ms: seq<Message>, runs: Runs, r: string): nat {
    if ms == [] then 0 else (if IsAnchorOf(ms[0], runs, User, r) then 1 else 0) + UserAnchors(ms[1..], runs, r)
  }

  /** Whether the first message attached to `r` is an assistant message. */
  predicate AnswerFirst(ms: seq<Message>, runs: Runs, r: string) {
    ms != [] &&
    (IsAnchorOf(ms[0], runs, Assistant, r) ||
     (!IsAnchorOf(ms[0], runs, User, r) && AnswerFirst(ms[1..], runs, r)))
  }

  lemma {:induction false} AssistantsConcat(a: seq<Message>, b: seq<Message>, runs: Runs, r: string)
    ensures Assistants(a + b, runs, r) == Assistants(a, runs, r) + Assistants(b, runs, r)
  {
    if a == [] {
      assert a + b == b;
    } else {
      assert (a + b)[1..] == a[1..] + b;
      AssistantsConcat(a[1..], b, runs, r);
    }
  }

  lemma {:induction false} AssistantsOfView(ms: seq<Message>, runs: Runs, r: string)
    ensures Assistants(ms, runs, r) == Assistants(RunView(ms, runs, r), runs, r)
  {
    if ms != [] {
      AssistantsOfView(ms[1..], runs, r);
      var head := if BelongsTo(ms[0], runs, r) then [ms[0]] else [];
      AssistantsConcat(head, RunView(ms[1..], runs, r), runs, r);
      assert [ms[0]][1..] == [];
    }
  }

  lemma {:induction false} NoAssistantAmongTools(ms: seq<Message>, runs: Runs, r: string)
    requires forall i :: 0 <= i < |ms| ==> ms[i].role == Tool
    ensures Assistants(ms, runs, r) == 0
  {
    if ms != [] {
      NoAssistantAmongTools(ms[1..], runs, r);
    }
  }

  lemma OneAssistantPerBlock(placeholder: Option<Message>, runs: Runs, r: string, parse: JsonParser)
    requires WellKeyed(runs) && r in runs.entries
    ensures Assistants(RunBlock(placeholder, runs.entries[r], parse), runs, r) == 1
  {
    var block := RunBlock(placeholder, runs.entries[r], parse);
    BlockShape(placeholder, runs.entries[r], parse);
    assert block[0].role == Assistant && block[0].streamId == Some(r);
    NoAssistantAmongTools(block[1..], runs, r);
  }

  lemma {:induction false} AssistantsInBlocks(ms: seq<Message>, runs: Runs, r: string, seen: bool, parse: JsonParser)
    requires WellKeyed(runs) && r in runs.entries
    ensures Assistants(AnchoredBlocks(ms, runs, r, seen, parse), runs, r) ==
              UserAnchors(ms, runs, r) + (if !seen && AnswerFirst(ms, runs, r) then 1 else 0)
  {
    if ms != [] {
      var anchored := IsAnchorOf(ms[0], runs, Assistant, r) || IsAnchorOf(ms[0], runs, User, r);
      AssistantsInBlocks(ms[1..], runs, r, seen || anchored, parse);
      var placeholder := if IsAnchorOf(ms[0], runs, Assistant, r) then Some(ms[0]) else None;
      OneAssistantPerBlock(placeholder, runs, r, parse);
      var rest := AnchoredBlocks(ms[1..], runs, r, seen || anchored, parse);
      AssistantsConcat(RunBlock(placeholder, runs.entries[r], parse), rest, runs, r);
      assert [] + rest == rest;
    }
  }

  /** A run is answered once for each user message attached to it, once more if an assistant
      message of it comes first, and once if nothing is attached to it and it is of the session. */
  lemma AnswersPerRun(ms: seq<Message>, runs: Runs, sessionId: Option<string>, r: string, parse: JsonParser)
    requires WellKeyed(runs) && r in runs.entries
    ensures Assistants(Project(ms, runs, sessionId, parse), runs, r) ==
              UserAnchors(ms, runs, r) +
              (if AnswerFirst(ms, runs, r) then 1
               else if NeedsRecovery(runs.entries[r], sessionId, AnchoredIds(ms, runs)) then 1 else 0)
  {
    var out := Project(ms, runs, sessionId, parse);
    ProjectionIsFaithful(ms, runs, sessionId, r, parse);
    AssistantsOfView(out, runs, r);
    AssistantsInBlocks(ms, runs, r, false, parse);
    var blocks := AnchoredBlocks(ms, runs, r, false, parse);
    if NeedsRecovery(runs.entries[r], sessionId, AnchoredIds(ms, runs)) {
      AssistantsConcat(blocks, RunBlock(None, runs.entries[r], parse), runs, r);
      OneAssistantPerBlock(None, runs, r, parse);
      UnanchoredIsNotAnswered(ms, runs, r);
    } else {
      assert blocks + [] == blocks;
    }
  }

  lemma {:induction false} UnanchoredIsNotAnswered(ms: seq<Message>, runs: Runs, r: string)
    requires r !in AnchoredIds(ms, runs)
    ensures !AnswerFirst(ms, runs, r) && UserAnchors(ms, runs, r) == 0
  {
    if ms != [] {
      UnanchoredIsNotAnswered(ms[1..], runs, r);
    }
  }
}
