/** When projecting a projected chat again leaves it alone. */
module ChatIdempotence {
  import opened JsValues
  import opened RuntimeTypes
  import opened RuntimeReducer
  import opened RunIsolation
  import opened ChatMessages
  import opened StableSort
  import opened ChatProjection
  import opened ChatConservation
  import opened ChatRunMessages
  import opened SnapshotSummary

  // ----- one run -----

  /** The assistant message of a run, used as its own placeholder, comes out the same. */
  lemma AssistantIsItsOwnPlaceholder(placeholder: Option<Message>, run: RunProjection)
    ensures ProjectAssistant(Some(ProjectAssistant(placeholder, run)), run) == ProjectAssistant(placeholder, run)
  {
    var base := PlaceholderOr(placeholder, run);
    var once := ProjectAssistant(placeholder, run);
    ToolArgsAreStable(base, once, run);
  }

  lemma ToolArgsAreStable(base: Message, once: Message, run: RunProjection)
    requires once.toolArgs == RunErrorToolArgs(run, base)
    requires once.degradedReason == run.degradedReason.Or(base.degradedReason)
    requires once.resumeCursor == run.resumeCursor.Or(base.resumeCursor)
    ensures RunErrorToolArgs(run, once) == once.toolArgs
  {
    var failed := run.status == RunFailed || run.taskOutcome == Some(OutcomeFailed);
    if failed || (run.taskOutcome == Some(OutcomePartialSuccess) && run.resumeAvailable) {
      assert RunErrorToolArgs(run, once).value == once.toolArgs.value;
    }
  }

  lemma BlockIsItsOwnPlaceholder(placeholder: Option<Message>, run: RunProjection, parse: JsonParser)
    ensures RunBlock(Some(RunBlock(placeholder, run, parse)[0]), run, parse) == RunBlock(placeholder, run, parse)
  {
    AssistantIsItsOwnPlaceholder(placeholder, run);
  }

  // ----- settled conversations: every anchor is directly followed by its block -----

  /** The messages the first message of a settled conversation must start. */
  function Head(m: Message, runs: Runs, parse: JsonParser): (head: seq<Message>)
  {
    if IsAnchor(m, runs, Assistant) then RunBlock(Some(m), AnchoredRun(m, runs).value, parse)
    else if IsAnchor(m, runs, User) then [m] + RunBlock(None, AnchoredRun(m, runs).value, parse)
    else [m]
  }

  /** The conversation starts with a head, and does not answer a run again. */
  ghost predicate StartsWithHead(ms: seq<Message>, runs: Runs, seen: set<string>, parse: JsonParser) {
    && ms != []
    && !IsAnchor(ms[0], runs, Tool)
    && (IsAnchor(ms[0], runs, Assistant) ==> ms[0].streamId.value !in seen)
    && 0 < |Head(ms[0], runs, parse)|
    && Head(ms[0], runs, parse) <= ms
  }

  ghost predicate Settled(ms: seq<Message>, runs: Runs, seen: set<string>, parse: JsonParser)
    decreases |ms|
  {
    ms == [] ||
    (StartsWithHead(ms, runs, seen, parse)
     && Settled(ms[|Head(ms[0], runs, parse)|..], runs, seen + StandsFor(ms[0], runs), parse))
  }

  lemma HeadShape(m: Message, runs: Runs, parse: JsonParser)
    requires WellKeyed(runs)
    ensures var head := Head(m, runs, parse);
            && 0 < |head|
            && head[0].role == m.role && head[0].streamId == m.streamId
            && (IsAnchor(m, runs, User) || IsKept(m, runs) ==> head[0] == m)
            && (IsKept(m, runs) && !IsAnchor(m, runs, User) ==> |head| == 1)
            && (forall i :: 1 <= i < |head| ==>
                  && head[i].streamId == m.streamId
                  && (if i == 1 && IsAnchor(m, runs, User) then head[i].role == Assistant else head[i].role == Tool))
            && (IsAnchor(m, runs, User) ==> 1 < |head|)
            && (1 < |head| ==> AnchoredRun(m, runs).Some?)
  {
    if IsAnchor(m, runs, Assistant) {
      BlockShape(Some(m), AnchoredRun(m, runs).value, parse);
    } else if IsAnchor(m, runs, User) {
      BlockShape(None, AnchoredRun(m, runs).value, parse);
    }
  }

  /** The messages of a block behind its anchor leave nothing behind in the first pass. */
  lemma {:induction false} TailIsDropped(tail: seq<Message>, rest: seq<Message>, runs: Runs, seen: set<string>,
                                         r: string, parse: JsonParser)
    requires r in seen
    requires forall i :: 0 <= i < |tail| ==> BelongsTo(tail[i], runs, r)
    ensures ReplacePlaceholders(tail + rest, runs, seen, parse) == ReplacePlaceholders(rest, runs, seen, parse)
  {
    hide RunBlock;
    if tail == [] {
      assert tail + rest == rest;
    } else {
      assert BelongsTo(tail[0], runs, r);
      assert (tail + rest)[1..] == tail[1..] + rest;
      assert seen + StandsFor(tail[0], runs) == seen;
      TailIsDropped(tail[1..], rest, runs, seen, r, parse);
    }
  }

  /** The first pass over a head and what follows it. */
  lemma PassOverHead(m: Message, rest: seq<Message>, runs: Runs, seen: set<string>, parse: JsonParser)
    requires WellKeyed(runs)
    requires !IsAnchor(m, runs, Tool) && (IsAnchor(m, runs, Assistant) ==> m.streamId.value !in seen)
    requires Head(m, runs, parse)[0] == m
    ensures var head := Head(m, runs, parse);
            && Segment(m, runs, seen, parse) == head
            && ReplacePlaceholders(head[1..] + rest, runs, seen + StandsFor(m, runs), parse)
               == ReplacePlaceholders(rest, runs, seen + StandsFor(m, runs), parse)
  {
    var head := Head(m, runs, parse);
    HeadShape(m, runs, parse);
    if 1 < |head| {
      TailIsDropped(head[1..], rest, runs, seen + StandsFor(m, runs), m.streamId.value, parse);
    } else {
      assert head[1..] + rest == rest;
    }
  }

  /** The first pass never starts with a tool message of a run or a second answer. */
  lemma {:induction false} FirstOfPass(ms: seq<Message>, runs: Runs, seen: set<string>, parse: JsonParser)
    requires WellKeyed(runs)
    ensures var out := ReplacePlaceholders(ms, runs, seen, parse);
            out != [] ==>
              && !IsAnchor(out[0], runs, Tool)
              && (IsAnchor(out[0], runs, Assistant) ==> out[0].streamId.value !in seen)
  {
    if ms != [] {
      var m := ms[0];
      FirstOfPass(ms[1..], runs, seen + StandsFor(m, runs), parse);
      if IsAnchor(m, runs, Assistant) {
        BlockShape(Some(m), AnchoredRun(m, runs).value, parse);
        FirstOfSegment(m, runs, seen, parse);
      }
    }
  }

  lemma FirstOfSegment(m: Message, runs: Runs, seen: set<string>, parse: JsonParser)
    requires WellKeyed(runs) && IsAnchor(m, runs, Assistant)
    ensures var segment := Segment(m, runs, seen, parse);
            if m.streamId.value in seen then segment == []
            else segment != [] && segment[0].role == Assistant && segment[0].streamId == m.streamId
  {
  }

  /** The first pass over a conversation that starts with a head. */
  lemma PassOverConversation(ms: seq<Message>, runs: Runs, seen: set<string>, parse: JsonParser)
    requires WellKeyed(runs) && StartsWithHead(ms, runs, seen, parse)
    ensures var head := Head(ms[0], runs, parse);
            ReplacePlaceholders(ms, runs, seen, parse)
            == head + ReplacePlaceholders(ms[|head|..], runs, seen + StandsFor(ms[0], runs), parse)
  {
    hide RunBlock;
    var head := Head(ms[0], runs, parse);
    HeadShape(ms[0], runs, parse);
    hide Head;
    var rest := ms[|head|..];
    assert ms[1..] == head[1..] + rest;
    PassOverHead(ms[0], rest, runs, seen, parse);
  }

  /** A conversation the first pass leaves alone starts with a head. */
  lemma FixedStartsWithHead(ms: seq<Message>, runs: Runs, seen: set<string>, parse: JsonParser)
    requires WellKeyed(runs) && ms != [] && ReplacePlaceholders(ms, runs, seen, parse) == ms
    ensures StartsWithHead(ms, runs, seen, parse)
  {
    hide RunBlock;
    FirstOfPass(ms, runs, seen, parse);
    HeadShape(ms[0], runs, parse);
    assert Segment(ms[0], runs, seen, parse) == Head(ms[0], runs, parse);
  }

  lemma SameTail<T>(head: seq<T>, a: seq<T>, b: seq<T>)
    ensures head + a == head + b <==> a == b
  {
    assert (head + a)[|head|..] == a && (head + b)[|head|..] == b;
  }

  lemma NothingIsSettled(runs: Runs, seen: set<string>, parse: JsonParser)
    ensures ReplacePlaceholders([], runs, seen, parse) == [] && Settled([], runs, seen, parse)
  {
  }

  /** The first pass leaves exactly the settled conversations alone. */
  lemma {:induction false} FixedIffSettled(ms: seq<Message>, runs: Runs, seen: set<string>, parse: JsonParser)
    requires WellKeyed(runs)
    ensures ReplacePlaceholders(ms, runs, seen, parse) == ms <==> Settled(ms, runs, seen, parse)
    decreases |ms|
  {
    hide RunBlock, Head, ReplacePlaceholders, WellKeyed;
    if ms == [] {
      NothingIsSettled(runs, seen, parse);
    } else if StartsWithHead(ms, runs, seen, parse) {
      var n := |Head(ms[0], runs, parse)|;
      var seen' := seen + StandsFor(ms[0], runs);
      PassOverConversation(ms, runs, seen, parse);
      FixedIffSettled(ms[n..], runs, seen', parse);
      assert ms == ms[..n] + ms[n..];
      SameTail(ms[..n], ReplacePlaceholders(ms[n..], runs, seen', parse), ms[n..]);
    } else if ReplacePlaceholders(ms, runs, seen, parse) == ms {
      FixedStartsWithHead(ms, runs, seen, parse);
    }
  }

  /** What the first pass puts out is settled. */
  lemma {:induction false} PassSettles(ms: seq<Message>, runs: Runs, seen: set<string>, parse: JsonParser)
    requires WellKeyed(runs)
    ensures Settled(ReplacePlaceholders(ms, runs, seen, parse), runs, seen, parse)
  {
    if ms != [] {
      var m := ms[0];
      var seen' := seen + StandsFor(m, runs);
      var rest := ReplacePlaceholders(ms[1..], runs, seen', parse);
      PassSettles(ms[1..], runs, seen', parse);
      SegmentSettles(m, rest, runs, seen, parse);
    }
  }

  lemma SegmentSettles(m: Message, rest: seq<Message>, runs: Runs, seen: set<string>, parse: JsonParser)
    requires WellKeyed(runs) && Settled(rest, runs, seen + StandsFor(m, runs), parse)
    ensures Settled(Segment(m, runs, seen, parse) + rest, runs, seen, parse)
  {
    var segment := Segment(m, runs, seen, parse);
    if segment == [] {
      assert segment + rest == rest && seen + StandsFor(m, runs) == seen;
    } else {
      var first := segment[0];
      SegmentIsAHead(m, runs, seen, parse);
      assert (segment + rest)[|segment|..] == rest;
    }
  }

  lemma SegmentIsAHead(m: Message, runs: Runs, seen: set<string>, parse: JsonParser)
    requires WellKeyed(runs)
    ensures var segment := Segment(m, runs, seen, parse);
            if segment == [] then seen + StandsFor(m, runs) == seen
            else
              && Head(segment[0], runs, parse) == segment
              && !IsAnchor(segment[0], runs, Tool)
              && StandsFor(segment[0], runs) == StandsFor(m, runs)
              && (IsAnchor(segment[0], runs, Assistant) ==> segment[0].streamId.value !in seen)
  {
    if IsAnchor(m, runs, Assistant) && m.streamId.value !in seen {
      BlockShape(Some(m), AnchoredRun(m, runs).value, parse);
      BlockIsItsOwnPlaceholder(Some(m), AnchoredRun(m, runs).value, parse);
    }
  }

  // ----- splicing a block into a settled conversation -----

  /** A position that neither cuts a block nor separates a user message from its block. */
  predicate AtBoundary(x: seq<Message>, y: seq<Message>, runs: Runs) {
    && (y == [] || !IsAnchor(y[0], runs, Tool))
    && (x == [] || !IsAnchor(x[|x| - 1], runs, User))
  }

  lemma {:induction false} AnchoredIdsConcat(a: seq<Message>, b: seq<Message>, runs: Runs)
    ensures AnchoredIds(a + b, runs) == AnchoredIds(a, runs) + AnchoredIds(b, runs)
  {
    if a == [] {
      assert a + b == b;
    } else {
      assert (a + b)[1..] == a[1..] + b;
      AnchoredIdsConcat(a[1..], b, runs);
    }
  }

  lemma {:induction false} ToolsStandForNothing(ms: seq<Message>, runs: Runs)
    requires forall i :: 0 <= i < |ms| ==> ms[i].role == Tool
    ensures AnchoredIds(ms, runs) == {}
  {
    if ms != [] {
      ToolsStandForNothing(ms[1..], runs);
    }
  }

  lemma BlockStandsForItsRun(placeholder: Option<Message>, runs: Runs, r: string, parse: JsonParser)
    requires WellKeyed(runs) && r in runs.entries
    ensures AnchoredIds(RunBlock(placeholder, runs.entries[r], parse), runs) == {r}
  {
    var block := RunBlock(placeholder, runs.entries[r], parse);
    BlockShape(placeholder, runs.entries[r], parse);
    ToolsStandForNothing(block[1..], runs);
    assert IsAnchor(block[0], runs, Assistant);
  }

  /** A run that is not anchored in the rest may count as seen or not. */
  lemma {:induction false} SeenIsIrrelevant(ms: seq<Message>, runs: Runs, seen: set<string>, r: string,
                                            parse: JsonParser)
    requires WellKeyed(runs) && r !in AnchoredIds(ms, runs)
    ensures Settled(ms, runs, seen + {r}, parse) <==> Settled(ms, runs, seen, parse)
    decreases |ms|
  {
    hide RunBlock;
    if ms != [] {
      var head := Head(ms[0], runs, parse);
      HeadShape(ms[0], runs, parse);
      if head <= ms {
        assert ms == ms[..|head|] + ms[|head|..];
        AnchoredIdsConcat(ms[..|head|], ms[|head|..], runs);
        SeenIsIrrelevant(ms[|head|..], runs, seen + StandsFor(ms[0], runs), r, parse);
        assert seen + {r} + StandsFor(ms[0], runs) == seen + StandsFor(ms[0], runs) + {r};
      }
    }
  }

  /** The block of a run no message stands for yet. */
  ghost predicate IsNewBlock(block: seq<Message>, runs: Runs, r: string, parse: JsonParser) {
    r in runs.entries && block == RunBlock(None, runs.entries[r], parse)
  }

  lemma SpliceAtFront(block: seq<Message>, y: seq<Message>, runs: Runs, seen: set<string>, r: string,
                      parse: JsonParser)
    requires WellKeyed(runs) && IsNewBlock(block, runs, r, parse)
    requires r !in seen && r !in AnchoredIds(y, runs)
    ensures Settled(block + y, runs, seen, parse) <==> Settled(y, runs, seen, parse)
  {
    BlockShape(None, runs.entries[r], parse);
    BlockIsItsOwnPlaceholder(None, runs.entries[r], parse);
    assert IsAnchor(block[0], runs, Assistant) && Head(block[0], runs, parse) == block;
    assert (block + y)[|block|..] == y;
    SeenIsIrrelevant(y, runs, seen, r, parse);
  }

  /** A head that reaches over the splice point does not fit any more. */
  lemma HeadDoesNotSpan(x: seq<Message>, block: seq<Message>, y: seq<Message>, runs: Runs, r: string,
                        parse: JsonParser)
    requires WellKeyed(runs) && IsNewBlock(block, runs, r, parse) && x != []
    requires !(IsAnchor(x[0], runs, User) && x[0].streamId == Some(r))
    requires |Head(x[0], runs, parse)| > |x|
    ensures !(Head(x[0], runs, parse) <= x + block + y)
    ensures Head(x[0], runs, parse) <= x + y ==> !AtBoundary(x, y, runs)
  {
    hide RunBlock;
    var head := Head(x[0], runs, parse);
    HeadShape(x[0], runs, parse);
    BlockShape(None, runs.entries[r], parse);
    assert (x + block + y)[|x|] == block[0] && head[|x|] != block[0];
    if head <= x + y {
      assert (x + y)[|x|] == y[0] == head[|x|];
      assert |x| == 1 || IsAnchor(y[0], runs, Tool);
    }
  }

  lemma PrefixOfConcat(head: seq<Message>, x: seq<Message>, y: seq<Message>)
    requires |head| <= |x|
    ensures head <= x + y <==> head <= x
    ensures (x + y)[|head|..] == x[|head|..] + y
  {
    assert (x + y)[..|head|] == x[..|head|];
  }

  /** A head that ends before the splice point does not notice it. */
  lemma HeadIsIntact(x: seq<Message>, block: seq<Message>, y: seq<Message>, runs: Runs, parse: JsonParser)
    requires WellKeyed(runs) && x != [] && !IsAnchor(x[0], runs, Tool)
    requires |Head(x[0], runs, parse)| <= |x|
    ensures var head := Head(x[0], runs, parse);
            && 0 < |head|
            && (head <= x + block + y <==> head <= x)
            && (head <= x + y <==> head <= x)
            && (x + block + y)[|head|..] == x[|head|..] + block + y
            && (x + y)[|head|..] == x[|head|..] + y
            && (head <= x ==> (AtBoundary(x[|head|..], y, runs) <==> AtBoundary(x, y, runs)))
  {
    hide RunBlock;
    var head := Head(x[0], runs, parse);
    HeadShape(x[0], runs, parse);
    hide Head;
    PrefixOfConcat(head, x, block + y);
    PrefixOfConcat(head, x, y);
    assert x + block + y == x + (block + y);
    if head <= x && x[|head|..] == [] {
      assert x == head && x[|x| - 1] == head[|head| - 1];
    }
  }

  /** A new block keeps a conversation settled exactly when it is spliced in at a boundary,
      and it never settles one that was not. */
  lemma {:induction false} SpliceSettledIff(x: seq<Message>, block: seq<Message>, y: seq<Message>, runs: Runs,
                                            seen: set<string>, r: string, parse: JsonParser)
    requires WellKeyed(runs) && IsNewBlock(block, runs, r, parse)
    requires r !in seen && r !in AnchoredIds(x + y, runs)
    ensures Settled(x + block + y, runs, seen, parse) <==>
              Settled(x + y, runs, seen, parse) && AtBoundary(x, y, runs)
    decreases |x|
  {
    hide RunBlock;
    AnchoredIdsConcat(x, y, runs);
    if x == [] {
      assert x + block + y == block + y && x + y == y;
      SpliceAtFront(block, y, runs, seen, r, parse);
    } else {
      var head := Head(x[0], runs, parse);
      assert (x + block + y)[0] == x[0] == (x + y)[0];
      HeadShape(x[0], runs, parse);
      if !IsAnchor(x[0], runs, Tool) {
        if |head| > |x| {
          HeadDoesNotSpan(x, block, y, runs, r, parse);
        } else {
          HeadIsIntact(x, block, y, runs, parse);
          if head <= x {
            var seen', x' := seen + StandsFor(x[0], runs), x[|head|..];
            assert x == x[..|head|] + x';
            AnchoredIdsConcat(x[..|head|], x', runs);
            AnchoredIdsConcat(x', y, runs);
            SpliceSettledIff(x', block, y, runs, seen', r, parse);
          }
        }
      }
    }
  }

  // ----- main result -----

  /** No recovered block is spliced into another block or between a user message and its answer. */
  ghost predicate SplicesAtBoundaries(ms: seq<Message>, ordered: seq<RunProjection>, runs: Runs,
                                      sessionId: Option<string>, seen: set<string>, parse: JsonParser)
  {
    ordered == [] ||
    (var n := |ordered| - 1;
     && SplicesAtBoundaries(ms, ordered[..n], runs, sessionId, seen, parse)
     && (NeedsRecovery(ordered[n], sessionId, seen) ==>
           var before := RecoverRuns(ms, ordered[..n], sessionId, seen, parse);
           var i := InsertionIndex(before, Some(ordered[n].lastUpdatedAt));
           AtBoundary(before[..i], before[i..], runs)))
  }

  /** The runs the second pass recovers. */
  function RecoveredIds(ordered: seq<RunProjection>, sessionId: Option<string>, seen: set<string>): set<string> {
    if ordered == [] then {}
    else
      var n := |ordered| - 1;
      RecoveredIds(ordered[..n], sessionId, seen) +
      (if NeedsRecovery(ordered[n], sessionId, seen) then {ordered[n].runId} else {})
  }

  lemma {:induction false} RecoveredIdsMean(ordered: seq<RunProjection>, sessionId: Option<string>, seen: set<string>)
    ensures forall r :: r in RecoveredIds(ordered, sessionId, seen) <==>
              exists i :: 0 <= i < |ordered| && ordered[i].runId == r && NeedsRecovery(ordered[i], sessionId, seen)
  {
    if ordered != [] {
      var n := |ordered| - 1;
      RecoveredIdsMean(ordered[..n], sessionId, seen);
      assert forall i :: 0 <= i < n ==> ordered[..n][i] == ordered[i];
    }
  }

  /** One recovery, given where the conversation stands before it. */
  lemma RecoveryStep(before: seq<Message>, run: RunProjection, runs: Runs, parse: JsonParser)
    requires WellKeyed(runs) && Get(runs, run.runId) == Some(run)
    requires run.runId !in AnchoredIds(before, runs)
    ensures var after := InsertByTimestamp(before, RunBlock(None, run, parse));
            var i := InsertionIndex(before, Some(run.lastUpdatedAt));
            && AnchoredIds(after, runs) == AnchoredIds(before, runs) + {run.runId}
            && (Settled(after, runs, {}, parse) <==>
                  Settled(before, runs, {}, parse) && AtBoundary(before[..i], before[i..], runs))
  {
    hide RunBlock, InsertionIndex, Settled, AnchoredIds, AtBoundary;
    var block := RunBlock(None, run, parse);
    BlockShape(None, run, parse);
    assert block[0].timestamp == Some(run.lastUpdatedAt);
    var i := InsertionIndex(before, block[0].timestamp);
    assert before == before[..i] + before[i..];
    SpliceSettledIff(before[..i], block, before[i..], runs, {}, run.runId, parse);
    BlockStandsForItsRun(None, runs, run.runId, parse);
    AnchoredIdsConcat(before[..i], before[i..], runs);
    AnchoredIdsConcat(before[..i] + block, before[i..], runs);
    AnchoredIdsConcat(before[..i], block, runs);
  }

  lemma {:induction false} RecoverySettledIff(ms: seq<Message>, ordered: seq<RunProjection>, runs: Runs,
                                              sessionId: Option<string>, seen: set<string>, parse: JsonParser)
    requires WellKeyed(runs) && AreRuns(ordered, runs)
    requires AnchoredIds(ms, runs) == seen && Settled(ms, runs, {}, parse)
    ensures var out := RecoverRuns(ms, ordered, sessionId, seen, parse);
            && (Settled(out, runs, {}, parse) <==> SplicesAtBoundaries(ms, ordered, runs, sessionId, seen, parse))
            && AnchoredIds(out, runs) == seen + RecoveredIds(ordered, sessionId, seen)
  {
    hide RunBlock;
    if ordered != [] {
      var n := |ordered| - 1;
      var run := ordered[n];
      RecoverySettledIff(ms, ordered[..n], runs, sessionId, seen, parse);
      if NeedsRecovery(run, sessionId, seen) {
        assert run.runId !in RecoveredIds(ordered[..n], sessionId, seen) by {
          RecoveredIdsMean(ordered[..n], sessionId, seen);
          assert forall j :: 0 <= j < n ==> Get(runs, ordered[j].runId) == Some(ordered[j]);
          assert Get(runs, run.runId) == Some(run);
        }
        RecoveryStep(RecoverRuns(ms, ordered[..n], sessionId, seen, parse), run, runs, parse);
      }
    }
  }

  lemma {:induction false} PassKeepsAnchors(ms: seq<Message>, runs: Runs, seen: set<string>, parse: JsonParser)
    requires WellKeyed(runs)
    ensures AnchoredIds(ReplacePlaceholders(ms, runs, seen, parse), runs) + seen == AnchoredIds(ms, runs) + seen
  {
    if ms != [] {
      var m, seen' := ms[0], seen + StandsFor(ms[0], runs);
      var segment, rest := Segment(m, runs, seen, parse), ReplacePlaceholders(ms[1..], runs, seen', parse);
      PassKeepsAnchors(ms[1..], runs, seen', parse);
      AnchoredIdsConcat(segment, rest, runs);
      SegmentStandsFor(m, runs, seen, parse);
    }
  }

  lemma SegmentStandsFor(m: Message, runs: Runs, seen: set<string>, parse: JsonParser)
    requires WellKeyed(runs)
    ensures AnchoredIds(Segment(m, runs, seen, parse), runs) + seen == StandsFor(m, runs) + seen
  {
    hide RunBlock;
    assert [m][1..] == [];
    if IsAnchor(m, runs, Assistant) {
      BlockStandsForItsRun(Some(m), runs, m.streamId.value, parse);
    } else if IsAnchor(m, runs, User) {
      var block := RunBlock(None, AnchoredRun(m, runs).value, parse);
      BlockStandsForItsRun(None, runs, m.streamId.value, parse);
      AnchoredIdsConcat([m], block, runs);
    }
  }

  lemma {:induction false} NothingToRecover(ms: seq<Message>, ordered: seq<RunProjection>, sessionId: Option<string>,
                                            seen: set<string>, parse: JsonParser)
    requires forall i :: 0 <= i < |ordered| ==> !NeedsRecovery(ordered[i], sessionId, seen)
    ensures RecoverRuns(ms, ordered, sessionId, seen, parse) == ms
  {
    if ordered != [] {
      NothingToRecover(ms, ordered[..|ordered| - 1], sessionId, seen, parse);
    }
  }

  /** Projecting a projected chat again gives the same chat exactly when the first projection
      spliced every recovered block in at a boundary. */
  lemma ProjectTwiceIff(ms: seq<Message>, runs: Runs, sessionId: Option<string>, parse: JsonParser)
    requires WellKeyed(runs)
    ensures var first := ReplacePlaceholders(ms, runs, {}, parse);
            var once := Project(ms, runs, sessionId, parse);
            Project(once, runs, sessionId, parse) == once <==>
              SplicesAtBoundaries(first, ByUpdate(runs), runs, sessionId, AnchoredIds(ms, runs), parse)
  {
    hide RunBlock;
    var seen, first, ordered := AnchoredIds(ms, runs), ReplacePlaceholders(ms, runs, {}, parse), ByUpdate(runs);
    var once := Project(ms, runs, sessionId, parse);
    OrderedRuns(runs);
    PassSettles(ms, runs, {}, parse);
    PassKeepsAnchors(ms, runs, {}, parse);
    RecoverySettledIff(first, ordered, runs, sessionId, seen, parse);
    RecoveredIdsMean(ordered, sessionId, seen);
    var seen' := AnchoredIds(once, runs);
    assert forall i :: 0 <= i < |ordered| ==> !NeedsRecovery(ordered[i], sessionId, seen');
    NothingToRecover(ReplacePlaceholders(once, runs, {}, parse), ordered, sessionId, seen', parse);
    FixedIffSettled(once, runs, {}, parse);
  }

  /** In particular when every run of the session has an anchor, and always without a session. */
  lemma ProjectTwiceWhenAnchored(ms: seq<Message>, runs: Runs, sessionId: Option<string>, parse: JsonParser)
    requires WellKeyed(runs)
    requires forall r :: r in runs.entries && NeedsRecovery(runs.entries[r], sessionId, {}) ==>
               r in AnchoredIds(ms, runs)
    ensures var once := Project(ms, runs, sessionId, parse);
            Project(once, runs, sessionId, parse) == once
  {
    OrderedRuns(runs);
    ProjectTwiceIff(ms, runs, sessionId, parse);
    NoRecoveryNoSplice(
      ReplacePlaceholders(ms, runs, {}, parse), ByUpdate(runs), runs, sessionId, AnchoredIds(ms, runs), parse);
  }

  lemma {:induction false} NoRecoveryNoSplice(ms: seq<Message>, ordered: seq<RunProjection>, runs: Runs,
                                              sessionId: Option<string>, seen: set<string>, parse: JsonParser)
    requires WellKeyed(runs) && AreRuns(ordered, runs)
    requires forall r :: r in runs.entries && NeedsRecovery(runs.entries[r], sessionId, {}) ==> r in seen
    ensures SplicesAtBoundaries(ms, ordered, runs, sessionId, seen, parse)
  {
    if ordered != [] {
      var run := ordered[|ordered| - 1];
      NoRecoveryNoSplice(ms, ordered[..|ordered| - 1], runs, sessionId, seen, parse);
      assert Get(runs, run.runId) == Some(run);
    }
  }

  // ----- the condition on the first pass alone -----

  /** None of these messages is later than `t`. */
  ghost predicate NoneLater(ms: seq<Message>, t: int) {
    forall i :: 0 <= i < |ms| ==> !IsLater(ms[i], Some(t))
  }

  lemma {:induction false} IndexBehind(x: seq<Message>, y: seq<Message>, t: int)
    requires NoneLater(x, t)
    ensures InsertionIndex(x + y, Some(t)) == |x| + InsertionIndex(y, Some(t))
  {
    if x == [] {
      assert x + y == y;
    } else {
      assert (x + y)[0] == x[0] && (x + y)[1..] == x[1..] + y;
      IndexBehind(x[1..], y, t);
    }
  }

  lemma ShownToolIsNotLater(run: RunProjection, tool: ToolCallProjection)
    requires RunKeysMatch(run, run.runId) && ToolTimesOrdered(run) && tool in ShownTools(run)
    ensures tool.firstSeenAt <= run.lastUpdatedAt
  {
    hide ShownTools;
    ShownToolsAreTheTools(run);
    assert Get(run.toolCalls, tool.toolCallId) == Some(tool);
  }

  /** A block is not later than any time from its run's last update on. */
  lemma BlockIsNotLater(run: RunProjection, parse: JsonParser, t: int)
    requires RunKeysMatch(run, run.runId) && ToolTimesOrdered(run) && run.lastUpdatedAt <= t
    ensures NoneLater(RunBlock(None, run, parse), t)
  {
    BlockShape(None, run, parse);
    ToolMessageAt(run, parse);
    var block, tools := RunBlock(None, run, parse), ShownTools(run);
    assert block[0].timestamp == Some(run.lastUpdatedAt);
    hide ShownTools, RunBlock, ToolMessages, RunKeysMatch, ToolTimesOrdered, ProjectToolCall;
    forall i | 1 <= i < |block| ensures !IsLater(block[i], Some(t)) {
      assert block[i] == block[1..][i - 1];
      ShownToolIsNotLater(run, tools[i - 1]);
    }
  }

  /** What a message of time `t` finds around it. */
  function Behind(ms: seq<Message>, t: int): seq<Message> {
    ms[InsertionIndex(ms, Some(t))..]
  }

  function Before(ms: seq<Message>, t: int): seq<Message> {
    ms[..InsertionIndex(ms, Some(t))]
  }

  ghost predicate EndsWithQuestion(ms: seq<Message>, runs: Runs) {
    ms != [] && IsAnchor(ms[|ms| - 1], runs, User)
  }

  /** The block of `run` would be spliced into the first pass at a boundary. */
  ghost predicate FindsBoundary(first: seq<Message>, run: RunProjection, runs: Runs) {
    AtBoundary(Before(first, run.lastUpdatedAt), Behind(first, run.lastUpdatedAt), runs)
  }

  lemma SliceBehind<T>(x: seq<T>, y: seq<T>, k: nat)
    requires k <= |y|
    ensures (x + y)[|x| + k..] == y[k..]
    ensures (x + y)[..|x| + k] == x + y[..k]
  {
  }

  /** Looking from `t` into messages that start with none later than `t`. */
  lemma LookPast(x: seq<Message>, y: seq<Message>, t: int)
    requires NoneLater(x, t)
    ensures Behind(x + y, t) == Behind(y, t) && Before(x + y, t) == x + Before(y, t)
  {
    hide InsertionIndex, NoneLater;
    IndexBehind(x, y, t);
    SliceBehind(x, y, InsertionIndex(y, Some(t)));
  }

  lemma NotLaterThanSplice(ms: seq<Message>, u: int, t: int)
    requires u <= t
    ensures NoneLater(Before(ms, u), t) && ms == Before(ms, u) + Behind(ms, u)
  {
  }

  lemma EndOfConcat(x: seq<Message>, y: seq<Message>, runs: Runs)
    ensures EndsWithQuestion(x + y, runs) == if y == [] then EndsWithQuestion(x, runs) else EndsWithQuestion(y, runs)
  {
    if y == [] {
      assert x + y == x;
    } else {
      assert (x + y)[|x + y| - 1] == y[|y| - 1];
    }
  }

  lemma NothingBefore(y: seq<Message>, t: int)
    ensures Before(y, t) == [] <==> Behind(y, t) == y
  {
    assert |Before(y, t)| + |Behind(y, t)| == |y|;
  }

  /** One splice at time `u`, seen from a later time `t`. */
  lemma SpliceSeenLater(before: seq<Message>, block: seq<Message>, runs: Runs, u: int, t: int)
    requires u <= t && block != [] && block[0].timestamp == Some(u) && NoneLater(block, t)
    requires !IsAnchor(block[|block| - 1], runs, User)
    ensures var after := InsertByTimestamp(before, block);
            && Behind(after, t) == Behind(before, t)
            && (if Behind(before, t) == Behind(before, u) then !EndsWithQuestion(Before(after, t), runs)
                else EndsWithQuestion(Before(after, t), runs) == EndsWithQuestion(Before(before, t), runs))
  {
    var x, y := Before(before, u), Behind(before, u);
    var after := InsertByTimestamp(before, block);
    assert after == x + block + y;
    NotLaterThanSplice(before, u, t);
    assert !EndsWithQuestion(block, runs);
    hide Before, Behind, NoneLater, EndsWithQuestion, InsertByTimestamp, IsAnchor;
    assert after == x + (block + y);
    LookPast(x, y, t);
    LookPast(block, y, t);
    LookPast(x, block + y, t);
    NothingBefore(y, t);
    EndOfConcat(x, Before(y, t), runs);
    EndOfConcat(block, Before(y, t), runs);
    EndOfConcat(x, block + Before(y, t), runs);
  }

  /** What the second pass has done so far, seen from a time no earlier than the runs it saw:
      nothing behind the splice point has changed, and in front of it either nothing has either,
      or an earlier block ends there. */
  ghost predicate LooksLikeFirst(first: seq<Message>, before: seq<Message>, runs: Runs, t: int,
                                 blocked: bool)
  {
    && Behind(before, t) == Behind(first, t)
    && (if blocked then !EndsWithQuestion(Before(before, t), runs)
        else EndsWithQuestion(Before(before, t), runs) == EndsWithQuestion(Before(first, t), runs))
  }

  /** An earlier recovered run goes to the same place. */
  ghost predicate IsBlocked(first: seq<Message>, ordered: seq<RunProjection>, sessionId: Option<string>,
                            seen: set<string>, t: int)
  {
    exists i :: 0 <= i < |ordered| && NeedsRecovery(ordered[i], sessionId, seen)
                && Behind(first, ordered[i].lastUpdatedAt) == Behind(first, t)
  }

  ghost predicate UpTo(ordered: seq<RunProjection>, t: int) {
    && (forall i :: 0 <= i < |ordered| ==> RunKeysMatch(ordered[i], ordered[i].runId) && ToolTimesOrdered(ordered[i]))
    && (forall i, j :: 0 <= i < j < |ordered| ==> ordered[i].lastUpdatedAt <= ordered[j].lastUpdatedAt)
    && (forall i :: 0 <= i < |ordered| ==> ordered[i].lastUpdatedAt <= t)
  }

  lemma UpToPrefix(ordered: seq<RunProjection>, t: int)
    requires ordered != [] && UpTo(ordered, t)
    ensures var n := |ordered| - 1;
            && ordered[n].lastUpdatedAt <= t
            && UpTo(ordered[..n], t) && UpTo(ordered[..n], ordered[n].lastUpdatedAt)
  {
    var n := |ordered| - 1;
    assert forall i :: 0 <= i < n ==> ordered[..n][i] == ordered[i];
  }

  lemma BlockedSnoc(first: seq<Message>, ordered: seq<RunProjection>, sessionId: Option<string>,
                    seen: set<string>, t: int)
    requires ordered != []
    ensures var n := |ordered| - 1;
            IsBlocked(first, ordered, sessionId, seen, t) <==>
              || IsBlocked(first, ordered[..n], sessionId, seen, t)
              || (NeedsRecovery(ordered[n], sessionId, seen)
                  && Behind(first, ordered[n].lastUpdatedAt) == Behind(first, t))
  {
    hide Behind, NeedsRecovery;
    var n := |ordered| - 1;
    assert forall i :: 0 <= i < n ==> ordered[..n][i] == ordered[i];
  }

  lemma {:induction false} RecoveryLooksLikeFirst(
      first: seq<Message>, ordered: seq<RunProjection>, runs: Runs, sessionId: Option<string>, seen: set<string>,
      parse: JsonParser, t: int)
    requires UpTo(ordered, t)
    ensures LooksLikeFirst(first, RecoverRuns(first, ordered, sessionId, seen, parse), runs, t,
                           IsBlocked(first, ordered, sessionId, seen, t))
    decreases |ordered|
  {
    hide RunBlock, Behind, Before, EndsWithQuestion, UpTo, InsertByTimestamp, NeedsRecovery;
    if ordered == [] {
      NothingIsBlocked(first, sessionId, seen, t);
    } else {
      var n := |ordered| - 1;
      var run, before := ordered[n], RecoverRuns(first, ordered[..n], sessionId, seen, parse);
      UpToPrefix(ordered, t);
      BlockedSnoc(first, ordered, sessionId, seen, t);
      RecoveryLooksLikeFirst(first, ordered[..n], runs, sessionId, seen, parse, t);
      if NeedsRecovery(run, sessionId, seen) {
        RecoveryLooksLikeFirst(first, ordered[..n], runs, sessionId, seen, parse, run.lastUpdatedAt);
        RecoveredBlockShape(run, runs, parse, ordered, t);
        SpliceSeenLater(before, RunBlock(None, run, parse), runs, run.lastUpdatedAt, t);
      }
    }
  }

  lemma NothingIsBlocked(first: seq<Message>, sessionId: Option<string>, seen: set<string>, t: int)
    ensures !IsBlocked(first, [], sessionId, seen, t)
  {
  }

  lemma RecoveredBlockShape(run: RunProjection, runs: Runs, parse: JsonParser, ordered: seq<RunProjection>, t: int)
    requires ordered != [] && ordered[|ordered| - 1] == run && UpTo(ordered, t)
    ensures var block := RunBlock(None, run, parse);
            && block != [] && block[0].timestamp == Some(run.lastUpdatedAt) && NoneLater(block, t)
            && !IsAnchor(block[|block| - 1], runs, User)
  {
    BlockShape(None, run, parse);
    BlockIsNotLater(run, parse, t);
  }

  /** If the blocks recovered before found boundaries, whether the next one does can be read off
      the first pass. */
  lemma NextBoundary(first: seq<Message>, before: seq<Message>, runs: Runs, t: int, blocked: bool)
    requires LooksLikeFirst(first, before, runs, t, blocked)
    requires blocked ==> AtBoundary(Before(first, t), Behind(first, t), runs)
    ensures AtBoundary(Before(before, t), Behind(before, t), runs) <==>
              AtBoundary(Before(first, t), Behind(first, t), runs)
  {
  }

  lemma SameBehindSameBefore(ms: seq<Message>, t: int, u: int)
    requires Behind(ms, t) == Behind(ms, u)
    ensures Before(ms, t) == Before(ms, u)
  {
    assert |Behind(ms, t)| == |ms| - InsertionIndex(ms, Some(t));
    assert |Behind(ms, u)| == |ms| - InsertionIndex(ms, Some(u));
  }

  ghost predicate AllFindBoundaries(first: seq<Message>, ordered: seq<RunProjection>, runs: Runs,
                                    sessionId: Option<string>, seen: set<string>)
  {
    forall i :: 0 <= i < |ordered| && NeedsRecovery(ordered[i], sessionId, seen) ==>
      FindsBoundary(first, ordered[i], runs)
  }

  lemma BlockedFindsBoundary(first: seq<Message>, ordered: seq<RunProjection>, runs: Runs,
                             sessionId: Option<string>, seen: set<string>, t: int)
    requires AllFindBoundaries(first, ordered, runs, sessionId, seen) && IsBlocked(first, ordered, sessionId, seen, t)
    ensures AtBoundary(Before(first, t), Behind(first, t), runs)
  {
    hide Behind, Before, AtBoundary, NeedsRecovery;
    var i :| 0 <= i < |ordered| && NeedsRecovery(ordered[i], sessionId, seen)
             && Behind(first, ordered[i].lastUpdatedAt) == Behind(first, t);
    SameBehindSameBefore(first, ordered[i].lastUpdatedAt, t);
    assert FindsBoundary(first, ordered[i], runs);
  }

  lemma {:induction false} SplicesReadOffFirst(
      first: seq<Message>, ordered: seq<RunProjection>, runs: Runs, sessionId: Option<string>, seen: set<string>,
      parse: JsonParser, t: int)
    requires UpTo(ordered, t)
    ensures SplicesAtBoundaries(first, ordered, runs, sessionId, seen, parse) <==>
              AllFindBoundaries(first, ordered, runs, sessionId, seen)
    decreases |ordered|
  {
    hide Behind, Before, AtBoundary, NeedsRecovery, RecoverRuns, UpTo, IsBlocked, LooksLikeFirst, InsertionIndex;
    if ordered != [] {
      var n := |ordered| - 1;
      var run := ordered[n];
      UpToPrefix(ordered, t);
      SplicesReadOffFirst(first, ordered[..n], runs, sessionId, seen, parse, t);
      AllFindBoundariesSnoc(first, ordered, runs, sessionId, seen);
      if AllFindBoundaries(first, ordered[..n], runs, sessionId, seen) && NeedsRecovery(run, sessionId, seen) {
        var before := RecoverRuns(first, ordered[..n], sessionId, seen, parse);
        var blocked := IsBlocked(first, ordered[..n], sessionId, seen, run.lastUpdatedAt);
        RecoveryLooksLikeFirst(first, ordered[..n], runs, sessionId, seen, parse, run.lastUpdatedAt);
        if blocked {
          BlockedFindsBoundary(first, ordered[..n], runs, sessionId, seen, run.lastUpdatedAt);
        }
        NextBoundary(first, before, runs, run.lastUpdatedAt, blocked);
        AroundMeans(before, run.lastUpdatedAt);
      }
    }
  }

  lemma AroundMeans(ms: seq<Message>, t: int)
    ensures var i := InsertionIndex(ms, Some(t));
            Before(ms, t) == ms[..i] && Behind(ms, t) == ms[i..]
  {
  }

  lemma AllFindBoundariesSnoc(first: seq<Message>, ordered: seq<RunProjection>, runs: Runs,
                              sessionId: Option<string>, seen: set<string>)
    requires ordered != []
    ensures var n := |ordered| - 1;
            AllFindBoundaries(first, ordered, runs, sessionId, seen) <==>
              && AllFindBoundaries(first, ordered[..n], runs, sessionId, seen)
              && (NeedsRecovery(ordered[n], sessionId, seen) ==> FindsBoundary(first, ordered[n], runs))
  {
    hide FindsBoundary, NeedsRecovery;
    var n := |ordered| - 1;
    assert forall i :: 0 <= i < n ==> ordered[..n][i] == ordered[i];
  }

  /** In the first pass, every run still to be recovered finds a boundary at its time. */
  ghost predicate EveryGapIsABoundary(ms: seq<Message>, runs: Runs, sessionId: Option<string>, parse: JsonParser) {
    var first, seen := ReplacePlaceholders(ms, runs, {}, parse), AnchoredIds(ms, runs);
    forall r :: r in runs.entries && NeedsRecovery(runs.entries[r], sessionId, seen) ==>
      var i := InsertionIndex(first, Some(runs.entries[r].lastUpdatedAt));
      AtBoundary(first[..i], first[i..], runs)
  }

  /** Runs as the reducer leaves them when stamps do not go back. */
  ghost predicate WellFormedRuns(runs: Runs) {
    && WellKeyed(runs)
    && forall r :: r in runs.entries ==> RunKeysMatch(runs.entries[r], r) && ToolTimesOrdered(runs.entries[r])
  }

  /** Every snapshot reached with non-empty run ids and stamps that do not go back has such runs. */
  lemma ReachableRunsAreWellFormed(log: seq<RuntimeEvent>)
    requires StampsAscend(log)
    requires forall i :: 0 <= i < |log| && log[i].Stream?() ==> log[i].runId != ""
    ensures WellFormedRuns(After(log).runs)
  {
    var runs := After(log).runs;
    NoUnnamedRun(log);
    forall r | r in runs.entries
      ensures RunKeysMatch(runs.entries[r], r) && ToolTimesOrdered(runs.entries[r])
    {
      assert Get(runs, r) == Some(runs.entries[r]);
      RunKeysAlwaysMatch(log, r);
      if log != [] {
        RunTimesAreOrdered(log, r);
      }
    }
  }

  lemma {:induction false} NoUnnamedRun(log: seq<RuntimeEvent>)
    requires forall i :: 0 <= i < |log| && log[i].Stream?() ==> log[i].runId != ""
    ensures Get(After(log).runs, "").None?
  {
    if log != [] {
      var n := |log| - 1;
      NoUnnamedRun(log[..n]);
      ReduceActsPerRun(After(log[..n]), log[n], "");
    }
  }

  lemma OrderedRunsAscend(runs: Runs) returns (t: int)
    requires WellFormedRuns(runs)
    ensures UpTo(ByUpdate(runs), t)
  {
    hide SortBy, WithKey, ValuesOf, RunKeysMatch, ToolTimesOrdered, WellKeyed;
    OrderedRuns(runs);
    SortIsStable(Values(runs), LastUpdate, 0);
    var ordered := ByUpdate(runs);
    t := if ordered == [] then 0 else ordered[|ordered| - 1].lastUpdatedAt;
    forall i | 0 <= i < |ordered|
      ensures RunKeysMatch(ordered[i], ordered[i].runId) && ToolTimesOrdered(ordered[i])
    {
      assert Get(runs, ordered[i].runId) == Some(ordered[i]);
    }
    forall i, j | 0 <= i < j < |ordered| ensures ordered[i].lastUpdatedAt <= ordered[j].lastUpdatedAt {
      assert LastUpdate(ordered[i]) <= LastUpdate(ordered[j]);
    }
  }

  lemma OrderedOrNot(ms: seq<Message>, runs: Runs, sessionId: Option<string>, parse: JsonParser)
    requires WellFormedRuns(runs)
    ensures AllFindBoundaries(ReplacePlaceholders(ms, runs, {}, parse), ByUpdate(runs), runs, sessionId,
                              AnchoredIds(ms, runs)) <==>
              EveryGapIsABoundary(ms, runs, sessionId, parse)
  {
    OrderedRuns(runs);
    hide ReplacePlaceholders, ByUpdate, AnchoredIds, NeedsRecovery, AtBoundary, InsertionIndex;
    var first, seen, ordered := ReplacePlaceholders(ms, runs, {}, parse), AnchoredIds(ms, runs), ByUpdate(runs);
    if EveryGapIsABoundary(ms, runs, sessionId, parse) {
      forall i | 0 <= i < |ordered| && NeedsRecovery(ordered[i], sessionId, seen)
        ensures FindsBoundary(first, ordered[i], runs)
      {
        assert Get(runs, ordered[i].runId) == Some(ordered[i]);
      }
    }
    if AllFindBoundaries(first, ordered, runs, sessionId, seen) {
      forall r | r in runs.entries && NeedsRecovery(runs.entries[r], sessionId, seen)
        ensures FindsBoundary(first, runs.entries[r], runs)
      {
        var i :| 0 <= i < |ordered| && ordered[i] == runs.entries[r];
      }
    }
  }

  /** Projecting twice equals projecting once exactly when, in the first pass, the time of every
      run that must be recovered falls on a boundary. */
  lemma ProjectTwiceIffGapsAreBoundaries(ms: seq<Message>, runs: Runs, sessionId: Option<string>, parse: JsonParser)
    requires WellFormedRuns(runs)
    ensures var once := Project(ms, runs, sessionId, parse);
            Project(once, runs, sessionId, parse) == once <==> EveryGapIsABoundary(ms, runs, sessionId, parse)
  {
    var t := OrderedRunsAscend(runs);
    hide Project, ReplacePlaceholders, ByUpdate, AnchoredIds, EveryGapIsABoundary, AllFindBoundaries,
         SplicesAtBoundaries;
    ProjectTwiceIff(ms, runs, sessionId, parse);
    SplicesReadOffFirst(
      ReplacePlaceholders(ms, runs, {}, parse), ByUpdate(runs), runs, sessionId, AnchoredIds(ms, runs), parse, t);
    OrderedOrNot(ms, runs, sessionId, parse);
  }

  // ----- a chat that changes when it is projected again -----

  const QUESTION := PlainMessage("u", User, "question", Some(1000)).(streamId := Some("q"))

  function ExampleRun(r: string, at: int): RunProjection {
    CreateEmptyRun(r, at).(sessionId := Some("s"), status := RunCompleted)
  }

  /** A question answered at 3000 and an unattached run of the session last updated at 2000. */
  function ExampleRuns(): Runs {
    Put(Put(EmptyRecord(), "q", ExampleRun("q", 3000)), "r", ExampleRun("r", 2000))
  }

  lemma PutTwo<V>(a: string, x: V, b: string, y: V)
    ensures Put(Put(EmptyRecord(), a, x), b, y).entries == map[a := x, b := y]
  {
    hide InsertionPoint;
  }

  lemma ExampleRunsAre()
    ensures ExampleRuns().entries == map["q" := ExampleRun("q", 3000), "r" := ExampleRun("r", 2000)]
    ensures WellKeyed(ExampleRuns())
  {
    PutTwo("q", ExampleRun("q", 3000), "r", ExampleRun("r", 2000));
    assert ExampleRun("q", 3000).runId == "q" && ExampleRun("r", 2000).runId == "r";
    hide ExampleRun, Put;
  }

  lemma QuestionIsAnchor()
    ensures IsAnchor(QUESTION, ExampleRuns(), User) && !IsAnchor(QUESTION, ExampleRuns(), Assistant)
    ensures AnchoredRun(QUESTION, ExampleRuns()) == Some(ExampleRun("q", 3000))
    ensures StandsFor(QUESTION, ExampleRuns()) == {"q"}
  {
    ExampleRunsAre();
    hide ExampleRuns, ExampleRun, WellKeyed;
  }

  lemma ExampleFirstPass(parse: JsonParser)
    ensures WellKeyed(ExampleRuns())
    ensures ReplacePlaceholders([QUESTION], ExampleRuns(), {}, parse) ==
              [QUESTION] + RunBlock(None, ExampleRun("q", 3000), parse)
    ensures AnchoredIds([QUESTION], ExampleRuns()) == {"q"}
    ensures IsAnchor(QUESTION, ExampleRuns(), User)
  {
    ExampleRunsAre();
    QuestionIsAnchor();
    hide RunBlock, ExampleRuns, ExampleRun, WellKeyed, IsAnchor, AnchoredRun, StandsFor;
    var messages := [QUESTION];
    assert messages[1..] == [];
    assert messages[0] == QUESTION;
  }

  /** The answer of `q` starts at 3000, so a block of 2000 goes in front of it. */
  lemma ExampleSplice(first: seq<Message>, block: seq<Message>, parse: JsonParser)
    requires first == [QUESTION] + block && block == RunBlock(None, ExampleRun("q", 3000), parse)
    ensures InsertionIndex(first, Some(2000)) == 1
  {
    BlockShape(None, ExampleRun("q", 3000), parse);
    assert first[1] == block[0] && block[0].timestamp == Some(3000);
    assert first[1..] == block;
  }

  /** The recovered answer lands between the question and its own answer, and a second
      projection moves it behind both. */
  lemma ProjectTwiceCanDiffer(parse: JsonParser)
    ensures WellKeyed(ExampleRuns())
    ensures var once := Project([QUESTION], ExampleRuns(), Some("s"), parse);
            Project(once, ExampleRuns(), Some("s"), parse) != once
  {
    hide RunBlock, ReplacePlaceholders, ExampleRuns, SortBy, InsertionIndex, WellKeyed, Project;
    var runs, q, r := ExampleRuns(), ExampleRun("q", 3000), ExampleRun("r", 2000);
    ExampleOrder();
    ExampleFirstPass(parse);
    var first := ReplacePlaceholders([QUESTION], runs, {}, parse);
    ExampleSplice(first, RunBlock(None, q, parse), parse);
    assert first[..1] == [QUESTION];
    assert !AtBoundary(first[..1], first[1..], runs);
    assert [r, q][..1] == [r] && [r][..0] == [];
    assert !SplicesAtBoundaries(first, [r], runs, Some("s"), {"q"}, parse);
    ProjectTwiceIff([QUESTION], runs, Some("s"), parse);
  }

  lemma ExampleOrder()
    ensures ByUpdate(ExampleRuns()) == [ExampleRun("r", 2000), ExampleRun("q", 3000)]
  {
    var q, r := ExampleRun("q", 3000), ExampleRun("r", 2000);
    assert !IsArrayIndex("q") && !IsArrayIndex("r");
    assert ExampleRuns().keys == ["q", "r"];
    assert ["q", "r"][1..] == ["r"] && ["r"][1..] == [];
    assert Values(ExampleRuns()) == [q, r];
    assert [q, r][..1] == [q] && [q][..0] == [];
    assert SortBy([q], LastUpdate) == [q];
    assert Insert([q], r, LastUpdate) == [r, q];
  }
}
