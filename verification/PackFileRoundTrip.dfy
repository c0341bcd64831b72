/** The file list a stub is made from is the file list read back from it. */
module PackFileRoundTrip {
  import opened PackFile
  import opened Strings

  // ----- the printer -----

  datatype Template = Refactor | Feature

  function Title(packId: string): string {
    "# " + packId + ": <one-line goal>"
  }

  function Behavior(number: string): string {
    ("- <behavior " + number + "> → test ") + "`tests::<module>::<test_name>`"
  }

  const REFACTOR_FILES := "## Files" + " (scope)"
  const FEATURE_FILES := "## Files" + " (scope — write list)"
  const GOAL_HINT := "<2–3 lines: what behavior must exist>"
  const SPEC_HEADING := "## Spec (verifiable — each item " + "paired with a test name)"

  function GoalLines(): seq<string> {
    ["- State: active", "", "## Goal", GOAL_HINT, ""]
  }

  function SpecLines(): seq<string> {
    [SPEC_HEADING, Behavior("1"), Behavior("2"), "", FEATURE_FILES]
  }

  /** The lines from the first heading to that of the file list. */
  function ScopeLines(template: Template): seq<string> {
    match template
    case Refactor => [
      "- State: active", "", "## Source", "- <god-file path> (lines A–B)", "", "## Destination",
      "- <new module path>", "", REFACTOR_FILES]
    case Feature => GoalLines() + SpecLines()
  }

  /** The heading behind the file list. */
  function NextHeading(template: Template): string {
    match template
    case Refactor => "## Contract"
    case Feature => "## Reads (read-only inputs " + "allowed beyond Files)"
  }

  function Bullets(files: seq<string>): seq<string> {
    if files == [] then [] else ["- " + files[0]] + Bullets(files[1..])
  }

  function Then(text: string, rest: string): string {
    text + "\n" + rest
  }

  const STATUS := "## Status"

  /** The text behind the title. */
  function Body(template: Template, files: seq<string>, rest: string): string {
    Then(Join(ScopeLines(template)), Then(Join(Bullets(files)), Then("", Then(NextHeading(template), rest))))
  }

  /** The text `cmd_init` writes; `rest` is what follows the heading behind the file list. */
  function Print(template: Template, packId: string, files: seq<string>, rest: string): string {
    Then(Title(packId), Then("", Then(STATUS, Body(template, files, rest))))
  }

  // ----- splitting what was joined -----

  lemma {:induction false} LineLengthOfLine(line: string, rest: string)
    requires NoBreaks(line) && rest != "" && IsLineBreak(rest[0])
    ensures LineLength(line + rest) == |line|
  {
    if line == "" {
      assert line + rest == rest;
    } else {
      assert (line + rest)[0] == line[0] && (line + rest)[1..] == line[1..] + rest;
      LineLengthOfLine(line[1..], rest);
    }
  }

  lemma SplitFirst(line: string, rest: string)
    requires NoBreaks(line)
    ensures SplitLines(Then(line, rest)) == [line] + SplitLines(rest)
  {
    var text := Then(line, rest);
    assert text == line + ("\n" + rest);
    LineLengthOfLine(line, "\n" + rest);
    assert text[..|line|] == line && text[|line| + 1..] == rest && text[|line|] == '\n';
  }

  lemma LineLengthInText(text: string, more: string)
    requires LineLength(text) < |text|
    ensures LineLength(text + more) == LineLength(text)
  {
    var n := LineLength(text);
    assert text + more == text[..n] + (text[n..] + more);
    LineLengthOfLine(text[..n], text[n..] + more);
  }

  /** Where the line behind a line break at `n` starts. */
  function NextLine(text: string, n: nat): nat
    requires n < |text|
  {
    if n + 1 < |text| && text[n] == '\r' && text[n + 1] == '\n' then n + 2 else n + 1
  }

  lemma SplitStep(text: string)
    requires LineLength(text) < |text|
    ensures var n := LineLength(text);
            SplitLines(text) == [text[..n]] + SplitLines(text[NextLine(text, n)..])
  {
  }

  /** A text that does not end in a line break is split on its own. */
  lemma {:induction false} SplitText(text: string, rest: string)
    requires text != "" && !IsLineBreak(text[|text| - 1])
    ensures SplitLines(Then(text, rest)) == SplitLines(text) + SplitLines(rest)
    decreases |text|
  {
    var n := LineLength(text);
    if n == |text| {
      assert text[..n] == text;
      SplitFirst(text, rest);
    } else {
      var whole := Then(text, rest);
      assert whole == text + ("\n" + rest);
      LineLengthInText(text, "\n" + rest);
      var m := NextLine(text, n);
      TextBehind(text, rest, n);
      hide SplitLines, LineLength, Then, NextLine;
      SplitStep(text);
      SplitStep(whole);
      SplitText(text[m..], rest);
      Associate(text[..n], SplitLines(text[m..]), SplitLines(rest));
    }
  }

  lemma Associate(line: string, a: seq<string>, b: seq<string>)
    ensures [line] + (a + b) == [line] + a + b
  {
  }

  lemma TextBehind(text: string, rest: string, n: nat)
    requires n < |text| && IsLineBreak(text[n]) && !IsLineBreak(text[|text| - 1])
    ensures var m, whole := NextLine(text, n), Then(text, rest);
            && n < m < |text| && m == NextLine(whole, n)
            && text[m..][|text[m..]| - 1] == text[|text| - 1]
            && whole[m..] == Then(text[m..], rest) && whole[..n] == text[..n]
  {
    var m, whole := NextLine(text, n), Then(text, rest);
    assert n + 1 < |text| && m < |text|;
    assert whole[n] == text[n] && whole[n + 1] == text[n + 1];
  }

  ghost predicate AllLines(lines: seq<string>) {
    forall i :: 0 <= i < |lines| ==> NoBreaks(lines[i])
  }

  lemma {:induction false} SplitJoined(lines: seq<string>, rest: string)
    requires lines != [] && AllLines(lines)
    ensures SplitLines(Then(Join(lines), rest)) == lines + SplitLines(rest)
  {
    hide SplitLines, NoBreaks;
    assert lines == [lines[0]] + lines[1..];
    if |lines| == 1 {
      SplitFirst(lines[0], rest);
    } else {
      var tail := Then(Join(lines[1..]), rest);
      JoinedStep(lines, rest);
      SplitFirst(lines[0], tail);
      SplitJoined(lines[1..], rest);
    }
  }

  lemma JoinedStep(lines: seq<string>, rest: string)
    requires |lines| > 1
    ensures Then(Join(lines), rest) == Then(lines[0], Then(Join(lines[1..]), rest))
  {
  }

  lemma {:induction false} LinesHaveNoBreaks(text: string)
    ensures AllLines(SplitLines(text))
    decreases |text|
  {
    if text != "" {
      var n := LineLength(text);
      assert NoBreaks(text[..n]);
      if n == |text| {
        assert text[..n] == text;
      } else if n + 1 < |text| && text[n] == '\r' && text[n + 1] == '\n' {
        LinesHaveNoBreaks(text[n + 2..]);
      } else {
        LinesHaveNoBreaks(text[n + 1..]);
      }
    }
  }

  // ----- trimming -----

  /** Nothing to trim at either end. */
  predicate Clear(s: string, drop: char -> bool) {
    s == "" || (!drop(s[0]) && !drop(s[|s| - 1]))
  }

  lemma ClearIsKept(s: string, drop: char -> bool)
    requires Clear(s, drop)
    ensures Trim(s, drop) == s
  {
    assert LeftTrim(s, drop) == s && RightTrim(s, drop) == s;
  }

  lemma TrimMeans(s: string, drop: char -> bool)
    ensures |Trim(s, drop)| <= |s| && (|Trim(s, drop)| == |s| ==> Trim(s, drop) == s)
    ensures Clear(Trim(s, drop), drop)
    ensures Trim(s, drop) == s <==> Clear(s, drop)
    ensures forall c :: c in Trim(s, drop) ==> c in s
  {
    var l := LeftTrim(s, drop);
    LeftTrimMeans(s, drop);
    RightTrimMeans(l, drop);
    var r := RightTrim(l, drop);
    assert r == l[..|r|] && l == s[|s| - |l|..];
    assert r != "" ==> r[0] == l[0];
    if Clear(s, drop) {
      ClearIsKept(s, drop);
    }
    hide LeftTrim, RightTrim;
    assert Trim(s, drop) == r;
    forall c | c in r ensures c in s {
      var i :| 0 <= i < |r| && r[i] == c;
      assert s[|s| - |l| + i] == c;
    }
  }

  // ----- one bullet -----

  /** The paths that survive: not empty, on one line, without `#`, and clear of spaces and
      backticks at both ends. */
  predicate IsClean(path: string) {
    path != "" && NoBreaks(path) && '#' !in path && Clear(path, IsSpace) && Clear(path, IsBacktick)
  }

  /** What the parser makes of one line inside the block, if it is a bullet. */
  function EntryOf(path: string): string
  {
    var stripped := Trim("- " + path, IsSpace);
    if "- " <= stripped then BulletPath(stripped) else ""
  }

  lemma {:induction false} BeforeHashMeans(s: string)
    ensures BeforeHash(s) <= s && '#' !in BeforeHash(s)
    ensures '#' !in s ==> BeforeHash(s) == s
  {
    if s != "" && s[0] != '#' {
      BeforeHashMeans(s[1..]);
      assert s == [s[0]] + s[1..];
    }
  }

  /** Stripping a bullet strips its path on the right; a blank path loses the blank behind the dash. */
  lemma StrippedBullet(path: string)
    ensures var stripped := Trim("- " + path, IsSpace);
            && (stripped == "-" || stripped == "- " + RightTrim(path, IsSpace))
            && stripped[0] == '-'
            && ("- " <= stripped <==> RightTrim(path, IsSpace) != "")
  {
    var line := "- " + path;
    assert LeftTrim(line, IsSpace) == line;
    RightTrimOfBullet(path);
    RightTrimMeans(path, IsSpace);
  }

  lemma {:induction false} RightTrimOfBullet(path: string)
    ensures RightTrim("- " + path, IsSpace) ==
              if RightTrim(path, IsSpace) == "" then "-" else "- " + RightTrim(path, IsSpace)
  {
    var line := "- " + path;
    if path == "" {
      assert line[..1] == "-" && line[|line| - 1] == ' ';
      assert RightTrim("-", IsSpace) == "-";
    } else if IsSpace(path[|path| - 1]) {
      assert line[..|line| - 1] == "- " + path[..|path| - 1];
      RightTrimOfBullet(path[..|path| - 1]);
    }
  }

  /** What is left of the path of a bullet at each stage. */
  lemma EntryStages(path: string)
    ensures var right := RightTrim(path, IsSpace);
            && |EntryOf(path)| <= |Trim(BeforeHash(right), IsSpace)| <= |BeforeHash(right)| <= |right| <= |path|
            && EntryOf(path) == Trim(Trim(BeforeHash(right), IsSpace), IsBacktick)
            && BeforeHash(right) <= right <= path
            && forall c :: c in EntryOf(path) ==> c in path
  {
    var right := RightTrim(path, IsSpace);
    StrippedBullet(path);
    RightTrimMeans(path, IsSpace);
    BeforeHashMeans(right);
    TrimMeans(BeforeHash(right), IsSpace);
    TrimMeans(Trim(BeforeHash(right), IsSpace), IsBacktick);
    if right == "" {
      assert EntryOf(path) == "";
    } else {
      assert ("- " + right)[2..] == right;
    }
  }

  lemma CleanComesBack(path: string)
    requires IsClean(path)
    ensures EntryOf(path) == path
  {
    EntryStages(path);
    RightTrimMeans(path, IsSpace);
    assert RightTrim(path, IsSpace) == path;
    BeforeHashMeans(path);
    TrimMeans(path, IsSpace);
    TrimMeans(path, IsBacktick);
  }

  lemma WhatComesBackIsClean(path: string)
    requires path != "" && NoBreaks(path) && EntryOf(path) == path
    ensures IsClean(path)
  {
    hide EntryOf, RightTrim, Trim, BeforeHash, NoBreaks;
    EntryStages(path);
    assert RightTrim(path, IsSpace) == path && BeforeHash(path) == path;
    BeforeHashMeans(path);
    TrimMeans(path, IsSpace);
    TrimMeans(path, IsBacktick);
  }

  /** A path comes back exactly when it is clean. */
  lemma EntryIff(path: string)
    requires NoBreaks(path)
    ensures IsClean(path) <==> path != "" && EntryOf(path) == path
  {
    if IsClean(path) {
      CleanComesBack(path);
    } else if path != "" && EntryOf(path) == path {
      WhatComesBackIsClean(path);
    }
  }

  // ----- the whole file -----

  /** The non-empty entries of the bullets, in order. */
  function Entries(files: seq<string>): seq<string> {
    if files == [] then []
    else (if EntryOf(files[0]) != "" then [EntryOf(files[0])] else []) + Entries(files[1..])
  }

  lemma DashIsNoHeading(stripped: string)
    requires stripped != "" && stripped[0] == '-'
    ensures !IsFilesHeading(stripped) && !("## " <= stripped)
  {
    assert Lower(stripped)[0] == '-';
  }

  /** One line inside the block. */
  lemma BulletIsParsed(path: string, rest: seq<string>)
    ensures ParseLines(["- " + path] + rest, true) ==
              (if EntryOf(path) != "" then [EntryOf(path)] else []) + ParseLines(rest, true)
  {
    var lines := ["- " + path] + rest;
    assert lines[0] == "- " + path && lines[1..] == rest;
    StrippedBullet(path);
    DashIsNoHeading(Trim(lines[0], IsSpace));
    hide Trim, BulletPath, IsFilesHeading, RightTrim;
    assert [] + ParseLines(rest, true) == ParseLines(rest, true);
  }

  lemma {:induction false} ParseBullets(files: seq<string>, rest: seq<string>)
    ensures ParseLines(Bullets(files) + rest, true) == Entries(files) + ParseLines(rest, true)
  {
    hide ParseLines, EntryOf;
    if files == [] {
      assert Bullets(files) + rest == rest;
      assert [] + ParseLines(rest, true) == ParseLines(rest, true);
    } else {
      assert Bullets(files) + rest == ["- " + files[0]] + (Bullets(files[1..]) + rest);
      BulletIsParsed(files[0], Bullets(files[1..]) + rest);
      ParseBullets(files[1..], rest);
    }
  }

  /** A line that does not start like the heading of the file list. */
  predicate OtherLine(line: string) {
    && NoBreaks(line)
    && Clear(line, IsSpace)
    && (|line| < 4 || line[0] != '#' || line[1] != '#' || (line[3] != 'F' && line[3] != 'f'))
  }

  lemma NotAPrefix(p: string, s: string, k: nat)
    requires k < |p| && (|s| <= k || s[k] != p[k])
    ensures !(p <= s)
  {
  }

  /** No line of these is the heading of the file list. */
  ghost predicate Headless(lines: seq<string>) {
    forall i :: 0 <= i < |lines| ==> !IsFilesHeading(Trim(lines[i], IsSpace))
  }

  lemma OtherLineIsNoHeading(line: string)
    requires OtherLine(line)
    ensures !IsFilesHeading(Trim(line, IsSpace))
  {
    ClearIsKept(line, IsSpace);
    var k := if |line| < 4 then 3 else if line[0] != '#' then 0 else if line[1] != '#' then 1 else 3;
    NotAPrefix("## files", Lower(line), k);
  }

  lemma {:induction false} HeadlessLinesAreSkipped(lines: seq<string>, rest: seq<string>)
    requires Headless(lines)
    ensures ParseLines(lines + rest, false) == ParseLines(rest, false)
  {
    hide IsFilesHeading, Trim;
    if lines == [] {
      assert lines + rest == rest;
    } else {
      assert (lines + rest)[0] == lines[0] && (lines + rest)[1..] == lines[1..] + rest;
      HeadlessLinesAreSkipped(lines[1..], rest);
    }
  }

  /** Once the block is open, it ends where the lines behind it say so. */
  lemma {:induction false} BlockEndsBehind(lines: seq<string>, rest: seq<string>, inBlock: bool)
    requires inBlock || !Headless(lines)
    requires ParseLines(rest, true) == []
    ensures ParseLines(lines + rest, inBlock) == ParseLines(lines, inBlock)
  {
    hide IsFilesHeading, Trim, BulletPath;
    if lines == [] {
      assert lines + rest == rest;
    } else {
      assert (lines + rest)[0] == lines[0] && (lines + rest)[1..] == lines[1..] + rest;
      var stripped := Trim(lines[0], IsSpace);
      if IsFilesHeading(stripped) {
        BlockEndsBehind(lines[1..], rest, true);
      } else if !(inBlock && "## " <= stripped) {
        if !inBlock {
          HeadlessTail(lines);
        }
        BlockEndsBehind(lines[1..], rest, inBlock);
      }
    }
  }

  lemma HeadlessTail(lines: seq<string>)
    requires lines != [] && !Headless(lines) && !IsFilesHeading(Trim(lines[0], IsSpace))
    ensures !Headless(lines[1..])
  {
    hide IsFilesHeading, Trim;
    var i :| 0 <= i < |lines| && IsFilesHeading(Trim(lines[i], IsSpace));
    assert lines[1..][i - 1] == lines[i];
  }

  // ----- the title -----

  /** The pack id smuggles a heading of the file list into the title. */
  ghost predicate OpensBlock(packId: string) {
    !Headless(SplitLines(Title(packId)))
  }

  /** The files listed in the title then. */
  function TitleEntries(packId: string): seq<string> {
    ParseLines(SplitLines(Title(packId)), false)
  }

  lemma TitleIsText(packId: string)
    ensures Title(packId) != "" && !IsLineBreak(Title(packId)[|Title(packId)| - 1])
  {
    assert Title(packId)[|Title(packId)| - 1] == '>';
  }

  /** A pack id on one line never does. */
  lemma PlainTitleOpensNothing(packId: string)
    requires NoBreaks(packId)
    ensures !OpensBlock(packId)
  {
    var title := Title(packId);
    assert title[0] == '#' && title[1] == ' ' && title[|title| - 1] == '>';
    assert NoBreaks("# ") && NoBreaks(": <one-line goal>");
    assert NoBreaks(title);
    OtherLineIsNoHeading(title);
    OneLine(title);
  }

  lemma OneLine(line: string)
    requires NoBreaks(line) && line != ""
    ensures SplitLines(line) == [line]
  {
    assert LineLength(line) == |line|;
  }

  lemma CommonLinesAreSkipped()
    ensures OtherLine("") && OtherLine(STATUS) && OtherLine("- State: active")
  {
  }

  lemma SourceLinesAreSkipped()
    ensures OtherLine("## Source") && OtherLine("- <god-file path> (lines A–B)")
  {
  }

  lemma DestinationLinesAreSkipped()
    ensures OtherLine("## Destination") && OtherLine("- <new module path>")
  {
  }

  lemma FeatureLinesAreSkipped()
    ensures OtherLine("## Goal") && OtherLine(GOAL_HINT)
  {
  }

  lemma BehaviorIsSkipped(number: string)
    requires NoBreaks(number)
    ensures OtherLine(Behavior(number))
  {
    var start, end := "- <behavior " + number + "> → test ", "`tests::<module>::<test_name>`";
    assert NoBreaks("- <behavior ") && NoBreaks("> → test ");
    assert NoBreaks(start) && start[0] == '-';
    PiecesAreClear(start, end);
  }

  /** A line in two pieces. */
  lemma PiecesAreClear(a: string, b: string)
    requires a != "" && b != "" && NoBreaks(a) && NoBreaks(b)
    requires !IsSpace(a[0]) && !IsSpace(b[|b| - 1])
    ensures NoBreaks(a + b) && Clear(a + b, IsSpace)
  {
  }

  lemma SpecLineIsSkipped()
    ensures OtherLine(SPEC_HEADING)
  {
    PiecesAreClear("## Spec (verifiable — each item ", "paired with a test name)");
  }

  /** A heading that starts like that of the file list opens the block. */
  lemma HeadingOpensTheBlock(rest: string)
    requires NoBreaks(rest) && rest != "" && !IsSpace(rest[|rest| - 1])
    ensures NoBreaks("## Files" + rest) && IsFilesHeading(Trim("## Files" + rest, IsSpace))
  {
    var line := "## Files" + rest;
    assert Clear(line, IsSpace);
    ClearIsKept(line, IsSpace);
    assert Lower(line)[..8] == "## files";
    assert NoBreaks("## Files");
  }

  lemma RefactorFilesHeading()
    ensures NoBreaks(REFACTOR_FILES) && IsFilesHeading(Trim(REFACTOR_FILES, IsSpace))
  {
    assert NoBreaks(" (scope)");
    HeadingOpensTheBlock(" (scope)");
  }

  lemma FeatureFilesHeading()
    ensures NoBreaks(FEATURE_FILES) && IsFilesHeading(Trim(FEATURE_FILES, IsSpace))
  {
    assert NoBreaks(" (scope — write list)");
    HeadingOpensTheBlock(" (scope — write list)");
  }

  ghost predicate IsHeader(lines: seq<string>) {
    && lines != []
    && (forall i :: 0 <= i < |lines| - 1 ==> OtherLine(lines[i]))
    && NoBreaks(lines[|lines| - 1]) && IsFilesHeading(Trim(lines[|lines| - 1], IsSpace))
  }

  lemma LinesOfBoth(a: seq<string>, b: seq<string>)
    requires forall i :: 0 <= i < |a| ==> OtherLine(a[i])
    requires IsHeader(b)
    ensures IsHeader(a + b)
  {
    hide OtherLine, IsFilesHeading, NoBreaks, Trim;
    assert (a + b)[|a + b| - 1] == b[|b| - 1];
  }

  lemma RefactorHeader()
    ensures IsHeader(ScopeLines(Refactor))
  {
    CommonLinesAreSkipped();
    SourceLinesAreSkipped();
    DestinationLinesAreSkipped();
    RefactorFilesHeading();
    hide OtherLine, IsFilesHeading, NoBreaks, Trim, Behavior;
  }

  lemma GoalLinesAreSkipped()
    ensures forall i :: 0 <= i < |GoalLines()| ==> OtherLine(GoalLines()[i])
  {
    CommonLinesAreSkipped();
    FeatureLinesAreSkipped();
    hide OtherLine;
  }

  lemma SpecLinesAreHeader()
    ensures IsHeader(SpecLines())
  {
    CommonLinesAreSkipped();
    SpecLineIsSkipped();
    BehaviorIsSkipped("1");
    BehaviorIsSkipped("2");
    FeatureFilesHeading();
    hide OtherLine, IsFilesHeading, NoBreaks, Trim, Behavior;
  }

  lemma FeatureHeader()
    ensures IsHeader(ScopeLines(Feature))
  {
    hide IsHeader, OtherLine, GoalLines, SpecLines;
    GoalLinesAreSkipped();
    SpecLinesAreHeader();
    LinesOfBoth(GoalLines(), SpecLines());
  }

  /** The lines in front of the file list open the block and contain nothing else. */
  lemma ScopeLinesOpenTheBlock(template: Template, rest: seq<string>)
    ensures AllLines(ScopeLines(template)) && ScopeLines(template) != []
    ensures ParseLines(ScopeLines(template) + rest, false) == ParseLines(rest, true)
  {
    hide ScopeLines;
    match template {
      case Refactor => RefactorHeader();
      case Feature => FeatureHeader();
    }
    HeaderOpensTheBlock(ScopeLines(template), rest);
  }

  lemma HeaderOpensTheBlock(lines: seq<string>, rest: seq<string>)
    requires IsHeader(lines)
    ensures AllLines(lines)
    ensures ParseLines(lines + rest, false) == ParseLines(rest, true)
  {
    hide IsFilesHeading, NoBreaks, Clear, Trim;
    var n := |lines| - 1;
    assert lines + rest == lines[..n] + ([lines[n]] + rest);
    forall i | 0 <= i < n ensures !IsFilesHeading(Trim(lines[i], IsSpace)) {
      OtherLineIsNoHeading(lines[i]);
    }
    HeadlessLinesAreSkipped(lines[..n], [lines[n]] + rest);
    assert ([lines[n]] + rest)[1..] == rest;
  }

  ghost predicate IsOtherHeading(heading: string) {
    && NoBreaks(heading) && Clear(heading, IsSpace)
    && "## " <= heading && |heading| > 3 && heading[3] != 'F' && heading[3] != 'f'
  }

  lemma ContractIsHeading()
    ensures IsOtherHeading("## Contract")
  {
  }

  lemma ReadsIsHeading()
    ensures IsOtherHeading("## Reads (read-only inputs " + "allowed beyond Files)")
  {
    PiecesAreClear("## Reads (read-only inputs ", "allowed beyond Files)");
  }

  lemma NextHeadingShape(template: Template)
    ensures IsOtherHeading(NextHeading(template))
  {
    ContractIsHeading();
    ReadsIsHeading();
    hide IsOtherHeading;
  }

  lemma HeadingEndsTheBlock(heading: string, rest: seq<string>)
    requires IsOtherHeading(heading)
    ensures ParseLines(["", heading] + rest, true) == []
  {
    var lines := ["", heading] + rest;
    assert lines[0] == "" && lines[1..] == [heading] + rest;
    ClearIsKept("", IsSpace);
    NotAPrefix("## files", Lower(""), 0);
    ClearIsKept(heading, IsSpace);
    NotAPrefix("## files", Lower(heading), 3);
  }

  lemma {:induction false} BulletsAreLines(files: seq<string>)
    requires AllLines(files)
    ensures AllLines(Bullets(files)) && |Bullets(files)| == |files|
  {
    if files != [] {
      assert NoBreaks("- ") && NoBreaks("- " + files[0]);
      BulletsAreLines(files[1..]);
    }
  }

  lemma StatusIsOther()
    ensures IsOtherHeading(STATUS) && Headless(["", STATUS])
  {
    CommonLinesAreSkipped();
    OtherLineIsNoHeading("");
    OtherLineIsNoHeading(STATUS);
  }

  /** The lines of the stub: those of the title, and the rest of it. */
  lemma SplitPrint(template: Template, packId: string, files: seq<string>, rest: string)
    ensures SplitLines(Print(template, packId, files, rest)) ==
              SplitLines(Title(packId)) + (["", STATUS] + SplitLines(Body(template, files, rest)))
  {
    hide SplitLines, Title, Then, Body;
    var body := Body(template, files, rest);
    TitleIsText(packId);
    StatusIsOther();
    SplitText(Title(packId), Then("", Then(STATUS, body)));
    SplitFirst("", Then(STATUS, body));
    SplitFirst(STATUS, body);
    assert [""] + ([STATUS] + SplitLines(body)) == ["", STATUS] + SplitLines(body);
  }

  lemma ParseOfBody(template: Template, files: seq<string>, rest: string)
    requires files != [] && AllLines(files)
    ensures ParseLines(SplitLines(Body(template, files, rest)), false) == Entries(files)
  {
    hide SplitLines, ParseLines, NoBreaks, ScopeLines, NextHeading, Join, Entries, Then, IsOtherHeading;
    var scope, bullets, heading := ScopeLines(template), Bullets(files), NextHeading(template);
    var tail := Then("", Then(heading, rest));
    NextHeadingShape(template);
    HeadingEndsTheBlock(heading, SplitLines(rest));
    SplitTail(heading, rest);
    BulletsAreLines(files);
    ScopeLinesOpenTheBlock(template, bullets + SplitLines(tail));
    SplitJoined(scope, Then(Join(bullets), tail));
    SplitJoined(bullets, tail);
    ParseBullets(files, SplitLines(tail));
    assert Entries(files) + [] == Entries(files);
  }

  lemma SplitTail(heading: string, rest: string)
    requires IsOtherHeading(heading)
    ensures SplitLines(Then("", Then(heading, rest))) == ["", heading] + SplitLines(rest)
  {
    hide SplitLines, Then;
    SplitFirst("", Then(heading, rest));
    SplitFirst(heading, rest);
  }

  /** The parser reads the entries of the bullets, whatever follows them in the stub. */
  lemma ParseOfPrint(template: Template, packId: string, files: seq<string>, rest: string)
    requires !OpensBlock(packId) && files != [] && AllLines(files)
    ensures ParseLines(SplitLines(Print(template, packId, files, rest)), false) == Entries(files)
  {
    hide SplitLines, ParseLines, Title, Body, Print, Headless, Entries;
    var body := SplitLines(Body(template, files, rest));
    SplitPrint(template, packId, files, rest);
    StatusIsOther();
    HeadlessLinesAreSkipped(SplitLines(Title(packId)), ["", STATUS] + body);
    HeadlessLinesAreSkipped(["", STATUS], body);
    ParseOfBody(template, files, rest);
  }

  /** With such a title, the parser reads the files listed there and never the bullets. */
  lemma ParseOfOpenTitle(template: Template, packId: string, files: seq<string>, rest: string)
    requires OpensBlock(packId)
    ensures ParseLines(SplitLines(Print(template, packId, files, rest)), false) == TitleEntries(packId)
  {
    hide SplitLines, ParseLines, Title, Body, Print, Headless, IsOtherHeading;
    var body := SplitLines(Body(template, files, rest));
    SplitPrint(template, packId, files, rest);
    StatusIsOther();
    HeadingEndsTheBlock(STATUS, body);
    BlockEndsBehind(SplitLines(Title(packId)), ["", STATUS] + body, false);
  }

  // ----- main result -----

  lemma {:induction false} EntriesIff(files: seq<string>)
    requires AllLines(files)
    ensures |Entries(files)| <= |files|
    ensures Entries(files) == files <==> forall i :: 0 <= i < |files| ==> IsClean(files[i])
  {
    if files != [] {
      EntryIff(files[0]);
      EntriesIff(files[1..]);
      assert files == [files[0]] + files[1..];
      var entry := EntryOf(files[0]);
      if entry != "" {
        assert Entries(files) == files <==> entry == files[0] && Entries(files[1..]) == files[1..];
      }
    }
  }

  lemma PiecesHaveNoBreaks(piece: string, s: string)
    requires NoBreaks(s) && forall c :: c in piece ==> c in s
    ensures NoBreaks(piece)
  {
    forall i | 0 <= i < |piece| ensures !IsLineBreak(piece[i]) {
      assert piece[i] in s;
    }
  }

  lemma BulletPathIsAPiece(stripped: string)
    requires "- " <= stripped
    ensures forall c :: c in BulletPath(stripped) ==> c in stripped
  {
    var before := BeforeHash(stripped[2..]);
    BeforeHashMeans(stripped[2..]);
    TrimMeans(before, IsSpace);
    TrimMeans(Trim(before, IsSpace), IsBacktick);
  }

  lemma {:induction false} ParsedLinesHaveNoBreaks(lines: seq<string>, inBlock: bool)
    requires AllLines(lines)
    ensures AllLines(ParseLines(lines, inBlock))
  {
    if lines != [] {
      var stripped := Trim(lines[0], IsSpace);
      TrimMeans(lines[0], IsSpace);
      ParsedLinesHaveNoBreaks(lines[1..], true);
      ParsedLinesHaveNoBreaks(lines[1..], inBlock);
      if "- " <= stripped {
        BulletPathIsAPiece(stripped);
        PiecesHaveNoBreaks(BulletPath(stripped), lines[0]);
      }
    }
  }

  /** Round trip: for both templates, whatever the rest of the stub, the parser returns the list
      the stub was made from exactly when every path in it is clean; unless the pack id smuggles
      a heading into the title, in which case it returns the files listed there. */
  lemma RoundTripIff(template: Template, packId: string, files: seq<string>, rest: string)
    requires files != []
    ensures Parse(Print(template, packId, files, rest)) == Files(files) <==>
              if OpensBlock(packId) then TitleEntries(packId) == files
              else forall i :: 0 <= i < |files| ==> IsClean(files[i])
  {
    hide SplitLines, ParseLines, Print, Entries, OpensBlock, TitleEntries;
    var text := Print(template, packId, files, rest);
    if OpensBlock(packId) {
      ParseOfOpenTitle(template, packId, files, rest);
    } else if AllLines(files) {
      ParseOfPrint(template, packId, files, rest);
      EntriesIff(files);
    } else {
      LinesHaveNoBreaks(text);
      ParsedLinesHaveNoBreaks(SplitLines(text), false);
      assert exists i :: 0 <= i < |files| && !IsClean(files[i]);
    }
  }
}
