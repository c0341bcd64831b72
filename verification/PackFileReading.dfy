/** Which lines of any pack file the parser reads, and what it reads in them. */
module PackFileReading {
  import opened PackFile
  import opened PackFileRoundTrip
  import opened Strings

  // ----- lines -----

  /** Every line boundary ends a line, whatever comes behind it. */
  lemma BreakEndsLine(line: string, c: char, rest: string)
    requires NoBreaks(line) && c in "\n\r\U{0b}\U{0c}\U{1c}\U{1d}\U{1e}\U{85}\U{2028}\U{2029}"
    requires c == '\r' ==> !("\n" <= rest)
    ensures SplitLines(line + [c] + rest) == [line] + SplitLines(rest)
  {
    var text := line + [c] + rest;
    assert text == line + ([c] + rest);
    LineLengthOfLine(line, [c] + rest);
    assert text[..|line|] == line && text[|line| + 1..] == rest && text[|line|] == c;
    assert rest != "" && rest[0] == '\n' ==> "\n" <= rest;
  }

  /** A carriage return and a line feed end one line, not two. */
  lemma ReturnAndFeedEndOneLine(line: string, rest: string)
    requires NoBreaks(line)
    ensures SplitLines(line + "\r\n" + rest) == [line] + SplitLines(rest)
  {
    var text := line + "\r\n" + rest;
    assert text == line + ("\r\n" + rest);
    LineLengthOfLine(line, "\r\n" + rest);
    assert text[..|line|] == line && text[|line| + 2..] == rest && text[|line|] == '\r' && text[|line| + 1] == '\n';
  }

  /** The heading of the list, in upper or lower case; anything may follow it. */
  lemma HeadingIff(stripped: string)
    ensures IsFilesHeading(stripped) <==>
              && |stripped| >= 8 && stripped[..3] == "## "
              && stripped[3] in "Ff" && stripped[4] in "Ii" && stripped[5] in "Ll" && stripped[6] in "Ee"
              && stripped[7] in "Ss"
  {
    var lower := Lower(stripped);
    if |stripped| >= 8 {
      assert "## files" <= lower <==> forall i :: 0 <= i < 8 ==> lower[i] == "## files"[i];
      assert stripped[..3] == "## " <==> stripped[0] == '#' && stripped[1] == '#' && stripped[2] == ' ';
      forall i | 0 <= i < 8 ensures lower[i] == LowerChar(stripped[i]) {}
      assert IsFilesHeading(stripped) <==>
          && lower[0] == '#' && lower[1] == '#' && lower[2] == ' ' && lower[3] == 'f' && lower[4] == 'i'
          && lower[5] == 'l' && lower[6] == 'e' && lower[7] == 's';
    }
  }

  // ----- one bullet -----

  lemma {:induction false} HashEndsText(a: string, b: string)
    requires '#' !in a
    ensures BeforeHash(a + "#" + b) == a
  {
    if a == "" {
      assert a + "#" + b == "#" + b;
    } else {
      var text := a + "#" + b;
      assert text[0] == a[0] && text[1..] == a[1..] + "#" + b;
      HashEndsText(a[1..], b);
      assert a == [a[0]] + a[1..];
    }
  }

  lemma {:induction false} RightTrimKeeps(a: string, b: string, drop: char -> bool)
    requires a != "" && !drop(a[|a| - 1])
    ensures RightTrim(a + b, drop) == a + RightTrim(b, drop)
  {
    if b == "" {
      assert a + b == a;
    } else if drop(b[|b| - 1]) {
      assert (a + b)[..|a + b| - 1] == a + b[..|b| - 1];
      RightTrimKeeps(a, b[..|b| - 1], drop);
    }
  }

  /** A comment behind a clean path is not read. */
  lemma CommentIsDropped(path: string, comment: string)
    requires IsClean(path)
    ensures EntryOf(path + " #" + comment) == path
  {
    var before, kept := path + " #", RightTrim(comment, IsSpace);
    EntryStages(before + comment);
    HashIsNoSpace();
    RightTrimKeeps(before, comment, IsSpace);
    BeforeComment(path, kept);
    BlankBehind(path);
    ClearIsKept(path, IsBacktick);
    hide *;
  }

  lemma BeforeComment(path: string, kept: string)
    requires '#' !in path
    ensures BeforeHash(path + " #" + kept) == path + " "
  {
    HashEndsText(path + " ", kept);
    hide BeforeHash;
    assert path + " #" + kept == (path + " ") + "#" + kept;
  }

  lemma HashIsNoSpace()
    ensures !IsSpace('#')
  {
  }

  lemma BlankBehind(path: string)
    requires path != "" && Clear(path, IsSpace)
    ensures Trim(path + " ", IsSpace) == path
  {
    var line := path + " ";
    assert LeftTrim(line, IsSpace) == line;
    RightTrimKeeps(path, " ", IsSpace);
    assert RightTrim(" ", IsSpace) == "";
    assert path + "" == path;
  }

  /** Backticks around a clean path are not read. */
  lemma BackticksAreDropped(path: string)
    requires IsClean(path)
    ensures EntryOf("`" + path + "`") == path
  {
    var quoted := "`" + path + "`";
    EntryStages(quoted);
    assert quoted[0] == '`' && quoted[|quoted| - 1] == '`';
    assert !IsSpace('`');
    ClearIsKept(quoted, IsSpace);
    assert RightTrim(quoted, IsSpace) == quoted;
    assert '#' !in quoted;
    BeforeHashMeans(quoted);
    Unquoted(path);
    hide EntryOf, RightTrim, BeforeHash, Trim;
  }

  lemma Unquoted(path: string)
    requires path != "" && Clear(path, IsBacktick)
    ensures Trim("`" + path + "`", IsBacktick) == path
  {
    var quoted := "`" + path + "`";
    assert quoted[1..] == path + "`";
    assert LeftTrim(quoted, IsBacktick) == path + "`";
    RightTrimKeeps(path, "`", IsBacktick);
    assert RightTrim("`", IsBacktick) == "";
    assert path + "" == path;
  }

  // ----- which lines are read -----

  predicate IsHeading(line: string) {
    IsFilesHeading(Trim(line, IsSpace))
  }

  /** Another heading of the second level. */
  predicate IsOtherHeading(line: string) {
    !IsHeading(line) && "## " <= Trim(line, IsSpace)
  }

  /** A heading of the list is among the lines. */
  ghost predicate HasBegun(lines: seq<string>, inBlock: bool) {
    inBlock || exists i :: 0 <= i < |lines| && IsHeading(lines[i])
  }

  /** Another heading comes behind a heading of the list. */
  ghost predicate HasEnded(lines: seq<string>, inBlock: bool) {
    exists i :: 0 <= i < |lines| && EndsAt(lines, i, inBlock)
  }

  ghost predicate EndsAt(lines: seq<string>, i: nat, inBlock: bool) {
    i < |lines| && IsOtherHeading(lines[i]) && HasBegun(lines[..i], inBlock)
  }

  /** What a line inside the list names. */
  function Named(line: string): seq<string> {
    var stripped := Trim(line, IsSpace);
    if IsHeading(line) || IsOtherHeading(line) || !("- " <= stripped) || BulletPath(stripped) == "" then []
    else [BulletPath(stripped)]
  }

  /** What the lines behind a heading of the list, and before the next other heading, name. */
  ghost function Listed(lines: seq<string>, inBlock: bool): seq<string> {
    if lines == [] then []
    else
      var n := |lines| - 1;
      Listed(lines[..n], inBlock) +
      (if HasBegun(lines[..n], inBlock) && !HasEnded(lines[..n], inBlock) then Named(lines[n]) else [])
  }

  lemma HeadBegins(lines: seq<string>, inBlock: bool)
    requires lines != []
    ensures HasBegun(lines, inBlock) <==> HasBegun(lines[1..], inBlock || IsHeading(lines[0]))
  {
    hide IsHeading;
    assert forall i :: 0 < i < |lines| ==> lines[i] == lines[1..][i - 1];
    if i :| 0 < i < |lines| && IsHeading(lines[i]) {
      assert IsHeading(lines[1..][i - 1]);
    }
  }

  lemma HeadEnds(lines: seq<string>, inBlock: bool)
    requires lines != []
    ensures HasEnded(lines, inBlock) <==>
              (inBlock && IsOtherHeading(lines[0])) || HasEnded(lines[1..], inBlock || IsHeading(lines[0]))
  {
    var inBlock' := inBlock || IsHeading(lines[0]);
    assert lines[..0] == [] && (EndsAt(lines, 0, inBlock) <==> inBlock && IsOtherHeading(lines[0]));
    forall i: nat | 0 < i < |lines| ensures EndsAt(lines, i, inBlock) <==> EndsAt(lines[1..], i - 1, inBlock') {
      assert lines[i] == lines[1..][i - 1] && lines[..i][1..] == lines[1..][..i - 1] && lines[..i][0] == lines[0];
      HeadBegins(lines[..i], inBlock);
    }
    hide IsHeading, IsOtherHeading, EndsAt;
    if HasEnded(lines[1..], inBlock') {
      var i: nat :| i < |lines[1..]| && EndsAt(lines[1..], i, inBlock');
      assert EndsAt(lines, i + 1, inBlock);
    }
    if HasEnded(lines, inBlock) && !EndsAt(lines, 0, inBlock) {
      var i: nat :| i < |lines| && EndsAt(lines, i, inBlock);
      assert EndsAt(lines[1..], i - 1, inBlock');
    }
  }

  lemma ParseHead(lines: seq<string>, inBlock: bool)
    requires lines != []
    ensures ParseLines(lines, inBlock) ==
              if inBlock && IsOtherHeading(lines[0]) then []
              else (if inBlock then Named(lines[0]) else []) +
                   ParseLines(lines[1..], inBlock || IsHeading(lines[0]))
  {
    hide Trim, IsFilesHeading, BulletPath;
    assert [] + ParseLines(lines[1..], inBlock) == ParseLines(lines[1..], inBlock);
    assert [] + ParseLines(lines[1..], true) == ParseLines(lines[1..], true);
  }

  lemma {:induction false} ParseSnoc(lines: seq<string>, last: string, inBlock: bool)
    ensures ParseLines(lines + [last], inBlock) ==
              ParseLines(lines, inBlock) +
              (if HasBegun(lines, inBlock) && !HasEnded(lines, inBlock) then Named(last) else [])
  {
    var whole := lines + [last];
    if lines == [] {
      assert whole == [last];
      ParseLast(last, inBlock);
    } else {
      hide HasBegun, HasEnded, Named, ParseLines, IsHeading, IsOtherHeading;
      ParseHead(whole, inBlock);
      ParseHead(lines, inBlock);
      assert whole[0] == lines[0] && whole[1..] == lines[1..] + [last];
      ParseSnoc(lines[1..], last, inBlock || IsHeading(lines[0]));
      HeadBegins(lines, inBlock);
      HeadEnds(lines, inBlock);
    }
  }

  lemma ParseLast(last: string, inBlock: bool)
    ensures ParseLines([], inBlock) == [] && !HasEnded([], inBlock)
    ensures ParseLines([last], inBlock) == if inBlock then Named(last) else []
  {
    ParseHead([last], inBlock);
    OtherHeadingNamesNothing(last);
    hide IsHeading, IsOtherHeading, Named;
    assert [last][1..] == [];
  }

  lemma OtherHeadingNamesNothing(line: string)
    ensures IsOtherHeading(line) ==> Named(line) == []
  {
  }

  /** The parser reads the bullets between the first heading of the list and the next other one:
      those of a second list count too, those behind the end never do. */
  lemma {:induction false} ParserReadsTheList(lines: seq<string>)
    ensures ParseLines(lines, false) == Listed(lines, false)
  {
    if lines != [] {
      var n := |lines| - 1;
      ParserReadsTheList(lines[..n]);
      ParseSnoc(lines[..n], lines[n], false);
      assert lines == lines[..n] + [lines[n]];
      hide HasBegun, HasEnded, Named, ParseLines;
    }
  }
}
