/** Pack files: the stub `init` writes, and the file list read back from it. */
module PackFile {
  import opened Strings

  // ----- Python's string functions -----

  /** The line boundaries of `str.splitlines`. */
  predicate IsLineBreak(c: char) {
    || '\n' <= c <= '\r'
    || '\U{1c}' <= c <= '\U{1e}'
    || c == '\U{85}' || c == '\U{2028}' || c == '\U{2029}'
  }

  /** `str.isspace`; every line boundary is a space. */
  predicate IsSpace(c: char) {
    || IsLineBreak(c)
    || c == '\t' || c == '\U{1f}' || c == ' ' || c == '\U{a0}' || c == '\U{1680}'
    || '\U{2000}' <= c <= '\U{200a}'
    || c == '\U{202f}' || c == '\U{205f}' || c == '\U{3000}'
  }

  predicate IsBacktick(c: char) {
    c == '`'
  }

  predicate NoBreaks(s: string) {
    forall i :: 0 <= i < |s| ==> !IsLineBreak(s[i])
  }

  function LineLength(text: string): (n: nat)
    ensures n <= |text| && NoBreaks(text[..n])
    ensures n < |text| ==> IsLineBreak(text[n])
  {
    if text == "" || IsLineBreak(text[0]) then 0
    else
      var n := LineLength(text[1..]);
      assert text[..n + 1] == [text[0]] + text[1..][..n];
      n + 1
  }

  /** `text.splitlines()`; a carriage return and a line feed are one boundary. */
  function SplitLines(text: string): seq<string> {
    if text == "" then []
    else
      var n := LineLength(text);
      if n == |text| then [text]
      else if n + 1 < |text| && text[n] == '\r' && text[n + 1] == '\n' then [text[..n]] + SplitLines(text[n + 2..])
      else [text[..n]] + SplitLines(text[n + 1..])
  }

  function LowerChar(c: char): char {
    if 'A' <= c <= 'Z' then (c as int + 32) as char else c
  }

  function Lower(s: string): string {
    seq(|s|, i requires 0 <= i < |s| => LowerChar(s[i]))
  }

  /** `s.split("#", 1)[0]`. */
  function BeforeHash(s: string): string {
    if s == "" || s[0] == '#' then "" else [s[0]] + BeforeHash(s[1..])
  }

  function Join(lines: seq<string>): string {
    if lines == [] then "" else if |lines| == 1 then lines[0] else lines[0] + "\n" + Join(lines[1..])
  }

  // ----- the parser -----

  predicate IsFilesHeading(stripped: string) {
    "## files" <= Lower(stripped)
  }

  /** The path a bullet of the file list names, if any. */
  function BulletPath(stripped: string): string
    requires "- " <= stripped
  {
    Trim(Trim(BeforeHash(stripped[2..]), IsSpace), IsBacktick)
  }

  function ParseLines(lines: seq<string>, inBlock: bool): seq<string> {
    if lines == [] then []
    else
      var stripped, rest := Trim(lines[0], IsSpace), lines[1..];
      if IsFilesHeading(stripped) then ParseLines(rest, true)
      else if inBlock && "## " <= stripped then []
      else if inBlock && "- " <= stripped then
        (if BulletPath(stripped) != "" then [BulletPath(stripped)] else []) + ParseLines(rest, inBlock)
      else ParseLines(rest, inBlock)
  }

  datatype Parsed = Files(paths: seq<string>) | NoFileList

  function Parse(text: string): Parsed {
    var files := ParseLines(SplitLines(text), false);
    if files == [] then NoFileList else Files(files)
  }

  /** The body of the loop; `done` is set where the loop breaks off. */
  method ParseLine(line: string, inBlock0: bool, files0: seq<string>, ghost rest: seq<string>)
    returns (inBlock: bool, files: seq<string>, done: bool)
    ensures files + (if done then [] else ParseLines(rest, inBlock)) == files0 + ParseLines([line] + rest, inBlock0)
  {
    ghost var lines := [line] + rest;
    assert lines[0] == line && lines[1..] == rest;
    inBlock, files, done := inBlock0, files0, false;
    var stripped := Trim(line, IsSpace);
    hide Trim, IsFilesHeading, BulletPath;
    if IsFilesHeading(stripped) {
      inBlock := true;
      return;
    }
    if inBlock && "## " <= stripped {
      done := true;
      return;
    }
    if inBlock && "- " <= stripped {
      var payload := BulletPath(stripped);
      if payload != "" {
        files := files + [payload];
      }
    }
  }

  method ParseFilesFromPack(text: string) returns (parsed: Parsed)
    ensures parsed == Parse(text)
  {
    hide ParseLines;
    var lines := SplitLines(text);
    var files: seq<string> := [];
    var inBlock, done := false, false;
    var i := 0;
    while i < |lines| && !done
      invariant 0 <= i <= |lines|
      invariant files + (if done then [] else ParseLines(lines[i..], inBlock)) == ParseLines(lines, false)
    {
      assert lines[i..] == [lines[i]] + lines[i + 1..];
      inBlock, files, done := ParseLine(lines[i], inBlock, files, lines[i + 1..]);
      i := i + 1;
    }
    NothingToParse(inBlock);
    assert files == ParseLines(lines, false);
    parsed := if files == [] then NoFileList else Files(files);
  }

  lemma NothingToParse(inBlock: bool)
    ensures ParseLines([], inBlock) == []
  {
  }
}
