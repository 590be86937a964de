/**
 Rule files: a list of path patterns in a front-matter block, followed by the content.

 Composing always keeps the content.  It keeps the paths exactly when every one of them is plain;
 this module says which paths are, and proves both directions.
 */
module RuleMarkdown {
  import opened Wrappers
  import opened Sequences

  datatype Rule = Rule(paths: seq<string>, content: string)

  // ---------- characters ----------

  /** White space, as the string methods of the source language see it. */
  predicate IsSpace(c: char) {
    || '\t' <= c <= '\r' || '\U{1C}' <= c <= ' ' || c == '\U{85}' || c == '\U{A0}' || c == '\U{1680}'
    || '\U{2000}' <= c <= '\U{200A}' || c == '\U{2028}' || c == '\U{2029}' || c == '\U{202F}'
    || c == '\U{205F}' || c == '\U{3000}'
  }

  predicate IsSeparator(c: char) {
    || '\n' <= c <= '\r' || '\U{1C}' <= c <= '\U{1E}' || Stray(c)
  }

  /** The line separators that JSON leaves as they are. */
  predicate Stray(c: char) {
    c == '\U{85}' || c == '\U{2028}' || c == '\U{2029}'
  }

  /** The characters JSON writes as an escape. */
  predicate Escaped(c: char) {
    c < ' ' || c == '"' || c == '\\'
  }

  ghost predicate HasStray(s: string) {
    exists c :: c in s && Stray(c)
  }

  /** A path that survives being written and read again. */
  ghost predicate Plain(path: string) {
    && (forall c :: c in path ==> c >= ' ' && c !in {'"', '\\', '\U{85}', '\U{2028}', '\U{2029}'})
    && (path != "" ==> path[0] != '\'' && path[|path|-1] != '\'')
  }

  // ---------- trimming ----------

  function TrimBack(s: string, drop: char -> bool): string {
    if s == "" || !drop(s[|s|-1]) then s else TrimBack(s[..|s|-1], drop)
  }

  function TrimBy(s: string, drop: char -> bool): string {
    if s != "" && drop(s[0]) then TrimBy(s[1..], drop) else TrimBack(s, drop)
  }

  function Strip(s: string): string {
    TrimBy(s, IsSpace)
  }

  function StripChar(s: string, c: char): string {
    TrimBy(s, x => x == c)
  }

  ghost predicate All(s: string, drop: char -> bool) {
    forall c :: c in s ==> drop(c)
  }

  ghost predicate Trimmed(s: string, drop: char -> bool) {
    s != "" ==> !drop(s[0]) && !drop(s[|s|-1])
  }

  lemma {:induction false} TrimBackAround(m: string, b: string, drop: char -> bool)
    requires Trimmed(m, drop) && All(b, drop)
    ensures TrimBack(m + b, drop) == m
  {
    if b == "" {
      assert m + b == m;
    } else {
      var front := b[..|b|-1];
      TrimBackAround(m, front, drop);
      assert b[|b|-1] in b;
      assert (m + b)[..|m + b| - 1] == m + front;
    }
  }

  /** Trimming takes away everything droppable around a core whose ends are not. */
  lemma {:induction false} TrimAround(a: string, m: string, b: string, drop: char -> bool)
    requires Trimmed(m, drop) && All(a, drop) && All(b, drop)
    ensures TrimBy(a + m + b, drop) == m
    decreases |a| + |b|
  {
    var s := a + m + b;
    if a != "" {
      assert s[0] in a && s[1..] == a[1..] + m + b;
      TrimAround(a[1..], m, b, drop);
    } else if m == "" && b != "" {
      assert s[0] in b && s[1..] == b[1..] + m + "";
      TrimAround(b[1..], m, "", drop);
    } else {
      assert s == m + b;
      TrimBackAround(m, b, drop);
    }
  }

  lemma {:induction false} TrimBackTakesEnds(s: string, drop: char -> bool)
    ensures var t := TrimBack(s, drop); t <= s && (t != "" ==> !drop(t[|t|-1]))
  {
    if s == "" || !drop(s[|s|-1]) {
    } else {
      TrimBackTakesEnds(s[..|s|-1], drop);
    }
  }

  /** What is left is trimmed and made of characters that were there. */
  lemma {:induction false} TrimLeavesCore(s: string, drop: char -> bool)
    ensures var t := TrimBy(s, drop); Trimmed(t, drop) && forall c :: c in t ==> c in s
  {
    if s != "" && drop(s[0]) {
      TrimLeavesCore(s[1..], drop);
    } else {
      TrimBackTakesEnds(s, drop);
    }
  }

  // ---------- lines ----------

  ghost predicate OneLine(s: string) {
    forall i :: 0 <= i < |s| ==> !IsSeparator(s[i])
  }

  function FirstSeparator(s: string): (i: nat)
    ensures i <= |s| && OneLine(s[..i]) && (i < |s| ==> IsSeparator(s[i]))
  {
    if s == "" || IsSeparator(s[0]) then 0
    else
      var i := 1 + FirstSeparator(s[1..]);
      assert s[..i] == [s[0]] + s[1..][..i-1];
      i
  }

  function SplitLines(s: string): seq<string> {
    if s == "" then []
    else
      var i := FirstSeparator(s);
      if i == |s| then [s]
      else
        var width := if s[i] == '\r' && i + 1 < |s| && s[i+1] == '\n' then 2 else 1;
        [s[..i]] + SplitLines(s[i+width..])
  }

  lemma {:induction false} SplitGivesLines(s: string)
    ensures forall l :: l in SplitLines(s) ==> OneLine(l)
    decreases |s|
  {
    if s == "" {
    } else {
      var i := FirstSeparator(s);
      if i < |s| {
        var width := if s[i] == '\r' && i + 1 < |s| && s[i+1] == '\n' then 2 else 1;
        SplitGivesLines(s[i+width..]);
      } else {
        assert s[..i] == s;
      }
    }
  }

  lemma FirstSeparatorIs(s: string, k: nat)
    requires k <= |s| && OneLine(s[..k]) && (k < |s| ==> IsSeparator(s[k]))
    ensures FirstSeparator(s) == k
  {
    var i := FirstSeparator(s);
    assert forall j :: 0 <= j < k ==> s[..k][j] == s[j];
    assert forall j :: 0 <= j < i ==> s[..i][j] == s[j];
  }

  lemma OnlyLine(line: string)
    requires OneLine(line) && line != ""
    ensures SplitLines(line) == [line]
  {
    assert line[..|line|] == line;
    FirstSeparatorIs(line, |line|);
  }

  lemma FirstLine(line: string, rest: string)
    requires OneLine(line)
    ensures SplitLines(line + "\n" + rest) == [line] + SplitLines(rest)
  {
    var s := line + "\n" + rest;
    assert s[..|line|] == line && s[|line|] == '\n' && s[|line|+1..] == rest;
    FirstSeparatorIs(s, |line|);
  }

  // ---------- composing ----------

  function HexDigit(n: nat): (c: char)
    requires n < 16
    ensures '0' <= c <= 'f' && c != '\\'
  {
    if n < 10 then '0' + n as char else 'a' + (n - 10) as char
  }

  function EscapeChar(c: char): string {
    if c == '"' then "\\\""
    else if c == '\\' then "\\\\"
    else if c == '\n' then "\\n"
    else if c == '\r' then "\\r"
    else if c == '\t' then "\\t"
    else if c == '\U{C}' then "\\f"
    else if c == '\U{8}' then "\\b"
    else if c < ' ' then "\\u00" + [HexDigit(c as int / 16), HexDigit(c as int % 16)]
    else [c]
  }

  function EscapeAll(s: string): string {
    if s == "" then "" else EscapeAll(s[..|s|-1]) + EscapeChar(s[|s|-1])
  }

  /** A JSON string literal, non-ASCII characters left as they are. */
  function JsonString(s: string): string {
    "\"" + EscapeAll(s) + "\""
  }

  function PathLine(path: string): string {
    "  - " + JsonString(path)
  }

  function PathLines(paths: seq<string>): seq<string> {
    if paths == [] then [] else [PathLine(paths[0])] + PathLines(paths[1..])
  }

  function JoinLines(lines: seq<string>): string {
    if lines == [] then ""
    else if |lines| == 1 then lines[0]
    else lines[0] + "\n" + JoinLines(lines[1..])
  }

  function Compose(content: string, paths: seq<string>): string {
    if paths == [] then content
    else JoinLines(["---", "paths:"] + PathLines(paths) + ["---", content])
  }

  // ---------- parsing ----------

  /** The first place at or after `start` where the needle occurs, or -1. */
  function Find(s: string, needle: string, start: nat): (r: int)
    ensures r == -1 || (r >= start && OccursAt(s, needle, r))
    ensures forall i :: start <= i && (r == -1 || i < r) ==> !OccursAt(s, needle, i)
    decreases |s| - start
  {
    if start + |needle| > |s| then -1
    else if s[start..start+|needle|] == needle then start
    else Find(s, needle, start + 1)
  }

  function PathIn(stripped: string): string
    requires stripped != ""
  {
    StripChar(StripChar(Strip(stripped[1..]), '"'), '\'')
  }

  function PathsIn(lines: seq<string>, inPaths: bool): seq<string> {
    if lines == [] then []
    else
      var stripped := Strip(lines[0]);
      if stripped == "paths:" then PathsIn(lines[1..], true)
      else if inPaths && stripped != "" && stripped[0] == '-' then [PathIn(stripped)] + PathsIn(lines[1..], true)
      else if inPaths && stripped != "" then PathsIn(lines[1..], false)
      else PathsIn(lines[1..], inPaths)
  }

  /** The file opens with a block that is closed. */
  predicate HasBlock(raw: string) {
    "---\n" <= raw && Find(raw, "\n---", 4) >= 0
  }

  function Parse(raw: string): Rule {
    if !HasBlock(raw) then Rule([], raw)
    else
      var end := Find(raw, "\n---", 4);
      var start := if end + 4 < |raw| && raw[end+4] == '\n' then end + 5 else end + 4;
      Rule(PathsIn(SplitLines(raw[4..end]), false), raw[start..])
  }

  method ParseRuleMarkdown(raw: string) returns (rule: Rule)
    ensures rule == Parse(raw)
  {
    if !("---\n" <= raw) {
      return Rule([], raw);
    }
    var end := Find(raw, "\n---", 4);
    if end < 0 {
      return Rule([], raw);
    }
    var frontmatter := SplitLines(raw[4..end]);
    var start := end + 4;
    if start < |raw| && raw[start] == '\n' {
      start := start + 1;
    }
    var paths: seq<string>, inPaths := [], false;
    for n := 0 to |frontmatter|
      invariant PathsIn(frontmatter, false) == paths + PathsIn(frontmatter[n..], inPaths)
    {
      assert frontmatter[n..][1..] == frontmatter[n+1..];
      var stripped := Strip(frontmatter[n]);
      if stripped == "paths:" {
        inPaths := true;
        continue;
      }
      if inPaths && stripped != "" && stripped[0] == '-' {
        paths := paths + [PathIn(stripped)];
      } else if inPaths && stripped != "" {
        inPaths := false;
      }
    }
    return Rule(paths, raw[start..]);
  }

  // ---------- the composed text ----------

  /** The lines of the paths, each after a newline. */
  function PathTail(paths: seq<string>): string {
    if paths == [] then "" else "\n" + PathLine(paths[0]) + PathTail(paths[1..])
  }

  lemma JoinOneMore(first: string, lines: seq<string>)
    requires lines != []
    ensures JoinLines([first] + lines) == first + "\n" + JoinLines(lines)
  {
    assert ([first] + lines)[1..] == lines;
  }

  /** Moving the parentheses of a concatenation whose first and fourth parts join up. */
  lemma Regroup(nl: string, line: string, joined: string, tail: string, last: string)
    requires nl + joined == tail + last
    ensures nl + (line + nl + joined) == nl + line + tail + last
  {
    assert line + nl + joined == line + (nl + joined);
    assert nl + (line + (tail + last)) == nl + line + tail + last;
  }

  lemma {:induction false} JoinWithPaths(paths: seq<string>, content: string)
    ensures "\n" + JoinLines(PathLines(paths) + ["---", content]) == PathTail(paths) + ("\n---\n" + content)
  {
    if paths == [] {
      assert PathLines(paths) + ["---", content] == ["---"] + [content];
      JoinOneMore("---", [content]);
      assert "\n" + ("---" + "\n" + content) == "" + ("\n---\n" + content);
    } else {
      var line, rest := PathLine(paths[0]), PathLines(paths[1..]) + ["---", content];
      assert PathLines(paths) + ["---", content] == [line] + rest;
      JoinOneMore(line, rest);
      JoinWithPaths(paths[1..], content);
      Regroup("\n", line, JoinLines(rest), PathTail(paths[1..]), "\n---\n" + content);
    }
  }

  function Front(paths: seq<string>): string {
    "paths:" + PathTail(paths)
  }

  /** A file that opens with a block holding `front`. */
  function Block(front: string, content: string): string {
    "---\n" + front + ("\n---\n" + content)
  }

  lemma JoinTwoMore(a: string, b: string, xs: seq<string>, ys: seq<string>)
    requires ys != []
    ensures JoinLines([a, b] + xs + ys) == a + "\n" + (b + "\n" + JoinLines(xs + ys))
  {
    assert [a, b] + xs + ys == [a] + ([b] + (xs + ys));
    JoinOneMore(a, [b] + (xs + ys));
    JoinOneMore(b, xs + ys);
  }

  lemma ComposedText(content: string, paths: seq<string>)
    requires paths != []
    ensures Compose(content, paths) == Block(Front(paths), content)
  {
    var joined := JoinLines(PathLines(paths) + ["---", content]);
    JoinTwoMore("---", "paths:", PathLines(paths), ["---", content]);
    JoinWithPaths(paths, content);
    AroundPaths("---", "\n", "paths:", joined, PathTail(paths), "\n---\n" + content);
    assert "---" + "\n" == "---\n";
  }

  lemma AroundPaths(dashes: string, nl: string, key: string, joined: string, tail: string, last: string)
    requires nl + joined == tail + last
    ensures dashes + nl + (key + nl + joined) == dashes + nl + (key + tail) + last
  {
    assert key + nl + joined == key + (nl + joined);
    assert dashes + nl + (key + (tail + last)) == dashes + nl + (key + tail) + last;
  }

  /** In the front matter every newline is followed by a space: it cannot close the block. */
  ghost predicate Indented(s: string) {
    forall i :: 0 <= i < |s| && s[i] == '\n' ==> i + 1 < |s| && s[i+1] == ' '
  }

  lemma EscapeCharIsSafe(c: char)
    ensures var e := EscapeChar(c);
            && e != "" && '\n' !in e
            && (!Escaped(c) ==> e == [c])
            && (Escaped(c) ==> |e| > 1 && e[0] == '\\')
            && (forall x :: x in e && IsSeparator(x) ==> x == c && Stray(x))
            && (e[|e|-1] == '"' ==> c == '"' && e == "\\\"")
            && (e[|e|-1] == '\'' ==> c == '\'')
  {
  }

  lemma {:induction false} EscapeAllIsSafe(s: string)
    ensures '\n' !in EscapeAll(s)
    ensures forall x :: x in EscapeAll(s) && IsSeparator(x) ==> x in s && Stray(x)
    ensures |EscapeAll(s)| >= |s|
    ensures s != "" ==> EscapeAll(s) != "" && EscapeAll(s)[0] == EscapeChar(s[0])[0]
  {
    if s == "" {
    } else {
      EscapeAllIsSafe(s[..|s|-1]);
      EscapeCharIsSafe(s[|s|-1]);
    }
  }

  lemma OneMoreIndented(line: string, tail: string)
    requires '\n' !in line && line != "" && line[0] == ' ' && Indented(tail)
    ensures Indented("\n" + line + tail)
  {
    var s := "\n" + line + tail;
    assert forall j :: 0 <= j < |line| ==> s[j+1] == line[j] && line[j] in line;
    assert forall j :: 0 <= j < |tail| ==> s[j+1+|line|] == tail[j];
    forall i | 0 <= i < |s| && s[i] == '\n' ensures i + 1 < |s| && s[i+1] == ' ' {
      if i > 0 { assert s[i] == tail[i-1-|line|]; }
    }
  }

  lemma {:induction false} TailIsIndented(paths: seq<string>)
    ensures Indented(PathTail(paths))
  {
    if paths == [] {
    } else {
      TailIsIndented(paths[1..]);
      EscapeAllIsSafe(paths[0]);
      assert '\n' !in PathLine(paths[0]);
      OneMoreIndented(PathLine(paths[0]), PathTail(paths[1..]));
    }
  }

  lemma FrontIsIndented(paths: seq<string>)
    ensures Indented(Front(paths))
  {
    TailIsIndented(paths);
    var front := Front(paths);
    forall i | 0 <= i < |front| && front[i] == '\n' ensures i + 1 < |front| && front[i+1] == ' ' {
      assert i >= 6 && PathTail(paths)[i-6] == '\n';
    }
  }

  /** A block is closed by the first line of dashes after an indented front. */
  lemma BlockEnds(front: string, content: string)
    requires Indented(front)
    ensures Find(Block(front, content), "\n---", 4) == 4 + |front|
  {
    var raw, end := Block(front, content), 4 + |front|;
    assert raw[end..end+4] == "\n---";
    assert OccursAt(raw, "\n---", end);
    forall i | 4 <= i < end ensures !OccursAt(raw, "\n---", i) {
      assert raw[i] == front[i-4];
      if raw[i] == '\n' {
        assert raw[i+1] == front[i-3];
        assert i + 4 <= |raw| ==> raw[i..i+4][1] == raw[i+1];
      } else {
        assert i + 4 <= |raw| ==> raw[i..i+4][0] == raw[i];
      }
    }
  }

  lemma ParseBlock(front: string, content: string)
    requires Indented(front)
    ensures Parse(Block(front, content)) == Rule(PathsIn(SplitLines(front), false), content)
  {
    var raw, end := Block(front, content), 4 + |front|;
    BlockEnds(front, content);
    assert raw[..4] == "---\n";
    assert raw[4..end] == front;
    assert raw[end+4] == '\n';
    assert raw[end+5..] == content;
  }

  /** Parsing a composed file finds the content it was given and the paths of its front matter. */
  lemma ParseComposed(content: string, paths: seq<string>)
    requires paths != []
    ensures Parse(Compose(content, paths)) == Rule(PathsIn(SplitLines(Front(paths)), false), content)
  {
    ComposedText(content, paths);
    FrontIsIndented(paths);
    ParseBlock(Front(paths), content);
  }

  // ---------- one path, written and read ----------

  /** What the quoted form of a path is read as. */
  function Unquoted(path: string): string {
    StripChar(StripChar(JsonString(path), '"'), '\'')
  }

  lemma {:induction false} NothingEscaped(s: string)
    requires forall c :: c in s ==> !Escaped(c)
    ensures EscapeAll(s) == s
  {
    if s == "" {
    } else {
      var front, last := s[..|s|-1], s[|s|-1];
      assert s == front + [last];
      assert last in s;
      NothingEscaped(front);
      EscapeCharIsSafe(last);
    }
  }

  lemma {:induction false} SomethingEscaped(s: string, c: char)
    requires c in s && Escaped(c)
    ensures |EscapeAll(s)| > |s|
  {
    var front, last := s[..|s|-1], s[|s|-1];
    EscapeAllIsSafe(front);
    EscapeCharIsSafe(last);
    assert s == front + [last];
    if c in front { SomethingEscaped(front, c); }
  }

  /** Inside its quotes, a text whose ends are not quotes is left alone. */
  lemma QuotesComeOff(text: string, extra: string)
    requires Trimmed(text, x => x == '"') && All(extra, x => x == '"')
    ensures StripChar("\"" + text + extra, '"') == text
  {
    TrimAround("\"", text, extra, x => x == '"');
  }

  lemma TrimmedStays(text: string, c: char)
    requires Trimmed(text, x => x == c)
    ensures StripChar(text, c) == text
  {
    TrimAround("", text, "", x => x == c);
    assert "" + text + "" == text;
  }

  lemma ApostrophesAreLost(path: string)
    requires path != "" && (path[0] == '\'' || path[|path|-1] == '\'')
    ensures Unquoted(path) != path
  {
    TrimLeavesCore(StripChar(JsonString(path), '"'), x => x == '\'');
  }

  lemma EscapedEnds(path: string)
    requires path != ""
    ensures var q := EscapeAll(path);
            && q != "" && q[0] != '"' && (q[0] == '\'' ==> path[0] == '\'')
            && (q[|q|-1] == '"' ==> path[|path|-1] == '"')
            && (q[|q|-1] == '\'' ==> path[|path|-1] == '\'')
  {
    EscapeAllIsSafe(path);
    EscapeCharIsSafe(path[0]);
    EscapeCharIsSafe(path[|path|-1]);
  }

  lemma LastQuoteBecomesBackslash(path: string)
    requires path != "" && path[0] != '\'' && path[|path|-1] == '"'
    ensures Unquoted(path) != path
  {
    var q := EscapeAll(path);
    EscapedEnds(path);
    var core := EscapeAll(path[..|path|-1]) + "\\";
    assert q == core + "\"";
    assert core[0] == q[0];
    assert JsonString(path) == "\"" + core + "\"\"";
    QuotesComeOff(core, "\"\"");
    TrimmedStays(core, '\'');
    assert core[|core|-1] == '\\';
  }

  lemma EscapesAreKept(path: string, c: char)
    requires c in path && Escaped(c)
    ensures Unquoted(path) != path
  {
    if path[0] == '\'' || path[|path|-1] == '\'' {
      ApostrophesAreLost(path);
    } else if path[|path|-1] == '"' {
      LastQuoteBecomesBackslash(path);
    } else {
      EscapedEnds(path);
      QuotesComeOff(EscapeAll(path), "\"");
      TrimmedStays(EscapeAll(path), '\'');
      SomethingEscaped(path, c);
    }
  }

  /** On one line, a path is read as it was written exactly when it is plain. */
  lemma UnquotedIffPlain(path: string)
    requires !HasStray(path)
    ensures Unquoted(path) == path <==> Plain(path)
  {
    assert forall c :: c in path ==> !Stray(c);
    if c :| c in path && Escaped(c) {
      EscapesAreKept(path, c);
    } else {
      NothingEscaped(path);
      assert path != "" ==> path[0] in path && path[|path|-1] in path;
      QuotesComeOff(path, "\"");
      if path != "" && (path[0] == '\'' || path[|path|-1] == '\'') {
        ApostrophesAreLost(path);
      } else {
        TrimmedStays(path, '\'');
      }
    }
  }

  // ---------- all paths ----------

  function ReadBack(paths: seq<string>): seq<string> {
    if paths == [] then [] else [Unquoted(paths[0])] + ReadBack(paths[1..])
  }

  lemma PathLineStripped(path: string)
    ensures Strip(PathLine(path)) == "- " + JsonString(path)
    ensures PathIn("- " + JsonString(path)) == Unquoted(path)
  {
    var json := JsonString(path);
    var item := "- " + json;
    assert PathLine(path) == "  " + item + "";
    TrimAround("  ", item, "", IsSpace);
    assert item[1..] == " " + json + "";
    TrimAround(" ", json, "", IsSpace);
  }

  lemma {:induction false} PathLinesAreRead(paths: seq<string>)
    ensures PathsIn(PathLines(paths), true) == ReadBack(paths)
  {
    if paths == [] {
    } else {
      PathLineStripped(paths[0]);
      PathLinesAreRead(paths[1..]);
      var stripped := Strip(PathLines(paths)[0]);
      assert stripped[0] == '-' && stripped != "paths:";
      assert PathLines(paths)[1..] == PathLines(paths[1..]);
    }
  }

  lemma PathLineIsOneLine(path: string)
    requires !HasStray(path)
    ensures OneLine(PathLine(path))
  {
    EscapeAllIsSafe(path);
    var line, q := PathLine(path), EscapeAll(path);
    forall i | 0 <= i < |line| ensures !IsSeparator(line[i]) {
      if 5 <= i < |line| - 1 { assert line[i] == q[i-5] && q[i-5] in q; }
    }
  }

  lemma OneMoreLine(line: string, first: string, tail: string)
    requires OneLine(line)
    ensures SplitLines(line + ("\n" + first + tail)) == [line] + SplitLines(first + tail)
  {
    FirstLine(line, first + tail);
    Reassociate(line, "\n", first, tail);
  }

  lemma Reassociate(a: string, b: string, c: string, d: string)
    ensures a + (b + c + d) == a + b + (c + d)
  {
    assert b + c + d == b + (c + d);
  }

  lemma {:induction false} FrontSplits(line: string, paths: seq<string>)
    requires OneLine(line) && line != "" && forall p :: p in paths ==> !HasStray(p)
    ensures SplitLines(line + PathTail(paths)) == [line] + PathLines(paths)
    decreases |paths|
  {
    if paths == [] {
      OnlyLine(line);
      assert line + PathTail(paths) == line;
    } else {
      var first, tail := PathLine(paths[0]), PathTail(paths[1..]);
      assert paths[0] in paths;
      PathLineIsOneLine(paths[0]);
      FrontSplits(first, paths[1..]);
      OneMoreLine(line, first, tail);
    }
  }

  /** Without stray separators, each path is read from its own line. */
  lemma FrontIsRead(paths: seq<string>)
    requires forall p :: p in paths ==> !HasStray(p)
    ensures PathsIn(SplitLines(Front(paths)), false) == ReadBack(paths)
  {
    FrontSplits("paths:", paths);
    TrimAround("", "paths:", "", IsSpace);
    assert "" + "paths:" + "" == "paths:";
    assert (["paths:"] + PathLines(paths))[1..] == PathLines(paths);
    PathLinesAreRead(paths);
  }

  lemma {:induction false} ReadBackIffPlain(paths: seq<string>)
    requires forall p :: p in paths ==> !HasStray(p)
    ensures ReadBack(paths) == paths <==> forall p :: p in paths ==> Plain(p)
  {
    if paths == [] {
    } else {
      var p, rest := paths[0], paths[1..];
      assert paths == [p] + rest;
      UnquotedIffPlain(p);
      ReadBackIffPlain(rest);
    }
  }

  lemma NoStrayOnOneLine(line: string, part: string)
    requires OneLine(line) && forall c :: c in part ==> c in line
    ensures !HasStray(part)
  {
  }

  lemma {:induction false} ReadPathsAreOneLine(lines: seq<string>, inPaths: bool)
    requires forall l :: l in lines ==> OneLine(l)
    ensures forall p :: p in PathsIn(lines, inPaths) ==> !HasStray(p)
    decreases |lines|
  {
    if lines == [] {
    } else {
      var stripped := Strip(lines[0]);
      forall flag ensures forall p :: p in PathsIn(lines[1..], flag) ==> !HasStray(p) {
        ReadPathsAreOneLine(lines[1..], flag);
      }
      if stripped != "" {
        var item := Strip(stripped[1..]);
        TrimLeavesCore(lines[0], IsSpace);
        TrimLeavesCore(stripped[1..], IsSpace);
        TrimLeavesCore(item, x => x == '"');
        TrimLeavesCore(StripChar(item, '"'), x => x == '\'');
        assert OneLine(lines[0]);
        NoStrayOnOneLine(lines[0], PathIn(stripped));
      }
    }
  }

  /**
   Writing a rule with some paths and reading it again keeps the content, whatever it is, and keeps
   the paths if and only if each of them is plain.
   */
  lemma RoundTrip(content: string, paths: seq<string>)
    requires paths != []
    ensures Parse(Compose(content, paths)).content == content
    ensures Parse(Compose(content, paths)) == Rule(paths, content) <==> forall p :: p in paths ==> Plain(p)
  {
    ParseComposed(content, paths);
    if p :| p in paths && HasStray(p) {
      SplitGivesLines(Front(paths));
      ReadPathsAreOneLine(SplitLines(Front(paths)), false);
    } else {
      FrontIsRead(paths);
      ReadBackIffPlain(paths);
    }
  }

  /** A path with a quote in it comes back with a backslash before the quote. */
  lemma QuotedPathChanges(content: string)
    ensures Parse(Compose(content, ["a\"b"])) != Rule(["a\"b"], content)
  {
    assert "a\"b"[1] == '"';
    assert '"' in "a\"b";
    assert "a\"b" in ["a\"b"];
    RoundTrip(content, ["a\"b"]);
  }

  /** Without paths the content is written as it is, and read again unless it opens with a closed block. */
  lemma RoundTripWithoutPaths(content: string)
    ensures Parse(Compose(content, [])) == Rule([], content) <==> !HasBlock(content)
  {
  }

  /** A content that is nothing but an empty closed block is lost. */
  lemma ClosedBlockIsLost()
    ensures HasBlock("---\n\n---") && Parse(Compose("---\n\n---", [])) == Rule([], "")
  {
    var raw := "---\n\n---";
    assert raw[..4] == "---\n" && raw[4..8] == "\n---" && raw[8..] == "" && raw[4..4] == "";
  }

  // ---------- validation ----------

  /** The parts between slashes. */
  function Components(path: string): seq<string> {
    if path == "" then [""]
    else
      var rest := Components(path[1..]);
      if path[0] == '/' then [""] + rest
      else if rest == [] then [[path[0]]]
      else [[path[0]] + rest[0]] + rest[1..]
  }

  function Slashed(parts: seq<string>): string {
    if parts == [] then ""
    else if |parts| == 1 then parts[0]
    else parts[0] + "/" + Slashed(parts[1..])
  }

  /** The parts put back together are the path, and no part holds a slash. */
  lemma {:induction false} ComponentsAreTheParts(path: string)
    ensures Components(path) != [] && Slashed(Components(path)) == path
    ensures forall part :: part in Components(path) ==> '/' !in part
  {
    if path == "" {
    } else {
      var rest := Components(path[1..]);
      ComponentsAreTheParts(path[1..]);
      assert path == [path[0]] + path[1..];
      if path[0] == '/' {
        assert ([""] + rest)[1..] == rest;
      } else {
        assert rest[0] in rest;
        assert ([[path[0]] + rest[0]] + rest[1..])[1..] == rest[1..];
        assert rest == [rest[0]] + rest[1..];
      }
    }
  }

  /** At `i` the path climbs: two dots with a slash or an end on both sides. */
  predicate ClimbsAt(path: string, i: nat) {
    && i + 2 <= |path| && path[i] == '.' && path[i+1] == '.'
    && (i == 0 || path[i-1] == '/') && (i + 2 == |path| || path[i+2] == '/')
  }

  /** A relative path that never climbs. */
  ghost predicate StaysInside(value: string) {
    value != "" && value[0] != '/' && forall i :: !ClimbsAt(value, i)
  }

  lemma {:induction false} FirstComponent(path: string)
    ensures Components(path) != []
    ensures var first := Components(path)[0];
            first <= path && '/' !in first && (|first| < |path| ==> path[|first|] == '/')
  {
    if path == "" {
    } else {
      FirstComponent(path[1..]);
    }
  }

  lemma FirstClimbs(path: string)
    ensures Components(path) != [] && (Components(path)[0] == ".." <==> ClimbsAt(path, 0))
  {
    FirstComponent(path);
    var first := Components(path)[0];
    assert forall k :: 0 <= k < |first| ==> first[k] == path[k] && first[k] in first;
    if ClimbsAt(path, 0) { assert first == ".."; }
  }

  /** Some part is two dots exactly if the path climbs somewhere. */
  lemma {:induction false} LaterPartsClimb(path: string)
    ensures Components(path) != []
    ensures ".." in Components(path)[1..] <==> exists i: nat :: i > 0 && ClimbsAt(path, i)
  {
    if path == "" {
    } else {
      var rest, parts := path[1..], Components(path[1..]);
      LaterPartsClimb(rest);
      FirstClimbs(rest);
      assert parts == [parts[0]] + parts[1..];
      assert Components(path)[1..] == if path[0] == '/' then parts else parts[1..];
      if i: nat :| i > 0 && ClimbsAt(path, i) { assert ClimbsAt(rest, i - 1); }
      if j: nat :| ClimbsAt(rest, j) && (j > 0 || path[0] == '/') { assert ClimbsAt(path, j + 1); }
    }
  }

  lemma PartsClimb(path: string)
    ensures ".." in Components(path) <==> exists i: nat :: ClimbsAt(path, i)
  {
    FirstClimbs(path);
    LaterPartsClimb(path);
    var parts := Components(path);
    assert parts == [parts[0]] + parts[1..];
  }

  function Stripped(paths: seq<string>): seq<string> {
    if paths == [] then [] else Stripped(paths[..|paths|-1]) + [Strip(paths[|paths|-1])]
  }

  method ValidateRulePaths(paths: seq<string>) returns (r: Option<seq<string>>)
    ensures r.Some? <==> forall p :: p in paths ==> StaysInside(Strip(p))
    ensures r.Some? ==> r.value == Stripped(paths)
    ensures r.Some? ==> |r.value| == |paths| && forall i :: 0 <= i < |paths| ==> r.value[i] == Strip(paths[i])
  {
    StrippedMembers(paths);
    var cleaned: seq<string> := [];
    for n := 0 to |paths|
      invariant cleaned == Stripped(paths[..n])
      invariant forall p :: p in paths[..n] ==> StaysInside(Strip(p))
    {
      assert paths[..n+1] == paths[..n] + [paths[n]] && paths[..n+1][..n] == paths[..n];
      var value := Strip(paths[n]);
      PartsClimb(value);
      if value == "" || value[0] == '/' || ".." in Components(value) {
        assert paths[n] in paths;
        return None;
      }
      cleaned := cleaned + [value];
    }
    assert paths[..|paths|] == paths;
    return Some(cleaned);
  }

  lemma {:induction false} StrippedMembers(paths: seq<string>)
    ensures |Stripped(paths)| == |paths|
    ensures forall i :: 0 <= i < |paths| ==> Stripped(paths)[i] == Strip(paths[i])
  {
    if paths == [] {
    } else {
      StrippedMembers(paths[..|paths|-1]);
    }
  }

  // ---------- the file ----------

  /** Reading a file as text: a carriage return, with or without a newline after it, becomes a newline. */
  function Universal(s: string): string {
    if s == "" then ""
    else if s[0] != '\r' then [s[0]] + Universal(s[1..])
    else "\n" + Universal(if |s| > 1 && s[1] == '\n' then s[2..] else s[1..])
  }

  lemma {:induction false} UniversalHasNoReturn(s: string)
    ensures '\r' !in Universal(s)
  {
    if s == "" {
    } else if s[0] != '\r' {
      UniversalHasNoReturn(s[1..]);
    } else {
      UniversalHasNoReturn(if |s| > 1 && s[1] == '\n' then s[2..] else s[1..]);
    }
  }

  /** Text without carriage returns is read as it is, and so is whatever stands before other text. */
  lemma {:induction false} UniversalKeeps(a: string, b: string)
    requires '\r' !in a
    ensures Universal(a + b) == a + Universal(b)
  {
    if a == "" {
      assert a + b == b;
    } else {
      UniversalKeeps(a[1..], b);
      assert a[0] in a && (a + b)[1..] == a[1..] + b;
      assert a == [a[0]] + a[1..];
    }
  }

  lemma UniversalIsSame(s: string)
    ensures Universal(s) == s <==> '\r' !in s
  {
    UniversalHasNoReturn(s);
    if '\r' !in s {
      UniversalKeeps(s, "");
      assert s + "" == s;
    }
  }

  lemma {:induction false} TailHasNoReturn(paths: seq<string>)
    ensures '\r' !in PathTail(paths)
  {
    if paths == [] {
    } else {
      TailHasNoReturn(paths[1..]);
      EscapeAllIsSafe(paths[0]);
      assert IsSeparator('\r') && !Stray('\r');
      assert '\r' !in PathLine(paths[0]);
    }
  }

  lemma UniversalBlock(front: string, content: string)
    requires '\r' !in front
    ensures Universal(Block(front, content)) == Block(front, Universal(content))
  {
    var before := "---\n" + front + "\n---\n";
    UniversalKeeps(before, content);
    Reopen("---\n" + front, "\n---\n", content);
    Reopen("---\n" + front, "\n---\n", Universal(content));
  }

  lemma Reopen(a: string, b: string, c: string)
    ensures a + (b + c) == a + b + c
  {
  }

  /** The front matter of a file has nothing to translate, so only the content is. */
  lemma StoredBlock(content: string, paths: seq<string>)
    requires paths != []
    ensures Universal(Compose(content, paths)) == Compose(Universal(content), paths)
  {
    ComposedText(content, paths);
    ComposedText(Universal(content), paths);
    TailHasNoReturn(paths);
    UniversalBlock(Front(paths), content);
  }

  /** What a rule is read as after it was written. */
  function Stored(content: string, paths: seq<string>): Rule {
    Parse(Universal(Compose(content, paths)))
  }

  /**
   Through the file, the content loses its carriage returns; the rule comes back as it was exactly
   when there were none and every path is plain.
   */
  lemma FileRoundTrip(content: string, paths: seq<string>)
    requires paths != []
    ensures Stored(content, paths).content == Universal(content)
    ensures Stored(content, paths) == Rule(paths, content) <==>
              ('\r' !in content && forall p :: p in paths ==> Plain(p))
  {
    StoredBlock(content, paths);
    RoundTrip(Universal(content), paths);
    UniversalIsSame(content);
  }

  /** Without paths it comes back exactly when there were none and no closed block opens it. */
  lemma FileRoundTripWithoutPaths(content: string)
    ensures Stored(content, []) == Rule([], content) <==> '\r' !in content && !HasBlock(content)
  {
    UniversalIsSame(content);
    if '\r' in content {
      UniversalHasNoReturn(content);
      assert forall c :: c in Stored(content, []).content ==> c in Universal(content);
    } else {
      RoundTripWithoutPaths(content);
    }
  }

  lemma ReturnsAreRead()
    ensures Universal("---\r\n\r\n---") == "---\n\n---"
  {
    var last := "\r\n---";
    var rest := "\r\n" + last;
    assert last[2..] == "---" && rest[2..] == last;
    UniversalIsSame("---");
    assert Universal(last) == "\n" + "---";
    assert Universal(rest) == "\n" + Universal(last);
    UniversalKeeps("---", rest);
    assert "---" + rest == "---\r\n\r\n---";
  }

  /** A block may be closed only by the translation: this content holds none, and is lost all the same. */
  lemma ReturnsMakeABlock()
    ensures !HasBlock("---\r\n\r\n---") && Stored("---\r\n\r\n---", []) == Rule([], "")
  {
    assert "---\r\n\r\n---"[3] != "---\n"[3];
    ReturnsAreRead();
    ClosedBlockIsLost();
  }

  /**
   A rule is written, and its stored form read for the answer: refused exactly for an unacceptable
   path, and answered with what was asked to be stored exactly when the content has no carriage
   return and every path is plain or, without paths, no closed block opens the content.
   */
  method WriteRule(content: string, paths: seq<string>) returns (r: Option<Rule>)
    ensures r.Some? <==> forall p :: p in paths ==> StaysInside(Strip(p))
    ensures r.Some? ==> (r.value == Rule(Stripped(paths), content) <==>
              && '\r' !in content
              && if paths == [] then !HasBlock(content) else forall p :: p in Stripped(paths) ==> Plain(p))
    ensures r.Some? && paths != [] ==> r.value.content == Universal(content)
  {
    var validated := ValidateRulePaths(paths);
    if validated.None? {
      return None;
    }
    StrippedMembers(paths);
    var file := Compose(content, validated.value);
    var rule := ParseRuleMarkdown(Universal(file));
    if paths == [] {
      FileRoundTripWithoutPaths(content);
    } else {
      FileRoundTrip(content, validated.value);
    }
    return Some(rule);
  }
}
