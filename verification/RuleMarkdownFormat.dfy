/**
 What a rule file looks like and what is read from any file: the composed text line by line, the JSON
 literals in it, the block at the head of a file, the list under its `paths:` key, and one item of it.
 */
module RuleMarkdownFormat {
  import opened Wrappers
  import opened Sequences
  import opened RuleMarkdown

  // ---------- characters ----------

  /** The code points of white space in Unicode, with the four separators of ASCII. */
  const SPACES: set<int> := {
    0x09, 0x0A, 0x0B, 0x0C, 0x0D, 0x1C, 0x1D, 0x1E, 0x1F, 0x20, 0x85, 0xA0, 0x1680,
    0x2000, 0x2001, 0x2002, 0x2003, 0x2004, 0x2005, 0x2006, 0x2007, 0x2008, 0x2009, 0x200A,
    0x2028, 0x2029, 0x202F, 0x205F, 0x3000}

  /** Those at which a text is cut into lines. */
  const LINE_ENDS: set<int> := {0x0A, 0x0B, 0x0C, 0x0D, 0x1C, 0x1D, 0x1E, 0x85, 0x2028, 0x2029}

  lemma SpacesAndLineEnds(c: char)
    ensures IsSpace(c) <==> c as int in SPACES
    ensures IsSeparator(c) <==> c as int in LINE_ENDS
  {
  }

  // ---------- trimming ----------

  /** `core` is `s` without what is dropped at its two ends. */
  ghost predicate IsCore(s: string, core: string, drop: char -> bool) {
    Trimmed(core, drop) && exists a, b :: Surrounds(s, a, core, b) && All(a, drop) && All(b, drop)
  }

  ghost predicate Surrounds(s: string, a: string, core: string, b: string) {
    s == a + core + b
  }

  lemma {:induction false} TrimBackSplits(s: string, drop: char -> bool) returns (b: string)
    ensures s == TrimBack(s, drop) + b && All(b, drop)
  {
    if s == "" || !drop(s[|s|-1]) {
      b := "";
    } else {
      var rest := TrimBackSplits(s[..|s|-1], drop);
      b := rest + [s[|s|-1]];
      assert s == s[..|s|-1] + [s[|s|-1]];
    }
  }

  lemma {:induction false} TrimSplits(s: string, drop: char -> bool) returns (a: string, b: string)
    ensures Surrounds(s, a, TrimBy(s, drop), b) && All(a, drop) && All(b, drop)
  {
    if s != "" && drop(s[0]) {
      var rest;
      rest, b := TrimSplits(s[1..], drop);
      a := [s[0]] + rest;
      assert s == [s[0]] + s[1..];
    } else {
      b := TrimBackSplits(s, drop);
      a := "";
    }
  }

  /** Trimming leaves the core, and nothing else is one. */
  lemma TrimIsCore(s: string, core: string, drop: char -> bool)
    ensures TrimBy(s, drop) == core <==> IsCore(s, core, drop)
  {
    if TrimBy(s, drop) == core {
      var a, b := TrimSplits(s, drop);
      TrimLeavesCore(s, drop);
    }
    if IsCore(s, core, drop) {
      var a, b :| Surrounds(s, a, core, b) && All(a, drop) && All(b, drop);
      TrimAround(a, core, b, drop);
    }
  }

  /**
   An item of the list is read by taking away, after its dash, first the white space around it, then the
   quotes around that, and then the apostrophes around that.
   */
  lemma ItemIsRead(item: string) returns (bare: string, unquoted: string)
    requires item != ""
    ensures IsCore(item[1..], bare, IsSpace)
    ensures IsCore(bare, unquoted, c => c == '"')
    ensures IsCore(unquoted, PathIn(item), c => c == '\'')
  {
    bare := Strip(item[1..]);
    unquoted := StripChar(bare, '"');
    TrimIsCore(item[1..], bare, IsSpace);
    TrimIsCore(bare, unquoted, x => x == '"');
    TrimIsCore(unquoted, PathIn(item), x => x == '\'');
    SameCore(bare, unquoted, x => x == '"', c => c == '"');
    SameCore(unquoted, PathIn(item), x => x == '\'', c => c == '\'');
  }

  lemma SameCore(s: string, core: string, drop: char -> bool, drop': char -> bool)
    requires IsCore(s, core, drop) && forall c :: drop(c) == drop'(c)
    ensures IsCore(s, core, drop')
  {
    var a, b :| Surrounds(s, a, core, b) && All(a, drop) && All(b, drop);
    assert All(a, drop') && All(b, drop');
  }

  // ---------- JSON strings ----------

  function HexValue(c: char): Option<nat> {
    if '0' <= c <= '9' then Some(c as int - '0' as int)
    else if 'a' <= c <= 'f' then Some(c as int - 'a' as int + 10)
    else if 'A' <= c <= 'F' then Some(c as int - 'A' as int + 10)
    else None
  }

  /** The character that the four digits of a JSON escape name, below the surrogates. */
  function HexChar(d: string): Option<char>
    requires |d| == 4
  {
    var a, b, e, f := HexValue(d[0]), HexValue(d[1]), HexValue(d[2]), HexValue(d[3]);
    if a.None? || b.None? || e.None? || f.None? then None
    else
      var n := ((a.value * 16 + b.value) * 16 + e.value) * 16 + f.value;
      if n < 0xD800 then Some(n as char) else None
  }

  /** What a two-character JSON escape stands for. */
  function ShortEscape(c: char): Option<char> {
    match c
    case '"' => Some('"')
    case '\\' => Some('\\')
    case '/' => Some('/')
    case 'b' => Some('\U{8}')
    case 'f' => Some('\U{C}')
    case 'n' => Some('\n')
    case 'r' => Some('\r')
    case 't' => Some('\t')
    case _ => None
  }

  function Prepend(c: Option<char>, rest: Option<string>): Option<string> {
    if c.Some? && rest.Some? then Some([c.value] + rest.value) else None
  }

  /** The text that stands between the quotes of a JSON string (section 7 of RFC 8259), if it is one. */
  function JsonText(s: string): Option<string>
    decreases |s|
  {
    if s == "" then Some("")
    else if s[0] == '"' || s[0] < ' ' then None
    else if s[0] != '\\' then Prepend(Some(s[0]), JsonText(s[1..]))
    else if |s| >= 2 && s[1] != 'u' then Prepend(ShortEscape(s[1]), JsonText(s[2..]))
    else if |s| >= 6 then Prepend(HexChar(s[2..6]), JsonText(s[6..]))
    else None
  }

  lemma EscapeAllSnoc(s: string, c: char)
    ensures EscapeAll(s + [c]) == EscapeAll(s) + EscapeChar(c)
  {
    assert (s + [c])[..|s|] == s;
  }

  lemma {:induction false} EscapeAllCons(c: char, s: string)
    ensures EscapeAll([c] + s) == EscapeChar(c) + EscapeAll(s)
    decreases |s|
  {
    if s == "" {
      EscapeAllSnoc("", c);
      assert "" + [c] == [c] + s;
    } else {
      var front, last := s[..|s|-1], s[|s|-1];
      calc {
        EscapeAll([c] + s);
        { assert [c] + s == [c] + front + [last]; }
        EscapeAll([c] + front + [last]);
        { EscapeAllSnoc([c] + front, last); }
        EscapeAll([c] + front) + EscapeChar(last);
        { EscapeAllCons(c, front); }
        EscapeChar(c) + EscapeAll(front) + EscapeChar(last);
        EscapeChar(c) + (EscapeAll(front) + EscapeChar(last));
      }
    }
  }

  lemma ControlIsRead(c: char)
    requires c < ' '
    ensures HexChar("00" + [HexDigit(c as int / 16), HexDigit(c as int % 16)]) == Some(c)
  {
    var hi, lo := c as int / 16, c as int % 16;
    assert HexValue(HexDigit(hi)) == Some(hi);
    assert HexValue(HexDigit(lo)) == Some(lo);
  }

  lemma EscapedCharIsRead(c: char, rest: string)
    ensures JsonText(EscapeChar(c) + rest) == Prepend(Some(c), JsonText(rest))
  {
    var e := EscapeChar(c);
    var s := e + rest;
    assert s[|e|..] == rest;
    if |e| == 6 {
      ControlIsRead(c);
      assert s[2..6] == "00" + [HexDigit(c as int / 16), HexDigit(c as int % 16)];
    }
  }

  /** A JSON parser reads each path from its literal as it was. */
  lemma {:induction false} JsonIsRead(s: string)
    ensures JsonText(EscapeAll(s)) == Some(s)
  {
    if s == "" {
    } else {
      assert s == [s[0]] + s[1..];
      EscapeAllCons(s[0], s[1..]);
      JsonIsRead(s[1..]);
      EscapedCharIsRead(s[0], EscapeAll(s[1..]));
    }
  }

  // ---------- the composed file ----------

  /** Lines, each with a newline after it. */
  function Terminated(lines: seq<string>): string {
    if lines == [] then "" else lines[0] + "\n" + Terminated(lines[1..])
  }

  /** An indented list item: a dash, a space, and a JSON string that says the path. */
  predicate IsItemOf(line: string, path: string) {
    && |line| >= 6 && line[..5] == "  - \"" && line[|line|-1] == '"'
    && JsonText(line[5..|line|-1]) == Some(path)
  }

  lemma ItemSaysPath(path: string)
    ensures IsItemOf(PathLine(path), path)
  {
    var body := EscapeAll(path);
    JsonIsRead(path);
    QuotedBody(PathLine(path), body);
  }

  lemma QuotedBody(line: string, body: string)
    requires line == "  - " + ("\"" + body + "\"")
    ensures |line| >= 6 && line[..5] == "  - \"" && line[|line|-1] == '"' && line[5..|line|-1] == body
  {
  }

  lemma {:induction false} ItemsSayPaths(paths: seq<string>)
    ensures |PathLines(paths)| == |paths|
    ensures forall i :: 0 <= i < |paths| ==> IsItemOf(PathLines(paths)[i], paths[i])
  {
    if paths == [] {
    } else {
      ItemsSayPaths(paths[1..]);
      ItemSaysPath(paths[0]);
      assert forall i :: 0 < i < |paths| ==> paths[i] == paths[1..][i-1];
    }
  }

  lemma {:induction false} TailIsTerminated(paths: seq<string>)
    ensures PathTail(paths) + "\n" == "\n" + Terminated(PathLines(paths))
  {
    if paths == [] {
    } else {
      var line, rest := PathLine(paths[0]), PathLines(paths[1..]);
      TailIsTerminated(paths[1..]);
      assert PathLines(paths)[1..] == rest;
      MoveNewline("\n", line, PathTail(paths[1..]), Terminated(rest));
    }
  }

  lemma MoveNewline(nl: string, line: string, tail: string, rest: string)
    requires tail + nl == nl + rest
    ensures (nl + line + tail) + nl == nl + (line + nl + rest)
  {
    assert (nl + line + tail) + nl == nl + line + (tail + nl);
    assert nl + line + (nl + rest) == nl + (line + nl + rest);
  }

  /**
   A composed file opens with three dashes and the key; then comes one item for each path, in order, a line
   of three dashes, and the content as it is.
   */
  lemma ComposedFile(content: string, paths: seq<string>) returns (items: seq<string>)
    requires paths != []
    ensures |items| == |paths| && forall i :: 0 <= i < |paths| ==> IsItemOf(items[i], paths[i])
    ensures Compose(content, paths) == "---\n" + "paths:\n" + Terminated(items) + "---\n" + content
  {
    items := PathLines(paths);
    ItemsSayPaths(paths);
    ComposedText(content, paths);
    TailIsTerminated(paths);
    Arrange("---\n", "paths:", "\n", "---\n", PathTail(paths), Terminated(items), content);
    assert "\n" + "---\n" == "\n---\n";
    assert "paths:" + "\n" == "paths:\n";
  }

  lemma Arrange(open: string, key: string, nl: string, close: string, tail: string, lines: string, content: string)
    requires tail + nl == nl + lines
    ensures open + (key + tail) + ((nl + close) + content) == open + (key + nl) + lines + close + content
  {
    assert open + (key + tail) + ((nl + close) + content) == open + key + (tail + nl) + close + content;
    assert open + key + (nl + lines) + close + content == open + (key + nl) + lines + close + content;
  }

  // ---------- the block of any file ----------

  /** The text opens with a line of three dashes, and `front` lies before the first line that starts so. */
  ghost predicate OpensWith(raw: string, front: string, rest: string) {
    && raw == "---\n" + front + "\n---" + rest
    && forall i :: 4 <= i < 4 + |front| ==> !OccursAt(raw, "\n---", i)
  }

  /** The content is the rest, without the newline it may start with. */
  predicate IsContentOf(rest: string, content: string) {
    if "\n" <= rest then rest == "\n" + content else rest == content
  }

  lemma OpenedHasBlock(raw: string, front: string, rest: string)
    requires OpensWith(raw, front, rest)
    ensures HasBlock(raw) && Find(raw, "\n---", 4) == 4 + |front|
    ensures raw[4..4+|front|] == front && raw[8+|front|..] == rest
  {
    var end := 4 + |front|;
    assert raw[..4] == "---\n";
    assert raw[end..end+4] == "\n---";
    assert OccursAt(raw, "\n---", end);
  }

  /** A text that opens with a closed block: the paths are read from the block, the content is what follows. */
  lemma ParseTakesApart(raw: string, front: string, rest: string)
    requires OpensWith(raw, front, rest)
    ensures Parse(raw).paths == PathsIn(SplitLines(front), false) && IsContentOf(rest, Parse(raw).content)
  {
    OpenedHasBlock(raw, front, rest);
    var after := 8 + |front|;
    if after < |raw| && raw[after] == '\n' {
      assert rest[0] == '\n';
      assert rest == "\n" + rest[1..];
      assert raw[after+1..] == rest[1..];
    } else {
      assert rest != "" ==> rest[0] != "\n"[0];
    }
  }

  lemma BlockOpens(raw: string) returns (front: string, rest: string)
    requires HasBlock(raw)
    ensures OpensWith(raw, front, rest)
  {
    var end := Find(raw, "\n---", 4);
    front, rest := raw[4..end], raw[end+4..];
    assert raw == raw[..4] + raw[4..end] + raw[end..end+4] + raw[end+4..];
  }

  /** Any other text is all content. */
  lemma ParseKeepsTheRest(raw: string)
    requires forall front, rest :: !OpensWith(raw, front, rest)
    ensures Parse(raw) == Rule([], raw)
  {
    if HasBlock(raw) {
      var front, rest := BlockOpens(raw);
      assert false;
    }
  }

  // ---------- the list of any front matter ----------

  predicate IsKey(line: string) {
    Strip(line) == "paths:"
  }

  predicate IsItem(line: string) {
    Strip(line) != "" && Strip(line)[0] == '-'
  }

  /** The list under line `j` reaches up to line `i`: between them there are only items and blank lines. */
  ghost predicate Reaches(lines: seq<string>, j: nat, i: nat) {
    && j < i <= |lines| && IsKey(lines[j])
    && forall k :: j < k < i ==> IsItem(lines[k]) || Strip(lines[k]) == ""
  }

  ghost predicate InList(lines: seq<string>, i: nat) {
    exists j: nat :: Reaches(lines, j, i)
  }

  /** Line `i` is an item of the list under some `paths:` key. */
  ghost predicate Listed(lines: seq<string>, i: nat) {
    i < |lines| && IsItem(lines[i]) && InList(lines, i)
  }

  /** The items listed, in order, each read as a path. */
  ghost predicate AreListed(lines: seq<string>, at: seq<nat>, paths: seq<string>) {
    && |paths| == |at| && Ascends(at)
    && (forall i: nat :: i in at <==> Listed(lines, i))
    && forall k :: 0 <= k < |at| ==> ReadsItem(lines, at[k], paths[k])
  }

  predicate ReadsItem(lines: seq<string>, i: nat, path: string) {
    i < |lines| && IsItem(lines[i]) && path == PathIn(Strip(lines[i]))
  }

  /** Whether the reader is inside a list after the lines. */
  function FlagAfter(lines: seq<string>, inPaths: bool): bool {
    if lines == [] then inPaths
    else
      var stripped := Strip(lines[0]);
      FlagAfter(lines[1..], stripped == "paths:" || (inPaths && (stripped == "" || stripped[0] == '-')))
  }

  function ReadLast(line: string, inPaths: bool): seq<string> {
    if inPaths && IsItem(line) then [PathIn(Strip(line))] else []
  }

  lemma KeyIsNoItem(line: string)
    ensures IsKey(line) ==> !IsItem(line) && Strip(line) != ""
  {
  }

  lemma {:induction false} ReadOneMore(lines: seq<string>, line: string, inPaths: bool)
    ensures PathsIn(lines + [line], inPaths) == PathsIn(lines, inPaths) + ReadLast(line, FlagAfter(lines, inPaths))
    ensures FlagAfter(lines + [line], inPaths)
         <==> IsKey(line) || (FlagAfter(lines, inPaths) && (Strip(line) == "" || IsItem(line)))
    decreases |lines|
  {
    KeyIsNoItem(line);
    if lines == [] {
      assert lines + [line] == [line];
      assert [line][1..] == [];
    } else {
      var stripped := Strip(lines[0]);
      assert (lines + [line])[1..] == lines[1..] + [line];
      ReadOneMore(lines[1..], line, stripped == "paths:" || (inPaths && (stripped == "" || stripped[0] == '-')));
    }
  }

  lemma ListOneMore(lines: seq<string>, line: string)
    ensures forall i: nat :: i <= |lines| ==> (InList(lines + [line], i) <==> InList(lines, i))
    ensures var longer := |lines| + 1;
            InList(lines + [line], longer) <==> IsKey(line) || (InList(lines, |lines|) && (Strip(line) == "" || IsItem(line)))
  {
    var lines', longer := lines + [line], |lines| + 1;
    KeyIsNoItem(line);
    forall i: nat | i <= |lines| ensures InList(lines', i) <==> InList(lines, i) {
      if j: nat :| Reaches(lines, j, i) { assert Reaches(lines', j, i); }
      if j: nat :| Reaches(lines', j, i) {
        assert forall k :: 0 <= k < i ==> lines'[k] == lines[k];
        assert Reaches(lines, j, i);
      }
    }
    if IsKey(line) {
      assert Reaches(lines', |lines|, longer);
    } else if j: nat :| Reaches(lines', j, |lines|) && (Strip(line) == "" || IsItem(line)) {
      assert Reaches(lines', j, longer);
    }
    if j: nat :| Reaches(lines', j, longer) {
      if j < |lines| { assert lines'[|lines|] == line; assert Reaches(lines', j, |lines|); }
    }
  }

  /** From any lines, the paths read are exactly the items listed under a `paths:` key, in order. */
  lemma {:induction false} ItemsAreRead(lines: seq<string>) returns (at: seq<nat>)
    ensures AreListed(lines, at, PathsIn(lines, false))
    ensures FlagAfter(lines, false) <==> InList(lines, |lines|)
    decreases |lines|
  {
    if lines == [] {
      at := [];
    } else {
      var front, last := lines[..|lines|-1], lines[|lines|-1];
      assert lines == front + [last];
      at := ItemsAreRead(front);
      ReadOneMore(front, last, false);
      ListOneMore(front, last);
      var listed := IsItem(last) && InList(front, |front|);
      OneMoreListed(front, last, at, PathsIn(front, false), listed);
      if listed { at := at + [|front|]; }
    }
  }

  lemma ListedOneMore(front: seq<string>, last: string, i: nat)
    requires forall k: nat :: k <= |front| ==> (InList(front + [last], k) <==> InList(front, k))
    ensures Listed(front + [last], i) <==> Listed(front, i) || (i == |front| && IsItem(last) && InList(front, i))
  {
    if i < |front| { assert (front + [last])[i] == front[i]; }
  }

  lemma OneMoreListed(front: seq<string>, last: string, at: seq<nat>, paths: seq<string>, listed: bool)
    requires AreListed(front, at, paths) && (listed <==> IsItem(last) && InList(front, |front|))
    requires forall i: nat :: i <= |front| ==> (InList(front + [last], i) <==> InList(front, i))
    ensures if listed then AreListed(front + [last], at + [|front|], paths + [PathIn(Strip(last))])
            else AreListed(front + [last], at, paths)
  {
    var lines, at' := front + [last], if listed then at + [|front|] else at;
    forall i: nat ensures i in at' <==> Listed(lines, i) { ListedOneMore(front, last, i); }
    forall k | 0 <= k < |at| ensures at[k] < |front| && ReadsItem(lines, at[k], paths[k]) {
      assert ReadsItem(front, at[k], paths[k]);
    }
  }

  // ---------- newlines ----------

  lemma ReturnIsRead(b: string)
    ensures Universal("\r\n" + b) == "\n" + Universal(b)
    ensures !("\n" <= b) ==> Universal("\r" + b) == "\n" + Universal(b)
  {
    assert ("\r\n" + b)[2..] == b && ("\r" + b)[1..] == b;
    if b != "" && b[0] == '\n' { assert "\n" <= b; }
  }

  /** Reading a file turns each carriage return, with the newline after it if there is one, into one newline. */
  lemma EachReturnIsOneNewline(a: string, b: string)
    requires '\r' !in a
    ensures Universal(a) == a
    ensures Universal(a + ("\r\n" + b)) == a + ("\n" + Universal(b))
    ensures !("\n" <= b) ==> Universal(a + ("\r" + b)) == a + ("\n" + Universal(b))
  {
    UniversalIsSame(a);
    ReturnIsRead(b);
    UniversalKeeps(a, "\r\n" + b);
    UniversalKeeps(a, "\r" + b);
  }
}
