/**
 Paged reading of a transcript: a file of newline-terminated records that may still be growing.

 A page is described by what it covers, not by how it is read; reading page after page is then shown
 to give the records of the complete lines, once each and in order.  Parsing one line is any function
 from the line to an optional record.
 */
module Transcript {
  import opened Wrappers

  newtype Byte = x: int | 0 <= x < 256

  const NEWLINE: Byte := 10

  /** Where the line that starts at `pos` ends: after its newline, or at the end of the file. */
  function LineEnd(s: seq<Byte>, pos: nat): (end: nat)
    requires pos <= |s|
    ensures pos <= end <= |s| && (pos < |s| ==> pos < end)
    ensures forall i :: pos <= i < end - 1 ==> s[i] != NEWLINE
    ensures end < |s| ==> s[end-1] == NEWLINE
    decreases |s| - pos
  {
    if pos == |s| then pos else if s[pos] == NEWLINE then pos + 1 else LineEnd(s, pos + 1)
  }

  /** A line boundary: the start of the file, or just after a newline. */
  predicate Boundary(s: seq<Byte>, c: int) {
    c == 0 || (0 < c <= |s| && s[c-1] == NEWLINE)
  }

  ghost predicate NoNewlineFrom(s: seq<Byte>, pos: nat) {
    forall i :: pos <= i < |s| ==> s[i] != NEWLINE
  }

  type Parser<!R> = seq<Byte> -> Option<R>

  // ---------- the complete lines of a file ----------

  function LinesBetween(s: seq<Byte>, a: nat, b: nat): seq<seq<Byte>>
    requires a <= |s|
    decreases |s| - a
  {
    if a >= b || a == |s| then []
    else [s[a..LineEnd(s, a)]] + LinesBetween(s, LineEnd(s, a), b)
  }

  function Parsed<R>(record: Option<R>): seq<R> {
    match record
    case Some(r) => [r]
    case None => []
  }

  function Records<R>(parse: Parser<R>, lines: seq<seq<Byte>>): seq<R> {
    if lines == [] then []
    else Parsed(parse(lines[0])) + Records(parse, lines[1..])
  }

  function RecordsBetween<R>(parse: Parser<R>, s: seq<Byte>, a: nat, b: nat): seq<R>
    requires a <= |s|
  {
    Records(parse, LinesBetween(s, a, b))
  }

  /** The offsets of the lines between `a` and `b` that do not parse. */
  function WarningsBetween<R>(parse: Parser<R>, s: seq<Byte>, a: nat, b: nat): seq<nat>
    requires a <= |s|
    decreases |s| - a
  {
    if a >= b || a == |s| then []
    else (if parse(s[a..LineEnd(s, a)]).None? then [a] else []) + WarningsBetween(parse, s, LineEnd(s, a), b)
  }

  function Join(lines: seq<seq<Byte>>): seq<Byte> {
    if lines == [] then [] else lines[0] + Join(lines[1..])
  }

  /** One line: a newline at its end and nowhere else. */
  ghost predicate IsLine(line: seq<Byte>) {
    line != [] && line[|line|-1] == NEWLINE && forall i :: 0 <= i < |line| - 1 ==> line[i] != NEWLINE
  }

  lemma NextBoundary(s: seq<Byte>, a: nat, b: nat)
    requires a < b && Boundary(s, b)
    ensures LineEnd(s, a) <= b && Boundary(s, LineEnd(s, a))
  {
    var e := LineEnd(s, a);
    assert e <= b;
    if e == |s| { assert b == e; }
  }

  /** The lines between two boundaries are lines and, joined, are exactly the bytes between them. */
  lemma {:induction false} LinesAreTheBytes(s: seq<Byte>, a: nat, b: nat)
    requires a <= b && Boundary(s, a) && Boundary(s, b)
    ensures Join(LinesBetween(s, a, b)) == s[a..b]
    ensures forall l :: l in LinesBetween(s, a, b) ==> IsLine(l)
    decreases b - a
  {
    if a == b {
    } else {
      var e := LineEnd(s, a);
      NextBoundary(s, a, b);
      LinesAreTheBytes(s, e, b);
      assert s[a..b] == s[a..e] + s[e..b];
      var line := s[a..e];
      assert forall i :: 0 <= i < |line| ==> line[i] == s[a+i];
      assert IsLine(line);
    }
  }

  lemma LinesAreNotEmpty(lines: seq<seq<Byte>>)
    requires forall l :: l in lines ==> IsLine(l)
    ensures Join(lines) == [] <==> lines == []
  {
    if lines != [] { assert IsLine(lines[0]); }
  }

  /** There is only one way to cut bytes into lines. */
  lemma {:induction false} CutIsUnique(xs: seq<seq<Byte>>, ys: seq<seq<Byte>>)
    requires Join(xs) == Join(ys)
    requires (forall l :: l in xs ==> IsLine(l)) && (forall l :: l in ys ==> IsLine(l))
    ensures xs == ys
  {
    LinesAreNotEmpty(xs);
    LinesAreNotEmpty(ys);
    if xs == [] {
    } else {
      var x, y, s := xs[0], ys[0], Join(xs);
      assert IsLine(x) && IsLine(y);
      assert s[..|x|] == x && s[..|y|] == y;
      FirstLineIsUnique(s, |x|, |y|);
      assert s[|x|..] == Join(xs[1..]) && s[|y|..] == Join(ys[1..]);
      CutIsUnique(xs[1..], ys[1..]);
      assert xs == [x] + xs[1..] && ys == [y] + ys[1..];
    }
  }

  lemma FirstLineIsUnique(s: seq<Byte>, m: nat, n: nat)
    requires m <= |s| && n <= |s| && IsLine(s[..m]) && IsLine(s[..n])
    ensures m == n
  {
    assert s[..m][m-1] == s[m-1] && s[..n][n-1] == s[n-1];
    assert forall i :: 0 <= i < m - 1 ==> s[..m][i] == s[i];
    assert forall i :: 0 <= i < n - 1 ==> s[..n][i] == s[i];
  }

  lemma {:induction false} LinesSplit(s: seq<Byte>, a: nat, b: nat, c: nat)
    requires a <= b <= c && Boundary(s, a) && Boundary(s, b) && Boundary(s, c)
    ensures LinesBetween(s, a, c) == LinesBetween(s, a, b) + LinesBetween(s, b, c)
    decreases b - a
  {
    if a == b {
    } else {
      NextBoundary(s, a, b);
      LinesSplit(s, LineEnd(s, a), b, c);
    }
  }

  lemma {:induction false} WarningsSplit<R>(parse: Parser<R>, s: seq<Byte>, a: nat, b: nat, c: nat)
    requires a <= b <= c && Boundary(s, a) && Boundary(s, b) && Boundary(s, c)
    ensures WarningsBetween(parse, s, a, c) == WarningsBetween(parse, s, a, b) + WarningsBetween(parse, s, b, c)
    decreases b - a
  {
    if a == b {
    } else {
      NextBoundary(s, a, b);
      WarningsSplit(parse, s, LineEnd(s, a), b, c);
    }
  }

  lemma {:induction false} RecordsConcat<R>(parse: Parser<R>, xs: seq<seq<Byte>>, ys: seq<seq<Byte>>)
    ensures Records(parse, xs + ys) == Records(parse, xs) + Records(parse, ys)
  {
    if xs == [] {
      assert xs + ys == ys;
    } else {
      var first, rest := Parsed(parse(xs[0])), xs[1..];
      assert (xs + ys)[0] == xs[0] && (xs + ys)[1..] == rest + ys;
      calc {
        Records(parse, xs + ys);
        first + Records(parse, rest + ys);
        { RecordsConcat(parse, rest, ys); }
        first + (Records(parse, rest) + Records(parse, ys));
        (first + Records(parse, rest)) + Records(parse, ys);
      }
    }
  }

  lemma RecordsSplit<R>(parse: Parser<R>, s: seq<Byte>, a: nat, b: nat, c: nat)
    requires a <= b <= c && Boundary(s, a) && Boundary(s, b) && Boundary(s, c)
    ensures RecordsBetween(parse, s, a, c) == RecordsBetween(parse, s, a, b) + RecordsBetween(parse, s, b, c)
  {
    LinesSplit(s, a, b, c);
    RecordsConcat(parse, LinesBetween(s, a, b), LinesBetween(s, b, c));
  }

  lemma LineSurvivesGrowth(s: seq<Byte>, t: seq<Byte>, a: nat, b: nat)
    requires s <= t && a < b && Boundary(s, b)
    ensures LineEnd(t, a) == LineEnd(s, a) && t[a..LineEnd(t, a)] == s[a..LineEnd(s, a)]
  {
    var e := LineEnd(s, a);
    NextBoundary(s, a, b);
    assert Boundary(t, e);
    NextBoundary(t, a, e);
    var f := LineEnd(t, a);
    assert s[f-1] == t[f-1];
    assert f == e;
    assert t[a..e] == s[a..e];
  }

  /** Appending to a file changes none of the lines already complete. */
  lemma {:induction false} LinesSurviveGrowth(s: seq<Byte>, t: seq<Byte>, a: nat, b: nat)
    requires s <= t && a <= b && Boundary(s, b)
    ensures LinesBetween(t, a, b) == LinesBetween(s, a, b)
    decreases b - a
  {
    if a == b {
    } else {
      LineSurvivesGrowth(s, t, a, b);
      NextBoundary(s, a, b);
      LinesSurviveGrowth(s, t, LineEnd(s, a), b);
    }
  }

  // ---------- one page ----------

  datatype Page<R> = Page(records: seq<R>, nextCursor: nat, hasMore: bool, incompleteTail: bool, warnings: seq<nat>)

  datatype Error = BadLimit | NegativeCursor | CursorBeyondEnd | CursorOffBoundary

  /** The records and warnings are those of the whole lines between the two offsets. */
  ghost predicate Covers<R>(parse: Parser<R>, s: seq<Byte>, cursor: nat, next: nat, records: seq<R>, warnings: seq<nat>)
    requires cursor <= |s|
  {
    && cursor <= next && Boundary(s, next)
    && records == RecordsBetween(parse, s, cursor, next)
    && warnings == WarningsBetween(parse, s, cursor, next)
  }

  /** At no boundary before `next` are there `limit` records yet. */
  ghost predicate NotEnoughBefore<R>(parse: Parser<R>, s: seq<Byte>, cursor: nat, next: nat, limit: nat)
    requires cursor <= |s|
  {
    forall c: nat :: cursor <= c < next && Boundary(s, c) ==> |RecordsBetween(parse, s, cursor, c)| < limit
  }

  /**
   The page of at most `limit` records from `cursor` of a file with bytes `s` whose size was taken as
   `size`: it covers whole lines up to the first boundary with enough records, or all complete lines.
   */
  ghost predicate IsPage<R>(parse: Parser<R>, s: seq<Byte>, size: nat, cursor: nat, limit: nat, p: Page<R>)
    requires cursor <= |s|
  {
    && Covers(parse, s, cursor, p.nextCursor, p.records, p.warnings)
    && |p.records| <= limit
    && NotEnoughBefore(parse, s, cursor, p.nextCursor, limit)
    && (|p.records| < limit ==> NoNewlineFrom(s, p.nextCursor))
    && (p.incompleteTail <==> |p.records| < limit && p.nextCursor < |s|)
    && (p.hasMore <==> p.nextCursor < size && !p.incompleteTail)
  }

  /** The description leaves no choice. */
  lemma PageIsUnique<R>(parse: Parser<R>, s: seq<Byte>, size: nat, cursor: nat, limit: nat, p: Page<R>, q: Page<R>)
    requires Boundary(s, cursor)
    requires IsPage(parse, s, size, cursor, limit, p) && IsPage(parse, s, size, cursor, limit, q)
    ensures p == q
  {
    assert p.nextCursor == q.nextCursor;
  }

  /**
   A page with more to come has moved the cursor, except in one case: the file was cut to exactly the
   cursor after its size was taken.
   */
  lemma MoreMeansProgress<R>(parse: Parser<R>, s: seq<Byte>, size: nat, cursor: nat, limit: nat, p: Page<R>)
    requires limit > 0 && Boundary(s, cursor) && IsPage(parse, s, size, cursor, limit, p)
    ensures p.hasMore && p.nextCursor == cursor <==> cursor == |s| < size
  {
    if cursor == |s| {
      assert p.nextCursor == cursor;
    }
  }

  /** A file of one byte that was emptied before it was read: more is promised and the cursor stays. */
  lemma EmptiedFileStalls<R>(parse: Parser<R>, limit: nat)
    requires limit > 0
    ensures IsPage(parse, [], 1, 0, limit, Page([], 0, true, false, []))
  {
    assert LinesBetween([], 0, 0) == [];
    assert RecordsBetween(parse, [], 0, 0) == [];
  }

  class BinaryFile {
    const content: seq<Byte>
    var pos: nat

    constructor (content: seq<Byte>)
      ensures this.content == content && pos == 0
    {
      this.content, pos := content, 0;
    }

    method Seek(offset: nat)
      modifies this
      ensures pos == offset
    {
      pos := offset;
    }

    /** At most one byte, none at the end. */
    method ReadOne() returns (data: seq<Byte>)
      modifies this
      ensures if old(pos) < |content| then data == [content[old(pos)]] && pos == old(pos) + 1
              else data == [] && pos == old(pos)
    {
      if pos < |content| {
        data, pos := [content[pos]], pos + 1;
      } else {
        data := [];
      }
    }

    method ReadLine() returns (line: seq<Byte>)
      modifies this
      ensures if old(pos) < |content| then pos == LineEnd(content, old(pos)) && line == content[old(pos)..pos]
              else line == [] && pos == old(pos)
    {
      line := [];
      if pos < |content| {
        var end := LineEnd(content, pos);
        line, pos := content[pos..end], end;
      }
    }
  }

  method ValidateCursor(file: BinaryFile, cursor: nat) returns (ok: bool)
    modifies file
    ensures ok <==> cursor == 0 || (cursor <= |file.content| && file.content[cursor-1] == NEWLINE)
  {
    if cursor == 0 {
      return true;
    }
    file.Seek(cursor - 1);
    var data := file.ReadOne();
    return data == [NEWLINE];
  }

  method ReadPage<R>(parse: Parser<R>, file: BinaryFile, cursor: nat, limit: nat, size: nat) returns (page: Page<R>)
    requires Boundary(file.content, cursor)
    modifies file
    ensures IsPage(parse, file.content, size, cursor, limit, page)
  {
    var s := file.content;
    var records: seq<R>, warnings: seq<nat>, incompleteTail := [], [], false;
    file.Seek(cursor);
    var nextCursor := cursor;
    while |records| < limit
      invariant file.pos == nextCursor && !incompleteTail
      invariant Covers(parse, s, cursor, nextCursor, records, warnings)
      invariant |records| <= limit
      invariant NotEnoughBefore(parse, s, cursor, nextCursor, limit)
      decreases |s| - nextCursor
    {
      var lineOffset := file.pos;
      var line := file.ReadLine();
      if line == [] {
        break;
      }
      if line[|line|-1] != NEWLINE {
        incompleteTail := true;
        break;
      }
      OneMoreLine(parse, s, cursor, lineOffset, records, warnings);
      StillNotEnough(parse, s, cursor, lineOffset, limit);
      nextCursor := file.pos;
      match parse(line) {
        case None => warnings := warnings + [lineOffset];
        case Some(value) => records := records + [value];
      }
    }
    page := Page(records, nextCursor, nextCursor < size && !incompleteTail, incompleteTail, warnings);
  }

  lemma OneMoreRecord<R>(parse: Parser<R>, s: seq<Byte>, cursor: nat, at: nat)
    requires cursor <= at < |s| && Boundary(s, cursor) && Boundary(s, at) && s[LineEnd(s, at)-1] == NEWLINE
    ensures RecordsBetween(parse, s, cursor, LineEnd(s, at))
         == RecordsBetween(parse, s, cursor, at) + Parsed(parse(s[at..LineEnd(s, at)]))
  {
    var e := LineEnd(s, at);
    RecordsSplit(parse, s, cursor, at, e);
    assert LinesBetween(s, at, e) == [s[at..e]];
    assert [s[at..e]][1..] == [];
    assert Records(parse, [s[at..e]]) == Parsed(parse(s[at..e])) + Records(parse, []);
  }

  lemma OneMoreWarning<R>(parse: Parser<R>, s: seq<Byte>, cursor: nat, at: nat)
    requires cursor <= at < |s| && Boundary(s, cursor) && Boundary(s, at) && s[LineEnd(s, at)-1] == NEWLINE
    ensures WarningsBetween(parse, s, cursor, LineEnd(s, at))
         == WarningsBetween(parse, s, cursor, at) + (if parse(s[at..LineEnd(s, at)]).None? then [at] else [])
  {
    var e := LineEnd(s, at);
    WarningsSplit(parse, s, cursor, at, e);
    assert WarningsBetween(parse, s, e, e) == [];
  }

  lemma OneMoreLine<R>(parse: Parser<R>, s: seq<Byte>, cursor: nat, at: nat, records: seq<R>, warnings: seq<nat>)
    requires at < |s| && Boundary(s, cursor) && Boundary(s, at) && s[LineEnd(s, at)-1] == NEWLINE
    requires cursor <= at && Covers(parse, s, cursor, at, records, warnings)
    ensures var record := parse(s[at..LineEnd(s, at)]);
            Covers(parse, s, cursor, LineEnd(s, at), records + Parsed(record), warnings + (if record.None? then [at] else []))
  {
    OneMoreRecord(parse, s, cursor, at);
    OneMoreWarning(parse, s, cursor, at);
  }

  lemma StillNotEnough<R>(parse: Parser<R>, s: seq<Byte>, cursor: nat, at: nat, limit: nat)
    requires cursor <= at < |s| && NotEnoughBefore(parse, s, cursor, at, limit)
    requires |RecordsBetween(parse, s, cursor, at)| < limit
    ensures NotEnoughBefore(parse, s, cursor, LineEnd(s, at), limit)
  {
  }

  method Read<R>(parse: Parser<R>, content: seq<Byte>, size: nat, cursor: int, limit: int)
    returns (r: Result<Page<R>, Error>)
    ensures limit <= 0 ==> r == Failure(BadLimit)
    ensures limit > 0 && cursor < 0 ==> r == Failure(NegativeCursor)
    ensures limit > 0 && cursor > size && cursor >= 0 ==> r == Failure(CursorBeyondEnd)
    ensures limit > 0 && 0 <= cursor <= size && !Boundary(content, cursor) ==> r == Failure(CursorOffBoundary)
    ensures limit > 0 && 0 <= cursor <= size && Boundary(content, cursor) ==>
              r.Success? && IsPage(parse, content, size, cursor, limit, r.value)
  {
    if limit <= 0 {
      return Failure(BadLimit);
    }
    if cursor < 0 {
      return Failure(NegativeCursor);
    }
    var file := new BinaryFile(content);
    if cursor > size {
      return Failure(CursorBeyondEnd);
    }
    var ok := ValidateCursor(file, cursor);
    if !ok {
      return Failure(CursorOffBoundary);
    }
    var page := ReadPage(parse, file, cursor, limit, size);
    return Success(page);
  }

  // ---------- page after page ----------

  function LastBoundary(s: seq<Byte>): (b: nat)
    ensures Boundary(s, b) && NoNewlineFrom(s, b)
  {
    if s == [] || s[|s|-1] == NEWLINE then |s| else LastBoundary(s[..|s|-1])
  }

  lemma LastBoundaryIsUnique(s: seq<Byte>, b: nat)
    requires Boundary(s, b) && NoNewlineFrom(s, b)
    ensures b == LastBoundary(s)
  {
    assert b <= LastBoundary(s) && LastBoundary(s) <= b;
  }

  /** The records of every complete line of the file, read in one go. */
  function AllRecords<R>(parse: Parser<R>, s: seq<Byte>): seq<R> {
    RecordsBetween(parse, s, 0, LastBoundary(s))
  }

  /** One reading of the file during a paged read: its bytes and the size taken just before. */
  datatype Snapshot = Snapshot(content: seq<Byte>, size: nat)

  ghost predicate Grows(before: Snapshot, now: Snapshot) {
    before.content <= now.content && |before.content| <= now.size
  }

  function CursorOf<R>(pages: seq<Page<R>>, i: nat): nat
    requires i < |pages|
  {
    if i == 0 then 0 else pages[i-1].nextCursor
  }

  /** Page `i` starts where the one before stopped and had more, in a file that has only grown since. */
  ghost predicate PageFollows<R>(parse: Parser<R>, limit: nat, files: seq<Snapshot>, pages: seq<Page<R>>, i: nat)
    requires i < |files| == |pages|
  {
    && files[i].size <= |files[i].content|
    && CursorOf(pages, i) <= |files[i].content|
    && IsPage(parse, files[i].content, files[i].size, CursorOf(pages, i), limit, pages[i])
    && (i > 0 ==> Grows(files[i-1], files[i]) && pages[i-1].hasMore)
  }

  ghost predicate IsSession<R>(parse: Parser<R>, limit: nat, files: seq<Snapshot>, pages: seq<Page<R>>) {
    && |files| == |pages|
    && forall i: nat :: i < |pages| ==> PageFollows(parse, limit, files, pages, i)
  }

  function RecordsOf<R>(pages: seq<Page<R>>): seq<R> {
    if pages == [] then [] else RecordsOf(pages[..|pages|-1]) + pages[|pages|-1].records
  }

  /** While the file only grows, every cursor handed from page to page is accepted by the reader. */
  lemma CursorsAreAccepted<R>(parse: Parser<R>, limit: nat, files: seq<Snapshot>, pages: seq<Page<R>>, i: nat)
    requires IsSession(parse, limit, files, pages) && i < |pages|
    ensures CursorOf(pages, i) <= files[i].size && Boundary(files[i].content, CursorOf(pages, i))
  {
    if i > 0 {
      assert PageFollows(parse, limit, files, pages, i);
      assert PageFollows(parse, limit, files, pages, i - 1);
    }
  }

  /** Every page but the last moves the cursor. */
  lemma CursorsAdvance<R>(parse: Parser<R>, limit: nat, files: seq<Snapshot>, pages: seq<Page<R>>, i: nat)
    requires limit > 0 && IsSession(parse, limit, files, pages) && i + 1 < |pages|
    ensures CursorOf(pages, i) < CursorOf(pages, i + 1)
  {
    CursorsAreAccepted(parse, limit, files, pages, i);
    assert PageFollows(parse, limit, files, pages, i);
    assert PageFollows(parse, limit, files, pages, i + 1);
    MoreMeansProgress(parse, files[i].content, files[i].size, CursorOf(pages, i), limit, pages[i]);
  }

  /**
   Whatever was appended meanwhile, the pages up to any one are the records of the lines, in the file
   that one saw, up to a line boundary: none skipped, none twice, none cut.
   */
  lemma {:induction false} PagesAreAPrefix<R>(
      parse: Parser<R>, limit: nat, files: seq<Snapshot>, pages: seq<Page<R>>, n: nat)
    requires IsSession(parse, limit, files, pages) && n < |pages|
    ensures Boundary(files[n].content, pages[n].nextCursor)
    ensures RecordsOf(pages[..n+1]) == RecordsBetween(parse, files[n].content, 0, pages[n].nextCursor)
  {
    assert PageFollows(parse, limit, files, pages, n);
    assert pages[..n+1][..n] == pages[..n];
    if n == 0 {
    } else {
      PagesAreAPrefix(parse, limit, files, pages, n - 1);
      CursorsAreAccepted(parse, limit, files, pages, n);
      OneMorePage(parse, files[n-1].content, files[n].content, CursorOf(pages, n), pages[n].nextCursor);
    }
  }

  lemma OneMorePage<R>(parse: Parser<R>, before: seq<Byte>, s: seq<Byte>, cursor: nat, next: nat)
    requires before <= s && cursor <= next && Boundary(before, cursor) && Boundary(s, next)
    ensures RecordsBetween(parse, before, 0, cursor) + RecordsBetween(parse, s, cursor, next)
         == RecordsBetween(parse, s, 0, next)
  {
    LinesSurviveGrowth(before, s, 0, cursor);
    RecordsSplit(parse, s, 0, cursor, next);
  }

  /** A session that has come to its end has read every complete line its last size covered. */
  lemma FinishedSessionReachedTheEnd<R>(parse: Parser<R>, limit: nat, files: seq<Snapshot>, pages: seq<Page<R>>)
    requires IsSession(parse, limit, files, pages) && pages != [] && !pages[|pages|-1].hasMore
    ensures var last := files[|files|-1];
            last.size <= |last.content| && LastBoundary(last.content[..last.size]) <= pages[|pages|-1].nextCursor
  {
    var n := |pages| - 1;
    var last := files[n];
    assert PageFollows(parse, limit, files, pages, n);
    var b := LastBoundary(last.content[..last.size]);
    assert Boundary(last.content, b);
    assert pages[n].nextCursor >= last.size || NoNewlineFrom(last.content, pages[n].nextCursor);
  }

  /** If the file had stopped growing by the last page, that is every complete line of the file. */
  lemma FinishedSessionIsComplete<R>(parse: Parser<R>, limit: nat, files: seq<Snapshot>, pages: seq<Page<R>>)
    requires IsSession(parse, limit, files, pages) && pages != [] && !pages[|pages|-1].hasMore
    requires files[|files|-1].size == |files[|files|-1].content|
    ensures RecordsOf(pages) == AllRecords(parse, files[|files|-1].content)
  {
    var n := |pages| - 1;
    var s := files[n].content;
    assert pages[n].nextCursor == LastBoundary(s) by {
      assert PageFollows(parse, limit, files, pages, n);
      LastPageEndsAtTheEnd(parse, s, CursorOf(pages, n), limit, pages[n]);
    }
    PagesAreAPrefix(parse, limit, files, pages, n);
    assert pages[..n+1] == pages;
  }

  lemma LastPageEndsAtTheEnd<R>(parse: Parser<R>, s: seq<Byte>, cursor: nat, limit: nat, p: Page<R>)
    requires cursor <= |s| && IsPage(parse, s, |s|, cursor, limit, p) && !p.hasMore
    ensures p.nextCursor == LastBoundary(s)
  {
    assert NoNewlineFrom(s, p.nextCursor);
    LastBoundaryIsUnique(s, p.nextCursor);
  }

  /** The reading loop over a file that does not change: it ends, without an error, with all its records. */
  method ReadAllRecords<R>(parse: Parser<R>, content: seq<Byte>, limit: nat) returns (all: seq<R>)
    requires limit > 0
    ensures all == AllRecords(parse, content)
  {
    all := [];
    var cursor := 0;
    assert LinesBetween(content, 0, 0) == [];
    while true
      invariant cursor <= |content| && Boundary(content, cursor)
      invariant all == RecordsBetween(parse, content, 0, cursor)
      decreases |content| - cursor
    {
      var r := Read(parse, content, |content|, cursor, limit);
      assert r.Success?;
      var page := r.value;
      if page.hasMore {
        MoreMeansProgress(parse, content, |content|, cursor, limit, page);
      } else {
        LastPageEndsAtTheEnd(parse, content, cursor, limit, page);
      }
      RecordsSplit(parse, content, 0, cursor, page.nextCursor);
      all := all + page.records;
      cursor := page.nextCursor;
      if !page.hasMore {
        break;
      }
    }
  }
}
