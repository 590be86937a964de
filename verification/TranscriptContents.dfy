/**
 What a page and a full read hold, line by line: one record for each complete line that parses and one
 warning for each that does not.
 */
module TranscriptContents {
  import opened Wrappers
  import opened Sequences
  import opened Transcript

  /** The line boundaries from `a` to `b`, in order: line `k` lies between `bounds[k]` and `bounds[k+1]`. */
  ghost predicate AreBounds(s: seq<Byte>, a: nat, b: nat, bounds: seq<nat>) {
    && bounds != [] && bounds[0] == a && bounds[|bounds|-1] == b <= |s| && Ascends(bounds)
    && forall c: nat :: c in bounds <==> a <= c <= b && Boundary(s, c)
  }

  /** What parsing makes of line `k`. */
  function LineValue<R>(parse: Parser<R>, s: seq<Byte>, bounds: seq<nat>, k: nat): Option<R>
    requires k + 1 < |bounds| && bounds[k] <= bounds[k+1] <= |s|
  {
    parse(s[bounds[k]..bounds[k+1]])
  }

  ghost predicate IsRead<R>(parse: Parser<R>, s: seq<Byte>, bounds: seq<nat>, k: nat) {
    k + 1 < |bounds| && bounds[k] <= bounds[k+1] <= |s| && LineValue(parse, s, bounds, k).Some?
  }

  ghost predicate IsBad<R>(parse: Parser<R>, s: seq<Byte>, bounds: seq<nat>, k: nat) {
    k + 1 < |bounds| && bounds[k] <= bounds[k+1] <= |s| && LineValue(parse, s, bounds, k).None?
  }

  /** `good` lists the lines that parse, in order, and the records are their values. */
  ghost predicate AreRecords<R>(parse: Parser<R>, s: seq<Byte>, bounds: seq<nat>, good: seq<nat>, records: seq<R>) {
    && |records| == |good| && Ascends(good)
    && (forall k: nat :: k in good <==> IsRead(parse, s, bounds, k))
    && forall j :: 0 <= j < |good| ==> good[j] in good && Some(records[j]) == LineValue(parse, s, bounds, good[j])
  }

  /** `bad` lists the lines that do not, in order, and the warnings are their offsets. */
  ghost predicate AreWarnings<R>(parse: Parser<R>, s: seq<Byte>, bounds: seq<nat>, bad: seq<nat>, warnings: seq<nat>) {
    && |warnings| == |bad| && Ascends(bad)
    && (forall k: nat :: k in bad <==> IsBad(parse, s, bounds, k))
    && forall j :: 0 <= j < |bad| ==> bad[j] in bad && warnings[j] == bounds[bad[j]]
  }

  /** The boundary before the boundary `b`: a line ends at `b` that starts there. */
  lemma LineBefore(s: seq<Byte>, a: nat, b: nat) returns (at: nat)
    requires a < b && Boundary(s, a) && Boundary(s, b)
    ensures a <= at < b && Boundary(s, at) && LineEnd(s, at) == b
    ensures forall c: nat :: at < c < b ==> !Boundary(s, c)
  {
    var front := s[..b-1];
    at := LastBoundary(front);
    assert Boundary(front, a);
    NextBoundary(s, at, b);
    assert forall i :: at <= i < b - 1 ==> front[i] == s[i];
  }

  lemma BoundsSnoc(s: seq<Byte>, a: nat, at: nat, b: nat, bounds: seq<nat>)
    requires AreBounds(s, a, at, bounds) && at < b && Boundary(s, b)
    requires forall c: nat :: at < c < b ==> !Boundary(s, c)
    ensures AreBounds(s, a, b, bounds + [b])
  {
    forall k | 0 <= k < |bounds| ensures bounds[k] <= at { }
  }

  lemma LinesSnoc<R>(parse: Parser<R>, s: seq<Byte>, bounds: seq<nat>, b: nat)
    requires bounds != [] && bounds[|bounds|-1] <= b <= |s|
    ensures var n, bounds' := |bounds| - 1, bounds + [b];
            && (forall k: nat :: IsRead(parse, s, bounds', k) <==>
                  IsRead(parse, s, bounds, k) || (k == n && parse(s[bounds[n]..b]).Some?))
            && (forall k: nat :: IsBad(parse, s, bounds', k) <==>
                  IsBad(parse, s, bounds, k) || (k == n && parse(s[bounds[n]..b]).None?))
  {
  }

  lemma RecordsSnoc<R>(parse: Parser<R>, s: seq<Byte>, bounds: seq<nat>, good: seq<nat>, records: seq<R>, b: nat)
    requires bounds != [] && bounds[|bounds|-1] <= b <= |s| && AreRecords(parse, s, bounds, good, records)
    ensures var n, record := |bounds| - 1, parse(s[bounds[|bounds|-1]..b]);
            if record.Some? then AreRecords(parse, s, bounds + [b], good + [n], records + [record.value])
            else AreRecords(parse, s, bounds + [b], good, records)
  {
    LinesSnoc(parse, s, bounds, b);
    forall j | 0 <= j < |good| ensures good[j] < |bounds| - 1 { assert IsRead(parse, s, bounds, good[j]); }
  }

  lemma WarningsSnoc<R>(parse: Parser<R>, s: seq<Byte>, bounds: seq<nat>, bad: seq<nat>, warnings: seq<nat>, b: nat)
    requires bounds != [] && bounds[|bounds|-1] <= b <= |s| && AreWarnings(parse, s, bounds, bad, warnings)
    ensures var n, at := |bounds| - 1, bounds[|bounds|-1];
            if parse(s[at..b]).None? then AreWarnings(parse, s, bounds + [b], bad + [n], warnings + [at])
            else AreWarnings(parse, s, bounds + [b], bad, warnings)
  {
    LinesSnoc(parse, s, bounds, b);
    forall j | 0 <= j < |bad| ensures bad[j] < |bounds| - 1 { assert IsBad(parse, s, bounds, bad[j]); }
  }

  /** What a stretch between two boundaries holds, line by line. */
  ghost predicate Tells<R>(
      parse: Parser<R>, s: seq<Byte>, a: nat, b: nat, records: seq<R>, warnings: seq<nat>,
      bounds: seq<nat>, good: seq<nat>, bad: seq<nat>)
  {
    && AreBounds(s, a, b, bounds)
    && AreRecords(parse, s, bounds, good, records) && AreWarnings(parse, s, bounds, bad, warnings)
    && |records| + |warnings| == |bounds| - 1
  }

  lemma OneMoreTold<R>(
      parse: Parser<R>, s: seq<Byte>, a: nat, at: nat, b: nat, records: seq<R>, warnings: seq<nat>,
      bounds: seq<nat>, good: seq<nat>, bad: seq<nat>)
    requires at < b && Boundary(s, b) && Tells(parse, s, a, at, records, warnings, bounds, good, bad)
    requires forall c: nat :: at < c < b ==> !Boundary(s, c)
    ensures var n, record := |bounds| - 1, parse(s[at..b]);
            if record.Some? then Tells(parse, s, a, b, records + [record.value], warnings, bounds + [b], good + [n], bad)
            else Tells(parse, s, a, b, records, warnings + [at], bounds + [b], good, bad + [n])
  {
    BoundsSnoc(s, a, at, b, bounds);
    RecordsSnoc(parse, s, bounds, good, records, b);
    WarningsSnoc(parse, s, bounds, bad, warnings, b);
  }

  /**
   Between two boundaries, record `j` is the value of the `j`-th line that parses, the warnings are the
   offsets of the lines that do not, and together they are as many as the lines.
   */
  lemma {:induction false} EveryLineIsTold<R>(parse: Parser<R>, s: seq<Byte>, a: nat, b: nat)
    returns (bounds: seq<nat>, good: seq<nat>, bad: seq<nat>)
    requires a <= b && Boundary(s, a) && Boundary(s, b)
    ensures Tells(parse, s, a, b, RecordsBetween(parse, s, a, b), WarningsBetween(parse, s, a, b), bounds, good, bad)
    decreases b - a
  {
    if a == b {
      bounds, good, bad := [a], [], [];
      assert LinesBetween(s, a, a) == [];
    } else {
      var at := LineBefore(s, a, b);
      bounds, good, bad := EveryLineIsTold(parse, s, a, at);
      OneMoreRecord(parse, s, a, at);
      OneMoreWarning(parse, s, a, at);
      OneMoreTold(parse, s, a, at, b, RecordsBetween(parse, s, a, at), WarningsBetween(parse, s, a, at), bounds, good, bad);
      if parse(s[at..b]).Some? { good := good + [|bounds| - 1]; } else { bad := bad + [|bounds| - 1]; }
      bounds := bounds + [b];
    }
  }

  /** A page tells every complete line from its cursor to the next one. */
  lemma PageTellsEveryLine<R>(parse: Parser<R>, s: seq<Byte>, size: nat, cursor: nat, limit: nat, p: Page<R>)
    returns (bounds: seq<nat>, good: seq<nat>, bad: seq<nat>)
    requires Boundary(s, cursor) && IsPage(parse, s, size, cursor, limit, p)
    ensures AreBounds(s, cursor, p.nextCursor, bounds)
    ensures AreRecords(parse, s, bounds, good, p.records) && AreWarnings(parse, s, bounds, bad, p.warnings)
    ensures |p.records| + |p.warnings| == |bounds| - 1
  {
    bounds, good, bad := EveryLineIsTold(parse, s, cursor, p.nextCursor);
  }

  /** A full read tells every complete line of the file. */
  lemma AllRecordsTellEveryLine<R>(parse: Parser<R>, s: seq<Byte>) returns (bounds: seq<nat>, good: seq<nat>)
    ensures AreBounds(s, 0, LastBoundary(s), bounds) && NoNewlineFrom(s, LastBoundary(s))
    ensures AreRecords(parse, s, bounds, good, AllRecords(parse, s))
  {
    var bad;
    bounds, good, bad := EveryLineIsTold(parse, s, 0, LastBoundary(s));
  }
}
