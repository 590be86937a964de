/**
 The conversation sent to a chat channel in chunks: the loop that fills a chunk until the next entry
 would overflow it, and why no other way of cutting the entries in order needs fewer messages.
 */
module ContextChunks {
  import opened Wrappers
  import opened Sequences

  type Entries = seq<string>

  const MAX_CHUNK: nat := 1500

  const SEPARATOR := "\n\n---\n\n"

  const HEADING := "[Context Sync]\n\n"

  /** One message sent out, with the index that makes its idempotency key. */
  datatype Post = Post(index: nat, text: string)

  datatype Summary = Summary(synced: nat, failed: nat)

  datatype Error = SyncFailed(failed: nat)

  function Total(entries: Entries): nat {
    if entries == [] then 0 else Total(entries[..|entries|-1]) + |entries[|entries|-1]|
  }

  function Join(texts: seq<string>): string {
    if texts == [] then ""
    else if |texts| == 1 then texts[0]
    else texts[0] + SEPARATOR + Join(texts[1..])
  }

  function Concat(chunks: seq<Entries>): Entries {
    if chunks == [] then [] else Concat(chunks[..|chunks|-1]) + chunks[|chunks|-1]
  }

  // ---------- ways to cut the entries ----------

  /** A chunk that may be sent: one entry of any length, or several that together fit. */
  ghost predicate Sendable(chunk: Entries) {
    chunk != [] && (|chunk| == 1 || Total(chunk) <= MAX_CHUNK)
  }

  ghost predicate IsSplit(chunks: seq<Entries>, entries: Entries) {
    Concat(chunks) == entries && forall i :: 0 <= i < |chunks| ==> Sendable(chunks[i])
  }

  /** The first entry of chunk `i` had no room in the one before. */
  ghost predicate NoRoomBefore(chunks: seq<Entries>, i: int)
    requires 0 < i < |chunks|
  {
    chunks[i] != [] && Total(chunks[i-1]) + |chunks[i][0]| > MAX_CHUNK
  }

  ghost predicate Greedy(chunks: seq<Entries>) {
    forall i :: 0 < i < |chunks| ==> NoRoomBefore(chunks, i)
  }

  ghost predicate IsGreedySplit(chunks: seq<Entries>, entries: Entries) {
    IsSplit(chunks, entries) && Greedy(chunks)
  }

  /** How many entries the first `k` chunks hold. */
  function Held(chunks: seq<Entries>, k: nat): nat
    requires k <= |chunks|
  {
    |Concat(chunks[..k])|
  }

  lemma HeldGrows(chunks: seq<Entries>, k: nat)
    requires k < |chunks|
    ensures Held(chunks, k + 1) == Held(chunks, k) + |chunks[k]|
  {
    assert chunks[..k+1][..k] == chunks[..k];
  }

  lemma {:induction false} ConcatStarts(chunks: seq<Entries>, k: nat)
    requires k <= |chunks|
    ensures Concat(chunks[..k]) <= Concat(chunks)
  {
    if k < |chunks| {
      var front := chunks[..|chunks|-1];
      assert front[..k] == chunks[..k];
      ConcatStarts(front, k);
    } else {
      assert chunks[..k] == chunks;
    }
  }

  lemma ConcatSnoc(chunks: seq<Entries>, k: nat)
    requires k < |chunks|
    ensures Concat(chunks[..k+1]) == Concat(chunks[..k]) + chunks[k]
  {
    var front := chunks[..k+1];
    assert front[..k] == chunks[..k] && front[k] == chunks[k];
  }

  /** Each chunk is the stretch of entries between two counts. */
  lemma ChunkIsStretch(chunks: seq<Entries>, entries: Entries, k: nat)
    requires Concat(chunks) == entries && k < |chunks|
    ensures Held(chunks, k) <= Held(chunks, k + 1) <= |entries|
    ensures chunks[k] == entries[Held(chunks, k)..Held(chunks, k + 1)]
  {
    ConcatStarts(chunks, k + 1);
    ConcatSnoc(chunks, k);
    var before, upTo := Concat(chunks[..k]), Concat(chunks[..k+1]);
    assert entries[..|upTo|] == upTo;
    assert upTo[|before|..] == chunks[k];
  }

  lemma {:induction false} TotalConcat(a: Entries, b: Entries)
    ensures Total(a + b) == Total(a) + Total(b)
  {
    if b == [] {
      assert a + b == a;
    } else {
      TotalConcat(a, b[..|b|-1]);
      assert (a + b)[..|a + b| - 1] == a + b[..|b|-1];
    }
  }

  lemma StretchWithin(entries: Entries, a: nat, b: nat, c: nat, d: nat)
    requires a <= b <= c <= d <= |entries|
    ensures Total(entries[b..c]) <= Total(entries[a..d])
  {
    assert entries[a..d] == entries[a..b] + (entries[b..c] + entries[c..d]);
    TotalConcat(entries[a..b], entries[b..c] + entries[c..d]);
    TotalConcat(entries[b..c], entries[c..d]);
  }

  /** A greedy chunk and the entry after it do not fit together. */
  lemma GreedyIsFull(entries: Entries, greedy: seq<Entries>, k: nat)
    requires IsGreedySplit(greedy, entries) && k + 1 < |greedy|
    ensures Held(greedy, k) < Held(greedy, k + 1) < |entries|
    ensures Total(entries[Held(greedy, k)..Held(greedy, k + 1) + 1]) > MAX_CHUNK
  {
    var b, c := Held(greedy, k), Held(greedy, k + 1);
    ChunkIsStretch(greedy, entries, k);
    ChunkIsStretch(greedy, entries, k + 1);
    HeldGrows(greedy, k + 1);
    HeldGrows(greedy, k);
    assert Sendable(greedy[k]) && NoRoomBefore(greedy, k + 1);
    var next := greedy[k+1][0];
    assert entries[c] == next;
    assert entries[b..c+1] == greedy[k] + [next];
    assert (greedy[k] + [next])[..|greedy[k]|] == greedy[k];
    assert Total(greedy[k] + [next]) == Total(greedy[k]) + |next|;
  }

  /** A sendable stretch that starts no later ends before an overfull one does. */
  lemma SendableEndsFirst(entries: Entries, a: nat, b: nat, c: nat, d: nat)
    requires a <= b < c < |entries| && a <= d <= |entries| && Sendable(entries[a..d])
    requires Total(entries[b..c+1]) > MAX_CHUNK
    ensures d <= c
  {
    if c < d { StretchWithin(entries, a, b, c + 1, d); }
  }

  /** Greedy stays ahead: after any number of chunks it has placed at least as many entries. */
  lemma {:induction false} GreedyStaysAhead(entries: Entries, greedy: seq<Entries>, other: seq<Entries>, k: nat)
    requires IsGreedySplit(greedy, entries) && IsSplit(other, entries)
    requires k <= |greedy| && k <= |other|
    ensures Held(other, k) <= Held(greedy, k)
  {
    if k == 0 {
    } else {
      GreedyStaysAhead(entries, greedy, other, k - 1);
      ChunkIsStretch(other, entries, k - 1);
      if k == |greedy| {
        assert greedy[..k] == greedy;
      } else {
        GreedyIsFull(entries, greedy, k - 1);
        assert Sendable(other[k-1]);
        SendableEndsFirst(entries, Held(other, k - 1), Held(greedy, k - 1), Held(greedy, k), Held(other, k));
      }
    }
  }

  /** No order-preserving split into sendable chunks uses fewer. */
  lemma GreedyIsOptimal(entries: Entries, greedy: seq<Entries>, other: seq<Entries>)
    requires IsGreedySplit(greedy, entries) && IsSplit(other, entries)
    ensures |greedy| <= |other|
  {
    if |other| < |greedy| {
      var k := |other|;
      GreedyStaysAhead(entries, greedy, other, k);
      assert other[..k] == other;
      ChunkIsStretch(greedy, entries, k);
      HeldGrows(greedy, k);
    }
  }

  lemma {:induction false} SameHeld(entries: Entries, xs: seq<Entries>, ys: seq<Entries>, k: nat)
    requires IsGreedySplit(xs, entries) && IsGreedySplit(ys, entries) && |xs| == |ys| && k <= |xs|
    ensures Held(xs, k) == Held(ys, k)
  {
    GreedyStaysAhead(entries, xs, ys, k);
    GreedyStaysAhead(entries, ys, xs, k);
  }

  /** The entries determine the greedy split. */
  lemma GreedyIsUnique(entries: Entries, xs: seq<Entries>, ys: seq<Entries>)
    requires IsGreedySplit(xs, entries) && IsGreedySplit(ys, entries)
    ensures xs == ys
  {
    GreedyIsOptimal(entries, xs, ys);
    GreedyIsOptimal(entries, ys, xs);
    forall k | 0 <= k < |xs| ensures xs[k] == ys[k] {
      SameHeld(entries, xs, ys, k);
      SameHeld(entries, xs, ys, k + 1);
      ChunkIsStretch(xs, entries, k);
      ChunkIsStretch(ys, entries, k);
    }
  }

  // ---------- filling a chunk ----------

  /** The chunks once the open one, if there is one, is closed. */
  function Closed(chunks: seq<Entries>, open: Entries): seq<Entries> {
    if open == [] then chunks else chunks + [open]
  }

  lemma EntryFits(chunks: seq<Entries>, open: Entries, entry: string, before: Entries)
    requires IsGreedySplit(Closed(chunks, open), before) && open != []
    requires Total(open) + |entry| <= MAX_CHUNK
    ensures IsGreedySplit(Closed(chunks, open + [entry]), before + [entry])
  {
    var was, now, wider := Closed(chunks, open), Closed(chunks, open + [entry]), open + [entry];
    assert was[..|chunks|] == chunks && now[..|chunks|] == chunks;
    assert Concat(now) == Concat(was) + [entry];
    assert wider[..|open|] == open && wider[0] == open[0];
    assert Sendable(wider);
    forall i | 0 <= i < |now| ensures Sendable(now[i]) {
      if i < |chunks| { assert Sendable(was[i]); }
    }
    forall i | 0 < i < |now| ensures NoRoomBefore(now, i) {
      assert NoRoomBefore(was, i) && now[i][0] == was[i][0] && now[i-1] == was[i-1];
    }
  }

  lemma NoEntryNoChunk(chunks: seq<Entries>, entries: Entries)
    requires IsSplit(chunks, entries)
    ensures entries == [] <==> chunks == []
  {
    if chunks != [] { assert Sendable(chunks[|chunks|-1]); }
  }

  lemma EntryOpensChunk(chunks: seq<Entries>, entry: string, before: Entries)
    requires IsGreedySplit(chunks, before)
    requires chunks != [] ==> Total(chunks[|chunks|-1]) + |entry| > MAX_CHUNK
    ensures IsGreedySplit(chunks + [[entry]], before + [entry])
  {
    var now := chunks + [[entry]];
    assert now[..|chunks|] == chunks;
    forall i | 0 <= i < |now| ensures Sendable(now[i]) {
      if i < |chunks| { assert Sendable(chunks[i]); }
    }
    forall i | 0 < i < |now| ensures NoRoomBefore(now, i) {
      if i < |chunks| { assert NoRoomBefore(chunks, i); }
    }
  }

  // ---------- sending ----------

  function Message(chunk: Entries): string {
    HEADING + Join(chunk)
  }

  /** The entries stand in the text from `at` on, each behind the one before it and one separator. */
  ghost predicate StandAt(text: string, chunk: Entries, at: seq<nat>) {
    && |at| == |chunk|
    && (forall i :: 0 <= i < |chunk| ==> OccursAt(text, chunk[i], at[i]))
    && (forall i :: 0 < i < |chunk| ==> SeparatedAt(text, chunk, at, i))
  }

  ghost predicate SeparatedAt(text: string, chunk: Entries, at: seq<nat>, i: nat)
    requires 0 < i < |chunk| == |at|
  {
    && OccursAt(text, SEPARATOR, at[i-1] + |chunk[i-1]|)
    && at[i] == at[i-1] + |chunk[i-1]| + |SEPARATOR|
  }

  /** The text is the heading and, right after it, the entries with one separator between any two; no more. */
  ghost predicate Carries(text: string, chunk: Entries) {
    HEADING <= text && exists at :: StandAt(text, chunk, at) && Fills(text, chunk, at)
  }

  ghost predicate Fills(text: string, chunk: Entries, at: seq<nat>) {
    && |at| == |chunk| && chunk != []
    && at[0] == |HEADING| && |text| == at[|at|-1] + |chunk[|chunk|-1]|
  }

  lemma OccursLater(text: string, before: string, part: string, i: nat)
    requires OccursAt(text, part, i)
    ensures OccursAt(before + text, part, |before| + i)
  {
    assert (before + text)[|before|+i..|before|+i+|part|] == text[i..i+|part|];
  }

  lemma StandLater(text: string, before: string, chunk: Entries, at: seq<nat>) returns (at': seq<nat>)
    requires StandAt(text, chunk, at)
    ensures StandAt(before + text, chunk, at') && forall i :: 0 <= i < |at| ==> at'[i] == |before| + at[i]
  {
    at' := seq(|at|, i requires 0 <= i < |at| => |before| + at[i]);
    forall i | 0 <= i < |chunk| ensures OccursAt(before + text, chunk[i], at'[i]) {
      OccursLater(text, before, chunk[i], at[i]);
    }
    forall i | 0 < i < |chunk| ensures SeparatedAt(before + text, chunk, at', i) {
      assert SeparatedAt(text, chunk, at, i);
      OccursLater(text, before, SEPARATOR, at[i-1] + |chunk[i-1]|);
    }
  }

  lemma OneInFront(text: string, first: string, rest: Entries, at: seq<nat>)
    requires rest != [] && StandAt(text, rest, at) && at[0] == |first| + |SEPARATOR|
    requires first + SEPARATOR <= text
    ensures StandAt(text, [first] + rest, [0] + at)
  {
    var chunk, at' := [first] + rest, [0] + at;
    assert text[..|first|] == (first + SEPARATOR)[..|first|] == first;
    assert text[|first|..|first|+|SEPARATOR|] == (first + SEPARATOR)[|first|..] == SEPARATOR;
    forall i | 0 < i < |chunk| ensures SeparatedAt(text, chunk, at', i) {
      if i > 1 { assert SeparatedAt(text, rest, at, i - 1); }
    }
  }

  lemma JoinOneMore(first: string, rest: Entries)
    requires rest != []
    ensures Join([first] + rest) == first + SEPARATOR + Join(rest)
  {
    assert ([first] + rest)[1..] == rest;
  }

  lemma OneMoreJoined(first: string, rest: Entries, later: seq<nat>) returns (at: seq<nat>)
    requires rest != [] && StandAt(Join(rest), rest, later) && later[0] == 0
    requires |Join(rest)| == later[|later|-1] + |rest[|rest|-1]|
    ensures var chunk := [first] + rest;
            StandAt(Join(chunk), chunk, at) && at[0] == 0 && |Join(chunk)| == at[|at|-1] + |chunk[|chunk|-1]|
  {
    JoinOneMore(first, rest);
    var later' := StandLater(Join(rest), first + SEPARATOR, rest, later);
    OneInFront(Join([first] + rest), first, rest, later');
    at := [0] + later';
  }

  lemma {:induction false} JoinedEntries(chunk: Entries) returns (at: seq<nat>)
    requires chunk != []
    ensures StandAt(Join(chunk), chunk, at) && at[0] == 0 && |Join(chunk)| == at[|at|-1] + |chunk[|chunk|-1]|
  {
    var first, rest := chunk[0], chunk[1..];
    assert chunk == [first] + rest;
    if rest == [] {
      at := [0];
    } else {
      var later := JoinedEntries(rest);
      at := OneMoreJoined(first, rest, later);
    }
  }

  lemma {:induction false} JoinedLength(chunk: Entries)
    requires chunk != []
    ensures |Join(chunk)| == Total(chunk) + (|chunk| - 1) * |SEPARATOR|
  {
    var first, rest := chunk[0], chunk[1..];
    assert chunk == [first] + rest;
    TotalConcat([first], rest);
    assert [first][..0] == [];
    if rest == [] {
    } else {
      JoinOneMore(first, rest);
      JoinedLength(rest);
    }
  }

  /** A message carries the entries of its chunk, and its length is theirs, the heading's and the separators'. */
  lemma MessageCarriesChunk(chunk: Entries)
    requires chunk != []
    ensures Carries(Message(chunk), chunk)
    ensures |Message(chunk)| == |HEADING| + Total(chunk) + (|chunk| - 1) * |SEPARATOR|
  {
    JoinedLength(chunk);
    var at := JoinedEntries(chunk);
    var at' := StandLater(Join(chunk), HEADING, chunk, at);
    assert Fills(Message(chunk), chunk, at');
  }

  /** The entries in chunks whose sending came out as `outcome`. */
  function CountOf(chunks: seq<Entries>, delivered: nat -> bool, outcome: bool): nat {
    if chunks == [] then 0
    else
      var k := |chunks| - 1;
      CountOf(chunks[..k], delivered, outcome) + (if delivered(k) == outcome then |chunks[k]| else 0)
  }

  lemma {:induction false} EveryEntryCounted(chunks: seq<Entries>, delivered: nat -> bool)
    ensures CountOf(chunks, delivered, true) + CountOf(chunks, delivered, false) == |Concat(chunks)|
  {
    if chunks == [] {
    } else {
      EveryEntryCounted(chunks[..|chunks|-1], delivered);
    }
  }

  lemma {:induction false} NothingSent(chunks: seq<Entries>, delivered: nat -> bool)
    requires forall i :: 0 <= i < |chunks| ==> chunks[i] != []
    ensures CountOf(chunks, delivered, true) == 0 <==> forall i: nat :: i < |chunks| ==> !delivered(i)
  {
    if chunks == [] {
    } else {
      NothingSent(chunks[..|chunks|-1], delivered);
    }
  }

  /** The same entries, named by their chunk and their place in it. */
  function EntriesWith(chunks: seq<Entries>, delivered: nat -> bool, outcome: bool): set<(nat, nat)> {
    set k: nat, i: nat | k < |chunks| && delivered(k) == outcome && i < |chunks[k]| :: (k, i)
  }

  function Places(k: nat, n: nat): set<(nat, nat)> {
    set i: nat | i < n :: (k, i)
  }

  lemma {:induction false} PlacesIn(k: nat, n: nat)
    ensures |Places(k, n)| == n
  {
    if n == 0 {
      assert Places(k, n) == {};
    } else {
      PlacesIn(k, n - 1);
      assert Places(k, n) == Places(k, n - 1) + {(k, n - 1)};
    }
  }

  lemma EntriesWithSnoc(chunks: seq<Entries>, chunk: Entries, delivered: nat -> bool, outcome: bool)
    ensures EntriesWith(chunks + [chunk], delivered, outcome)
         == EntriesWith(chunks, delivered, outcome) + (if delivered(|chunks|) == outcome then Places(|chunks|, |chunk|) else {})
    ensures EntriesWith(chunks, delivered, outcome) !! Places(|chunks|, |chunk|)
  {
  }

  /** Each entry is counted once, by the outcome of the message that carries it. */
  lemma {:induction false} CountsAreEntries(chunks: seq<Entries>, delivered: nat -> bool, outcome: bool)
    ensures CountOf(chunks, delivered, outcome) == |EntriesWith(chunks, delivered, outcome)|
  {
    if chunks == [] {
      assert EntriesWith(chunks, delivered, outcome) == {};
    } else {
      var front, last := chunks[..|chunks|-1], chunks[|chunks|-1];
      CountsAreEntries(front, delivered, outcome);
      PlacesIn(|front|, |last|);
      EntriesWithSnoc(front, last, delivered, outcome);
      assert chunks == front + [last];
    }
  }

  /** One message per chunk with its own index, and the entries counted by how sending them came out. */
  ghost predicate Recorded(chunks: seq<Entries>, posts: seq<Post>, delivered: nat -> bool, sent: nat, failed: nat) {
    && |posts| == |chunks|
    && (forall i :: 0 <= i < |chunks| ==> posts[i].index == i && Carries(posts[i].text, chunks[i]))
    && sent == CountOf(chunks, delivered, true)
    && failed == CountOf(chunks, delivered, false)
  }

  lemma OneMorePost(chunks: seq<Entries>, posts: seq<Post>, delivered: nat -> bool, sent: nat, failed: nat, chunk: Entries)
    requires Recorded(chunks, posts, delivered, sent, failed) && chunk != []
    ensures var got := delivered(|chunks|);
            Recorded(chunks + [chunk], posts + [Post(|chunks|, Message(chunk))], delivered,
                     sent + (if got then |chunk| else 0), failed + (if got then 0 else |chunk|))
  {
    MessageCarriesChunk(chunk);
    assert (chunks + [chunk])[..|chunks|] == chunks;
  }

  /** What the counts say once every entry is in a recorded chunk. */
  lemma FinalCounts(chunks: seq<Entries>, posts: seq<Post>, delivered: nat -> bool, sent: nat, failed: nat, entries: Entries)
    requires IsGreedySplit(chunks, entries) && Recorded(chunks, posts, delivered, sent, failed)
    ensures sent + failed == |entries|
    ensures sent == 0 <==> forall i: nat :: i < |chunks| ==> !delivered(i)
    ensures sent == |EntriesWith(chunks, delivered, true)|
  {
    CountsAreEntries(chunks, delivered, true);
    EveryEntryCounted(chunks, delivered);
    NothingSent(chunks, delivered);
  }

  lemma TotalSnoc(chunk: Entries, entry: string)
    ensures Total(chunk + [entry]) == Total(chunk) + |entry|
  {
    assert (chunk + [entry])[..|chunk|] == chunk;
  }

  lemma TakeOneMore(entries: Entries, n: nat)
    requires n < |entries|
    ensures entries[..n] + [entries[n]] == entries[..n+1]
  {
  }

  /** The state of one synchronisation; whether the message with a given index gets through is given. */
  class ContextSync {
    const delivered: nat -> bool
    var chunk: Entries
    var chunkLen: nat
    var sent: nat
    var failed: nat
    var chunkIndex: nat
    var posts: seq<Post>
    ghost var chunks: seq<Entries>

    /** What was sent so far is greedy, and the open chunk continues it. */
    ghost predicate Valid()
      reads this
    {
      && chunkLen == Total(chunk) && chunkIndex == |chunks|
      && Recorded(chunks, posts, delivered, sent, failed)
    }

    /** Closing the open chunk, if there is one, leaves a greedy split of the entries taken so far. */
    ghost predicate Splits(entries: Entries)
      reads this
    {
      IsGreedySplit(Closed(chunks, chunk), entries)
    }

    constructor (delivered: nat -> bool)
      ensures Valid() && this.delivered == delivered && chunk == [] && chunks == []
    {
      this.delivered := delivered;
      chunk, chunkLen, sent, failed, chunkIndex := [], 0, 0, 0, 0;
      posts, chunks := [], [];
    }

    method Flush()
      requires Valid()
      modifies this
      ensures Valid() && chunk == old(chunk) && chunkLen == old(chunkLen)
      ensures chunks == if chunk == [] then old(chunks) else old(chunks) + [chunk]
      ensures old(posts) <= posts
    {
      if chunk == [] {
        return;
      }
      var current := chunkIndex;
      chunkIndex := chunkIndex + 1;
      ghost var closed, made, went, stayed := chunks, posts, sent, failed;
      posts := posts + [Post(current, Message(chunk))];
      chunks := chunks + [chunk];
      if delivered(current) {
        sent := sent + |chunk|;
      } else {
        failed := failed + |chunk|;
      }
      OneMorePost(closed, made, delivered, went, stayed, chunk);
    }

    method Add(entry: string, ghost before: Entries)
      requires Valid() && Splits(before) && (chunk == [] ==> before == [])
      modifies this
      ensures Valid() && Splits(before + [entry]) && chunk != []
    {
      if chunk != [] && chunkLen + |entry| > MAX_CHUNK {
        Flush();
        EntryOpensChunk(chunks, entry, before);
        chunk, chunkLen := [], 0;
      } else if chunk == [] {
        NoEntryNoChunk(chunks, before);
        EntryOpensChunk(chunks, entry, before);
      } else {
        EntryFits(chunks, chunk, entry, before);
      }
      TotalSnoc(chunk, entry);
      assert chunk == [] ==> chunk + [entry] == [entry];
      chunk := chunk + [entry];
      chunkLen := chunkLen + |entry|;
    }

    method AddAll(entries: Entries)
      requires Valid() && Splits([]) && chunk == []
      modifies this
      ensures Valid() && Splits(entries) && (chunk == [] ==> entries == [])
    {
      ghost var taken: Entries := [];
      for n := 0 to |entries|
        invariant Valid() && Splits(taken) && taken == entries[..n] && (chunk == [] ==> taken == [])
      {
        TakeOneMore(entries, n);
        Add(entries[n], taken);
        taken := taken + [entries[n]];
      }
      assert entries[..|entries|] == entries;
    }
  }

  /**
   Everything is placed in a greedy split, one message per chunk that carries its entries under its own
   index; every entry is counted as sent or failed with its message; and the caller hears of a failure exactly when there
   were entries and no message got through.
   */
  method SyncSessionContext(entries: Entries, delivered: nat -> bool)
    returns (r: Result<Summary, Error>, posts: seq<Post>, ghost chunks: seq<Entries>)
    ensures IsGreedySplit(chunks, entries)
    ensures |posts| == |chunks|
    ensures forall i :: 0 <= i < |chunks| ==> posts[i].index == i && Carries(posts[i].text, chunks[i])
    ensures r.Failure? <==> entries != [] && forall i: nat :: i < |chunks| ==> !delivered(i)
    ensures r.Failure? ==> r.error.failed == |entries|
    ensures r.Success? ==> r.value.synced == |EntriesWith(chunks, delivered, true)|
    ensures r.Success? ==> r.value.synced + r.value.failed == |entries|
  {
    if entries == [] {
      return Success(Summary(0, 0)), [], [];
    }
    var sync := new ContextSync(delivered);
    sync.AddAll(entries);
    sync.Flush();
    posts, chunks := sync.posts, sync.chunks;
    FinalCounts(chunks, posts, delivered, sync.sent, sync.failed, entries);
    if sync.failed > 0 && sync.sent == 0 {
      return Failure(SyncFailed(sync.failed)), posts, chunks;
    }
    return Success(Summary(sync.sent, sync.failed)), posts, chunks;
  }
}
