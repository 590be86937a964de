/**
 The cache of projected execution trees, keyed by run and agent and tagged with the run's version.

 Requests are interleaved: a request reads the run's version, later looks into the cache, and on a
 miss builds a tree and later stores it, overwriting whatever is there.  Versions are numbered by
 the changes of a run, and a tree is known by the version it was built from.
 */
module TreeCache {
  import opened Wrappers
  import opened Sequences
  import opened Sorting

  datatype Run = Run(session: string, id: string)

  datatype CacheKey = CacheKey(run: Run, agent: string)

  datatype Entry = Entry(stamp: int, version: nat, tree: nat)

  const TTL: int := 30
  const MAX_ENTRIES: nat := 64

  predicate Expired(e: Entry, now: int) {
    now - e.stamp > TTL
  }

  predicate Hits(e: Entry, version: nat, now: int) {
    e.version == version && now - e.stamp <= TTL
  }

  function Unexpired(entries: map<CacheKey, Entry>, now: int): map<CacheKey, Entry> {
    map k | k in entries && !Expired(entries[k], now) :: entries[k]
  }

  /**
   The keys a pruning may keep: every unexpired one if they fit, and else exactly the limit, none of
   them older than an unexpired one that goes.
   */
  ghost predicate Prunes(cache: map<CacheKey, Entry>, now: int, kept: set<CacheKey>) {
    var live := set k | k in cache && now - cache[k].stamp <= TTL;
    if |live| <= MAX_ENTRIES then kept == live
    else && kept <= live && |kept| == MAX_ENTRIES
         && forall k, d :: k in kept && d in live && d !in kept ==> cache[d].stamp <= cache[k].stamp
  }

  // ---------- interleaved requests ----------

  datatype Request =
    | Started(key: CacheKey, now: int)
    | Versioned(key: CacheKey, now: int, version: nat)
    | Building(key: CacheKey, now: int, version: nat)
    | Built(key: CacheKey, now: int, version: nat, tree: nat)
    | Returned(key: CacheKey, version: nat, tree: nat, hit: bool)

  datatype World = World(
    versions: map<Run, nat>,
    clock: int,
    cache: map<CacheKey, Entry>,
    requests: seq<Request>)

  datatype Step =
    | Change(run: Run)
    | Tick(seconds: nat)
    | Begin(key: CacheKey)
    | ReadVersion(r: nat)
    | Look(r: nat, kept: set<CacheKey>)   // a miss also prunes the cache to the keys kept
    | Build(r: nat)
    | Store(r: nat)

  function VersionOf(w: World, run: Run): nat {
    if run in w.versions then w.versions[run] else 0
  }

  function LookUp(w: World, q: Request): Option<Entry>
    requires q.Versioned?
  {
    if q.key in w.cache && Hits(w.cache[q.key], q.version, q.now) then Some(w.cache[q.key]) else None
  }

  ghost predicate Enabled(w: World, st: Step) {
    match st
    case ReadVersion(r) => r < |w.requests| && w.requests[r].Started?
    case Look(r, kept) =>
      && r < |w.requests| && w.requests[r].Versioned?
      && (LookUp(w, w.requests[r]).None? ==> Prunes(w.cache, w.clock, kept))
    case Build(r) => r < |w.requests| && w.requests[r].Building?
    case Store(r) => r < |w.requests| && w.requests[r].Built?
    case _ => true
  }

  function Keep(cache: map<CacheKey, Entry>, kept: set<CacheKey>): map<CacheKey, Entry> {
    map k | k in cache && k in kept :: cache[k]
  }

  function Next(w: World, st: Step): World
    requires Enabled(w, st)
  {
    match st
    case Change(run) => w.(versions := w.versions[run := VersionOf(w, run) + 1])
    case Tick(seconds) => w.(clock := w.clock + seconds)
    case Begin(key) => w.(requests := w.requests + [Started(key, w.clock)])
    case ReadVersion(r) =>
      var q := w.requests[r];
      w.(requests := w.requests[r := Versioned(q.key, q.now, VersionOf(w, q.key.run))])
    case Look(r, kept) =>
      var q := w.requests[r];
      (match LookUp(w, q)
       case Some(e) => w.(requests := w.requests[r := Returned(q.key, q.version, e.tree, true)])
       case None => w.(cache := Keep(w.cache, kept), requests := w.requests[r := Building(q.key, q.now, q.version)]))
    case Build(r) =>
      var q := w.requests[r];
      w.(requests := w.requests[r := Built(q.key, q.now, q.version, VersionOf(w, q.key.run))])
    case Store(r) =>
      var q := w.requests[r];
      w.(cache := w.cache[q.key := Entry(q.now, q.version, q.tree)],
         requests := w.requests[r := Returned(q.key, q.version, q.tree, false)])
  }

  /** A cached tree was built at or after the version it is tagged with, and not in the future. */
  ghost predicate EntriesFit(w: World) {
    forall k :: k in w.cache ==> w.cache[k].version <= w.cache[k].tree <= VersionOf(w, k.run)
  }

  ghost predicate RequestFits(w: World, q: Request) {
    match q
    case Started(_, _) => true
    case Versioned(key, _, version) => version <= VersionOf(w, key.run)
    case Building(key, _, version) => version <= VersionOf(w, key.run)
    case Built(key, _, version, tree) => version <= tree <= VersionOf(w, key.run)
    case Returned(key, version, tree, _) => version <= tree <= VersionOf(w, key.run)
  }

  ghost predicate Inv(w: World) {
    EntriesFit(w) && forall r :: 0 <= r < |w.requests| ==> RequestFits(w, w.requests[r])
  }

  lemma StepInv(w: World, st: Step)
    requires Inv(w) && Enabled(w, st)
    ensures Inv(Next(w, st))
  {
    var w' := Next(w, st);
    forall run ensures VersionOf(w, run) <= VersionOf(w', run) { }
    forall r | 0 <= r < |w'.requests| ensures RequestFits(w', w'.requests[r]) {
      if r < |w.requests| { assert RequestFits(w, w.requests[r]); }
    }
  }

  ghost predicate IsRun(worlds: seq<World>, steps: seq<Step>) {
    && |worlds| == |steps| + 1 && worlds[0].cache == map[] && worlds[0].requests == []
    && forall i :: 0 <= i < |steps| ==> Enabled(worlds[i], steps[i]) && worlds[i+1] == Next(worlds[i], steps[i])
  }

  lemma {:induction false} RunInv(worlds: seq<World>, steps: seq<Step>, n: nat)
    requires IsRun(worlds, steps) && n < |worlds|
    ensures Inv(worlds[n])
  {
    if n == 0 {
    } else {
      RunInv(worlds, steps, n - 1);
      StepInv(worlds[n-1], steps[n-1]);
    }
  }

  /**
   A request returns, cached or not, a tree that was current at some moment between its reading of the
   version and its return: one built from a version in that range.
   */
  lemma ReturnedTreeWasCurrent(worlds: seq<World>, steps: seq<Step>, n: nat, r: nat)
    requires IsRun(worlds, steps) && n < |steps|
    requires r < |worlds[n].requests| && !worlds[n].requests[r].Returned?
    requires worlds[n+1].requests[r].Returned?
    ensures var q := worlds[n+1].requests[r];
            q.version <= q.tree <= VersionOf(worlds[n+1], q.key.run)
  {
    RunInv(worlds, steps, n + 1);
    assert RequestFits(worlds[n+1], worlds[n+1].requests[r]);
  }

  /**
   A hit is exact, the tree a rebuild would give now, whenever the run has not changed since the
   request read its version; and only a change in that gap can make it older.
   */
  lemma HitIsExact(w: World, r: nat, kept: set<CacheKey>)
    requires Inv(w) && Enabled(w, Look(r, kept)) && LookUp(w, w.requests[r]).Some?
    ensures var q, q' := w.requests[r], Next(w, Look(r, kept)).requests[r];
            && q'.Returned? && q'.hit
            && (q.version == VersionOf(w, q.key.run) ==> q'.tree == VersionOf(w, q.key.run))
            && (q'.tree < VersionOf(w, q.key.run) ==> q.version < VersionOf(w, q.key.run))
  {
    assert RequestFits(w, w.requests[r]);
  }

  // ---------- how large the cache gets ----------

  /** A miss is outstanding until what it builds is stored. */
  function Misses(q: Request): nat {
    if q.Building? || q.Built? then 1 else 0
  }

  function Outstanding(requests: seq<Request>): nat {
    if requests == [] then 0 else Outstanding(requests[..|requests|-1]) + Misses(requests[|requests|-1])
  }

  lemma {:induction false} OutstandingAfter(requests: seq<Request>, r: nat, q: Request)
    requires r < |requests|
    ensures Outstanding(requests[r := q]) + Misses(requests[r]) == Outstanding(requests) + Misses(q)
  {
    var last := |requests| - 1;
    if r == last {
      assert requests[r := q][..last] == requests[..last];
    } else {
      assert requests[r := q][..last] == requests[..last][r := q];
      OutstandingAfter(requests[..last], r, q);
    }
  }

  /** The most misses that were outstanding at one time so far. */
  function Peak(worlds: seq<World>, n: nat): nat
    requires n < |worlds|
  {
    var before := if n == 0 then 0 else Peak(worlds, n - 1);
    if Outstanding(worlds[n].requests) > before then Outstanding(worlds[n].requests) else before
  }

  lemma PruningFits(cache: map<CacheKey, Entry>, now: int, kept: set<CacheKey>)
    requires Prunes(cache, now, kept)
    ensures |Keep(cache, kept)| <= MAX_ENTRIES
  {
    assert Keep(cache, kept).Keys == kept;
  }

  lemma LookBounds(w: World, r: nat, kept: set<CacheKey>, peak: nat)
    requires Enabled(w, Look(r, kept)) && |w.cache| + Outstanding(w.requests) <= MAX_ENTRIES + peak
    ensures var w' := Next(w, Look(r, kept));
            |w'.cache| + Outstanding(w'.requests)
            <= MAX_ENTRIES + (if Outstanding(w'.requests) > peak then Outstanding(w'.requests) else peak)
  {
    OutstandingAfter(w.requests, r, Next(w, Look(r, kept)).requests[r]);
    if LookUp(w, w.requests[r]).None? { PruningFits(w.cache, w.clock, kept); }
  }

  lemma PutSize<K, V>(m: map<K, V>, k: K, v: V)
    ensures |m[k := v]| <= |m| + 1
  {
    assert m[k := v].Keys == m.Keys + {k};
    assert |m[k := v].Keys| == |m[k := v]| && |m.Keys| == |m|;
  }

  lemma StoreBounds(w: World, r: nat)
    requires Enabled(w, Store(r))
    ensures var w' := Next(w, Store(r));
            |w'.cache| + Outstanding(w'.requests) <= |w.cache| + Outstanding(w.requests)
  {
    var q, w' := w.requests[r], Next(w, Store(r));
    OutstandingAfter(w.requests, r, w'.requests[r]);
    PutSize(w.cache, q.key, Entry(q.now, q.version, q.tree));
  }

  lemma OtherStepBounds(w: World, st: Step)
    requires Enabled(w, st) && !st.Look? && !st.Store?
    ensures Next(w, st).cache == w.cache && Outstanding(Next(w, st).requests) == Outstanding(w.requests)
  {
    match st
    case Begin(key) => assert (w.requests + [Started(key, w.clock)])[..|w.requests|] == w.requests;
    case ReadVersion(r) => OutstandingAfter(w.requests, r, Next(w, st).requests[r]);
    case Build(r) => OutstandingAfter(w.requests, r, Next(w, st).requests[r]);
    case _ =>
  }

  lemma StepBounds(w: World, st: Step, peak: nat)
    requires Enabled(w, st) && |w.cache| + Outstanding(w.requests) <= MAX_ENTRIES + peak
    ensures var w' := Next(w, st);
            |w'.cache| + Outstanding(w'.requests)
            <= MAX_ENTRIES + (if Outstanding(w'.requests) > peak then Outstanding(w'.requests) else peak)
  {
    match st
    case Look(r, kept) => LookBounds(w, r, kept, peak);
    case Store(r) => StoreBounds(w, r);
    case _ => OtherStepBounds(w, st);
  }

  /**
   In every run the entries and the outstanding misses together never exceed the limit and the most
   misses that were outstanding at one time: each of them may still add one entry to a pruned cache.
   */
  lemma {:induction false} CacheIsBounded(worlds: seq<World>, steps: seq<Step>, n: nat)
    requires IsRun(worlds, steps) && n < |worlds|
    ensures |worlds[n].cache| + Outstanding(worlds[n].requests) <= 64 + Peak(worlds, n)
  {
    if n == 0 {
    } else {
      CacheIsBounded(worlds, steps, n - 1);
      StepBounds(worlds[n-1], steps[n-1], Peak(worlds, n - 1));
    }
  }

  // ---------- when a hit is exact ----------

  ghost predicate Reachable(w: World) {
    exists worlds, steps :: IsRun(worlds, steps) && worlds[|steps|] == w
  }

  lemma StartIsReachable(versions: map<Run, nat>)
    ensures Reachable(World(versions, 0, map[], []))
  {
    assert IsRun([World(versions, 0, map[], [])], []);
  }

  lemma StepIsReachable(w: World, st: Step)
    requires Reachable(w) && Enabled(w, st)
    ensures Reachable(Next(w, st))
  {
    var worlds, steps :| IsRun(worlds, steps) && worlds[|steps|] == w;
    var worlds', steps' := worlds + [Next(w, st)], steps + [st];
    forall i | 0 <= i < |steps'| ensures Enabled(worlds'[i], steps'[i]) && worlds'[i+1] == Next(worlds'[i], steps'[i]) {
      if i < |steps| {
        assert worlds'[i] == worlds[i] && worlds'[i+1] == worlds[i+1] && steps'[i] == steps[i];
      }
    }
    assert IsRun(worlds', steps');
  }

  /** Request `r`, which read `version` of its run, finds an entry while the run is at `current`. */
  predicate HitsAt(w: World, r: nat, key: CacheKey, version: nat, current: nat) {
    && r < |w.requests| && w.requests[r].Versioned? && w.requests[r].key == key
    && w.requests[r].version == version && VersionOf(w, key.run) == current
    && LookUp(w, w.requests[r]).Some?
  }

  function TreeHit(w: World, r: nat): nat
    requires r < |w.requests| && w.requests[r].Versioned? && LookUp(w, w.requests[r]).Some?
  {
    LookUp(w, w.requests[r]).value.tree
  }

  /** The first request for `key` has stored what it built, and a second one has read the version. */
  function SecondRequest(key: CacheKey, version: nat, current: nat): World {
    World(map[key.run := current], 0, map[key := Entry(0, version, version)],
          [Returned(key, version, version, false), Versioned(key, 0, version)])
  }

  lemma FirstRequestMisses(key: CacheKey, version: nat)
    ensures Reachable(World(map[key.run := version], 0, map[], [Building(key, 0, version)]))
  {
    var w0 := World(map[key.run := version], 0, map[], []);
    StartIsReachable(map[key.run := version]);
    StepIsReachable(w0, Begin(key));
    var w1 := w0.(requests := [Started(key, 0)]);
    assert Next(w0, Begin(key)) == w1;
    StepIsReachable(w1, ReadVersion(0));
    var w2 := w0.(requests := [Versioned(key, 0, version)]);
    assert Next(w1, ReadVersion(0)) == w2;
    StepIsReachable(w2, Look(0, {}));
    assert Next(w2, Look(0, {})) == w0.(requests := [Building(key, 0, version)]);
  }

  lemma FirstRequest(key: CacheKey, version: nat)
    ensures Reachable(World(map[key.run := version], 0, map[], [Built(key, 0, version, version)]))
  {
    var w3 := World(map[key.run := version], 0, map[], [Building(key, 0, version)]);
    FirstRequestMisses(key, version);
    StepIsReachable(w3, Build(0));
    assert Next(w3, Build(0)) == w3.(requests := [Built(key, 0, version, version)]);
  }

  lemma SecondRequestReads(key: CacheKey, version: nat)
    ensures Reachable(SecondRequest(key, version, version))
  {
    var w4 := World(map[key.run := version], 0, map[], [Built(key, 0, version, version)]);
    FirstRequest(key, version);
    StepIsReachable(w4, Store(0));
    var done := Returned(key, version, version, false);
    var w5 := w4.(cache := map[key := Entry(0, version, version)], requests := [done]);
    assert Next(w4, Store(0)) == w5;
    StepIsReachable(w5, Begin(key));
    var w6 := w5.(requests := [done, Started(key, 0)]);
    assert Next(w5, Begin(key)) == w6;
    StepIsReachable(w6, ReadVersion(1));
    assert Next(w6, ReadVersion(1)) == SecondRequest(key, version, version);
  }

  /** Meanwhile the run may change any number of times. */
  lemma {:induction false} StaleHitIsReachable(key: CacheKey, version: nat, current: nat)
    requires version <= current
    ensures var w := SecondRequest(key, version, current);
            Reachable(w) && HitsAt(w, 1, key, version, current) && TreeHit(w, 1) == version
    decreases current
  {
    if version == current {
      SecondRequestReads(key, version);
    } else {
      var w := SecondRequest(key, version, current - 1);
      StaleHitIsReachable(key, version, current - 1);
      StepIsReachable(w, Change(key.run));
      assert Next(w, Change(key.run)) == SecondRequest(key, version, current);
    }
  }

  /**
   A hit returns, over every world the requests can reach, the tree a rebuild would give now, if and
   only if the run did not change between the reading of its version and the look.
   */
  lemma HitsAreExactWithoutChange(key: CacheKey, version: nat, current: nat)
    requires version <= current
    ensures (forall w, r :: Reachable(w) && HitsAt(w, r, key, version, current) ==> TreeHit(w, r) == current)
            <==> version == current
  {
    forall w, r | Reachable(w) && HitsAt(w, r, key, version, current)
      ensures version <= TreeHit(w, r) <= current
    {
      var worlds, steps :| IsRun(worlds, steps) && worlds[|steps|] == w;
      RunInv(worlds, steps, |steps|);
    }
    StaleHitIsReachable(key, version, current);
  }

  /** The run that shows it: the second request reads the version just before the change. */
  function StaleSteps(key: CacheKey): seq<Step> {
    [Begin(key), ReadVersion(0), Look(0, {}), Build(0), Store(0), Begin(key), ReadVersion(1), Change(key.run), Look(1, {})]
  }

  function StaleWorlds(key: CacheKey): seq<World> {
    var start, cache := map[key.run := 0], map[key := Entry(0, 0, 0)];
    var done := Returned(key, 0, 0, false);
    [World(start, 0, map[], []),
     World(start, 0, map[], [Started(key, 0)]),
     World(start, 0, map[], [Versioned(key, 0, 0)]),
     World(start, 0, map[], [Building(key, 0, 0)]),
     World(start, 0, map[], [Built(key, 0, 0, 0)]),
     World(start, 0, cache, [done]),
     World(start, 0, cache, [done, Started(key, 0)]),
     World(start, 0, cache, [done, Versioned(key, 0, 0)]),
     World(map[key.run := 1], 0, cache, [done, Versioned(key, 0, 0)]),
     World(map[key.run := 1], 0, cache, [done, Returned(key, 0, 0, true)])]
  }

  /** A run that changes between the read and the look is shown as it was before. */
  lemma HitCanBeOneChangeOld(key: CacheKey)
    ensures IsRun(StaleWorlds(key), StaleSteps(key))
    ensures StaleWorlds(key)[9].requests[1] == Returned(key, 0, 0, true) && VersionOf(StaleWorlds(key)[9], key.run) == 1
  {
    var ws, ss := StaleWorlds(key), StaleSteps(key);
    forall i | 0 <= i < 9 ensures Enabled(ws[i], ss[i]) && ws[i+1] == Next(ws[i], ss[i]) {
      if i < 5 { StaleRunBuilds(key, i); } else { StaleRunHits(key, i); }
    }
  }

  lemma StaleRunBuilds(key: CacheKey, i: nat)
    requires i < 5
    ensures Enabled(StaleWorlds(key)[i], StaleSteps(key)[i])
    ensures StaleWorlds(key)[i+1] == Next(StaleWorlds(key)[i], StaleSteps(key)[i])
  {
  }

  lemma StaleRunHits(key: CacheKey, i: nat)
    requires 5 <= i < 9
    ensures Enabled(StaleWorlds(key)[i], StaleSteps(key)[i])
    ensures StaleWorlds(key)[i+1] == Next(StaleWorlds(key)[i], StaleSteps(key)[i])
  {
  }

  // ---------- the cache object ----------

  /** What is left once the expired entries among the keys seen are gone. */
  function WithoutExpired(all: map<CacheKey, Entry>, seen: seq<CacheKey>, now: int): map<CacheKey, Entry> {
    map k | k in all && (k !in seen || !Expired(all[k], now)) :: all[k]
  }

  lemma OneMoreSeen(all: map<CacheKey, Entry>, seen: seq<CacheKey>, key: CacheKey, now: int)
    requires key in all && key !in seen
    ensures key in WithoutExpired(all, seen, now) && WithoutExpired(all, seen, now)[key] == all[key]
    ensures WithoutExpired(all, seen + [key], now)
         == if Expired(all[key], now) then WithoutExpired(all, seen, now) - {key} else WithoutExpired(all, seen, now)
  {
  }

  /** The listed keys that are still held, in order. */
  function Without(keys: seq<CacheKey>, held: set<CacheKey>): (r: seq<CacheKey>)
    ensures forall k :: k in r <==> k in keys && k in held
    ensures NoDuplicates(keys) ==> NoDuplicates(r)
  {
    if keys == [] then []
    else (if keys[0] in held then [keys[0]] else []) + Without(keys[1..], held)
  }

  lemma {:induction false} NoDuplicatesCount(keys: seq<CacheKey>, members: set<CacheKey>)
    requires NoDuplicates(keys) && forall k :: k in members <==> k in keys
    ensures |keys| == |members|
  {
    if keys != [] {
      forall k ensures k in members - {keys[0]} <==> k in keys[1..] {
        if k in keys[1..] { var i :| 0 <= i < |keys[1..]| && keys[1..][i] == k; assert keys[i+1] == k; }
      }
      NoDuplicatesCount(keys[1..], members - {keys[0]});
    } else {
      assert members == {};
    }
  }

  function OldestFirst(keys: seq<CacheKey>, stamped: map<CacheKey, Entry>): seq<CacheKey> {
    SortBy(keys, k => if k in stamped then stamped[k].stamp else 0)
  }

  lemma SortedKeys(keys: seq<CacheKey>, stamped: map<CacheKey, Entry>)
    requires NoDuplicates(keys) && forall k :: k in stamped <==> k in keys
    ensures var sorted := OldestFirst(keys, stamped);
            && |sorted| == |keys| && NoDuplicates(sorted)
            && (forall k :: k in sorted <==> k in keys)
            && forall i, j :: 0 <= i <= j < |sorted| ==> stamped[sorted[i]].stamp <= stamped[sorted[j]].stamp
  {
    var key := k => if k in stamped then stamped[k].stamp else 0;
    SortBySorts(keys, key);
    SameKeys(keys, OldestFirst(keys, stamped));
    Ascend(OldestFirst(keys, stamped), stamped, key);
  }

  lemma SameKeys(keys: seq<CacheKey>, sorted: seq<CacheKey>)
    requires NoDuplicates(keys) && multiset(sorted) == multiset(keys)
    ensures |sorted| == |keys| && NoDuplicates(sorted)
    ensures forall k :: k in sorted <==> k in keys
  {
    assert |multiset(sorted)| == |sorted| && |multiset(keys)| == |keys|;
    forall k ensures k in sorted <==> k in keys {
      assert k in sorted <==> k in multiset(sorted);
      assert k in keys <==> k in multiset(keys);
    }
    OnceEach(keys);
    Distinct(sorted);
  }

  lemma Ascend(sorted: seq<CacheKey>, stamped: map<CacheKey, Entry>, key: CacheKey -> int)
    requires Sorted(sorted, key) && forall k :: k in sorted ==> k in stamped && key(k) == stamped[k].stamp
    ensures forall i, j :: 0 <= i <= j < |sorted| ==> stamped[sorted[i]].stamp <= stamped[sorted[j]].stamp
  {
    forall i, j | 0 <= i <= j < |sorted| ensures stamped[sorted[i]].stamp <= stamped[sorted[j]].stamp {
      assert sorted[i] in sorted && sorted[j] in sorted && key(sorted[i]) <= key(sorted[j]);
    }
  }

  lemma {:induction false} OnceEach(keys: seq<CacheKey>)
    requires NoDuplicates(keys)
    ensures forall k :: multiset(keys)[k] <= 1
  {
    if keys == [] {
    } else {
      OnceEach(keys[1..]);
      assert keys == [keys[0]] + keys[1..];
      assert forall i :: 0 <= i < |keys[1..]| ==> keys[1..][i] == keys[i+1] != keys[0];
      assert keys[0] !in keys[1..];
    }
  }

  lemma {:induction false} Distinct(keys: seq<CacheKey>)
    requires forall k :: multiset(keys)[k] <= 1
    ensures NoDuplicates(keys)
  {
    if keys == [] {
    } else {
      assert keys == [keys[0]] + keys[1..];
      assert multiset(keys)[keys[0]] == multiset([keys[0]])[keys[0]] + multiset(keys[1..])[keys[0]];
      forall k ensures multiset(keys[1..])[k] <= 1 {
        assert multiset(keys)[k] == multiset([keys[0]])[k] + multiset(keys[1..])[k];
      }
      Distinct(keys[1..]);
      forall i, j | 0 <= i < j < |keys| ensures keys[i] != keys[j] {
        if i == 0 {
          assert keys[j] == keys[1..][j-1] && keys[j] in keys[1..];
        } else {
          assert keys[i] == keys[1..][i-1] && keys[j] == keys[1..][j-1];
        }
      }
    }
  }

  /** What is left after deleting the first keys of the sorted list. */
  function After(all: map<CacheKey, Entry>, deleted: seq<CacheKey>): map<CacheKey, Entry> {
    map k | k in all && k !in deleted :: all[k]
  }

  lemma DeletingOneMore(all: map<CacheKey, Entry>, sorted: seq<CacheKey>, i: nat)
    requires NoDuplicates(sorted) && i < |sorted| && sorted[i] in all
    ensures After(all, sorted[..i+1]) == After(all, sorted[..i]) - {sorted[i]}
    ensures |After(all, sorted[..i+1])| == |After(all, sorted[..i])| - 1
  {
    assert sorted[..i+1] == sorted[..i] + [sorted[i]];
    var before, now := After(all, sorted[..i]), After(all, sorted[..i+1]);
    assert now == before - {sorted[i]};
    assert sorted[i] in before;
    assert before.Keys == now.Keys + {sorted[i]};
    assert |before.Keys| == |before| && |now.Keys| == |now|;
  }

  lemma LeftAreNewest(all: map<CacheKey, Entry>, sorted: seq<CacheKey>, count: nat, k: CacheKey, d: CacheKey)
    requires count <= |sorted| && (forall x :: x in all <==> x in sorted)
    requires forall i, j :: 0 <= i <= j < |sorted| ==> all[sorted[i]].stamp <= all[sorted[j]].stamp
    requires k in After(all, sorted[..count]) && d in all && d !in After(all, sorted[..count])
    ensures all[d].stamp <= all[k].stamp
  {
    var i :| 0 <= i < |sorted| && sorted[i] == k;
    var j :| 0 <= j < |sorted[..count]| && sorted[..count][j] == d;
    assert forall x :: 0 <= x < count ==> sorted[x] == sorted[..count][x] && sorted[x] in sorted[..count];
    assert count <= i;
  }

  lemma AllLeftAreNewest(all: map<CacheKey, Entry>, sorted: seq<CacheKey>, count: nat)
    requires count <= |sorted| && (forall x :: x in all <==> x in sorted)
    requires forall i, j :: 0 <= i <= j < |sorted| ==> all[sorted[i]].stamp <= all[sorted[j]].stamp
    ensures var left := After(all, sorted[..count]);
            forall k, d :: k in left && d in all && d !in left ==> all[d].stamp <= all[k].stamp
  {
    var left := After(all, sorted[..count]);
    forall k, d | k in left && d in all && d !in left ensures all[d].stamp <= all[k].stamp {
      LeftAreNewest(all, sorted, count, k, d);
    }
  }

  class TreeCacheObject {
    var order: seq<CacheKey>               // keys in insertion order
    var entries: map<CacheKey, Entry>

    ghost predicate Valid()
      reads this
    {
      && NoDuplicates(order)
      && (forall k :: k in entries <==> k in order)
    }

    constructor ()
      ensures Valid() && entries == map[]
    {
      order, entries := [], map[];
    }

    method Get(key: CacheKey, version: nat, now: int) returns (tree: Option<nat>)
      ensures tree.Some? <==> key in entries && entries[key].version == version && now - entries[key].stamp <= 30
      ensures tree.Some? ==> tree.value == entries[key].tree
    {
      if key in entries && entries[key].version == version && now - entries[key].stamp <= TTL {
        return Some(entries[key].tree);
      }
      return None;
    }

    method Put(key: CacheKey, entry: Entry)
      requires Valid()
      modifies this
      ensures Valid() && entries == old(entries)[key := entry]
    {
      if key !in entries {
        order := order + [key];
      }
      entries := entries[key := entry];
    }

    /**
     Drops what has expired and, of the rest, the oldest beyond the limit: everything unexpired is kept
     if it fits; if not, exactly the limit is kept and nothing dropped is newer than anything kept.
     */
    method Prune(now: int)
      requires Valid()
      modifies this
      ensures Valid() && |entries| <= MAX_ENTRIES
      ensures Prunes(old(entries), now, entries.Keys) && entries == Keep(old(entries), entries.Keys)
    {
      DropExpired(now);
      assert entries.Keys == set k | k in old(entries) && now - old(entries)[k].stamp <= TTL;
      if |entries| > MAX_ENTRIES {
        DropOldest(|entries| - MAX_ENTRIES);
      }
    }

    method DropExpired(now: int)
      requires Valid()
      modifies this
      ensures Valid() && entries == Unexpired(old(entries), now)
    {
      var kept: seq<CacheKey> := [];
      ghost var all := entries;
      for i := 0 to |order|
        invariant order == old(order) && (forall k :: k in all <==> k in order)
        invariant forall k :: k in kept <==> k in order[..i] && !Expired(all[k], now)
        invariant NoDuplicates(kept)
        invariant entries == WithoutExpired(all, order[..i], now)
      {
        var key := order[i];
        assert order[..i+1] == order[..i] + [key];
        OneMoreSeen(all, order[..i], key, now);
        if now - entries[key].stamp > TTL {
          entries := entries - {key};
        } else {
          kept := kept + [key];
        }
      }
      assert order[..|order|] == order;
      order := kept;
    }

    method DropOldest(count: nat)
      requires Valid() && count <= |entries|
      modifies this
      ensures Valid() && |entries| == |old(entries)| - count
      ensures forall k :: k in entries ==> k in old(entries) && entries[k] == old(entries)[k]
      ensures forall k, d :: k in entries && d in old(entries) && d !in entries ==>
                old(entries)[d].stamp <= old(entries)[k].stamp
    {
      ghost var all := entries;
      var sorted := OldestFirst(order, entries);
      SortedKeys(order, entries);
      NoDuplicatesCount(order, entries.Keys);
      DeleteFirst(sorted, count);
      order := Without(order, entries.Keys);
      AllLeftAreNewest(all, sorted, count);
    }

    method DeleteFirst(sorted: seq<CacheKey>, count: nat)
      requires NoDuplicates(sorted) && count <= |sorted| && forall k :: k in sorted ==> k in entries
      modifies this`entries
      ensures entries == After(old(entries), sorted[..count])
      ensures |entries| == |old(entries)| - count
    {
      ghost var all := entries;
      assert After(all, sorted[..0]) == all;
      for i := 0 to count
        invariant entries == After(all, sorted[..i])
        invariant |entries| == |all| - i
      {
        DeletingOneMore(all, sorted, i);
        entries := entries - {sorted[i]};
      }
    }
  }
}
