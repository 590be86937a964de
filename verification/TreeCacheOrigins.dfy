/**
 Where the returned trees come from: when exactly a lookup hits, which store it hits, and at which moments
 of the run a request read its version and a tree was built.
 */
module TreeCacheOrigins {
  import opened Wrappers
  import opened TreeCache

  // ---------- what the cache holds ----------

  /** Step `m` stores, under the key, the tree that request `r` built. */
  ghost predicate StoresAt(worlds: seq<World>, steps: seq<Step>, m: nat, key: CacheKey) {
    && m < |steps| && m < |worlds| && steps[m].Store? && steps[m].r < |worlds[m].requests|
    && worlds[m].requests[steps[m].r].Built? && worlds[m].requests[steps[m].r].key == key
  }

  function StoredBy(worlds: seq<World>, steps: seq<Step>, m: nat): Request
    requires m < |steps| && m < |worlds| && steps[m].Store? && steps[m].r < |worlds[m].requests|
  {
    worlds[m].requests[steps[m].r]
  }

  /** Step `j` is a miss whose pruning drops the key. */
  ghost predicate DropsAt(worlds: seq<World>, steps: seq<Step>, j: nat, key: CacheKey) {
    && j < |steps| && j + 1 < |worlds| && steps[j].Look? && steps[j].r < |worlds[j+1].requests|
    && worlds[j+1].requests[steps[j].r].Building? && key !in steps[j].kept
  }

  /** What step `m` stored under the key has neither been overwritten nor pruned before step `n`. */
  ghost predicate Stands(worlds: seq<World>, steps: seq<Step>, m: nat, n: nat, key: CacheKey) {
    && m < n && StoresAt(worlds, steps, m, key)
    && forall j: nat :: m < j < n ==> !StoresAt(worlds, steps, j, key) && !DropsAt(worlds, steps, j, key)
  }

  ghost predicate SomethingStands(worlds: seq<World>, steps: seq<Step>, n: nat, key: CacheKey) {
    exists m: nat :: Stands(worlds, steps, m, n, key)
  }

  lemma StandsOneMore(worlds: seq<World>, steps: seq<Step>, n: nat, next: nat, key: CacheKey)
    requires next == n + 1
    ensures SomethingStands(worlds, steps, next, key) <==>
              StoresAt(worlds, steps, n, key)
              || (SomethingStands(worlds, steps, n, key) && !DropsAt(worlds, steps, n, key))
  {
    if StoresAt(worlds, steps, n, key) {
      assert Stands(worlds, steps, n, next, key);
    } else if m: nat :| Stands(worlds, steps, m, n, key) && !DropsAt(worlds, steps, n, key) {
      assert Stands(worlds, steps, m, next, key);
    }
    if m: nat :| Stands(worlds, steps, m, next, key) {
      if m < n { assert Stands(worlds, steps, m, n, key); }
    }
  }

  /** How one step changes what is cached under a key. */
  lemma CacheStep(w: World, st: Step, key: CacheKey)
    requires Enabled(w, st)
    ensures var w' := Next(w, st);
            var stores := st.Store? && w.requests[st.r].key == key;
            var drops := st.Look? && w'.requests[st.r].Building? && key !in st.kept;
            && (key in w'.cache <==> stores || (key in w.cache && !drops))
            && (stores ==> w'.cache[key] == Entry(w.requests[st.r].now, w.requests[st.r].version, w.requests[st.r].tree))
            && (!stores && key in w'.cache ==> w'.cache[key] == w.cache[key])
  {
  }

  ghost predicate HoldsStored(worlds: seq<World>, steps: seq<Step>, m: nat, n: nat, key: CacheKey)
    requires n < |worlds|
  {
    Stands(worlds, steps, m, n, key) ==>
      var q := StoredBy(worlds, steps, m);
      key in worlds[n].cache && worlds[n].cache[key] == Entry(q.now, q.version, q.tree)
  }

  /** In every run the cache holds, under a key, what was last stored there unless that was pruned. */
  lemma {:induction false} CachedIsStored(worlds: seq<World>, steps: seq<Step>, n: nat, key: CacheKey)
    requires IsRun(worlds, steps) && n < |worlds|
    ensures key in worlds[n].cache <==> SomethingStands(worlds, steps, n, key)
    ensures forall m: nat :: HoldsStored(worlds, steps, m, n, key)
  {
    if n == 0 {
    } else {
      CachedIsStored(worlds, steps, n - 1, key);
      StandsOneMore(worlds, steps, n - 1, n, key);
      CacheStep(worlds[n-1], steps[n-1], key);
      forall m: nat ensures HoldsStored(worlds, steps, m, n, key) {
        if Stands(worlds, steps, m, n, key) && m < n - 1 {
          assert Stands(worlds, steps, m, n - 1, key);
          assert HoldsStored(worlds, steps, m, n - 1, key);
        }
      }
    }
  }

  /** The store hit: of the same version, by a request that began at most 30 seconds before. */
  ghost predicate Serves(worlds: seq<World>, steps: seq<Step>, m: nat, n: nat, q: Request)
    requires q.Versioned?
  {
    && Stands(worlds, steps, m, n, q.key)
    && StoredBy(worlds, steps, m).version == q.version && q.now - StoredBy(worlds, steps, m).now <= 30
  }

  /**
   In every run, a lookup hits if and only if what was last stored under its key still stands, was built for
   the version the request read, and by a request that began at most 30 seconds earlier; and it returns
   exactly the tree stored then.
   */
  lemma HitsWhatWasStored(worlds: seq<World>, steps: seq<Step>, n: nat)
    requires IsRun(worlds, steps) && n < |steps| && steps[n].Look?
    ensures var q, q' := worlds[n].requests[steps[n].r], worlds[n+1].requests[steps[n].r];
            && q.Versioned?
            && (q'.Returned? <==> exists m: nat :: Serves(worlds, steps, m, n, q))
            && (forall m: nat :: Serves(worlds, steps, m, n, q) ==>
                  q' == Returned(q.key, q.version, StoredBy(worlds, steps, m).tree, true))
  {
    var q := worlds[n].requests[steps[n].r];
    CachedIsStored(worlds, steps, n, q.key);
    if LookUp(worlds[n], q).Some? {
      var m: nat :| Stands(worlds, steps, m, n, q.key);
      assert HoldsStored(worlds, steps, m, n, q.key);
      assert Serves(worlds, steps, m, n, q);
    }
    forall m: nat | Serves(worlds, steps, m, n, q)
      ensures LookUp(worlds[n], q).Some? && LookUp(worlds[n], q).value.tree == StoredBy(worlds, steps, m).tree
    {
      assert HoldsStored(worlds, steps, m, n, q.key);
    }
  }

  // ---------- the life of a request ----------

  ghost predicate BeganAt(worlds: seq<World>, steps: seq<Step>, a: nat, n: nat, r: nat, key: CacheKey, now: int) {
    && a < n <= |steps| && n <= |worlds| && steps[a] == Begin(key)
    && r == |worlds[a].requests| && now == worlds[a].clock
  }

  ghost predicate ReadAt(worlds: seq<World>, steps: seq<Step>, b: nat, n: nat, r: nat, key: CacheKey, version: nat) {
    && b < n <= |steps| && n <= |worlds| && steps[b] == ReadVersion(r) && version == VersionOf(worlds[b], key.run)
  }

  ghost predicate BuiltAt(worlds: seq<World>, steps: seq<Step>, d: nat, n: nat, r: nat, key: CacheKey, tree: nat) {
    && d < n <= |steps| && n <= |worlds| && steps[d] == Build(r) && tree == VersionOf(worlds[d], key.run)
  }

  ghost predicate Began(worlds: seq<World>, steps: seq<Step>, n: nat, r: nat, key: CacheKey, now: int) {
    exists a: nat :: BeganAt(worlds, steps, a, n, r, key, now)
  }

  ghost predicate Read(worlds: seq<World>, steps: seq<Step>, n: nat, r: nat, key: CacheKey, version: nat) {
    exists b: nat :: ReadAt(worlds, steps, b, n, r, key, version)
  }

  ghost predicate Made(worlds: seq<World>, steps: seq<Step>, n: nat, r: nat, key: CacheKey, tree: nat) {
    exists d: nat :: BuiltAt(worlds, steps, d, n, r, key, tree)
  }

  /** What a request knows was so at the moments it took it. */
  ghost predicate HasLived(worlds: seq<World>, steps: seq<Step>, n: nat, r: nat, q: Request) {
    match q
    case Started(key, now) => Began(worlds, steps, n, r, key, now)
    case Versioned(key, now, version) => Began(worlds, steps, n, r, key, now) && Read(worlds, steps, n, r, key, version)
    case Building(key, now, version) => Began(worlds, steps, n, r, key, now) && Read(worlds, steps, n, r, key, version)
    case Built(key, now, version, tree) =>
      && Began(worlds, steps, n, r, key, now) && Read(worlds, steps, n, r, key, version)
      && Made(worlds, steps, n, r, key, tree)
    case Returned(key, version, tree, hit) =>
      Read(worlds, steps, n, r, key, version) && (!hit ==> Made(worlds, steps, n, r, key, tree))
  }

  lemma LivesOn(worlds: seq<World>, steps: seq<Step>, n: nat, r: nat, q: Request)
    requires HasLived(worlds, steps, n, r, q) && n < |steps| && n < |worlds|
    ensures HasLived(worlds, steps, n + 1, r, q)
  {
    forall key, now | Began(worlds, steps, n, r, key, now) ensures Began(worlds, steps, n + 1, r, key, now) {
      var a: nat :| BeganAt(worlds, steps, a, n, r, key, now);
      assert BeganAt(worlds, steps, a, n + 1, r, key, now);
    }
    forall key, version | Read(worlds, steps, n, r, key, version) ensures Read(worlds, steps, n + 1, r, key, version) {
      var b: nat :| ReadAt(worlds, steps, b, n, r, key, version);
      assert ReadAt(worlds, steps, b, n + 1, r, key, version);
    }
    forall key, tree | Made(worlds, steps, n, r, key, tree) ensures Made(worlds, steps, n + 1, r, key, tree) {
      var d: nat :| BuiltAt(worlds, steps, d, n, r, key, tree);
      assert BuiltAt(worlds, steps, d, n + 1, r, key, tree);
    }
  }

  lemma RequestLives(worlds: seq<World>, steps: seq<Step>, n: nat, r: nat)
    requires n < |steps| && n < |worlds| && Enabled(worlds[n], steps[n]) && r < |Next(worlds[n], steps[n]).requests|
    requires r < |worlds[n].requests| ==> HasLived(worlds, steps, n, r, worlds[n].requests[r])
    ensures HasLived(worlds, steps, n + 1, r, Next(worlds[n], steps[n]).requests[r])
  {
    var w, st := worlds[n], steps[n];
    if r < |w.requests| { LivesOn(worlds, steps, n, r, w.requests[r]); }
    match st
    case Begin(key) => assert BeganAt(worlds, steps, n, n + 1, |w.requests|, key, w.clock);
    case ReadVersion(x) =>
      assert ReadAt(worlds, steps, n, n + 1, x, w.requests[x].key, VersionOf(w, w.requests[x].key.run));
    case Build(x) => assert BuiltAt(worlds, steps, n, n + 1, x, w.requests[x].key, VersionOf(w, w.requests[x].key.run));
    case _ =>
  }

  /**
   In every run, the version of a request is that of its run when the request read it, its time that of its
   beginning, and a tree it built that of the moment at which it built it.
   */
  lemma {:induction false} RequestsTellTheTruth(worlds: seq<World>, steps: seq<Step>, n: nat, r: nat)
    requires IsRun(worlds, steps) && n < |worlds| && r < |worlds[n].requests|
    ensures HasLived(worlds, steps, n, r, worlds[n].requests[r])
    decreases n
  {
    if n == 0 {
    } else {
      if r < |worlds[n-1].requests| { RequestsTellTheTruth(worlds, steps, n - 1, r); }
      RequestLives(worlds, steps, n - 1, r);
    }
  }
}
