/** Which locks the pool gives up, and when: exactly the oldest of those that nobody refers to. */
module KeyedLocksEviction {
  import opened Sequences
  import opened KeyedLocks

  // ---------- the pool lists its keys by age ----------

  /** The keys are listed from the oldest lock to the newest; lock objects are numbered as they are made. */
  ghost predicate ByAge(keys: seq<Key>, locks: map<Key, nat>) {
    forall i, j :: 0 <= i < j < |keys| ==> Older(locks, keys[i], keys[j])
  }

  predicate Older(locks: map<Key, nat>, k: Key, k': Key) {
    k in locks && k' in locks && locks[k] < locks[k']
  }

  lemma {:induction false} WithoutFilters(keys: seq<Key>, gone: set<Key>) returns (at: seq<nat>)
    ensures Filters(keys, at, Without(keys, gone), k => k !in gone)
    decreases |keys|
  {
    if keys == [] {
      at := [];
    } else {
      var front, last := keys[..|keys|-1], keys[|keys|-1];
      at := WithoutFilters(front, gone);
      WithoutSnoc(front, last, gone);
      FiltersSnoc(front, at, Without(front, gone), k => k !in gone, last);
      assert keys == front + [last];
      if last !in gone { at := at + [|front|]; }
    }
  }

  lemma {:induction false} WithoutSnoc(keys: seq<Key>, key: Key, gone: set<Key>)
    ensures Without(keys + [key], gone) == Without(keys, gone) + (if key in gone then [] else [key])
    decreases |keys|
  {
    if keys == [] {
      assert keys + [key] == [key];
    } else {
      assert (keys + [key])[1..] == keys[1..] + [key];
      WithoutSnoc(keys[1..], key, gone);
    }
  }

  lemma WithoutByAge(keys: seq<Key>, gone: set<Key>, locks: map<Key, nat>)
    requires ByAge(keys, locks)
    ensures ByAge(Without(keys, gone), locks - gone)
  {
    var at := WithoutFilters(keys, gone);
    var left := Without(keys, gone);
    WithoutMembers(keys, gone);
    forall i, j | 0 <= i < j < |left| ensures Older(locks - gone, left[i], left[j]) {
      assert left[i] in left && left[j] in left;
      assert Older(locks, keys[at[i]], keys[at[j]]);
    }
  }

  lemma AppendByAge(keys: seq<Key>, locks: map<Key, nat>, key: Key, lock: nat)
    requires ByAge(keys, locks) && key !in locks
    requires forall k :: k in keys ==> k in locks && locks[k] < lock
    ensures ByAge(keys + [key], locks[key := lock])
  {
    forall i, j | 0 <= i < j < |keys| + 1
      ensures Older(locks[key := lock], (keys + [key])[i], (keys + [key])[j])
    {
      assert keys[i] in keys;
      if j < |keys| { assert Older(locks, keys[i], keys[j]) && keys[j] in keys; }
    }
  }

  lemma AcquireByAge(s: System, c: nat, key: Key)
    requires Inv(s) && CanAcquire(s, c) && ByAge(s.pool.order, s.pool.locks)
    ensures ByAge(Acquire(s, c, key).pool.order, Acquire(s, c, key).pool.locks)
  {
    if key !in s.pool.locks {
      var q := MakeRoom(s.pool, Held(s));
      MakeRoomLeavesRoom(s.pool, Held(s));
      if |s.pool.locks| >= s.pool.maxSize {
        var gone := set k | k in Victims(s.pool, Held(s));
        WithoutByAge(s.pool.order, gone, s.pool.locks);
      }
      AppendByAge(q.order, q.locks, key, s.nextLock);
    }
  }

  // ---------- only live keys are counted ----------

  /** No count of zero is kept. */
  ghost predicate PositiveRefs(s: System) {
    forall k :: k in s.pool.refs ==> s.pool.refs[k] > 0
  }

  lemma RefsAreLive(s: System)
    requires Inv(s) && PositiveRefs(s)
    ensures s.pool.refs.Keys == LiveKeys(s)
  {
    forall k ensures k in s.pool.refs <==> k in LiveKeys(s) {
      assert RefCount(s.pool, k) == |CallersOf(s, k)|;
      if k in s.pool.refs {
        assert CallersOf(s, k) != {};
        var c :| c in CallersOf(s, k);
        assert s.callers[c].key == k;
      }
      if k in LiveKeys(s) {
        var c :| c in s.callers && s.callers[c].key == k;
        assert c in CallersOf(s, k);
      }
    }
  }

  lemma AcquirePositive(s: System, c: nat, key: Key)
    requires Inv(s) && CanAcquire(s, c) && PositiveRefs(s)
    ensures PositiveRefs(Acquire(s, c, key))
  {
    AcquireRefs(s.pool, key, Held(s), s.nextLock);
    assert RefCount(s.pool, key) == |CallersOf(s, key)|;
    forall k | k in Acquire(s, c, key).pool.refs ensures Acquire(s, c, key).pool.refs[k] > 0 {
      AcquireKeepsRefs(s.pool, key, Held(s), s.nextLock, k);
      assert RefCount(s.pool, k) >= 0;
    }
  }

  lemma AcquireKeepsRefs(p: Pool<nat>, key: Key, held: set<nat>, made: nat, k: Key)
    requires k in AcquirePool(p, key, held, made).refs
    ensures k == key || k in p.refs
  {
  }

  ghost predicate Tidy(s: System) {
    PositiveRefs(s) && ByAge(s.pool.order, s.pool.locks)
  }

  lemma PerformTidy(s: System, a: Action)
    requires Inv(s) && Can(s, a) && Tidy(s)
    ensures Tidy(Perform(s, a))
  {
    match a
    case DoAcquire(c, key) => AcquirePositive(s, c, key); AcquireByAge(s, c, key);
    case DoRelease(key) => if Idle(s.pool, Held(s), key) { WithoutByAge(s.pool.order, {key}, s.pool.locks); }
    case _ =>
  }

  lemma {:induction false} RunIsTidy(states: seq<System>, actions: seq<Action>, maxSize: int, n: nat)
    requires IsRun(states, actions, maxSize) && n < |states|
    ensures Tidy(states[n])
  {
    if n == 0 {
    } else {
      RunIsTidy(states, actions, maxSize, n - 1);
      RunInv(states, actions, maxSize, n - 1);
      PerformTidy(states[n-1], actions[n-1]);
    }
  }

  /**
   In every run the reference counts are kept for exactly the keys that have a caller, and the keys are
   listed from the oldest lock to the newest.
   */
  lemma RunCountsLiveKeys(states: seq<System>, actions: seq<Action>, maxSize: int, n: nat)
    requires IsRun(states, actions, maxSize) && n < |states|
    ensures states[n].pool.refs.Keys == LiveKeys(states[n])
    ensures ByAge(states[n].pool.order, states[n].pool.locks)
  {
    RunInv(states, actions, maxSize, n);
    RunIsTidy(states, actions, maxSize, n);
    RefsAreLive(states[n]);
  }

  // ---------- what eviction takes ----------

  /** How many of `n` idle keys go: half of them, but one if there is one. */
  function Share(n: nat): nat {
    if n < 2 then n else n / 2
  }

  lemma {:induction false} IdleKeysFilter<L>(p: Pool<L>, held: set<L>, keys: seq<Key>) returns (at: seq<nat>)
    ensures Filters(keys, at, IdleKeys(p, held, keys), k => Idle(p, held, k))
    decreases |keys|
  {
    if keys == [] {
      at := [];
    } else {
      var front, last := keys[..|keys|-1], keys[|keys|-1];
      at := IdleKeysFilter(p, held, front);
      IdleKeysSnoc(p, held, front, last);
      FiltersSnoc(front, at, IdleKeys(p, held, front), k => Idle(p, held, k), last);
      assert keys == front + [last];
      if Idle(p, held, last) { at := at + [|front|]; }
    }
  }

  lemma {:induction false} DistinctSize(keys: seq<Key>, members: set<Key>)
    requires NoDuplicates(keys) && forall k :: k in members <==> k in keys
    ensures |members| == |keys|
    decreases |keys|
  {
    if keys == [] {
      assert members == {};
    } else {
      var front, last := keys[..|keys|-1], keys[|keys|-1];
      assert last !in front;
      assert keys == front + [last];
      DistinctSize(front, members - {last});
    }
  }

  /** The idle keys, as a set. */
  function IdleOnes<L(==)>(p: Pool<L>, held: set<L>): set<Key> {
    set k | k in p.locks && p.locks[k] !in held && RefCount(p, k) == 0
  }

  /** Of the idle keys, `gone` is the oldest share by insertion. */
  ghost predicate IsOldestShare(order: seq<Key>, idle: set<Key>, gone: set<Key>) {
    && gone <= idle && |gone| == Share(|idle|)
    && forall i, j :: 0 <= i < j < |order| && order[j] in gone && order[i] in idle ==> order[i] in gone
  }

  lemma VictimsAreOldest<L>(p: Pool<L>, held: set<L>)
    requires WellOrdered(p)
    ensures IsOldestShare(p.order, IdleOnes(p, held), set k | k in Victims(p, held))
  {
    var stale, victims := IdleKeys(p, held, p.order), Victims(p, held);
    var at := IdleKeysFilter(p, held, p.order);
    FiltersKeeps(p.order, at, stale, k => Idle(p, held, k));
    forall i, j | 0 <= i < j < |stale| ensures stale[i] != stale[j] { assert at[i] < at[j]; }
    DistinctSize(stale, IdleOnes(p, held));
    DistinctSize(victims, set k | k in victims);
    OldestFirst(p.order, at, stale, victims);
  }

  lemma OldestFirst(order: seq<Key>, at: seq<nat>, stale: seq<Key>, victims: seq<Key>)
    requires NoDuplicates(order) && ElementsAt(order, at, stale) && victims <= stale
    ensures forall i, j :: 0 <= i < j < |order| && order[j] in victims && order[i] in stale ==> order[i] in victims
  {
    forall i, j | 0 <= i < j < |order| && order[j] in victims && order[i] in stale ensures order[i] in victims {
      var y :| 0 <= y < |victims| && victims[y] == order[j];
      var x :| 0 <= x < |stale| && stale[x] == order[i];
      assert at[y] == j && at[x] == i;
      assert x < y;
      assert victims[x] == stale[x];
    }
  }

  /** The pool `q` is the pool `p` without the keys `gone`; the others keep their order. */
  ghost predicate IsWithout<L>(p: Pool<L>, q: Pool<L>, gone: set<Key>, at: seq<nat>) {
    && q.locks == p.locks - gone && q.refs == p.refs - gone && q.maxSize == p.maxSize
    && Filters(p.order, at, q.order, k => k !in gone)
  }

  lemma DropKeysIsWithout<L>(p: Pool<L>, gone: set<Key>) returns (at: seq<nat>)
    ensures IsWithout(p, DropKeys(p, gone), gone, at)
  {
    at := WithoutFilters(p.order, gone);
  }

  lemma DropNothing<L>(p: Pool<L>)
    ensures DropKeys(p, {}) == p
  {
    WithoutNothing(p.order);
    assert p.locks - {} == p.locks && p.refs - {} == p.refs;
  }

  /** The keys that making room takes. */
  function Evicted<L(==)>(p: Pool<L>, held: set<L>): set<Key> {
    p.locks.Keys - MakeRoom(p, held).locks.Keys
  }

  lemma EvictedAreVictims<L>(p: Pool<L>, held: set<L>)
    requires WellOrdered(p)
    ensures |p.locks| >= p.maxSize ==> Evicted(p, held) == set k | k in Victims(p, held)
    ensures |p.locks| < p.maxSize ==> Evicted(p, held) == {}
    ensures MakeRoom(p, held) == DropKeys(p, Evicted(p, held))
  {
    VictimsAreIdle(p, held);
    DropNothing(p);
    var gone := set k | k in Victims(p, held);
    assert forall k :: k in gone ==> Idle(p, held, k);
    if |p.locks| >= p.maxSize {
      assert MakeRoom(p, held).locks == p.locks - gone;
      assert Evicted(p, held) == gone;
    } else {
      assert Evicted(p, held) == {};
    }
  }

  /**
   Making room in a full pool drops the oldest share of the idle keys, that is half of them but at least
   one, and keeps the rest, in order; in a pool that is not full it drops nothing.
   */
  lemma MakeRoomTakesOldest<L>(p: Pool<L>, held: set<L>) returns (at: seq<nat>)
    requires WellOrdered(p)
    ensures |p.locks| < p.maxSize ==> Evicted(p, held) == {}
    ensures |p.locks| >= p.maxSize ==> IsOldestShare(p.order, IdleOnes(p, held), Evicted(p, held))
    ensures IsWithout(p, MakeRoom(p, held), Evicted(p, held), at)
  {
    EvictedAreVictims(p, held);
    VictimsAreOldest(p, held);
    at := DropKeysIsWithout(p, Evicted(p, held));
  }

  // ---------- what a caller's step does to the pool ----------

  /** The pooled keys that no live caller refers to. */
  function Unused(s: System): set<Key> {
    s.pool.locks.Keys - LiveKeys(s)
  }

  lemma UnusedAreIdle(s: System)
    requires Inv(s)
    ensures IdleOnes(s.pool, Held(s)) == Unused(s)
  {
    InUseAreLive(s);
    forall k | k in IdleOnes(s.pool, Held(s)) ensures k !in LiveKeys(s) {
      assert Idle(s.pool, Held(s), k);
      IdleHasNoCaller(s, k);
      assert forall c :: c in s.callers && s.callers[c].key == k ==> c in CallersOf(s, k);
    }
  }

  /** The keys an acquiring caller drives out. */
  function DrivenOut(s: System, s': System): set<Key> {
    s.pool.locks.Keys - s'.pool.locks.Keys
  }

  lemma OldestByAge(order: seq<Key>, locks: map<Key, nat>, idle: set<Key>, gone: set<Key>)
    requires ByAge(order, locks) && IsOldestShare(order, idle, gone)
    requires forall k :: k in idle ==> k in order
    ensures forall k, k' :: k in gone && k' in idle - gone ==> Older(locks, k, k')
  {
    forall k, k' | k in gone && k' in idle - gone ensures Older(locks, k, k') {
      var i :| 0 <= i < |order| && order[i] == k;
      var j :| 0 <= j < |order| && order[j] == k';
      assert i < j;
    }
  }

  lemma AcquireNewKey(s: System, c: nat, key: Key)
    requires CanAcquire(s, c) && key !in s.pool.locks && WellOrdered(s.pool)
    ensures var s', gone := Acquire(s, c, key), Evicted(s.pool, Held(s));
            && DrivenOut(s, s') == gone
            && s'.pool.locks == (s.pool.locks - gone)[key := s.nextLock]
  {
    EvictedAreVictims(s.pool, Held(s));
    assert Acquire(s, c, key).pool.locks == MakeRoom(s.pool, Held(s)).locks[key := s.nextLock];
  }

  /** Nothing, unless the key is new and the pool full; then the unused keys' oldest share by lock. */
  ghost predicate MakesWay(s: System, key: Key, gone: set<Key>) {
    if key in s.pool.locks || |s.pool.locks| < s.pool.maxSize then gone == {}
    else && gone <= Unused(s) && |gone| == Share(|Unused(s)|)
         && forall k, k' :: k in gone && k' in Unused(s) - gone ==> Older(s.pool.locks, k, k')
  }

  lemma EvictedMakeWay(s: System, key: Key)
    requires Inv(s) && key !in s.pool.locks && ByAge(s.pool.order, s.pool.locks)
    ensures MakesWay(s, key, Evicted(s.pool, Held(s)))
  {
    UnusedAreIdle(s);
    var at := MakeRoomTakesOldest(s.pool, Held(s));
    if |s.pool.locks| >= s.pool.maxSize {
      OldestByAge(s.pool.order, s.pool.locks, Unused(s), Evicted(s.pool, Held(s)));
    }
  }

  /**
   Acquiring a key gives the caller the key's lock, or a new one.  It drives out nothing unless the key is
   new and the pool full, and then half of the unused keys but at least one: those with the oldest locks.
   */
  lemma AcquireDrivesOutOldest(s: System, c: nat, key: Key)
    requires Inv(s) && CanAcquire(s, c) && ByAge(s.pool.order, s.pool.locks)
    ensures var s' := Acquire(s, c, key);
            var gone, lock := DrivenOut(s, s'), if key in s.pool.locks then s.pool.locks[key] else s.nextLock;
            && MakesWay(s, key, gone)
            && s'.callers == s.callers[c := Caller(key, lock, false)]
            && s'.pool.locks == (s.pool.locks - gone)[key := lock]
  {
    if key in s.pool.locks {
      assert DrivenOut(s, Acquire(s, c, key)) == {};
      assert (s.pool.locks - {})[key := s.pool.locks[key]] == s.pool.locks;
    } else {
      EvictedMakeWay(s, key);
      AcquireNewKey(s, c, key);
    }
  }

  /** Releasing a key drops it if it is pooled and no live caller refers to it, and changes nothing else. */
  lemma ReleaseDropsUnused(s: System, key: Key)
    requires Inv(s)
    ensures var s' := Release(s, key);
            && s'.callers == s.callers
            && (if key in Unused(s) then s'.pool.locks == s.pool.locks - {key} else s' == s)
  {
    UnusedAreIdle(s);
  }
}
