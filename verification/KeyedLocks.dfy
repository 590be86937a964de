/**
 The pool of per-key locks: dictionaries of locks and reference counts with eviction of idle keys.

 `Pool` is the value of the two dictionaries, over any type of lock identity.  `System` adds the
 callers, which take a lock from the pool, wait for it, leave it and give back their reference; its
 lemmas say why eviction is safe.  The class at the end is the pool as the code has it.
 */
module KeyedLocks {
  import opened Sequences

  /** Locks are keyed by a session's identifier. */
  datatype Key = Key(id: string)

  // ---------- the two dictionaries ----------

  datatype Pool<L> = Pool(
    order: seq<Key>,        // keys of `locks` in insertion order
    locks: map<Key, L>,
    refs: map<Key, int>,
    maxSize: int)

  function RefCount<L>(p: Pool<L>, key: Key): int {
    if key in p.refs then p.refs[key] else 0
  }

  predicate Idle<L(==)>(p: Pool<L>, held: set<L>, key: Key) {
    key in p.locks && p.locks[key] !in held && RefCount(p, key) == 0
  }

  /** The keys among `keys` that may be dropped, in order. */
  function IdleKeys<L(==)>(p: Pool<L>, held: set<L>, keys: seq<Key>): seq<Key> {
    if keys == [] then []
    else (if Idle(p, held, keys[0]) then [keys[0]] else []) + IdleKeys(p, held, keys[1..])
  }

  /** Half of the idle keys, but at least one if there is one: the oldest go. */
  function Victims<L(==)>(p: Pool<L>, held: set<L>): seq<Key> {
    var stale := IdleKeys(p, held, p.order);
    var n := if |stale| / 2 >= 1 then |stale| / 2 else 1;
    if n <= |stale| then stale[..n] else stale
  }

  function Without(keys: seq<Key>, gone: set<Key>): seq<Key> {
    if keys == [] then []
    else (if keys[0] in gone then [] else [keys[0]]) + Without(keys[1..], gone)
  }

  function DropKeys<L>(p: Pool<L>, gone: set<Key>): Pool<L> {
    p.(order := Without(p.order, gone), locks := p.locks - gone, refs := p.refs - gone)
  }

  function MakeRoom<L(==)>(p: Pool<L>, held: set<L>): Pool<L> {
    if |p.locks| >= p.maxSize then DropKeys(p, set k | k in Victims(p, held)) else p
  }

  function AddLock<L>(p: Pool<L>, key: Key, lock: L): Pool<L> {
    p.(order := p.order + [key], locks := p.locks[key := lock])
  }

  function AddRef<L>(p: Pool<L>, key: Key): Pool<L> {
    p.(refs := p.refs[key := RefCount(p, key) + 1])
  }

  /** Acquiring `key`; `made` is the lock created if the pool has none for it. */
  function AcquirePool<L(==)>(p: Pool<L>, key: Key, held: set<L>, made: L): Pool<L> {
    if key in p.locks then AddRef(p, key)
    else AddRef(AddLock(MakeRoom(p, held), key, made), key)
  }

  function UnrefPool<L>(p: Pool<L>, key: Key): Pool<L> {
    var count := RefCount(p, key) - 1;
    p.(refs := if count <= 0 then p.refs - {key} else p.refs[key := count])
  }

  function ReleasePool<L(==)>(p: Pool<L>, key: Key, held: set<L>): Pool<L> {
    if Idle(p, held, key) then DropKeys(p, {key}) else p
  }

  // ---------- callers ----------

  datatype Caller = Caller(key: Key, lock: nat, inside: bool)

  /** Live callers are those between their acquire and their unref. */
  datatype System = System(
    pool: Pool<nat>,
    callers: map<nat, Caller>,
    nextLock: nat,             // a lock object never made before
    peak: nat)                 // the most keys that ever had a live caller at one time

  function Held(s: System): set<nat> {
    set c | c in s.callers && s.callers[c].inside :: s.callers[c].lock
  }

  function LiveKeys(s: System): set<Key> {
    set c | c in s.callers :: s.callers[c].key
  }

  function CallersOf(s: System, key: Key): set<nat> {
    set c | c in s.callers && s.callers[c].key == key
  }

  function NewSystem(maxSize: int): System {
    System(Pool([], map[], map[], maxSize), map[], 0, 0)
  }

  predicate CanAcquire(s: System, c: nat) {
    c !in s.callers
  }

  function Acquire(s: System, c: nat, key: Key): System
    requires CanAcquire(s, c)
  {
    var pool := AcquirePool(s.pool, key, Held(s), s.nextLock);
    var lock := if key in s.pool.locks then s.pool.locks[key] else s.nextLock;
    var s1 := s.(pool := pool, callers := s.callers[c := Caller(key, lock, false)], nextLock := s.nextLock + 1);
    s1.(peak := if |LiveKeys(s1)| > s.peak then |LiveKeys(s1)| else s.peak)
  }

  predicate CanEnter(s: System, c: nat) {
    c in s.callers && !s.callers[c].inside && s.callers[c].lock !in Held(s)
  }

  function Enter(s: System, c: nat): System
    requires CanEnter(s, c)
  {
    s.(callers := s.callers[c := s.callers[c].(inside := true)])
  }

  predicate CanLeave(s: System, c: nat) {
    c in s.callers && s.callers[c].inside
  }

  function Leave(s: System, c: nat): System
    requires CanLeave(s, c)
  {
    s.(callers := s.callers[c := s.callers[c].(inside := false)])
  }

  predicate CanUnref(s: System, c: nat) {
    c in s.callers && !s.callers[c].inside
  }

  function Unref(s: System, c: nat): System
    requires CanUnref(s, c)
  {
    s.(pool := UnrefPool(s.pool, s.callers[c].key), callers := s.callers - {c})
  }

  function Release(s: System, key: Key): System {
    s.(pool := ReleasePool(s.pool, key, Held(s)))
  }

  // ---------- the invariant ----------

  ghost predicate WellOrdered<L>(p: Pool<L>) {
    NoDuplicates(p.order) && forall k :: k in p.locks <==> k in p.order
  }

  ghost predicate OwnLocks(s: System) {
    && (forall c :: c in s.callers ==> s.callers[c].key in s.pool.locks && s.pool.locks[s.callers[c].key] == s.callers[c].lock)
    && (forall k :: k in s.pool.locks ==> s.pool.locks[k] < s.nextLock)
    && (forall k, k' :: k in s.pool.locks && k' in s.pool.locks && s.pool.locks[k] == s.pool.locks[k'] ==> k == k')
  }

  ghost predicate Counted(s: System) {
    forall k :: RefCount(s.pool, k) == |CallersOf(s, k)|
  }

  ghost predicate Exclusive(s: System) {
    forall c, d ::
      (c in s.callers && d in s.callers && s.callers[c].inside && s.callers[d].inside
       && s.callers[c].lock == s.callers[d].lock)
      ==> c == d
  }

  function Max(a: int, b: int): int {
    if a > b then a else b
  }

  ghost predicate Bounded(s: System) {
    |LiveKeys(s)| <= s.peak && |s.pool.locks| <= Max(s.pool.maxSize, s.peak)
  }

  ghost predicate Inv(s: System) {
    WellOrdered(s.pool) && OwnLocks(s) && Counted(s) && Exclusive(s) && Bounded(s)
  }

  // ---------- what the invariant says to a caller ----------

  /** Live callers of one key hold one lock object, and never two of them are inside. */
  lemma SameKeySameLock(s: System, c: nat, d: nat)
    requires Inv(s) && c in s.callers && d in s.callers && s.callers[c].key == s.callers[d].key
    ensures s.callers[c].lock == s.callers[d].lock
    ensures s.callers[c].inside && s.callers[d].inside ==> c == d
  {
  }

  // ---------- dictionaries ----------

  lemma {:induction false} WithoutMembers(keys: seq<Key>, gone: set<Key>)
    ensures forall k :: k in Without(keys, gone) <==> k in keys && k !in gone
    ensures NoDuplicates(keys) ==> NoDuplicates(Without(keys, gone))
  {
    if keys == [] {
    } else {
      WithoutMembers(keys[1..], gone);
      assert keys == [keys[0]] + keys[1..];
      if NoDuplicates(keys) {
        assert NoDuplicates(keys[1..]);
        assert keys[0] !in keys[1..];
      }
    }
  }

  lemma {:induction false} WithoutNothing(keys: seq<Key>)
    ensures Without(keys, {}) == keys
  {
    if keys == [] {
    } else {
      WithoutNothing(keys[1..]);
    }
  }

  lemma {:induction false} WithoutTwice(keys: seq<Key>, gone: set<Key>, key: Key)
    ensures Without(Without(keys, gone), {key}) == Without(keys, gone + {key})
  {
    if keys == [] {
    } else {
      WithoutTwice(keys[1..], gone, key);
      var rest := Without(keys[1..], gone);
      if keys[0] !in gone {
        assert Without(keys, gone) == [keys[0]] + rest;
        assert ([keys[0]] + rest)[1..] == rest;
      } else {
        assert Without(keys, gone) == rest;
      }
    }
  }

  lemma {:induction false} IdleKeysSnoc<L>(p: Pool<L>, held: set<L>, keys: seq<Key>, key: Key)
    ensures IdleKeys(p, held, keys + [key]) == IdleKeys(p, held, keys) + (if Idle(p, held, key) then [key] else [])
  {
    if keys == [] {
      assert keys + [key] == [key];
    } else {
      assert (keys + [key])[1..] == keys[1..] + [key];
      IdleKeysSnoc(p, held, keys[1..], key);
    }
  }

  lemma {:induction false} IdleKeysMembers<L>(p: Pool<L>, held: set<L>, keys: seq<Key>)
    ensures forall k :: k in IdleKeys(p, held, keys) <==> k in keys && Idle(p, held, k)
  {
    if keys == [] {
    } else {
      IdleKeysMembers(p, held, keys[1..]);
      assert keys == [keys[0]] + keys[1..];
    }
  }

  /** Only idle keys are dropped to make room, and one is dropped whenever there is one. */
  lemma VictimsAreIdle<L>(p: Pool<L>, held: set<L>)
    requires WellOrdered(p)
    ensures forall k :: k in Victims(p, held) ==> Idle(p, held, k)
    ensures (exists k :: Idle(p, held, k)) ==> Victims(p, held) != []
  {
    IdleKeysMembers(p, held, p.order);
    var stale := IdleKeys(p, held, p.order);
    assert forall k :: k in Victims(p, held) ==> k in stale;
    if k :| Idle(p, held, k) {
      assert k in stale;
      assert |stale| >= 1;
    }
  }

  lemma DropKeysWellOrdered<L>(p: Pool<L>, gone: set<Key>)
    requires WellOrdered(p)
    ensures WellOrdered(DropKeys(p, gone))
  {
    WithoutMembers(p.order, gone);
  }

  /** What dropping idle keys leaves. */
  ghost predicate Thinned<L>(p: Pool<L>, held: set<L>, q: Pool<L>) {
    && WellOrdered(q) && q.maxSize == p.maxSize
    && (forall k :: k in q.locks ==> k in p.locks && q.locks[k] == p.locks[k])
    && (forall k :: k in p.locks && !Idle(p, held, k) ==> k in q.locks)
    && (forall k :: RefCount(q, k) == RefCount(p, k))
    && |q.locks| <= |p.locks|
  }

  lemma DropIdleThins<L>(p: Pool<L>, held: set<L>, gone: set<Key>)
    requires WellOrdered(p)
    requires forall k :: k in gone ==> Idle(p, held, k)
    ensures Thinned(p, held, DropKeys(p, gone))
    ensures gone != {} ==> |DropKeys(p, gone).locks| < |p.locks|
  {
    DropKeysWellOrdered(p, gone);
    DropIdleRefs(p, held, gone);
    DropIdleSize(p, held, gone);
  }

  lemma DropIdleRefs<L>(p: Pool<L>, held: set<L>, gone: set<Key>)
    requires forall k :: k in gone ==> Idle(p, held, k)
    ensures forall k :: RefCount(DropKeys(p, gone), k) == RefCount(p, k)
  {
    forall k ensures RefCount(DropKeys(p, gone), k) == RefCount(p, k) {
      if k in gone { assert Idle(p, held, k); }
    }
  }

  lemma DropIdleSize<L>(p: Pool<L>, held: set<L>, gone: set<Key>)
    requires forall k :: k in gone ==> Idle(p, held, k)
    ensures |DropKeys(p, gone).locks| <= |p.locks|
    ensures gone != {} ==> |DropKeys(p, gone).locks| < |p.locks|
  {
    var left := p.locks - gone;
    assert left.Keys == p.locks.Keys - gone;
    SubsetSize(left.Keys, p.locks.Keys);
    if gone != {} {
      var g :| g in gone;
      assert Idle(p, held, g);
      SubsetSize(left.Keys, p.locks.Keys - {g});
    }
  }

  /** After making room, either the pool is below its size or every remaining key is in use. */
  lemma MakeRoomLeavesRoom<L>(p: Pool<L>, held: set<L>)
    requires WellOrdered(p)
    ensures Thinned(p, held, MakeRoom(p, held))
    ensures var q := MakeRoom(p, held);
            |q.locks| < |p.locks| || |q.locks| < p.maxSize || forall k :: k in q.locks ==> !Idle(p, held, k)
  {
    var gone := set k | k in Victims(p, held);
    VictimsAreIdle(p, held);
    DropIdleThins(p, held, gone);
    if Victims(p, held) != [] {
      assert Victims(p, held)[0] in gone;
    }
  }

  lemma {:induction false} SubsetSize<T>(a: set<T>, b: set<T>)
    requires a <= b
    ensures |a| <= |b|
    decreases |a|
  {
    if a == {} {
    } else {
      var x :| x in a;
      SubsetSize(a - {x}, b - {x});
    }
  }

  // ---------- every step keeps the invariant ----------

  lemma NewSystemInv(maxSize: int)
    ensures Inv(NewSystem(maxSize))
  {
    forall k ensures CallersOf(NewSystem(maxSize), k) == {} { }
  }

  lemma InUseIsLive(s: System, key: Key)
    requires Inv(s) && key in s.pool.locks && !Idle(s.pool, Held(s), key)
    ensures key in LiveKeys(s)
  {
    if RefCount(s.pool, key) == 0 {
      var c :| c in s.callers && s.callers[c].inside && s.callers[c].lock == s.pool.locks[key];
      assert s.callers[c].key == key;
    } else {
      assert |CallersOf(s, key)| != 0;
      var c :| c in CallersOf(s, key);
      assert s.callers[c].key == key;
    }
  }

  lemma IdleHasNoCaller(s: System, key: Key)
    requires Inv(s) && Idle(s.pool, Held(s), key)
    ensures CallersOf(s, key) == {}
  {
    assert RefCount(s.pool, key) == |CallersOf(s, key)|;
  }

  lemma SameLiveKeys(s: System, s': System)
    requires s'.callers.Keys == s.callers.Keys
    requires forall c :: c in s.callers ==> s'.callers[c].key == s.callers[c].key
    ensures LiveKeys(s') == LiveKeys(s)
    ensures forall k :: CallersOf(s', k) == CallersOf(s, k)
  {
    forall k | k in LiveKeys(s) ensures k in LiveKeys(s') {
      var c :| c in s.callers && s.callers[c].key == k;
      assert s'.callers[c].key == k;
    }
    forall k ensures CallersOf(s', k) == CallersOf(s, k) { }
  }

  lemma AddRefCounts<L>(p: Pool<L>, key: Key)
    ensures forall k :: RefCount(AddRef(p, key), k) == RefCount(p, k) + (if k == key then 1 else 0)
  {
  }

  lemma AcquireRefs(p: Pool<nat>, key: Key, held: set<nat>, made: nat)
    requires WellOrdered(p)
    ensures var q := AcquirePool(p, key, held, made);
            forall k :: RefCount(q, k) == RefCount(p, k) + (if k == key then 1 else 0)
  {
    if key in p.locks {
      AddRefCounts(p, key);
    } else {
      var q := MakeRoom(p, held);
      MakeRoomLeavesRoom(p, held);
      AddRefCounts(AddLock(q, key, made), key);
      forall k ensures RefCount(AddLock(q, key, made), k) == RefCount(p, k) {
        assert RefCount(q, k) == RefCount(p, k);
      }
    }
  }

  lemma OneMoreCaller(s: System, s': System, c: nat, caller: Caller)
    requires Counted(s) && c !in s.callers && s'.callers == s.callers[c := caller]
    requires forall k :: RefCount(s'.pool, k) == RefCount(s.pool, k) + (if k == caller.key then 1 else 0)
    ensures Counted(s')
  {
    forall k ensures RefCount(s'.pool, k) == |CallersOf(s', k)| {
      assert RefCount(s.pool, k) == |CallersOf(s, k)|;
      if k == caller.key {
        assert CallersOf(s', k) == CallersOf(s, k) + {c};
      } else {
        assert CallersOf(s', k) == CallersOf(s, k);
      }
    }
  }

  lemma AcquireLive(s: System, c: nat, key: Key)
    requires CanAcquire(s, c)
    ensures LiveKeys(Acquire(s, c, key)) == LiveKeys(s) + {key}
  {
    var s' := Acquire(s, c, key);
    forall k | k in LiveKeys(s) + {key} ensures k in LiveKeys(s') {
      if k != key {
        var d :| d in s.callers && s.callers[d].key == k;
        assert s'.callers[d].key == k;
      } else {
        assert s'.callers[c].key == k;
      }
    }
  }

  lemma InUseAreLive(s: System)
    requires Inv(s)
    ensures forall k :: k in s.pool.locks && !Idle(s.pool, Held(s), k) ==> k in LiveKeys(s)
  {
    forall k | k in s.pool.locks && !Idle(s.pool, Held(s), k) ensures k in LiveKeys(s) {
      InUseIsLive(s, k);
    }
  }

  /** The bound on the pool's size, from what making room left. */
  lemma RoomIsBounded(before: set<Key>, room: set<Key>, live: set<Key>, key: Key, maxSize: int, peak: int)
    requires |before| <= Max(maxSize, peak) && |live| <= peak && room <= before && key !in before && key in live
    requires |room| < |before| || |room| < maxSize || room <= live
    ensures |room + {key}| <= Max(maxSize, peak)
  {
    if room <= live {
      SubsetSize(room + {key}, live);
    }
  }

  lemma AcquireKeys(p: Pool<nat>, key: Key, held: set<nat>, made: nat)
    ensures var q := AcquirePool(p, key, held, made);
            && q.maxSize == p.maxSize
            && q.locks.Keys == (if key in p.locks then p.locks.Keys else MakeRoom(p, held).locks.Keys + {key})
  {
  }

  lemma AcquireBounded(s: System, c: nat, key: Key)
    requires Inv(s) && CanAcquire(s, c)
    ensures Bounded(Acquire(s, c, key))
  {
    var s' := Acquire(s, c, key);
    AcquireLive(s, c, key);
    AcquireKeys(s.pool, key, Held(s), s.nextLock);
    if key !in s.pool.locks {
      NewKeyInRoom(s, LiveKeys(s'), key, s'.peak);
    }
    assert |s'.pool.locks| == |s'.pool.locks.Keys|;
  }

  lemma NewKeyInRoom(s: System, live: set<Key>, key: Key, peak: int)
    requires Inv(s) && key !in s.pool.locks
    requires live == LiveKeys(s) + {key} && |live| <= peak && s.peak <= peak
    ensures |MakeRoom(s.pool, Held(s)).locks.Keys + {key}| <= Max(s.pool.maxSize, peak)
  {
    MakeRoomLeavesRoom(s.pool, Held(s));
    InUseAreLive(s);
    NewKeyBounded(s, MakeRoom(s.pool, Held(s)), live, key, peak);
  }

  lemma NewKeyBounded(s: System, q: Pool<nat>, live: set<Key>, key: Key, peak: int)
    requires Bounded(s) && key !in s.pool.locks && Thinned(s.pool, Held(s), q)
    requires |q.locks| < |s.pool.locks| || |q.locks| < s.pool.maxSize || forall k :: k in q.locks ==> !Idle(s.pool, Held(s), k)
    requires forall k :: k in s.pool.locks && !Idle(s.pool, Held(s), k) ==> k in LiveKeys(s)
    requires live == LiveKeys(s) + {key} && |live| <= peak && s.peak <= peak
    ensures |q.locks.Keys + {key}| <= Max(s.pool.maxSize, peak)
  {
    assert q.locks.Keys <= s.pool.locks.Keys;
    RoomIsBounded(s.pool.locks.Keys, q.locks.Keys, live, key, s.pool.maxSize, peak);
  }

  lemma LiveKeySurvives(s: System, d: nat)
    requires Inv(s) && d in s.callers
    ensures !Idle(s.pool, Held(s), s.callers[d].key)
  {
    var key := s.callers[d].key;
    assert d in CallersOf(s, key);
    assert RefCount(s.pool, key) == |CallersOf(s, key)|;
  }

  lemma LiveKeysSurvive(s: System, q: Pool<nat>)
    requires Inv(s) && Thinned(s.pool, Held(s), q)
    ensures forall d :: d in s.callers ==> s.callers[d].key in q.locks && q.locks[s.callers[d].key] == s.callers[d].lock
  {
    forall d | d in s.callers ensures s.callers[d].key in q.locks {
      LiveKeySurvives(s, d);
    }
  }

  lemma AppendWellOrdered<L>(q: Pool<L>, p: Pool<L>, key: Key, lock: L)
    requires WellOrdered(q) && key !in q.locks
    requires p.order == q.order + [key] && p.locks == q.locks[key := lock]
    ensures WellOrdered(p)
  {
    assert key !in q.order;
  }

  lemma NewLockOwned(s: System, q: Pool<nat>, s': System, c: nat, key: Key)
    requires OwnLocks(s) && key !in s.pool.locks
    requires forall k :: k in q.locks ==> k in s.pool.locks && q.locks[k] == s.pool.locks[k]
    requires forall d :: d in s.callers ==> s.callers[d].key in q.locks
    requires s'.pool.locks == q.locks[key := s.nextLock]
    requires s'.callers == s.callers[c := Caller(key, s.nextLock, false)] && s'.nextLock == s.nextLock + 1
    ensures OwnLocks(s')
  {
  }

  lemma AcquireOwns(s: System, c: nat, key: Key)
    requires Inv(s) && CanAcquire(s, c)
    ensures var s' := Acquire(s, c, key); WellOrdered(s'.pool) && OwnLocks(s')
  {
    var s' := Acquire(s, c, key);
    if key !in s.pool.locks {
      var q := MakeRoom(s.pool, Held(s));
      MakeRoomLeavesRoom(s.pool, Held(s));
      LiveKeysSurvive(s, q);
      AppendWellOrdered(q, s'.pool, key, s.nextLock);
      NewLockOwned(s, q, s', c, key);
    }
  }

  lemma AcquireExcludes(s: System, c: nat, key: Key)
    requires Exclusive(s) && CanAcquire(s, c)
    ensures Exclusive(Acquire(s, c, key))
  {
  }

  lemma AcquireInv(s: System, c: nat, key: Key)
    requires Inv(s) && CanAcquire(s, c)
    ensures Inv(Acquire(s, c, key))
  {
    AcquireOwns(s, c, key);
    AcquireExcludes(s, c, key);
    AcquireRefs(s.pool, key, Held(s), s.nextLock);
    OneMoreCaller(s, Acquire(s, c, key), c, Acquire(s, c, key).callers[c]);
    AcquireBounded(s, c, key);
  }

  lemma EnterExcludes(s: System, c: nat)
    requires Exclusive(s) && CanEnter(s, c)
    ensures Exclusive(Enter(s, c))
  {
    assert forall d :: d in s.callers && s.callers[d].inside ==> s.callers[d].lock in Held(s);
  }

  lemma EnterInv(s: System, c: nat)
    requires Inv(s) && CanEnter(s, c)
    ensures Inv(Enter(s, c))
  {
    SameLiveKeys(s, Enter(s, c));
    EnterExcludes(s, c);
  }

  lemma LeaveInv(s: System, c: nat)
    requires Inv(s) && CanLeave(s, c)
    ensures Inv(Leave(s, c))
  {
    var s' := Leave(s, c);
    SameLiveKeys(s, s');
  }

  lemma OneFewerCaller(s: System, s': System, c: nat, key: Key)
    requires Counted(s) && c in s.callers && s.callers[c].key == key && s'.callers == s.callers - {c}
    requires s'.pool == UnrefPool(s.pool, key)
    ensures Counted(s')
  {
    forall k ensures RefCount(s'.pool, k) == |CallersOf(s', k)| {
      assert RefCount(s.pool, k) == |CallersOf(s, k)|;
      if k == key {
        assert c in CallersOf(s, k);
        assert CallersOf(s', k) == CallersOf(s, k) - {c};
      } else {
        assert CallersOf(s', k) == CallersOf(s, k);
      }
    }
  }

  lemma UnrefInv(s: System, c: nat)
    requires Inv(s) && CanUnref(s, c)
    ensures Inv(Unref(s, c))
  {
    var s' := Unref(s, c);
    assert LiveKeys(s') <= LiveKeys(s);
    SubsetSize(LiveKeys(s'), LiveKeys(s));
    OneFewerCaller(s, s', c, s.callers[c].key);
  }

  lemma ReleaseInv(s: System, key: Key)
    requires Inv(s)
    ensures Inv(Release(s, key))
  {
    if Idle(s.pool, Held(s), key) {
      var s' := Release(s, key);
      DropKeysWellOrdered(s.pool, {key});
      IdleHasNoCaller(s, key);
      forall c | c in s.callers ensures s.callers[c].key != key {
        assert s.callers[c].key == key ==> c in CallersOf(s, key);
      }
      forall k ensures RefCount(s'.pool, k) == |CallersOf(s', k)| {
        assert CallersOf(s', k) == CallersOf(s, k);
      }
      assert LiveKeys(s') == LiveKeys(s);
      assert s'.pool.locks.Keys == s.pool.locks.Keys - {key};
    }
  }

  // ---------- whole runs ----------

  datatype Action =
    | DoAcquire(c: nat, key: Key)
    | DoEnter(c: nat)
    | DoLeave(c: nat)
    | DoUnref(c: nat)
    | DoRelease(key: Key)

  predicate Can(s: System, a: Action) {
    match a
    case DoAcquire(c, _) => CanAcquire(s, c)
    case DoEnter(c) => CanEnter(s, c)
    case DoLeave(c) => CanLeave(s, c)
    case DoUnref(c) => CanUnref(s, c)
    case DoRelease(_) => true
  }

  function Perform(s: System, a: Action): System
    requires Can(s, a)
  {
    match a
    case DoAcquire(c, key) => Acquire(s, c, key)
    case DoEnter(c) => Enter(s, c)
    case DoLeave(c) => Leave(s, c)
    case DoUnref(c) => Unref(s, c)
    case DoRelease(key) => Release(s, key)
  }

  lemma PerformInv(s: System, a: Action)
    requires Inv(s) && Can(s, a)
    ensures Inv(Perform(s, a))
  {
    match a
    case DoAcquire(c, key) => AcquireInv(s, c, key);
    case DoEnter(c) => EnterInv(s, c);
    case DoLeave(c) => LeaveInv(s, c);
    case DoUnref(c) => UnrefInv(s, c);
    case DoRelease(key) => ReleaseInv(s, key);
  }

  /** A run: any interleaving of any callers' actions, each taken when it can be. */
  ghost predicate IsRun(states: seq<System>, actions: seq<Action>, maxSize: int) {
    && |states| == |actions| + 1 && states[0] == NewSystem(maxSize)
    && forall i :: 0 <= i < |actions| ==> Can(states[i], actions[i]) && states[i+1] == Perform(states[i], actions[i])
  }

  lemma {:induction false} RunInv(states: seq<System>, actions: seq<Action>, maxSize: int, n: nat)
    requires IsRun(states, actions, maxSize) && n < |states|
    ensures Inv(states[n])
  {
    if n == 0 {
      NewSystemInv(maxSize);
    } else {
      RunInv(states, actions, maxSize, n - 1);
      PerformInv(states[n-1], actions[n-1]);
    }
  }

  // ---------- the pool object ----------

  class AsyncLock {
    var locked: bool

    constructor ()
      ensures !locked
    {
      locked := false;
    }
  }

  class KeyedLockPool {
    var order: seq<Key>
    var locks: map<Key, AsyncLock>
    var refcounts: map<Key, int>
    const maxSize: int

    ghost function Value(): Pool<AsyncLock>
      reads this
    {
      Pool(order, locks, refcounts, maxSize)
    }

    ghost predicate Valid()
      reads this
    {
      WellOrdered(Value())
    }

    /** The locks of the pool that some caller is inside of. */
    ghost function HeldLocks(): set<AsyncLock>
      reads this, locks.Values
    {
      set l | l in locks.Values && l.locked
    }

    constructor (maxSize: int)
      ensures Valid() && Value() == Pool([], map[], map[], maxSize)
    {
      order, locks, refcounts := [], map[], map[];
      this.maxSize := maxSize;
    }

    method AcquireLock(key: Key) returns (lock: AsyncLock)
      requires Valid()
      modifies this
      ensures Valid() && key in locks && locks[key] == lock
      ensures Value() == AcquirePool(old(Value()), key, old(HeldLocks()), lock)
      ensures if key in old(locks) then lock == old(locks)[key] else fresh(lock) && !lock.locked
    {
      if key in locks {
        lock := locks[key];
      } else {
        MakeRoomForOne();
        assert key !in locks;
        lock := new AsyncLock();
        order := order + [key];
        locks := locks[key := lock];
      }
      refcounts := refcounts[key := (if key in refcounts then refcounts[key] else 0) + 1];
    }

    method MakeRoomForOne()
      requires Valid()
      modifies this
      ensures Valid() && Value() == MakeRoom(old(Value()), old(HeldLocks()))
      ensures forall k :: k in locks ==> k in old(locks)
    {
      ghost var p, held := Value(), HeldLocks();
      if |locks| >= maxSize {
        var victims := StaleHalf();
        DeleteKeys(victims);
      }
      assert Value() == MakeRoom(p, held);
      MakeRoomLeavesRoom(p, held);
    }

    method StaleHalf() returns (victims: seq<Key>)
      requires Valid()
      ensures victims == Victims(Value(), HeldLocks())
    {
      var stale := StaleKeys();
      var n := if |stale| / 2 >= 1 then |stale| / 2 else 1;
      victims := if n <= |stale| then stale[..n] else stale;
    }

    method StaleKeys() returns (stale: seq<Key>)
      requires Valid()
      ensures stale == IdleKeys(Value(), HeldLocks(), order)
    {
      ghost var p, held := Value(), HeldLocks();
      stale := [];
      for i := 0 to |order|
        invariant stale == IdleKeys(p, held, order[..i])
      {
        var k := order[i];
        IdleKeysSnoc(p, held, order[..i], k);
        assert order[..i+1] == order[..i] + [k];
        assert k in order && locks[k] in locks.Values;
        if !locks[k].locked && (if k in refcounts then refcounts[k] else 0) == 0 {
          stale := stale + [k];
        }
      }
      assert order[..|order|] == order;
    }

    method DeleteKeys(victims: seq<Key>)
      modifies this
      ensures Value() == DropKeys(old(Value()), set k | k in victims)
    {
      ghost var gone: set<Key> := {};
      WithoutNothing(order);
      for i := 0 to |victims|
        invariant gone == set k | k in victims[..i]
        invariant order == Without(old(order), gone)
        invariant locks == old(locks) - gone && refcounts == old(refcounts) - gone
      {
        assert victims[..i+1] == victims[..i] + [victims[i]];
        WithoutTwice(old(order), gone, victims[i]);
        gone := gone + {victims[i]};
        order := Without(order, {victims[i]});
        locks := locks - {victims[i]};
        refcounts := refcounts - {victims[i]};
      }
      assert victims[..|victims|] == victims;
    }

    method UnrefKey(key: Key)
      requires Valid()
      modifies this
      ensures Valid() && Value() == UnrefPool(old(Value()), key)
    {
      var count := (if key in refcounts then refcounts[key] else 0) - 1;
      if count <= 0 {
        refcounts := refcounts - {key};
      } else {
        refcounts := refcounts[key := count];
      }
    }

    method ReleaseKey(key: Key)
      requires Valid()
      modifies this
      ensures Valid() && Value() == ReleasePool(old(Value()), key, old(HeldLocks()))
    {
      if key in locks {
        assert locks[key] in locks.Values;
        if !locks[key].locked && (if key in refcounts then refcounts[key] else 0) == 0 {
          WithoutMembers(order, {key});
          order := Without(order, {key});
          locks := locks - {key};
          refcounts := refcounts - {key};
        }
      }
    }
  }
}
