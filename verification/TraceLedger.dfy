/**
 Why the buffer, the store and the ledger agree.

 The ledger is read by `Replay`, which keeps the last copy of each span.  At every moment the buffer
 is the replay of all events ever queued, and the store is the replay of the events persisted so far,
 whatever flushes fail and whatever changes while one is in flight.
 */
module TraceLedger {
  import opened Wrappers
  import opened TraceCollector
  import opened Sequences

  // ---------- reading a ledger ----------

  function Replay(es: seq<Event>): map<Id, Span> {
    if es == [] then map[] else Replay(es[..|es|-1])[es[|es|-1].span.id := es[|es|-1].span]
  }

  function Touched(es: seq<Event>): set<Id> {
    set e | e in es :: e.span.id
  }

  /** Identifier of the last event about a span. */
  function LastAbout(es: seq<Event>, span: Id): Option<Id> {
    if es == [] then None
    else if es[|es|-1].span.id == span then Some(es[|es|-1].id)
    else LastAbout(es[..|es|-1], span)
  }

  lemma ReplaySnoc(es: seq<Event>, e: Event)
    ensures Replay(es + [e]) == Replay(es)[e.span.id := e.span]
    ensures LastAbout(es + [e], e.span.id) == Some(e.id)
    ensures forall s :: s != e.span.id ==> LastAbout(es + [e], s) == LastAbout(es, s)
  {
    assert (es + [e])[..|es|] == es;
  }

  lemma TouchedSnoc(es: seq<Event>, e: Event)
    ensures Touched(es + [e]) == Touched(es) + {e.span.id}
  {
    forall s | s in Touched(es) + {e.span.id} ensures s in Touched(es + [e]) {
      if s == e.span.id {
        assert e in es + [e];
      } else {
        var x :| x in es && x.span.id == s;
        assert x in es + [e];
      }
    }
  }

  lemma TouchedConcat(a: seq<Event>, b: seq<Event>)
    ensures Touched(a + b) == Touched(a) + Touched(b)
  {
    forall s | s in Touched(a) + Touched(b) ensures s in Touched(a + b) {
      if s in Touched(a) {
        var x :| x in a && x.span.id == s;
        assert x in a + b;
      } else {
        var x :| x in b && x.span.id == s;
        assert x in a + b;
      }
    }
  }

  /** Replaying more events changes exactly the spans they touch. */
  lemma {:induction false} ReplayConcat(a: seq<Event>, b: seq<Event>)
    ensures Replay(a + b).Keys == Replay(a).Keys + Touched(b)
    ensures forall id :: id in Replay(a) && id !in Touched(b) ==> Replay(a + b)[id] == Replay(a)[id]
  {
    if b == [] {
      assert a + b == a;
    } else {
      var front, last := b[..|b|-1], b[|b|-1];
      ReplayConcat(a, front);
      ReplaySnoc(a + front, last);
      TouchedSnoc(front, last);
      assert a + b == (a + front) + [last] && b == front + [last];
    }
  }

  // ---------- a well-formed ledger ----------

  /** Event `e` may follow the events `es`. */
  ghost predicate Follows(es: seq<Event>, e: Event) {
    && e.causation == LastAbout(es, e.span.id)
    && (forall x :: x in es ==> x.id != e.id && x.span.sequence < e.span.sequence)
    && (e.action.Created? <==> e.span.id !in Replay(es))
    && (e.action.Created? ==> e.span.status.Running? && e.span.revision == 1)
    && (e.action.Ended? ==>
          && Replay(es)[e.span.id].status.Running?
          && e.action.status == e.span.status && !e.span.status.Running?
          && IsRevision(Replay(es)[e.span.id], e.span))
  }

  /** The same span, one revision on, with a new outcome and sequence number. */
  predicate IsRevision(before: Span, after: Span) {
    after == before.(status := after.status, note := after.note, sequence := after.sequence, revision := before.revision + 1)
  }

  ghost predicate FollowsAt(es: seq<Event>, i: int)
    requires 0 <= i < |es|
  {
    Follows(es[..i], es[i])
  }

  ghost predicate WellFormed(es: seq<Event>) {
    forall i :: 0 <= i < |es| ==> FollowsAt(es, i)
  }

  lemma WellFormedSnoc(es: seq<Event>, e: Event)
    requires WellFormed(es) && Follows(es, e)
    ensures WellFormed(es + [e])
  {
    var es' := es + [e];
    forall i | 0 <= i < |es'| ensures FollowsAt(es', i) {
      if i < |es| {
        assert FollowsAt(es, i);
        assert es'[..i] == es[..i];
      } else {
        assert es'[..i] == es;
      }
    }
  }

  // ---------- the invariant ----------

  function Flight(w: World): seq<Event> {
    if w.inFlight.Some? then w.inFlight.value.events else []
  }

  /** Nothing is lost, duplicated or reordered. */
  ghost predicate Conserved(w: World) {
    w.history == w.persisted + Flight(w) + w.c.pending
  }

  ghost predicate Agrees(w: World) {
    w.c.buffer == Replay(w.history) && w.store == Replay(w.persisted)
  }

  /** The dirty ids are those of the pending events, and the new ones those not taken before. */
  ghost predicate DirtyMeansPending(w: World) {
    && w.c.dirtyNew + w.c.dirtyUpdate == Touched(w.c.pending)
    && w.c.dirtyNew == Touched(w.c.pending) - Replay(w.persisted + Flight(w)).Keys
  }

  /** A batch in flight inserts only unknown spans, updates only stored ones, and completes the store. */
  ghost predicate BatchFits(w: World) {
    w.inFlight.Some? ==>
      var b := w.inFlight.value;
      && b.newSpans.Keys == Touched(b.events) - w.store.Keys
      && b.updatedSpans.Keys == Touched(b.events) * w.store.Keys
      && w.store + b.newSpans + b.updatedSpans == Replay(w.persisted + b.events)
  }

  ghost predicate Numbered(w: World) {
    && (forall e :: e in w.history ==> e.id < w.c.nextId && e.span.id < w.c.nextId && e.span.sequence <= w.c.counter)
    && (forall s :: LastEvent(w.c, s) == LastAbout(w.history, s))
  }

  ghost predicate Buffered(w: World) {
    && (forall id :: id in w.c.buffer ==> w.c.buffer[id].id == id && id < w.c.nextId)
    && (forall id :: id in w.c.buffer <==> id in w.c.order)
    && NoDuplicates(w.c.order)
  }

  ghost predicate Inv(w: World) {
    Conserved(w) && Agrees(w) && DirtyMeansPending(w) && BatchFits(w) && WellFormed(w.history) && Numbered(w) && Buffered(w)
  }

  // ---------- changes of the buffer ----------

  /** How one queued event changes the world. */
  ghost predicate OneEvent(w: World, w': World, e: Event) {
    && w'.inFlight == w.inFlight && w'.store == w.store && w'.persisted == w.persisted
    && w'.history == w.history + [e] && w'.c.pending == w.c.pending + [e]
    && w'.c.buffer == w.c.buffer[e.span.id := e.span]
    && w'.c.nextId > e.id && w'.c.nextId > e.span.id && e.id >= w.c.nextId && w'.c.nextId >= w.c.nextId
    && w'.c.counter == e.span.sequence == w.c.counter + 1
    && w'.c.lastEvent == w.c.lastEvent[e.span.id := e.id]
    && e.causation == LastEvent(w.c, e.span.id)
    && w'.c.order == (if e.action.Created? then w.c.order + [e.span.id] else w.c.order)
    && w'.c.dirtyNew == (if e.action.Created? then w.c.dirtyNew + {e.span.id} else w.c.dirtyNew)
    && w'.c.dirtyUpdate == (if e.action.Created? then w.c.dirtyUpdate else w.c.dirtyUpdate + {e.span.id})
    && (if e.action.Created? then e.span.id >= w.c.nextId && e.span.status.Running? && e.span.revision == 1
        else e.span.id in w.c.buffer && w.c.buffer[e.span.id].status.Running? && IsRevision(w.c.buffer[e.span.id], e.span)
             && e.action.status == e.span.status && !e.span.status.Running?)
  }

  lemma OneEventFollows(w: World, w': World, e: Event)
    requires Inv(w) && OneEvent(w, w', e)
    ensures WellFormed(w'.history) && Numbered(w')
  {
    forall x | x in w.history ensures x.id != e.id && x.span.sequence < e.span.sequence { }
    assert e.span.id in w.c.buffer <==> e.span.id in Replay(w.history);
    assert LastEvent(w.c, e.span.id) == LastAbout(w.history, e.span.id);
    assert Follows(w.history, e);
    WellFormedSnoc(w.history, e);
    ReplaySnoc(w.history, e);
    forall s ensures LastEvent(w'.c, s) == LastAbout(w'.history, s) {
      assert LastEvent(w.c, s) == LastAbout(w.history, s);
    }
  }

  lemma OneEventDirty(w: World, w': World, e: Event)
    requires Conserved(w) && Agrees(w) && DirtyMeansPending(w) && Buffered(w) && OneEvent(w, w', e)
    ensures DirtyMeansPending(w')
  {
    TouchedSnoc(w.c.pending, e);
    ReplayConcat(w.persisted + Flight(w), w.c.pending);
    var known := Replay(w.persisted + Flight(w)).Keys;
    assert w.c.buffer.Keys == known + Touched(w.c.pending);
    assert Flight(w') == Flight(w);
    if e.action.Created? {
      assert e.span.id !in w.c.buffer;
    }
  }

  lemma OneEventAgrees(w: World, w': World, e: Event)
    requires Conserved(w) && Agrees(w) && OneEvent(w, w', e)
    ensures Conserved(w') && Agrees(w')
  {
    ReplaySnoc(w.history, e);
    assert w.persisted + Flight(w) + (w.c.pending + [e]) == w.persisted + Flight(w) + w.c.pending + [e];
  }

  lemma OneEventBuffered(w: World, w': World, e: Event)
    requires Buffered(w) && OneEvent(w, w', e)
    requires e.action.Ended? ==> e.span.id in w.c.buffer
    ensures Buffered(w')
  {
    assert e.action.Created? ==> e.span.id !in w.c.order;
  }

  lemma OneEventInv(w: World, w': World, e: Event)
    requires Inv(w) && OneEvent(w, w', e)
    ensures Inv(w')
  {
    OneEventFollows(w, w', e);
    OneEventDirty(w, w', e);
    OneEventAgrees(w, w', e);
    OneEventBuffered(w, w', e);
  }

  lemma CreateInv(w: World, session: string, run: string, source: Option<string>)
    requires Inv(w)
    ensures Inv(Changed(w, CreateSpan(w.c, session, run, source)))
  {
    var c := CreateSpan(w.c, session, run, source);
    var e := c.pending[|w.c.pending|];
    assert c.pending[|w.c.pending|..] == [e];
    assert w.c.nextId !in w.c.buffer;
    assert LastAbout(w.history, w.c.nextId).None? by { NotYetMentioned(w.history, w.c.nextId); }
    assert LastEvent(w.c, w.c.nextId) == LastAbout(w.history, w.c.nextId);
    OneEventInv(w, Changed(w, c), e);
  }

  lemma {:induction false} NotYetMentioned(es: seq<Event>, span: Id)
    requires forall e :: e in es ==> e.span.id != span
    ensures LastAbout(es, span).None?
  {
    if es == [] {
    } else {
      assert es[|es|-1] in es;
      NotYetMentioned(es[..|es|-1], span);
    }
  }

  lemma EndInv(w: World, id: Id, status: Status, note: string)
    requires Inv(w) && id in w.c.buffer && w.c.buffer[id].status.Running? && !status.Running?
    ensures Inv(Changed(w, EndSpan(w.c, id, status, note)))
  {
    var c := EndSpan(w.c, id, status, note);
    var e := c.pending[|w.c.pending|];
    assert c.pending[|w.c.pending|..] == [e];
    OneEventInv(w, Changed(w, c), e);
  }

  lemma ChangedTwice(w: World, c1: Collector, c2: Collector)
    requires w.c.pending <= c1.pending <= c2.pending
    ensures Changed(Changed(w, c1), c2) == Changed(w, c2)
  {
    assert c2.pending[|w.c.pending|..] == c1.pending[|w.c.pending|..] + c2.pending[|c1.pending|..];
  }

  lemma {:induction false} AbandonInv(w: World, ids: seq<Id>, session: string, reason: string)
    requires Inv(w)
    ensures w.c.pending <= AbandonEach(w.c, ids, session, reason).pending
    ensures Inv(Changed(w, AbandonEach(w.c, ids, session, reason)))
    decreases |ids|
  {
    AbandonAppends(w.c, ids, session, reason);
    if ids == [] {
      assert Changed(w, w.c) == w;
    } else if ids[0] in w.c.buffer && w.c.buffer[ids[0]].session == session && w.c.buffer[ids[0]].status.Running? {
      var c1 := EndSpan(w.c, ids[0], Abandoned, reason);
      EndInv(w, ids[0], Abandoned, reason);
      AbandonInv(Changed(w, c1), ids[1..], session, reason);
      ChangedTwice(w, c1, AbandonEach(c1, ids[1..], session, reason));
    } else {
      AbandonInv(w, ids[1..], session, reason);
    }
  }

  // ---------- flushing ----------

  /** Writing the picked spans over the store gives the buffer. */
  lemma PicksCompleteStore(store: map<Id, Span>, buffer: map<Id, Span>, dirtyNew: set<Id>, dirtyUpdate: set<Id>, touched: set<Id>)
    requires buffer.Keys == store.Keys + touched
    requires dirtyNew + dirtyUpdate == touched && dirtyNew == touched - store.Keys
    requires forall id :: id in store && id !in touched ==> buffer[id] == store[id]
    ensures var (n, u) := (Pick(buffer, dirtyNew), Pick(buffer, dirtyUpdate - dirtyNew));
            && n.Keys == touched - store.Keys && u.Keys == touched * store.Keys
            && store + n + u == buffer
  {
    var n, u := Pick(buffer, dirtyNew), Pick(buffer, dirtyUpdate - dirtyNew);
    assert n.Keys == dirtyNew;
    assert u.Keys == dirtyUpdate - dirtyNew;
    assert (store + n + u).Keys == buffer.Keys;
  }

  lemma TakeFits(w: World)
    requires Conserved(w) && Agrees(w) && DirtyMeansPending(w) && Enabled(w, Take)
    ensures BatchFits(Next(w, Take))
  {
    assert w.persisted + [] == w.persisted;
    ReplayConcat(w.persisted, w.c.pending);
    assert w.c.buffer == Replay(w.persisted + w.c.pending);
    PicksCompleteStore(w.store, w.c.buffer, w.c.dirtyNew, w.c.dirtyUpdate, Touched(w.c.pending));
  }

  /** The steps of a flush leave the history, and what numbers it, alone. */
  lemma SameLedger(w: World, w': World)
    requires WellFormed(w.history) && Numbered(w) && Buffered(w) && w'.history == w.history
    requires w'.c.nextId == w.c.nextId && w'.c.counter == w.c.counter && w'.c.lastEvent == w.c.lastEvent
    requires w'.c.buffer == w.c.buffer && w'.c.order == w.c.order
    ensures WellFormed(w'.history) && Numbered(w') && Buffered(w')
  {
    forall s ensures LastEvent(w'.c, s) == LastAbout(w'.history, s) {
      assert LastEvent(w.c, s) == LastAbout(w.history, s);
    }
  }

  lemma TakeConserves(w: World)
    requires Conserved(w) && Agrees(w) && Enabled(w, Take)
    ensures Conserved(Next(w, Take)) && Agrees(Next(w, Take)) && DirtyMeansPending(Next(w, Take))
  {
    var w' := Next(w, Take);
    assert Touched([]) == {};
    assert w.persisted + [] == w.persisted;
    assert w'.persisted + Flight(w') + [] == w'.persisted + Flight(w');
  }

  lemma TakeInv(w: World)
    requires Inv(w) && Enabled(w, Take)
    ensures Inv(Next(w, Take))
  {
    TakeFits(w);
    TakeConserves(w);
    SameLedger(w, Next(w, Take));
  }

  lemma CommitInv(w: World)
    requires Inv(w) && Enabled(w, Commit)
    ensures Inv(Next(w, Commit))
  {
    var w' := Next(w, Commit);
    assert w.persisted + Flight(w) + [] == w.persisted + Flight(w);
    assert w'.history == w'.persisted + Flight(w') + w'.c.pending;
  }

  lemma RestoredSets<T>(stored: set<T>, taken: set<T>, pending: set<T>, dirtyNew: set<T>, dirtyUpdate: set<T>)
    requires dirtyNew + dirtyUpdate == pending && dirtyNew == pending - (stored + taken)
    ensures (dirtyNew + (taken - stored)) + (dirtyUpdate + (taken * stored)) == taken + pending
    ensures dirtyNew + (taken - stored) == (taken + pending) - stored
  {
  }

  lemma FailDirty(w: World)
    requires Agrees(w) && DirtyMeansPending(w) && BatchFits(w) && Enabled(w, FailFlush)
    ensures DirtyMeansPending(Next(w, FailFlush))
  {
    var b, w' := w.inFlight.value, Next(w, FailFlush);
    ReplayConcat(w.persisted, b.events);
    RestoredSets(w.store.Keys, Touched(b.events), Touched(w.c.pending), w.c.dirtyNew, w.c.dirtyUpdate);
    TouchedConcat(b.events, w.c.pending);
    assert Flight(w') == [] && w'.persisted + [] == w.persisted;
    assert w'.c.dirtyNew == w.c.dirtyNew + (Touched(b.events) - w.store.Keys);
    assert w'.c.dirtyUpdate == w.c.dirtyUpdate + (Touched(b.events) * w.store.Keys);
  }

  lemma FailConserves(w: World)
    requires Conserved(w) && Agrees(w) && Enabled(w, FailFlush)
    ensures Conserved(Next(w, FailFlush)) && Agrees(Next(w, FailFlush))
  {
    var b := w.inFlight.value;
    assert w.persisted + b.events + w.c.pending == w.persisted + [] + (b.events + w.c.pending);
  }

  lemma FailInv(w: World)
    requires Inv(w) && Enabled(w, FailFlush)
    ensures Inv(Next(w, FailFlush))
  {
    FailDirty(w);
    FailConserves(w);
    SameLedger(w, Next(w, FailFlush));
  }

  lemma EnsureInv(w: World, session: string, run: string, source: Option<string>)
    requires Inv(w)
    ensures Inv(Changed(w, EnsureRun(w.c, session, run, source).0))
  {
    assert Changed(w, w.c) == w;
    if w.c.enabled && FindRun(w.c, w.c.order, session, run).None? { CreateInv(w, session, run, source); }
  }

  lemma FinishInv(w: World, session: string, run: string, error: Option<string>, cancelled: bool, abandoned: bool)
    requires Inv(w)
    ensures Inv(Changed(w, FinishRun(w.c, session, run, error, cancelled, abandoned)))
  {
    var c := FinishRun(w.c, session, run, error, cancelled, abandoned);
    var found := FindRun(w.c, w.c.order, session, run);
    if found.None? || found.value !in w.c.buffer || !w.c.buffer[found.value].status.Running? {
      assert Changed(w, w.c) == w;
    } else {
      var (status, note) := Outcome(error, cancelled, abandoned);
      EndInv(w, found.value, status, note);
    }
  }

  lemma StepInv(w: World, st: Step)
    requires Inv(w) && Enabled(w, st)
    ensures Inv(Next(w, st))
  {
    match st
    case Ensure(session, run, source) => EnsureInv(w, session, run, source);
    case Finish(session, run, error, cancelled, abandoned) => FinishInv(w, session, run, error, cancelled, abandoned);
    case AbandonAll(session, reason) => AbandonInv(w, w.c.order, session, reason);
    case Take => TakeInv(w);
    case Commit => CommitInv(w);
    case FailFlush => FailInv(w);
  }

  lemma {:induction false} RunInv(worlds: seq<World>, steps: seq<Step>, enabled: bool, n: nat)
    requires IsRunOf(worlds, steps, enabled) && n < |worlds|
    ensures Inv(worlds[n])
  {
    if n == 0 {
      assert Touched([]) == {};
    } else {
      RunInv(worlds, steps, enabled, n - 1);
      StepInv(worlds[n-1], steps[n-1]);
    }
  }

  // ---------- what follows for every run ----------

  function InFlightIds(w: World): set<Id> {
    if w.inFlight.Some? then w.inFlight.value.newSpans.Keys + w.inFlight.value.updatedSpans.Keys else {}
  }

  /** A span that is neither dirty nor in flight is stored exactly as it is buffered. */
  lemma StoreAgreesWithBuffer(w: World, id: Id)
    requires Inv(w) && id !in w.c.dirtyNew && id !in w.c.dirtyUpdate && id !in InFlightIds(w)
    ensures id in w.store <==> id in w.c.buffer
    ensures id in w.store ==> w.store[id] == w.c.buffer[id]
  {
    assert id !in Touched(w.c.pending);
    assert id !in Touched(Flight(w)) by { assert Touched([]) == {}; }
    ReplayConcat(w.persisted, Flight(w));
    ReplayConcat(w.persisted + Flight(w), w.c.pending);
  }

  /** Inserts meet only ids the store lacks, updates only ids it has. */
  lemma BatchesAreProper(w: World)
    requires Inv(w) && w.inFlight.Some?
    ensures w.inFlight.value.newSpans.Keys !! w.store.Keys
    ensures w.inFlight.value.updatedSpans.Keys <= w.store.Keys
  {
  }

  /** A flush that nothing disturbs leaves the store equal to the buffer and the ledger complete. */
  lemma QuietFlushSyncs(w: World)
    requires Inv(w) && w.inFlight.None? && !Clean(w.c)
    ensures var w' := Next(Next(w, Take), Commit);
            w'.store == w'.c.buffer == w.c.buffer && w'.persisted == w'.history == w.history && Clean(w'.c)
  {
    TakeInv(w);
    CommitInv(Next(w, Take));
    var w' := Next(Next(w, Take), Commit);
    assert w'.persisted + [] + [] == w'.persisted;
  }

  lemma EndedStep(es: seq<Event>, e: Event, s: Id)
    requires Follows(es, e)
    requires if e.span.id == s then e.action.Ended? else s in Replay(es) && !Replay(es)[s].status.Running?
    ensures s in Replay(es + [e]) && !Replay(es + [e])[s].status.Running?
  {
    ReplaySnoc(es, e);
  }

  /** An ended span stays ended in every later replay, so nothing follows its ending. */
  lemma {:induction false} EndedStays(es: seq<Event>, i: nat, j: nat)
    requires WellFormed(es) && i < j <= |es| && es[i].action.Ended?
    ensures es[i].span.id in Replay(es[..j]) && !Replay(es[..j])[es[i].span.id].status.Running?
    decreases j
  {
    var front, e := es[..j-1], es[j-1];
    assert es[..j] == front + [e];
    assert FollowsAt(es, j - 1);
    if i == j - 1 {
    } else {
      EndedStays(es, i, j - 1);
    }
    EndedStep(front, e, es[i].span.id);
  }

  /** After event `i`, the replay knows its span. */
  lemma {:induction false} StaysKnown(es: seq<Event>, i: nat, j: nat)
    requires i < j <= |es|
    ensures es[i].span.id in Replay(es[..j])
    decreases j
  {
    assert es[..j] == es[..j-1] + [es[j-1]];
    ReplaySnoc(es[..j-1], es[j-1]);
    if i == j - 1 {
    } else {
      StaysKnown(es, i, j - 1);
    }
  }

  lemma {:induction false} LastAboutSkips(es: seq<Event>, i: nat, j: nat)
    requires i < j <= |es|
    requires forall k :: i < k < j ==> es[k].span.id != es[i].span.id
    ensures LastAbout(es[..j], es[i].span.id) == Some(es[i].id)
    decreases j
  {
    assert es[..j] == es[..j-1] + [es[j-1]];
    ReplaySnoc(es[..j-1], es[j-1]);
    if i == j - 1 {
    } else {
      LastAboutSkips(es, i, j - 1);
    }
  }

  lemma {:induction false} ReplaySkips(es: seq<Event>, i: nat, j: nat)
    requires i < j <= |es|
    requires forall k :: i < k < j ==> es[k].span.id != es[i].span.id
    ensures es[i].span.id in Replay(es[..j]) && Replay(es[..j])[es[i].span.id] == es[i].span
    decreases j
  {
    assert es[..j] == es[..j-1] + [es[j-1]];
    ReplaySnoc(es[..j-1], es[j-1]);
    if i == j - 1 {
    } else {
      ReplaySkips(es, i, j - 1);
    }
  }

  lemma CreationThenEnding(es: seq<Event>, i: nat, j: nat)
    requires WellFormed(es) && i < j < |es| && es[i].span.id == es[j].span.id
    ensures es[i].action.Created? && es[j].action.Ended?
  {
    assert FollowsAt(es, j);
    StaysKnown(es, i, j);
    if es[i].action.Ended? { EndedStays(es, i, j); }
  }

  /**
   Along a well-formed ledger the sequence numbers strictly increase, and the events of one span are
   a creation and at most one ending, which names the creation as its cause and shows the same span
   one revision on.
   */
  lemma SpanChain(es: seq<Event>, i: nat, j: nat)
    requires WellFormed(es) && i < j < |es|
    ensures es[i].id != es[j].id && es[i].span.sequence < es[j].span.sequence
    ensures es[i].span.id == es[j].span.id ==>
              && es[i].action.Created? && es[j].action.Ended? && es[j].causation == Some(es[i].id)
              && es[i].span.revision == 1 && IsRevision(es[i].span, es[j].span)
  {
    assert FollowsAt(es, j);
    assert es[..j][i] == es[i] && es[i] in es[..j];
    if es[i].span.id == es[j].span.id {
      CreationThenEnding(es, i, j);
      forall k | i < k < j ensures es[k].span.id != es[i].span.id {
        if es[k].span.id == es[i].span.id {
          CreationThenEnding(es, i, k);
          CreationThenEnding(es, k, j);
        }
      }
      LastAboutSkips(es, i, j);
      ReplaySkips(es, i, j);
      assert FollowsAt(es, i);
    }
  }

  // ---------- one envelope per run ----------

  lemma {:induction false} FindRunFinds(c: Collector, ids: seq<Id>, session: string, run: string)
    ensures var found := FindRun(c, ids, session, run);
            && (found.Some? ==> found.value in ids && IsRun(c, found.value, session, run))
            && (found.None? ==> forall id :: id in ids ==> !IsRun(c, id, session, run))
  {
    if ids == [] || IsRun(c, ids[0], session, run) {
    } else {
      FindRunFinds(c, ids[1..], session, run);
    }
  }

  ghost predicate OneSpanPerRun(c: Collector) {
    forall a, b :: a in c.buffer && IsRun(c, b, c.buffer[a].session, c.buffer[a].run) ==> a == b
  }

  lemma EndKeepsRuns(c: Collector, id: Id, status: Status, note: string)
    requires OneSpanPerRun(c) && id in c.buffer
    ensures OneSpanPerRun(EndSpan(c, id, status, note))
  {
    var c' := EndSpan(c, id, status, note);
    forall a: Id, b: Id | a in c'.buffer && IsRun(c', b, c'.buffer[a].session, c'.buffer[a].run) ensures a == b {
      assert IsRun(c, b, c.buffer[a].session, c.buffer[a].run);
    }
  }

  lemma {:induction false} AbandonKeepsRuns(c: Collector, ids: seq<Id>, session: string, reason: string)
    requires OneSpanPerRun(c)
    ensures OneSpanPerRun(AbandonEach(c, ids, session, reason))
    decreases |ids|
  {
    if ids == [] {
    } else {
      if ids[0] in c.buffer && c.buffer[ids[0]].session == session && c.buffer[ids[0]].status.Running? {
        EndKeepsRuns(c, ids[0], Abandoned, reason);
        AbandonKeepsRuns(EndSpan(c, ids[0], Abandoned, reason), ids[1..], session, reason);
      } else {
        AbandonKeepsRuns(c, ids[1..], session, reason);
      }
    }
  }

  lemma CreateKeepsRuns(c: Collector, session: string, run: string, source: Option<string>)
    requires OneSpanPerRun(c) && (forall id :: id in c.buffer ==> id < c.nextId)
    requires forall id :: id in c.buffer ==> !IsRun(c, id, session, run)
    ensures OneSpanPerRun(CreateSpan(c, session, run, source))
  {
    var c' := CreateSpan(c, session, run, source);
    forall a: Id, b: Id | a in c'.buffer && IsRun(c', b, c'.buffer[a].session, c'.buffer[a].run) ensures a == b {
      assert a in c.buffer ==> !IsRun(c, a, session, run);
      assert b in c.buffer ==> !IsRun(c, b, session, run);
      assert a in c.buffer && b in c.buffer ==> IsRun(c, b, c.buffer[a].session, c.buffer[a].run);
    }
  }

  lemma EnsureKeepsRuns(w: World, session: string, run: string, source: Option<string>)
    requires Buffered(w) && OneSpanPerRun(w.c)
    ensures OneSpanPerRun(EnsureRun(w.c, session, run, source).0)
  {
    FindRunFinds(w.c, w.c.order, session, run);
    if w.c.enabled && FindRun(w.c, w.c.order, session, run).None? {
      CreateKeepsRuns(w.c, session, run, source);
    }
  }

  lemma StepKeepsRuns(w: World, st: Step)
    requires Buffered(w) && OneSpanPerRun(w.c) && Enabled(w, st)
    ensures OneSpanPerRun(Next(w, st).c)
  {
    match st
    case Ensure(session, run, source) => EnsureKeepsRuns(w, session, run, source);
    case Finish(session, run, error, cancelled, abandoned) =>
      FindRunFinds(w.c, w.c.order, session, run);
      var found := FindRun(w.c, w.c.order, session, run);
      if found.Some? {
        var (status, note) := Outcome(error, cancelled, abandoned);
        EndKeepsRuns(w.c, found.value, status, note);
      }
    case AbandonAll(session, reason) => AbandonKeepsRuns(w.c, w.c.order, session, reason);
    case Take => SameBufferKeepsRuns(w.c, Next(w, st).c);
    case Commit => SameBufferKeepsRuns(w.c, Next(w, st).c);
    case FailFlush => SameBufferKeepsRuns(w.c, Next(w, st).c);
  }

  lemma SameBufferKeepsRuns(c: Collector, c': Collector)
    requires OneSpanPerRun(c) && c'.buffer == c.buffer
    ensures OneSpanPerRun(c')
  {
    forall a: Id, b: Id | a in c'.buffer && IsRun(c', b, c'.buffer[a].session, c'.buffer[a].run) ensures a == b {
      assert IsRun(c, b, c.buffer[a].session, c.buffer[a].run);
    }
  }

  /** In every run of the collector, a run of a session has at most one envelope. */
  lemma {:induction false} RunHasOneSpan(worlds: seq<World>, steps: seq<Step>, enabled: bool, n: nat)
    requires IsRunOf(worlds, steps, enabled) && n < |worlds|
    ensures OneSpanPerRun(worlds[n].c)
  {
    if n == 0 {
    } else {
      RunHasOneSpan(worlds, steps, enabled, n - 1);
      RunInv(worlds, steps, enabled, n - 1);
      StepKeepsRuns(worlds[n-1], steps[n-1]);
    }
  }
}
