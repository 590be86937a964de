/** What every interleaving of session queries keeps: exclusion, capacity and one context per session. */
module QueryEngineSafety {
  import opened Wrappers
  import Locks = KeyedLocks
  import opened SessionExecutionState
  import opened QueryEngine

  // ---------- capacity ----------

  function CountSlots(queries: seq<Query>): nat {
    if queries == [] then 0
    else CountSlots(queries[..|queries|-1]) + (if HasSlot(queries[|queries|-1].pc) then 1 else 0)
  }

  function Unit(pc: Pc): nat {
    if HasSlot(pc) then 1 else 0
  }

  lemma {:induction false} CountAfterMove(queries: seq<Query>, q: nat, pc: Pc)
    requires q < |queries|
    ensures CountSlots(queries[q := queries[q].(pc := pc)]) + Unit(queries[q].pc) == CountSlots(queries) + Unit(pc)
  {
    var last := |queries| - 1;
    var moved := queries[q := queries[q].(pc := pc)];
    if q == last {
      assert moved[..last] == queries[..last];
    } else {
      assert moved[..last] == queries[..last][q := queries[q].(pc := pc)];
      CountAfterMove(queries[..last], q, pc);
    }
  }

  lemma CountAfterSubmit(queries: seq<Query>, session: Key)
    ensures CountSlots(queries + [Query(session, Submitted)]) == CountSlots(queries)
  {
    assert (queries + [Query(session, Submitted)])[..|queries|] == queries;
  }

  ghost predicate WithinCapacity(e: Engine) {
    1 <= e.capacity <= 64 && e.permits >= 0 && e.permits + CountSlots(e.queries) == e.capacity
  }

  // ---------- the invariant ----------

  /** The pool's callers are exactly the queries that hold a reference. */
  ghost predicate Linked(e: Engine) {
    && (forall q: nat :: q in e.locks.callers <==> q < |e.queries| && HasReference(e.queries[q].pc))
    && (forall q: nat :: q in e.locks.callers ==>
          && e.locks.callers[q].key == e.queries[q].session
          && (e.locks.callers[q].inside <==> HasLock(e.queries[q].pc)))
  }

  /** A session's context is that of its one streaming query. */
  ghost predicate ContextsStream(e: Engine) {
    && (forall s :: s in e.shared.contexts ==>
          e.shared.contexts[s] < |e.queries| && e.queries[e.shared.contexts[s]] == Query(s, Streaming))
    && (forall q: nat :: q < |e.queries| && e.queries[q].pc.Streaming? ==>
          e.queries[q].session in e.shared.contexts && e.shared.contexts[e.queries[q].session] == q)
  }

  predicate Waits(pc: Pc) {
    pc.AwaitingSlot? || pc.Admitted?
  }

  predicate IsWaiter(e: Engine, q: nat, session: Key) {
    q < |e.queries| && e.queries[q].session == session && Waits(e.queries[q].pc)
  }

  /** A session listed as waiting has a query that waits for a slot or has just got it. */
  ghost predicate WaitersWait(e: Engine) {
    forall s :: s in e.shared.waiting ==> exists q: nat :: IsWaiter(e, q, s)
  }

  ghost predicate ClaimsNamed(e: Engine) {
    forall t :: t in e.steering ==> e.steering[t].token == t
  }

  /** The part of the invariant that does not look inside the lock pool. */
  ghost predicate Core(e: Engine) {
    Linked(e) && WithinCapacity(e) && ContextsStream(e) && WaitersWait(e) && ClaimsNamed(e)
  }

  ghost predicate Inv(e: Engine) {
    Locks.Inv(e.locks) && Core(e)
  }

  /** Two queries of one session never hold its lock together, whatever the pool evicts. */
  lemma OnePerSession(e: Engine, p: nat, q: nat)
    requires Inv(e) && p < |e.queries| && q < |e.queries|
    requires e.queries[p].session == e.queries[q].session
    requires HasLock(e.queries[p].pc) && HasLock(e.queries[q].pc)
    ensures p == q
  {
    assert p in e.locks.callers && q in e.locks.callers;
    Locks.SameKeySameLock(e.locks, p, q);
  }

  // ---------- moving one query ----------

  ghost predicate Moved(e: Engine, e': Engine, q: nat, pc: Pc) {
    && q < |e.queries| && e'.queries == e.queries[q := e.queries[q].(pc := pc)]
    && e'.capacity == e.capacity && e'.steering == e.steering
  }

  /** The lock pool's view of a query that moves. */
  ghost predicate CallerFollows(e: Engine, e': Engine, q: nat, pc: Pc)
    requires q < |e.queries|
  {
    && (forall c: nat :: c != q ==> (c in e'.locks.callers <==> c in e.locks.callers))
    && (forall c: nat :: c != q && c in e.locks.callers && c in e'.locks.callers ==>
          e'.locks.callers[c] == e.locks.callers[c])
    && (q in e'.locks.callers <==> HasReference(pc))
    && (q in e'.locks.callers ==>
          e'.locks.callers[q].key == e.queries[q].session && (e'.locks.callers[q].inside <==> HasLock(pc)))
  }

  lemma LinkAfterMove(e: Engine, e': Engine, q: nat, pc: Pc)
    requires Linked(e) && Moved(e, e', q, pc) && CallerFollows(e, e', q, pc)
    ensures Linked(e')
  {
  }

  lemma SameCallers(e: Engine, e': Engine, q: nat, pc: Pc)
    requires Linked(e) && Moved(e, e', q, pc) && e'.locks == e.locks
    requires HasReference(pc) == HasReference(e.queries[q].pc) && HasLock(pc) == HasLock(e.queries[q].pc)
    ensures CallerFollows(e, e', q, pc)
  {
  }

  lemma WaitersAfterMove(e: Engine, e': Engine, q: nat, pc: Pc)
    requires WaitersWait(e) && Moved(e, e', q, pc)
    requires forall s :: s in e'.shared.waiting ==>
               (s in e.shared.waiting && !IsWaiter(e, q, s)) || IsWaiter(e', q, s)
    ensures WaitersWait(e')
  {
    forall s | s in e'.shared.waiting ensures exists p: nat :: IsWaiter(e', p, s) {
      if !IsWaiter(e', q, s) {
        var p: nat :| IsWaiter(e, p, s);
        assert IsWaiter(e', p, s);
      }
    }
  }

  lemma SameWaiters(e: Engine, e': Engine)
    requires WaitersWait(e) && e'.queries == e.queries && e'.shared.waiting == e.shared.waiting
    ensures WaitersWait(e')
  {
    forall s | s in e'.shared.waiting ensures exists q: nat :: IsWaiter(e', q, s) {
      var q: nat :| IsWaiter(e, q, s);
      assert IsWaiter(e', q, s);
    }
  }

  lemma ContextsAfterMove(e: Engine, e': Engine, q: nat, pc: Pc)
    requires ContextsStream(e) && Moved(e, e', q, pc)
    requires e'.shared.contexts == e.shared.contexts
    requires !e.queries[q].pc.Streaming? && !pc.Streaming?
    ensures ContextsStream(e')
  {
  }

  lemma PermitsAfterMove(e: Engine, e': Engine, q: nat, pc: Pc)
    requires WithinCapacity(e) && Moved(e, e', q, pc)
    requires e'.permits >= 0 && e'.permits + Unit(pc) == e.permits + Unit(e.queries[q].pc)
    ensures WithinCapacity(e')
  {
    CountAfterMove(e.queries, q, pc);
  }

  /** A move that neither starts nor ends a stream or a wait. */
  lemma CoreAfterMove(e: Engine, e': Engine, q: nat, pc: Pc)
    requires Core(e) && Moved(e, e', q, pc) && CallerFollows(e, e', q, pc)
    requires e'.permits >= 0 && e'.permits + Unit(pc) == e.permits + Unit(e.queries[q].pc)
    requires e'.shared.contexts == e.shared.contexts && e'.shared.waiting == e.shared.waiting
    requires !e.queries[q].pc.Streaming? && !pc.Streaming? && !Waits(e.queries[q].pc)
    ensures Core(e')
  {
    LinkAfterMove(e, e', q, pc);
    PermitsAfterMove(e, e', q, pc);
    ContextsAfterMove(e, e', q, pc);
    WaitersAfterMove(e, e', q, pc);
  }

  // ---------- the steps of the lock pool ----------

  lemma TakeReferenceInv(e: Engine, q: nat)
    requires Inv(e) && Enabled(e, TakeReference(q))
    ensures Inv(Next(e, TakeReference(q)))
  {
    Locks.AcquireInv(e.locks, q, e.queries[q].session);
    TakeReferenceCore(e, q);
  }

  lemma TakeReferenceCore(e: Engine, q: nat)
    requires Core(e) && Enabled(e, TakeReference(q))
    ensures Core(Next(e, TakeReference(q)))
  {
    CoreAfterMove(e, Next(e, TakeReference(q)), q, Referenced);
  }

  lemma EnterSessionInv(e: Engine, q: nat)
    requires Inv(e) && Enabled(e, EnterSession(q))
    ensures Inv(Next(e, EnterSession(q)))
  {
    Locks.EnterInv(e.locks, q);
    EnterSessionCore(e, q);
  }

  lemma EnterSessionCore(e: Engine, q: nat)
    requires Core(e) && Enabled(e, EnterSession(q))
    ensures Core(Next(e, EnterSession(q)))
  {
    CoreAfterMove(e, Next(e, EnterSession(q)), q, Entered);
  }

  lemma LeaveSessionInv(e: Engine, q: nat)
    requires Inv(e) && Enabled(e, LeaveSession(q))
    ensures Inv(Next(e, LeaveSession(q)))
  {
    Locks.LeaveInv(e.locks, q);
    LeaveSessionCore(e, q);
  }

  lemma LeaveSessionCore(e: Engine, q: nat)
    requires Core(e) && Enabled(e, LeaveSession(q))
    ensures Core(Next(e, LeaveSession(q)))
  {
    CoreAfterMove(e, Next(e, LeaveSession(q)), q, Unlocked);
  }

  lemma DropReferenceInv(e: Engine, q: nat)
    requires Inv(e) && Enabled(e, DropReference(q))
    ensures Inv(Next(e, DropReference(q)))
  {
    Locks.UnrefInv(e.locks, q);
    DropReferenceCore(e, q);
  }

  lemma DropReferenceCore(e: Engine, q: nat)
    requires Core(e) && Enabled(e, DropReference(q))
    ensures Core(Next(e, DropReference(q)))
  {
    CoreAfterMove(e, Next(e, DropReference(q)), q, Done);
  }

  lemma ReleaseLockInv(e: Engine, session: Key)
    requires Inv(e)
    ensures Inv(Next(e, ReleaseLock(session)))
  {
    ReleaseLockCore(e, session);
    assert Locks.Inv(Next(e, ReleaseLock(session)).locks) by {
      Locks.ReleaseInv(e.locks, session);
      assert Next(e, ReleaseLock(session)).locks == Locks.Release(e.locks, session);
    }
  }

  lemma ReleaseLockCore(e: Engine, session: Key)
    requires Core(e)
    ensures Core(Next(e, ReleaseLock(session)))
  {
    SameWaiters(e, Next(e, ReleaseLock(session)));
    assert Next(e, ReleaseLock(session)).locks.callers == e.locks.callers;
  }

  // ---------- the steps of a query ----------

  lemma PlainMoveCore(e: Engine, e': Engine, q: nat, pc: Pc)
    requires Core(e) && Moved(e, e', q, pc) && e'.locks == e.locks
    requires HasLock(e.queries[q].pc) && HasLock(pc)
    requires e'.permits >= 0 && e'.permits + Unit(pc) == e.permits + Unit(e.queries[q].pc)
    requires e'.shared.contexts == e.shared.contexts && e'.shared.waiting == e.shared.waiting
    requires !e.queries[q].pc.Streaming? && !pc.Streaming? && !Waits(e.queries[q].pc)
    ensures Core(e')
  {
    SameCallers(e, e', q, pc);
    CoreAfterMove(e, e', q, pc);
  }

  lemma EndStepCore(e: Engine, st: Step)
    requires Core(e) && Enabled(e, st)
    requires st.Drain? || st.SkipDrain? || st.DrainFails? || st.FreeSlot?
    ensures Core(Next(e, st))
  {
    PlainMoveCore(e, Next(e, st), st.q, Next(e, st).queries[st.q].pc);
  }

  lemma SubmitCore(e: Engine, session: Key)
    requires Core(e)
    ensures Core(SubmitQuery(e, session))
  {
    var e' := SubmitQuery(e, session);
    CountAfterSubmit(e.queries, session);
    forall s | s in e'.shared.waiting ensures exists p: nat :: IsWaiter(e', p, s) {
      var p: nat :| IsWaiter(e, p, s);
      assert IsWaiter(e', p, s);
    }
  }

  lemma DispatchCore(e: Engine, q: nat)
    requires Core(e) && Enabled(e, Dispatch(q))
    ensures Core(Next(e, Dispatch(q)))
  {
    var e1 := Move(Decide(e, e.queries[q].pc.token, Dispatched(|e.queries|)), q, Leaving);
    PlainMoveCore(e, e1, q, Leaving);
    SubmitCore(e1, e.queries[q].session);
  }

  lemma SlotStepCore(e: Engine, st: Step)
    requires Core(e) && Enabled(e, st) && (st.AskSlot? || st.TakeSlot? || st.EndWaiting? || st.EndEarly?)
    ensures Core(Next(e, st))
  {
    var e' := Next(e, st);
    var pc := e'.queries[st.q].pc;
    SameCallers(e, e', st.q, pc);
    LinkAfterMove(e, e', st.q, pc);
    PermitsAfterMove(e, e', st.q, pc);
    ContextsAfterMove(e, e', st.q, pc);
    WaitersAfterMove(e, e', st.q, pc);
  }

  /** Nobody else streams for the session of query `q`. */
  ghost predicate AloneInStream(e: Engine, q: nat)
    requires q < |e.queries|
  {
    forall p: nat :: p < |e.queries| && p != q && e.queries[p].pc.Streaming? ==>
      e.queries[p].session != e.queries[q].session
  }

  lemma LockHolderIsAlone(e: Engine, q: nat)
    requires Inv(e) && q < |e.queries| && HasLock(e.queries[q].pc)
    ensures AloneInStream(e, q)
  {
    forall p: nat | p < |e.queries| && p != q && e.queries[p].pc.Streaming?
      ensures e.queries[p].session != e.queries[q].session
    {
      if e.queries[p].session == e.queries[q].session { OnePerSession(e, p, q); }
    }
  }

  lemma ContextsAfterRegister(e: Engine, e': Engine, q: nat)
    requires ContextsStream(e) && Moved(e, e', q, Streaming) && AloneInStream(e, q) && At(e, q, Running)
    requires e'.shared.contexts == e.shared.contexts[e.queries[q].session := q]
    ensures ContextsStream(e')
  {
  }

  lemma ContextsAfterUnregister(e: Engine, e': Engine, q: nat)
    requires ContextsStream(e) && Moved(e, e', q, Finishing) && AloneInStream(e, q) && At(e, q, Streaming)
    requires e'.shared.contexts == e.shared.contexts - {e.queries[q].session}
    ensures ContextsStream(e')
  {
  }

  lemma ContextStepCore(e: Engine, st: Step)
    requires Core(e) && Enabled(e, st) && (st.Register? || st.Unregister?) && AloneInStream(e, st.q)
    ensures Core(Next(e, st))
  {
    var e' := Next(e, st);
    var pc := e'.queries[st.q].pc;
    SameCallers(e, e', st.q, pc);
    LinkAfterMove(e, e', st.q, pc);
    PermitsAfterMove(e, e', st.q, pc);
    WaitersAfterMove(e, e', st.q, pc);
    if st.Register? {
      ContextsAfterRegister(e, e', st.q);
    } else {
      ContextsAfterUnregister(e, e', st.q);
    }
  }

  // ---------- the steps of a follow-up ----------

  /** Queueing, clearing and steering touch neither queries, locks, permits, contexts nor waiters. */
  ghost predicate SameRunning(e: Engine, e': Engine) {
    && e'.queries == e.queries && e'.locks == e.locks && e'.permits == e.permits && e'.capacity == e.capacity
    && e'.shared.contexts == e.shared.contexts && e'.shared.waiting == e.shared.waiting
  }

  predicate AsksFollowUp(st: Step) {
    st.Queue? || st.Clear? || st.ClaimSteer?
  }

  predicate EndsSteer(st: Step) {
    st.SteerSucceeds? || st.SteerFails? || st.SteerBreaks?
  }

  lemma AskFrame(e: Engine, st: Step)
    requires Enabled(e, st) && AsksFollowUp(st)
    ensures SameRunning(e, Next(e, st))
    ensures ClaimsNamed(e) ==> ClaimsNamed(Next(e, st))
  {
  }

  lemma SteerFrame(e: Engine, st: Step)
    requires Enabled(e, st) && EndsSteer(st)
    ensures SameRunning(e, Next(e, st))
    ensures ClaimsNamed(e) ==> ClaimsNamed(Next(e, st))
  {
  }

  lemma CoreAfterFollowUp(e: Engine, e': Engine)
    requires Core(e) && SameRunning(e, e') && ClaimsNamed(e')
    ensures Core(e')
  {
    SameWaiters(e, e');
  }

  lemma FollowUpStepCore(e: Engine, st: Step)
    requires Core(e) && Enabled(e, st) && (AsksFollowUp(st) || EndsSteer(st))
    ensures Core(Next(e, st))
  {
    if AsksFollowUp(st) { AskFrame(e, st); } else { SteerFrame(e, st); }
    CoreAfterFollowUp(e, Next(e, st));
  }

  // ---------- every step ----------

  predicate UsesLockPool(st: Step) {
    st.TakeReference? || st.EnterSession? || st.LeaveSession? || st.DropReference? || st.ReleaseLock?
  }

  lemma OtherStepCore(e: Engine, st: Step)
    requires Core(e) && Enabled(e, st) && !UsesLockPool(st)
    requires st.Register? || st.Unregister? ==> AloneInStream(e, st.q)
    ensures Core(Next(e, st))
  {
    if AsksFollowUp(st) || EndsSteer(st) {
      FollowUpStepCore(e, st);
    } else if st.Submit? {
      SubmitCore(e, st.session);
    } else if st.Register? || st.Unregister? {
      ContextStepCore(e, st);
    } else if st.Dispatch? {
      DispatchCore(e, st.q);
    } else if st.AskSlot? || st.TakeSlot? || st.EndWaiting? || st.EndEarly? {
      SlotStepCore(e, st);
    } else {
      EndStepCore(e, st);
    }
  }

  lemma OtherStepKeepsLocks(e: Engine, st: Step)
    requires Enabled(e, st) && !UsesLockPool(st)
    ensures Next(e, st).locks == e.locks
  {
  }

  lemma StepKeepsCapacity(e: Engine, st: Step)
    requires Enabled(e, st)
    ensures Next(e, st).capacity == e.capacity
  {
  }

  lemma LockPoolStepInv(e: Engine, st: Step)
    requires Inv(e) && Enabled(e, st) && UsesLockPool(st)
    ensures Inv(Next(e, st))
  {
    match st
    case TakeReference(q) => TakeReferenceInv(e, q);
    case EnterSession(q) => EnterSessionInv(e, q);
    case LeaveSession(q) => LeaveSessionInv(e, q);
    case DropReference(q) => DropReferenceInv(e, q);
    case ReleaseLock(session) => ReleaseLockInv(e, session);
  }

  lemma OtherStepInv(e: Engine, st: Step)
    requires Inv(e) && Enabled(e, st) && !UsesLockPool(st)
    ensures Inv(Next(e, st))
  {
    if st.Register? || st.Unregister? { LockHolderIsAlone(e, st.q); }
    OtherStepCore(e, st);
    OtherStepKeepsLocks(e, st);
  }

  lemma StepInv(e: Engine, st: Step)
    requires Inv(e) && Enabled(e, st)
    ensures Inv(Next(e, st))
  {
    if UsesLockPool(st) {
      LockPoolStepInv(e, st);
    } else {
      OtherStepInv(e, st);
    }
  }

  lemma NewEngineInv(maxLocks: int, setting: Option<int>)
    ensures Inv(NewEngine(maxLocks, setting))
  {
    Locks.NewSystemInv(maxLocks);
  }

  lemma {:induction false} RunInv(states: seq<Engine>, steps: seq<Step>, maxLocks: int, setting: Option<int>, n: nat)
    requires IsRun(states, steps, maxLocks, setting) && n < |states|
    ensures Inv(states[n]) && states[n].capacity == Capacity(setting)
  {
    if n == 0 {
      NewEngineInv(maxLocks, setting);
    } else {
      RunInv(states, steps, maxLocks, setting, n - 1);
      StepInv(states[n-1], steps[n-1]);
      StepKeepsCapacity(states[n-1], steps[n-1]);
    }
  }

  /** In every run, never more queries are inside than the configured capacity, which is within 1..64. */
  lemma RunIsBounded(states: seq<Engine>, steps: seq<Step>, maxLocks: int, setting: Option<int>, n: nat)
    requires IsRun(states, steps, maxLocks, setting) && n < |states|
    ensures CountSlots(states[n].queries) <= Capacity(setting) <= 64
    ensures states[n].permits == Capacity(setting) - CountSlots(states[n].queries)
  {
    RunInv(states, steps, maxLocks, setting, n);
  }

  /** In every run, no two queries of one session are past its lock together. */
  lemma RunIsExclusive(
      states: seq<Engine>, steps: seq<Step>, maxLocks: int, setting: Option<int>, n: nat, p: nat, q: nat)
    requires IsRun(states, steps, maxLocks, setting) && n < |states|
    requires p < |states[n].queries| && q < |states[n].queries|
    requires states[n].queries[p].session == states[n].queries[q].session
    requires HasLock(states[n].queries[p].pc) && HasLock(states[n].queries[q].pc)
    ensures p == q
  {
    RunInv(states, steps, maxLocks, setting, n);
    OnePerSession(states[n], p, q);
  }
}
