/**
 When a follow-up waits for nobody.  First: while a session's slot is filled, a run of that session is
 streaming or finishing, unless a steer failed late or a finalizer skipped its drain.  Then, more widely:
 when no query of the session is left that could take the follow-up, and what becomes of it from there.
 */
module QueryEngineFollowUps {
  import opened Wrappers
  import Locks = KeyedLocks
  import opened SessionExecutionState
  import opened QueryEngine
  import opened QueryEngineSafety

  // ---------- served by a run ----------

  ghost predicate HasUndrained(e: Engine, session: Key) {
    exists q: nat :: q < |e.queries| && e.queries[q].session == session && Undrained(e.queries[q].pc)
  }

  /** A follow-up in the session's slot has a run of the session that streams or finishes. */
  ghost predicate Served(e: Engine, session: Key) {
    session in e.shared.queued ==> HasUndrained(e, session)
  }

  /**
   The two ways to leave a filled slot without such a run: a steer that fails after the last one drained,
   and puts its command back into the empty slot, or a finalizer that leaves before it drains the slot.
   */
  ghost predicate Unserves(e: Engine, st: Step, session: Key) {
    match st
    case SteerFails(token) =>
      && token in e.steering && e.steering[token].session == session
      && session !in e.shared.queued && !HasUndrained(e, session)
    case SkipDrain(q) => q < |e.queries| && e.queries[q].session == session && session in e.shared.queued
    case _ => false
  }

  lemma UndrainedAfterMove(e: Engine, e': Engine, q: nat, pc: Pc, session: Key)
    requires q < |e.queries| && |e'.queries| >= |e.queries|
    requires forall p: nat :: p < |e.queries| && p != q ==> e'.queries[p] == e.queries[p]
    requires e'.queries[q] == e.queries[q].(pc := pc)
    requires HasUndrained(e, session)
    requires e.queries[q].session == session && Undrained(e.queries[q].pc) ==> Undrained(pc)
    ensures HasUndrained(e', session)
  {
    var p: nat :| p < |e.queries| && e.queries[p].session == session && Undrained(e.queries[p].pc);
    assert e'.queries[p].session == session && Undrained(e'.queries[p].pc);
  }

  lemma SameQueriesUndrained(e: Engine, e': Engine, session: Key)
    requires |e'.queries| >= |e.queries| && e'.queries[..|e.queries|] == e.queries
    requires HasUndrained(e, session)
    ensures HasUndrained(e', session)
  {
    var p: nat :| p < |e.queries| && e.queries[p].session == session && Undrained(e.queries[p].pc);
    assert e'.queries[..|e.queries|][p] == e'.queries[p];
  }

  lemma QueryStepServes(e: Engine, st: Step, session: Key)
    requires Served(e, session) && Enabled(e, st) && !st.SkipDrain?
    requires !st.Submit? && !st.ReleaseLock? && !AsksFollowUp(st) && !EndsSteer(st)
    ensures Served(Next(e, st), session)
  {
    var e' := Next(e, st);
    assert e'.shared.queued == if st.Drain? then e.shared.queued - {e.queries[st.q].session} else e.shared.queued;
    if session in e'.shared.queued {
      UndrainedAfterMove(e, e', st.q, e'.queries[st.q].pc, session);
    }
  }

  /** A session has at most one run that streams or finishes: it holds the session's lock. */
  lemma OneUndrained(e: Engine, p: nat, q: nat)
    requires Inv(e) && p < |e.queries| && q < |e.queries| && e.queries[p].session == e.queries[q].session
    requires Undrained(e.queries[p].pc) && Undrained(e.queries[q].pc)
    ensures p == q
  {
    OnePerSession(e, p, q);
  }

  lemma SkippedDrainServes(e: Engine, q: nat, session: Key)
    requires Inv(e) && Served(e, session) && Enabled(e, SkipDrain(q))
    ensures Served(Next(e, SkipDrain(q)), session) <==> !Unserves(e, SkipDrain(q), session)
  {
    var e' := Next(e, SkipDrain(q));
    if e.queries[q].session == session {
      forall p: nat | p < |e'.queries| && e'.queries[p].session == session ensures !Undrained(e'.queries[p].pc) {
        if p != q && Undrained(e.queries[p].pc) { OneUndrained(e, p, q); }
      }
    } else if session in e.shared.queued {
      UndrainedAfterMove(e, e', q, Leaving, session);
    }
  }

  /** A request fills a slot only while a context is registered. */
  lemma RequestFills(e: Engine, st: Step, session: Key)
    requires Enabled(e, st) && !st.SteerFails? && (st.ReleaseLock? || AsksFollowUp(st) || EndsSteer(st))
    requires session in Next(e, st).shared.queued
    ensures session in e.shared.queued || session in e.shared.contexts
  {
  }

  lemma RequestKeepsQueries(e: Engine, st: Step)
    requires Enabled(e, st) && (st.ReleaseLock? || AsksFollowUp(st) || EndsSteer(st))
    ensures Next(e, st).queries == e.queries
  {
  }

  lemma RequestServes(e: Engine, st: Step, session: Key)
    requires Core(e) && Served(e, session) && Enabled(e, st) && !st.SteerFails?
    requires st.ReleaseLock? || AsksFollowUp(st) || EndsSteer(st)
    ensures Served(Next(e, st), session)
  {
    RequestKeepsQueries(e, st);
    if session in Next(e, st).shared.queued {
      RequestFills(e, st, session);
      if session !in e.shared.queued {
        assert e.queries[e.shared.contexts[session]] == Query(session, Streaming);
      }
      SameQueriesUndrained(e, Next(e, st), session);
    }
  }

  lemma SubmitServes(e: Engine, submitted: Key, session: Key)
    requires Served(e, session)
    ensures Served(Next(e, Submit(submitted)), session)
  {
    if session in e.shared.queued { SameQueriesUndrained(e, Next(e, Submit(submitted)), session); }
  }

  lemma FailedSteerServes(e: Engine, token: Token, session: Key)
    requires Served(e, session) && Enabled(e, SteerFails(token))
    ensures Served(Next(e, SteerFails(token)), session) <==> !Unserves(e, SteerFails(token), session)
  {
    var e' := Next(e, SteerFails(token));
    assert e'.queries == e.queries;
    assert HasUndrained(e', session) <==> HasUndrained(e, session);
  }

  /** Exactly those two steps leave a served session unserved. */
  lemma StepServes(e: Engine, st: Step, session: Key)
    requires Inv(e) && Served(e, session) && Enabled(e, st)
    ensures Served(Next(e, st), session) <==> !Unserves(e, st, session)
  {
    if st.SteerFails? {
      FailedSteerServes(e, st.token, session);
    } else if st.SkipDrain? {
      SkippedDrainServes(e, st.q, session);
    } else if st.Submit? {
      SubmitServes(e, st.session, session);
    } else if st.ReleaseLock? || AsksFollowUp(st) || EndsSteer(st) {
      RequestServes(e, st, session);
    } else {
      QueryStepServes(e, st, session);
    }
  }

  /** In every run without such a step in this session, its filled slot has a run that has not drained. */
  lemma {:induction false} RunServes(
      states: seq<Engine>, steps: seq<Step>, maxLocks: int, setting: Option<int>, n: nat, session: Key)
    requires IsRun(states, steps, maxLocks, setting) && n < |states|
    requires forall i :: 0 <= i < n ==> !Unserves(states[i], steps[i], session)
    ensures Served(states[n], session)
  {
    if n == 0 {
    } else {
      RunServes(states, steps, maxLocks, setting, n - 1, session);
      RunInv(states, steps, maxLocks, setting, n - 1);
      StepServes(states[n-1], steps[n-1], session);
    }
  }

  // ---------- what empties a slot ----------

  /** The four ways out of a slot: a newer command, a clearing, a steer, or the session's next drain. */
  predicate Unslots(e: Engine, st: Step, session: Key) {
    match st
    case Queue(s) => s == session && s in e.shared.contexts
    case Clear(s) => s == session
    case ClaimSteer(s, streaming) => s == session && s in e.shared.contexts && streaming
    case Drain(q) => q < |e.queries| && e.queries[q].session == session
    case _ => false
  }

  /** A follow-up stays in its slot until one of the four, and then is where that step put it. */
  lemma SlotHolds(e: Engine, st: Step, session: Key)
    requires Enabled(e, st) && session in e.shared.queued
    ensures var e', token := Next(e, st), e.shared.queued[session];
            match st
            case Queue(_) => Unslots(e, st, session) ==> Verdict(token, Superseded) in e'.fates
            case Clear(_) => Unslots(e, st, session) ==> Verdict(token, Cleared) in e'.fates
            case ClaimSteer(_, _) => Unslots(e, st, session) ==> token in e'.steering
            case Drain(q) => Unslots(e, st, session) ==> e'.queries[q].pc == Draining(token)
            case _ => true
    ensures !Unslots(e, st, session) ==> Slot(Next(e, st).shared, session) == Slot(e.shared, session)
  {
  }

  lemma {:induction false} SlotHoldsOverRun(
      states: seq<Engine>, steps: seq<Step>, maxLocks: int, setting: Option<int>, m: nat, n: nat, session: Key)
    requires IsRun(states, steps, maxLocks, setting) && m <= n < |states| && session in states[m].shared.queued
    requires forall i :: m <= i < n ==> !Unslots(states[i], steps[i], session)
    ensures Slot(states[n].shared, session) == Slot(states[m].shared, session)
    decreases n
  {
    if m == n {
    } else {
      SlotHoldsOverRun(states, steps, maxLocks, setting, m, n - 1, session);
      SlotHolds(states[n-1], steps[n-1], session);
    }
  }

  // ---------- abandoned ----------

  /** A query that can still take its session's follow-up, or start the session's next query. */
  predicate MayTake(pc: Pc) {
    !pc.Leaving? && !pc.SlotFree? && !pc.Unlocked? && !pc.Done?
  }

  ghost predicate HasTaker(e: Engine, session: Key) {
    exists q: nat :: q < |e.queries| && e.queries[q].session == session && MayTake(e.queries[q].pc)
  }

  ghost predicate Abandoned(e: Engine, session: Key) {
    session in e.shared.queued && !HasTaker(e, session)
  }

  ghost predicate OnlyTaker(e: Engine, session: Key, q: nat) {
    && q < |e.queries| && e.queries[q].session == session
    && forall p: nat :: p < |e.queries| && e.queries[p].session == session && MayTake(e.queries[p].pc) ==> p == q
  }

  /** A steer that fails with no taker left, or the last taker leaving a filled slot behind. */
  ghost predicate Abandons(e: Engine, st: Step, session: Key) {
    match st
    case SteerFails(token) =>
      && token in e.steering && e.steering[token].session == session
      && session !in e.shared.queued && !HasTaker(e, session)
    case EndEarly(q) => session in e.shared.queued && OnlyTaker(e, session, q)
    case SkipDrain(q) => session in e.shared.queued && OnlyTaker(e, session, q)
    case DrainFails(q) => session in e.shared.queued && OnlyTaker(e, session, q)
    case _ => false
  }

  lemma TakerAfterMove(e: Engine, e': Engine, q: nat, session: Key)
    requires q < |e.queries| && |e'.queries| == |e.queries|
    requires forall p: nat :: p < |e.queries| && p != q ==> e'.queries[p] == e.queries[p]
    requires e'.queries[q].session == e.queries[q].session
    requires MayTake(e'.queries[q].pc) ==> MayTake(e.queries[q].pc)
    ensures HasTaker(e', session) <==>
              HasTaker(e, session) && !(OnlyTaker(e, session, q) && !MayTake(e'.queries[q].pc))
  {
    if HasTaker(e', session) {
      var p: nat :| p < |e'.queries| && e'.queries[p].session == session && MayTake(e'.queries[p].pc);
      assert e.queries[p].session == session && MayTake(e.queries[p].pc);
    }
    if p: nat :| p < |e.queries| && e.queries[p].session == session && MayTake(e.queries[p].pc)
                 && (p != q || MayTake(e'.queries[q].pc)) {
      assert e'.queries[p].session == session && MayTake(e'.queries[p].pc);
    }
  }

  lemma TakerAfterSubmit(e: Engine, e': Engine, submitted: Key, session: Key)
    requires |e'.queries| == |e.queries| + 1 && e'.queries[..|e.queries|] == e.queries
    requires e'.queries[|e.queries|] == Query(submitted, Submitted)
    ensures HasTaker(e', session) <==> HasTaker(e, session) || submitted == session
  {
    if submitted == session {
      assert MayTake(e'.queries[|e.queries|].pc);
    }
    if q: nat :| q < |e.queries| && e.queries[q].session == session && MayTake(e.queries[q].pc) {
      assert e'.queries[..|e.queries|][q] == e'.queries[q];
    }
    if q: nat :| q < |e'.queries| && e'.queries[q].session == session && MayTake(e'.queries[q].pc) && q != |e.queries| {
      assert e'.queries[..|e.queries|][q] == e.queries[q];
    }
  }

  lemma SameTakers(e: Engine, e': Engine, session: Key)
    requires e'.queries == e.queries
    ensures HasTaker(e', session) <==> HasTaker(e, session)
  {
  }

  /** A context is proof of a taker: its run streams. */
  lemma ContextHasTaker(e: Engine, session: Key)
    requires Inv(e) && session in e.shared.contexts
    ensures HasTaker(e, session)
  {
    assert e.queries[e.shared.contexts[session]] == Query(session, Streaming);
  }

  /** Steps that move one query and submit none. */
  predicate MovesQuery(st: Step) {
    !st.Submit? && !st.Dispatch? && !st.ReleaseLock? && !AsksFollowUp(st) && !EndsSteer(st)
  }

  lemma DispatchTakers(e: Engine, q: nat, session: Key)
    requires Enabled(e, Dispatch(q))
    ensures HasTaker(Next(e, Dispatch(q)), session) <==> HasTaker(e, session)
  {
    var moved := Move(e, q, Leaving);
    TakerAfterMove(e, moved, q, session);
    TakerAfterSubmit(moved, Next(e, Dispatch(q)), e.queries[q].session, session);
  }

  lemma SubmitTakers(e: Engine, submitted: Key, session: Key)
    ensures HasTaker(Next(e, Submit(submitted)), session) <==> HasTaker(e, session) || submitted == session
  {
    TakerAfterSubmit(e, Next(e, Submit(submitted)), submitted, session);
  }

  lemma RequestTakers(e: Engine, st: Step, session: Key)
    requires Enabled(e, st) && (st.ReleaseLock? || AsksFollowUp(st) || EndsSteer(st))
    ensures HasTaker(Next(e, st), session) <==> HasTaker(e, session)
  {
    SameTakers(e, Next(e, st), session);
  }

  lemma MoveEffect(e: Engine, st: Step)
    requires Enabled(e, st) && MovesQuery(st)
    ensures var e' := Next(e, st);
            && st.q < |e.queries| && |e'.queries| == |e.queries|
            && (forall p: nat :: p < |e.queries| && p != st.q ==> e'.queries[p] == e.queries[p])
            && e'.queries[st.q].session == e.queries[st.q].session
            && (MayTake(e'.queries[st.q].pc) ==> MayTake(e.queries[st.q].pc))
            && (MayTake(e.queries[st.q].pc) && !MayTake(e'.queries[st.q].pc) ==>
                  st.EndEarly? || st.SkipDrain? || st.DrainFails? || (st.Drain? && e.queries[st.q].session !in e.shared.queued))
            && (st.EndEarly? || st.SkipDrain? || st.DrainFails? ==> !MayTake(e'.queries[st.q].pc))
            && e'.shared.queued == (if st.Drain? then e.shared.queued - {e.queries[st.q].session} else e.shared.queued)
  {
  }

  lemma QueryStepAbandons(e: Engine, st: Step, session: Key)
    requires !Abandoned(e, session) && Enabled(e, st) && MovesQuery(st)
    ensures Abandoned(Next(e, st), session) <==> Abandons(e, st, session)
  {
    MoveEffect(e, st);
    TakerAfterMove(e, Next(e, st), st.q, session);
  }

  lemma RequestAbandons(e: Engine, st: Step, session: Key)
    requires Inv(e) && !Abandoned(e, session) && Enabled(e, st) && !st.SteerFails?
    requires st.ReleaseLock? || AsksFollowUp(st) || EndsSteer(st)
    ensures !Abandoned(Next(e, st), session)
  {
    RequestTakers(e, st, session);
    if session in Next(e, st).shared.queued {
      RequestFills(e, st, session);
      if session in e.shared.contexts { ContextHasTaker(e, session); }
    }
  }

  lemma FailedSteerAbandons(e: Engine, token: Token, session: Key)
    requires !Abandoned(e, session) && Enabled(e, SteerFails(token))
    ensures Abandoned(Next(e, SteerFails(token)), session) <==> Abandons(e, SteerFails(token), session)
  {
    RequestTakers(e, SteerFails(token), session);
  }

  lemma NewQueryAbandons(e: Engine, st: Step, session: Key)
    requires !Abandoned(e, session) && Enabled(e, st) && (st.Submit? || st.Dispatch?)
    ensures !Abandoned(Next(e, st), session)
  {
    if st.Submit? {
      SubmitTakers(e, st.session, session);
    } else {
      DispatchTakers(e, st.q, session);
    }
  }

  /** Exactly which steps leave a follow-up to nobody. */
  lemma StepAbandons(e: Engine, st: Step, session: Key)
    requires Inv(e) && !Abandoned(e, session) && Enabled(e, st)
    ensures Abandoned(Next(e, st), session) <==> Abandons(e, st, session)
  {
    if MovesQuery(st) {
      QueryStepAbandons(e, st, session);
    } else if st.SteerFails? {
      FailedSteerAbandons(e, st.token, session);
    } else if st.Submit? || st.Dispatch? {
      NewQueryAbandons(e, st, session);
    } else {
      RequestAbandons(e, st, session);
    }
  }

  lemma AbandonedHasNoWayOut(e: Engine, st: Step, session: Key)
    requires Inv(e) && Abandoned(e, session) && Enabled(e, st) && st != Clear(session)
    ensures !Unslots(e, st, session)
  {
    if session in e.shared.contexts { ContextHasTaker(e, session); }
    assert forall q: nat :: q < |e.queries| && e.queries[q].session == session ==> !MayTake(e.queries[q].pc);
  }

  /** What a step does to the takers of a session that has none. */
  lemma NewTaker(e: Engine, st: Step, session: Key)
    requires !HasTaker(e, session) && Enabled(e, st)
    ensures HasTaker(Next(e, st), session) <==> st == Submit(session)
  {
    if MovesQuery(st) {
      MoveEffect(e, st);
      TakerAfterMove(e, Next(e, st), st.q, session);
    } else if st.Submit? {
      SubmitTakers(e, st.session, session);
    } else if st.Dispatch? {
      DispatchTakers(e, st.q, session);
    } else {
      RequestTakers(e, st, session);
    }
  }

  /**
   From there the follow-up stays where it is, whatever the process does and whatever is asked of other
   sessions: only a clearing removes it, and only the session's next query can take it again.
   */
  lemma AbandonedStays(e: Engine, st: Step, session: Key)
    requires Inv(e) && Abandoned(e, session) && Enabled(e, st)
    ensures st != Clear(session) ==> Slot(Next(e, st).shared, session) == Slot(e.shared, session)
    ensures Abandoned(Next(e, st), session) <==> st != Clear(session) && st != Submit(session)
  {
    NewTaker(e, st, session);
    SlotHolds(e, st, session);
    if st != Clear(session) { AbandonedHasNoWayOut(e, st, session); }
  }

  lemma AbandonedOneStep(
      states: seq<Engine>, steps: seq<Step>, maxLocks: int, setting: Option<int>, n: nat, session: Key)
    requires IsRun(states, steps, maxLocks, setting) && n < |steps| && Abandoned(states[n], session)
    requires steps[n] != Clear(session) && steps[n] != Submit(session)
    ensures Abandoned(states[n+1], session) && Slot(states[n+1].shared, session) == Slot(states[n].shared, session)
  {
    RunInv(states, steps, maxLocks, setting, n);
    AbandonedStays(states[n], steps[n], session);
  }

  lemma {:induction false} AbandonedStaysOverRun(
      states: seq<Engine>, steps: seq<Step>, maxLocks: int, setting: Option<int>, m: nat, n: nat, session: Key)
    requires IsRun(states, steps, maxLocks, setting) && m <= n < |states| && Abandoned(states[m], session)
    requires forall i :: m <= i < n ==> steps[i] != Clear(session) && steps[i] != Submit(session)
    ensures Abandoned(states[n], session) && Slot(states[n].shared, session) == Slot(states[m].shared, session)
    decreases n
  {
    if m == n {
    } else {
      AbandonedStaysOverRun(states, steps, maxLocks, setting, m, n - 1, session);
      AbandonedOneStep(states, steps, maxLocks, setting, n - 1, session);
    }
  }

  /** Without such a failure in the session, its follow-up is never abandoned. */
  lemma RunAbandonsNone(
      states: seq<Engine>, steps: seq<Step>, maxLocks: int, setting: Option<int>, n: nat, session: Key)
    requires IsRun(states, steps, maxLocks, setting) && n < |states|
    requires forall i :: 0 <= i < n ==> !Unserves(states[i], steps[i], session)
    ensures !Abandoned(states[n], session)
  {
    RunServes(states, steps, maxLocks, setting, n, session);
    var e := states[n];
    if q: nat :| q < |e.queries| && e.queries[q].session == session && Undrained(e.queries[q].pc) {
      assert MayTake(e.queries[q].pc);
    }
  }
}
