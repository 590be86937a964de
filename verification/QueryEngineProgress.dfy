/**
 Queries do not deadlock, and a process left alone comes to rest, where every accepted follow-up has met
 its one fate or lies in the slot of its session.
 */
module QueryEngineProgress {
  import opened Wrappers
  import Locks = KeyedLocks
  import opened SessionExecutionState
  import opened QueryEngine
  import opened QueryEngineSafety
  import opened QueryEngineTokens
  import opened QueryEngineFollowUps

  // ---------- no deadlock ----------

  /** Steps the process takes by itself; the others are requests from outside. */
  predicate Internal(st: Step) {
    !st.Submit? && !st.Queue? && !st.Clear? && !st.ClaimSteer? && !st.ReleaseLock?
  }

  /** Steps in which something raises. */
  predicate Fails(st: Step) {
    st.EndEarly? || st.SkipDrain? || st.DrainFails? || st.SteerFails? || st.SteerBreaks?
  }

  predicate NeverBlocks(pc: Pc) {
    !pc.Done? && !pc.Referenced? && !pc.AwaitingSlot?
  }

  /** The step a query that needs nobody takes next. */
  function OwnStep(e: Engine, q: nat): Step
    requires q < |e.queries| && NeverBlocks(e.queries[q].pc)
  {
    match e.queries[q].pc
    case Submitted => TakeReference(q)
    case Entered => AskSlot(q, true)
    case Admitted => EndWaiting(q)
    case Running => Register(q)
    case Streaming => Unregister(q)
    case Finishing => Drain(q)
    case Draining(_) => Dispatch(q)
    case Leaving => FreeSlot(q)
    case SlotFree => LeaveSession(q)
    case _ => DropReference(q)
  }

  lemma OwnStepEnabled(e: Engine, q: nat)
    requires Core(e) && q < |e.queries| && NeverBlocks(e.queries[q].pc)
    ensures Enabled(e, OwnStep(e, q)) && Internal(OwnStep(e, q)) && !Fails(OwnStep(e, q))
  {
    assert q in e.locks.callers <==> HasReference(e.queries[q].pc);
  }

  lemma {:induction false} NobodyHoldsSlots(queries: seq<Query>)
    requires forall q: nat :: q < |queries| ==> !HasSlot(queries[q].pc)
    ensures CountSlots(queries) == 0
  {
    if queries == [] {
    } else {
      NobodyHoldsSlots(queries[..|queries|-1]);
    }
  }

  lemma FreeLockCanBeEntered(e: Engine, q: nat)
    requires Core(e) && At(e, q, Referenced)
    requires forall p: nat :: p < |e.queries| ==> !HasLock(e.queries[p].pc)
    ensures Enabled(e, EnterSession(q))
  {
    assert q in e.locks.callers;
    assert forall c: nat :: c in e.locks.callers ==> !e.locks.callers[c].inside;
  }

  lemma FreeSlotCanBeTaken(e: Engine, q: nat)
    requires Core(e) && At(e, q, AwaitingSlot)
    requires forall p: nat :: p < |e.queries| ==> !HasSlot(e.queries[p].pc)
    ensures Enabled(e, TakeSlot(q))
  {
    NobodyHoldsSlots(e.queries);
  }

  /** Some query can go on, without anything failing and without an answer from outside. */
  ghost predicate SomeoneCanStep(e: Engine) {
    exists st :: Internal(st) && !Fails(st) && !st.SteerSucceeds? && Enabled(e, st)
  }

  /** While some submitted query is unfinished, some query can step. */
  lemma NeverDeadlocked(e: Engine, q: nat)
    requires Inv(e) && q < |e.queries| && !e.queries[q].pc.Done?
    ensures SomeoneCanStep(e)
  {
    if p: nat :| p < |e.queries| && NeverBlocks(e.queries[p].pc) {
      OwnStepEnabled(e, p);
    } else {
      OnlyWaitersLeft(e, q);
    }
  }

  lemma OnlyWaitersLeft(e: Engine, q: nat)
    requires Core(e) && q < |e.queries| && !e.queries[q].pc.Done?
    requires forall r: nat :: r < |e.queries| ==> !NeverBlocks(e.queries[r].pc)
    ensures SomeoneCanStep(e)
  {
    if p: nat :| p < |e.queries| && e.queries[p].pc.AwaitingSlot? {
      FreeSlotCanBeTaken(e, p);
      assert Internal(TakeSlot(p)) && Enabled(e, TakeSlot(p));
    } else {
      FreeLockCanBeEntered(e, q);
      assert Internal(EnterSession(q)) && Enabled(e, EnterSession(q));
    }
  }

  // ---------- coming to rest ----------

  function Rank(pc: Pc): nat {
    match pc
    case Submitted => 11
    case Referenced => 10
    case Entered => 9
    case AwaitingSlot => 8
    case Admitted => 7
    case Running => 6
    case Streaming => 5
    case Finishing => 4
    case Draining(_) => 15
    case Leaving => 3
    case SlotFree => 2
    case Unlocked => 1
    case Done => 0
  }

  function TotalRank(queries: seq<Query>): nat {
    if queries == [] then 0 else TotalRank(queries[..|queries|-1]) + Rank(queries[|queries|-1].pc)
  }

  /** A bound on how many steps the process still takes if nothing more is asked of it. */
  function Measure(e: Engine): nat {
    TotalRank(e.queries) + 12 * |e.shared.queued| + 13 * |e.steering|
  }

  lemma {:induction false} RankAfterMove(queries: seq<Query>, q: nat, pc: Pc)
    requires q < |queries|
    ensures TotalRank(queries[q := queries[q].(pc := pc)]) + Rank(queries[q].pc) == TotalRank(queries) + Rank(pc)
  {
    var last := |queries| - 1;
    var moved := queries[q := queries[q].(pc := pc)];
    if q == last {
      assert moved[..last] == queries[..last];
    } else {
      assert moved[..last] == queries[..last][q := queries[q].(pc := pc)];
      RankAfterMove(queries[..last], q, pc);
    }
  }

  lemma RankAfterSubmit(queries: seq<Query>, session: Key)
    ensures TotalRank(queries + [Query(session, Submitted)]) == TotalRank(queries) + 11
  {
    assert (queries + [Query(session, Submitted)])[..|queries|] == queries;
  }

  lemma RemovedSize<K, V>(m: map<K, V>, k: K)
    ensures |m - {k}| == if k in m then |m| - 1 else |m|
  {
    assert (m - {k}).Keys == m.Keys - {k};
  }

  lemma MeasureAfterMove(e: Engine, e': Engine, q: nat, pc: Pc)
    requires q < |e.queries| && e'.queries == e.queries[q := e.queries[q].(pc := pc)]
    ensures Measure(e') + Rank(e.queries[q].pc) + 12 * |e.shared.queued| + 13 * |e.steering|
         == Measure(e) + Rank(pc) + 12 * |e'.shared.queued| + 13 * |e'.steering|
  {
    RankAfterMove(e.queries, q, pc);
  }

  lemma DispatchDecreases(e: Engine, q: nat)
    requires Enabled(e, Dispatch(q))
    ensures Measure(Next(e, Dispatch(q))) < Measure(e)
  {
    RankAfterMove(e.queries, q, Leaving);
    RankAfterSubmit(e.queries[q := e.queries[q].(pc := Leaving)], e.queries[q].session);
  }

  lemma DrainEffect(e: Engine, q: nat)
    requires Enabled(e, Drain(q))
    ensures q < |e.queries| && e.queries[q].pc == Finishing && |Next(e, Drain(q)).queries| == |e.queries|
    ensures var e', session := Next(e, Drain(q)), e.queries[q].session;
            var pc := e'.queries[q].pc;
            && e'.queries == e.queries[q := e.queries[q].(pc := pc)]
            && e'.steering == e.steering && e'.shared.queued == e.shared.queued - {session}
            && Rank(pc) == (if session in e.shared.queued then 15 else 3)
  {
  }

  lemma DrainDecreases(e: Engine, q: nat)
    requires Enabled(e, Drain(q))
    ensures Measure(Next(e, Drain(q))) < Measure(e)
  {
    var e' := Next(e, Drain(q));
    DrainEffect(e, q);
    MeasureAfterMove(e, e', q, e'.queries[q].pc);
    RemovedSize(e.shared.queued, e.queries[q].session);
  }

  lemma SteerDecreases(e: Engine, st: Step)
    requires Enabled(e, st) && (st.SteerSucceeds? || st.SteerFails? || st.SteerBreaks?)
    ensures Measure(Next(e, st)) < Measure(e)
  {
    RemovedSize(e.steering, st.token);
  }

  /** What the remaining internal steps do, as far as the measure sees. */
  lemma PlainMove(e: Engine, st: Step)
    requires Enabled(e, st) && Internal(st)
    requires !st.Drain? && !st.Dispatch? && !st.SteerSucceeds? && !st.SteerFails? && !st.SteerBreaks?
    ensures st.q < |e.queries| && |Next(e, st).queries| == |e.queries|
    ensures var pc := Next(e, st).queries[st.q].pc;
            && Next(e, st).queries == e.queries[st.q := e.queries[st.q].(pc := pc)]
            && Rank(pc) < Rank(e.queries[st.q].pc)
    ensures Next(e, st).shared.queued == e.shared.queued && Next(e, st).steering == e.steering
  {
  }

  lemma MoveDecreases(e: Engine, st: Step)
    requires Enabled(e, st) && Internal(st)
    requires !st.Drain? && !st.Dispatch? && !st.SteerSucceeds? && !st.SteerFails? && !st.SteerBreaks?
    ensures Measure(Next(e, st)) < Measure(e)
  {
    PlainMove(e, st);
    MeasureAfterMove(e, Next(e, st), st.q, Next(e, st).queries[st.q].pc);
  }

  lemma InternalStepDecreases(e: Engine, st: Step)
    requires Enabled(e, st) && Internal(st)
    ensures Measure(Next(e, st)) < Measure(e)
  {
    match st
    case Dispatch(q) => DispatchDecreases(e, q);
    case Drain(q) => DrainDecreases(e, q);
    case SteerSucceeds(_) => SteerDecreases(e, st);
    case SteerFails(_) => SteerDecreases(e, st);
    case SteerBreaks(_) => SteerDecreases(e, st);
    case _ => MoveDecreases(e, st);
  }

  /** Left alone for as long as it moves, the process takes at most `Measure` more steps. */
  lemma {:induction false} QuietRunsEnd(states: seq<Engine>, steps: seq<Step>)
    requires |states| == |steps| + 1
    requires forall i :: 0 <= i < |steps| ==>
               Internal(steps[i]) && Enabled(states[i], steps[i]) && states[i+1] == Next(states[i], steps[i])
    ensures |steps| + Measure(states[|steps|]) <= Measure(states[0])
  {
    if steps == [] {
    } else {
      var n := |steps| - 1;
      QuietRunsEnd(states[..n+1], steps[..n]);
      InternalStepDecreases(states[n], steps[n]);
    }
  }

  ghost predicate AtRest(e: Engine) {
    forall st :: Internal(st) ==> !Enabled(e, st)
  }

  lemma RestMeansDone(e: Engine)
    requires Inv(e) && AtRest(e)
    ensures forall q: nat :: q < |e.queries| ==> e.queries[q].pc.Done?
    ensures e.steering == map[]
  {
    forall q: nat | q < |e.queries| ensures e.queries[q].pc.Done? {
      if !e.queries[q].pc.Done? { NeverDeadlocked(e, q); }
    }
    if t :| t in e.steering {
      assert Enabled(e, SteerSucceeds(t));
    }
  }

  /** The follow-up has met a fate, and only that one. */
  ghost predicate Settled(e: Engine, t: Token) {
    exists i: nat :: i < |e.fates| && e.fates[i].token == t
                     && forall j: nat :: j < |e.fates| && e.fates[j].token == t ==> j == i
  }

  /** At rest an accepted follow-up has met one fate or is in the slot of its session, and never both. */
  lemma RestLeavesFateOrSlot(
      states: seq<Engine>, steps: seq<Step>, maxLocks: int, setting: Option<int>, n: nat, t: Token)
    requires IsRun(states, steps, maxLocks, setting) && n < |states| && AtRest(states[n])
    requires t < |states[n].sessions|
    ensures Settled(states[n], t) <==> Slot(states[n].shared, states[n].sessions[t]) != Some(t)
    ensures !Settled(states[n], t) ==> Abandoned(states[n], states[n].sessions[t])
  {
    var e := states[n];
    RunInv(states, steps, maxLocks, setting, n);
    RestMeansDone(e);
    RunIsLinear(states, steps, maxLocks, setting, n);
    RunKeepsHome(states, steps, maxLocks, setting, n);
    assert Placed(e, t);
    var pl :| Holds(e, t, pl);
    PlaceAtRest(e, t, pl);
  }

  lemma PlaceAtRest(e: Engine, t: Token, pl: Place)
    requires Linear(e) && AtHome(e) && t < |e.sessions| && Holds(e, t, pl) && e.steering == map[]
    requires forall q: nat :: q < |e.queries| ==> e.queries[q].pc.Done?
    ensures Settled(e, t) <==> Slot(e.shared, e.sessions[t]) != Some(t)
    ensures !Settled(e, t) ==> Abandoned(e, e.sessions[t])
  {
    if pl.InFate? {
      var i := pl.i;
      forall j: nat | j < |e.fates| && e.fates[j].token == t ensures j == i {
        assert Holds(e, t, InFate(j));
      }
      assert Settled(e, t);
      assert !Holds(e, t, InSlot(e.sessions[t]));
    } else {
      assert pl == InSlot(e.sessions[t]);
      forall j: nat | j < |e.fates| ensures e.fates[j].token != t {
        assert !Holds(e, t, InFate(j));
      }
    }
  }

  /**
   At rest every query is done and, if its session had no steer that failed too late and no finalizer that
   skipped its drain, an accepted follow-up has met exactly one fate.
   */
  lemma RestSettlesEverything(
      states: seq<Engine>, steps: seq<Step>, maxLocks: int, setting: Option<int>, n: nat, t: Token)
    requires IsRun(states, steps, maxLocks, setting) && n < |states| && AtRest(states[n])
    requires t < |states[n].sessions|
    requires forall i :: 0 <= i < n ==> !Unserves(states[i], steps[i], states[n].sessions[t])
    ensures forall q: nat :: q < |states[n].queries| ==> states[n].queries[q].pc.Done?
    ensures Settled(states[n], t)
  {
    RunInv(states, steps, maxLocks, setting, n);
    RestMeansDone(states[n]);
    RestLeavesFateOrSlot(states, steps, maxLocks, setting, n, t);
    RunAbandonsNone(states, steps, maxLocks, setting, n, states[n].sessions[t]);
  }
}
