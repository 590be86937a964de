/**
 Runs of one session in which a follow-up is abandoned, as its steer fails after the run has drained or
 the finalizer skips its drain, and runs in which it is lost, as saving the emptied slot or its steer breaks.
 */
module QueryEngineStranded {
  import opened Wrappers
  import Locks = KeyedLocks
  import opened SessionExecutionState
  import opened QueryEngine
  import opened QueryEngineFollowUps

  const SESSION := Locks.Key("s")

  /** The pool before the query, while the query waits for the lock, and while it is inside. */
  const NO_LOCK := Locks.NewSystem(500)
  const LOCK_FREE := LockOf(false)
  const LOCK_HELD := LockOf(true)

  function LockOf(inside: bool): Locks.System {
    Locks.System(Locks.Pool([SESSION], map[SESSION := 0], map[SESSION := 1], 500),
                 map[0 := Locks.Caller(SESSION, 0, inside)], 1, 1)
  }

  /** The engine while one query is at `pc`, before any follow-up. */
  function Starting(pc: Pc, locks: Locks.System, permits: int): Engine {
    Engine(locks, [Query(SESSION, pc)], permits, 8, Shared(map[], map[], {}), map[], [], [])
  }

  /** The engine once the query streams or has streamed and one follow-up was accepted. */
  function Accepted(pc: Pc, shared: Shared, steering: map<Token, Claim>, fates: seq<Verdict>): Engine {
    Engine(LOCK_HELD, [Query(SESSION, pc)], 7, 8, shared, steering, [SESSION], fates)
  }

  const NOTHING := Shared(map[], map[], {})
  const STREAMING := Shared(map[], map[SESSION := 0], {})
  const QUEUED := Shared(map[SESSION := 0], map[SESSION := 0], {})
  const LEFT := Shared(map[SESSION := 0], map[], {})
  const CLAIMED: map<Token, Claim> := map[0 := Claim(0, SESSION, 0)]

  ghost predicate Leads(e: Engine, st: Step, e': Engine) {
    Enabled(e, st) && e' == Next(e, st)
  }

  /** A run of these steps ends in `e`. */
  ghost predicate Reached(steps: seq<Step>, e: Engine) {
    exists states :: IsRun(states, steps, 500, Some(8)) && states[|steps|] == e
  }

  lemma OneMore(steps: seq<Step>, e: Engine, st: Step, e': Engine)
    requires Reached(steps, e) && Leads(e, st, e')
    ensures Reached(steps + [st], e')
  {
    var states :| IsRun(states, steps, 500, Some(8)) && states[|steps|] == e;
    var states', steps' := states + [e'], steps + [st];
    forall i | 0 <= i < |steps'| ensures Enabled(states'[i], steps'[i]) && states'[i+1] == Next(states'[i], steps'[i]) {
      if i < |steps| {
        assert states'[i] == states[i] && states'[i+1] == states[i+1] && steps'[i] == steps[i];
      }
    }
    assert IsRun(states', steps', 500, Some(8));
  }

  lemma TwoMore(steps: seq<Step>, e: Engine, st1: Step, e1: Engine, st2: Step, e2: Engine)
    requires Reached(steps, e) && Leads(e, st1, e1) && Leads(e1, st2, e2)
    ensures Reached(steps + [st1, st2], e2)
  {
    OneMore(steps, e, st1, e1);
    OneMore(steps + [st1], e1, st2, e2);
    assert steps + [st1] + [st2] == steps + [st1, st2];
  }

  // ---------- a follow-up is queued ----------

  lemma ReferenceIsTaken()
    ensures Locks.CanAcquire(NO_LOCK, 0) && Locks.Acquire(NO_LOCK, 0, SESSION) == LOCK_FREE
  {
    var s := Locks.Acquire(NO_LOCK, 0, SESSION);
    assert Locks.LiveKeys(s) == {SESSION};
    assert s.pool.order == [SESSION];
  }

  lemma LockIsEntered()
    ensures Locks.CanEnter(LOCK_FREE, 0) && Locks.Enter(LOCK_FREE, 0) == LOCK_HELD
  {
    assert Locks.Held(LOCK_FREE) == {};
  }

  lemma QueryStarts()
    ensures Reached([Submit(SESSION), TakeReference(0)], Starting(Referenced, LOCK_FREE, 8))
  {
    ReferenceIsTaken();
    assert IsRun([NewEngine(500, Some(8))], [], 500, Some(8));
    assert Reached([], NewEngine(500, Some(8)));
    TwoMore([], NewEngine(500, Some(8)), Submit(SESSION), Starting(Submitted, NO_LOCK, 8),
            TakeReference(0), Starting(Referenced, LOCK_FREE, 8));
    assert [] + [Submit(SESSION), TakeReference(0)] == [Submit(SESSION), TakeReference(0)];
  }

  lemma QueryEnters()
    ensures Reached([Submit(SESSION), TakeReference(0), EnterSession(0), AskSlot(0, false)], Starting(AwaitingSlot, LOCK_HELD, 8))
  {
    QueryStarts();
    LockIsEntered();
    TwoMore([Submit(SESSION), TakeReference(0)], Starting(Referenced, LOCK_FREE, 8),
            EnterSession(0), Starting(Entered, LOCK_HELD, 8), AskSlot(0, false), Starting(AwaitingSlot, LOCK_HELD, 8));
    assert [Submit(SESSION), TakeReference(0)] + [EnterSession(0), AskSlot(0, false)]
        == [Submit(SESSION), TakeReference(0), EnterSession(0), AskSlot(0, false)];
  }

  /** The query gets its slot, streams, and a follow-up is queued. */
  function QueuedSteps(): seq<Step> {
    [Submit(SESSION), TakeReference(0), EnterSession(0), AskSlot(0, false)]
    + [TakeSlot(0), EndWaiting(0)] + [Register(0), Queue(SESSION)]
  }

  lemma SlotIsTaken()
    ensures Leads(Starting(AwaitingSlot, LOCK_HELD, 8), TakeSlot(0), Starting(Admitted, LOCK_HELD, 7))
    ensures Leads(Starting(Admitted, LOCK_HELD, 7), EndWaiting(0), Starting(Running, LOCK_HELD, 7))
  {
  }

  lemma FollowUpIsQueued()
    ensures var streaming := Starting(Streaming, LOCK_HELD, 7).(shared := STREAMING);
            Leads(Starting(Running, LOCK_HELD, 7), Register(0), streaming)
            && Leads(streaming, Queue(SESSION), Accepted(Streaming, QUEUED, map[], []))
  {
  }

  lemma QueuedIsReached()
    ensures Reached(QueuedSteps(), Accepted(Streaming, QUEUED, map[], []))
  {
    var entered := [Submit(SESSION), TakeReference(0), EnterSession(0), AskSlot(0, false)];
    QueryEnters();
    SlotIsTaken();
    TwoMore(entered, Starting(AwaitingSlot, LOCK_HELD, 8), TakeSlot(0), Starting(Admitted, LOCK_HELD, 7),
            EndWaiting(0), Starting(Running, LOCK_HELD, 7));
    FollowUpIsQueued();
    TwoMore(entered + [TakeSlot(0), EndWaiting(0)], Starting(Running, LOCK_HELD, 7),
            Register(0), Starting(Streaming, LOCK_HELD, 7).(shared := STREAMING),
            Queue(SESSION), Accepted(Streaming, QUEUED, map[], []));
  }

  // ---------- and abandoned ----------

  lemma SteerComesTooLate()
    ensures Leads(Accepted(Streaming, QUEUED, map[], []), ClaimSteer(SESSION, true), Accepted(Streaming, STREAMING, CLAIMED, []))
    ensures Leads(Accepted(Streaming, STREAMING, CLAIMED, []), Unregister(0), Accepted(Finishing, NOTHING, CLAIMED, []))
    ensures Leads(Accepted(Finishing, NOTHING, CLAIMED, []), Drain(0), Accepted(Leaving, NOTHING, CLAIMED, []))
    ensures Leads(Accepted(Leaving, NOTHING, CLAIMED, []), SteerFails(0), Accepted(Leaving, LEFT, map[], []))
  {
  }

  lemma LeavingIsAbandoned()
    ensures Abandoned(Accepted(Leaving, LEFT, map[], []), SESSION)
    ensures var e := Accepted(Leaving, NOTHING, CLAIMED, []);
            Unserves(e, SteerFails(0), SESSION) && Abandons(e, SteerFails(0), SESSION)
    ensures var e := Accepted(Finishing, LEFT, map[], []);
            Unserves(e, SkipDrain(0), SESSION) && Abandons(e, SkipDrain(0), SESSION)
  {
    var e := Accepted(Leaving, NOTHING, CLAIMED, []);
    assert !HasUndrained(e, SESSION) && !HasTaker(e, SESSION);
    assert !HasTaker(Accepted(Leaving, LEFT, map[], []), SESSION);
  }

  /** A failed steer: twelve steps, the last of which abandons the follow-up. */
  lemma StrandedRunExists()
    ensures var steps := QueuedSteps() + [ClaimSteer(SESSION, true), Unregister(0)] + [Drain(0), SteerFails(0)];
            Reached(steps, Accepted(Leaving, LEFT, map[], [])) && Abandoned(Accepted(Leaving, LEFT, map[], []), SESSION)
    ensures var e := Accepted(Leaving, NOTHING, CLAIMED, []);
            Unserves(e, SteerFails(0), SESSION) && Abandons(e, SteerFails(0), SESSION)
  {
    QueuedIsReached();
    SteerComesTooLate();
    TwoMore(QueuedSteps(), Accepted(Streaming, QUEUED, map[], []),
            ClaimSteer(SESSION, true), Accepted(Streaming, STREAMING, CLAIMED, []),
            Unregister(0), Accepted(Finishing, NOTHING, CLAIMED, []));
    TwoMore(QueuedSteps() + [ClaimSteer(SESSION, true), Unregister(0)], Accepted(Finishing, NOTHING, CLAIMED, []),
            Drain(0), Accepted(Leaving, NOTHING, CLAIMED, []), SteerFails(0), Accepted(Leaving, LEFT, map[], []));
    LeavingIsAbandoned();
  }

  lemma StreamEnds()
    ensures Leads(Accepted(Streaming, QUEUED, map[], []), Unregister(0), Accepted(Finishing, LEFT, map[], []))
    ensures Leads(Accepted(Finishing, LEFT, map[], []), SkipDrain(0), Accepted(Leaving, LEFT, map[], []))
    ensures Leads(Accepted(Finishing, LEFT, map[], []), Drain(0), Accepted(Draining(0), NOTHING, map[], []))
  {
  }

  /** No steer at all: ten steps, the last of which leaves the finalizer before its drain. */
  lemma SkippingRunExists()
    ensures Reached(QueuedSteps() + [Unregister(0), SkipDrain(0)], Accepted(Leaving, LEFT, map[], []))
    ensures Abandoned(Accepted(Leaving, LEFT, map[], []), SESSION)
    ensures var e := Accepted(Finishing, LEFT, map[], []);
            Unserves(e, SkipDrain(0), SESSION) && Abandons(e, SkipDrain(0), SESSION)
  {
    QueuedIsReached();
    StreamEnds();
    TwoMore(QueuedSteps(), Accepted(Streaming, QUEUED, map[], []), Unregister(0), Accepted(Finishing, LEFT, map[], []),
            SkipDrain(0), Accepted(Leaving, LEFT, map[], []));
    LeavingIsAbandoned();
  }

  // ---------- or lost ----------

  lemma SavingBreaks()
    ensures Leads(Accepted(Draining(0), NOTHING, map[], []), DrainFails(0), Accepted(Leaving, NOTHING, map[], [Verdict(0, Lost)]))
  {
  }

  /** A follow-up is lost when saving the emptied slot raises. */
  lemma LosingRunExists()
    ensures Reached(QueuedSteps() + [Unregister(0), Drain(0)] + [DrainFails(0)],
                    Accepted(Leaving, NOTHING, map[], [Verdict(0, Lost)]))
  {
    QueuedIsReached();
    StreamEnds();
    TwoMore(QueuedSteps(), Accepted(Streaming, QUEUED, map[], []), Unregister(0), Accepted(Finishing, LEFT, map[], []),
            Drain(0), Accepted(Draining(0), NOTHING, map[], []));
    SavingBreaks();
    OneMore(QueuedSteps() + [Unregister(0), Drain(0)], Accepted(Draining(0), NOTHING, map[], []),
            DrainFails(0), Accepted(Leaving, NOTHING, map[], [Verdict(0, Lost)]));
  }

  lemma SteerIsBroken()
    ensures Leads(Accepted(Streaming, STREAMING, CLAIMED, []), SteerBreaks(0), Accepted(Streaming, STREAMING, map[], [Verdict(0, Lost)]))
  {
  }

  /** And when its steer breaks with an error that is not expected. */
  lemma BreakingRunExists()
    ensures Reached(QueuedSteps() + [ClaimSteer(SESSION, true), SteerBreaks(0)],
                    Accepted(Streaming, STREAMING, map[], [Verdict(0, Lost)]))
  {
    QueuedIsReached();
    SteerComesTooLate();
    SteerIsBroken();
    TwoMore(QueuedSteps(), Accepted(Streaming, QUEUED, map[], []),
            ClaimSteer(SESSION, true), Accepted(Streaming, STREAMING, CLAIMED, []),
            SteerBreaks(0), Accepted(Streaming, STREAMING, map[], [Verdict(0, Lost)]));
  }
}
