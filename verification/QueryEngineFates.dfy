/**
 What becomes of a follow-up and why: which step decides its fate, what an acceptance puts into the slot,
 and when a newer follow-up has to give way to an older one.
 */
module QueryEngineFates {
  import opened Wrappers
  import opened SessionExecutionState
  import opened QueryEngine
  import opened QueryEngineSafety
  import opened QueryEngineTokens
  import opened QueryEngineStranded

  // ---------- fates and their causes ----------

  /** The slot of the session holds the follow-up. */
  predicate InSlotOf(e: Engine, session: Key, t: Token) {
    session in e.shared.queued && e.shared.queued[session] == t
  }

  /** Step `st` decides that the follow-up meets the fate. */
  predicate Decides(e: Engine, st: Step, t: Token, fate: Fate) {
    match st
    case Queue(s) => fate == Superseded && s in e.shared.contexts && InSlotOf(e, s, t)
    case Clear(s) => fate == Cleared && InSlotOf(e, s, t)
    case Dispatch(q) => q < |e.queries| && e.queries[q].pc == Draining(t) && fate == Dispatched(|e.queries|)
    case DrainFails(q) => q < |e.queries| && e.queries[q].pc == Draining(t) && fate == Lost
    case SteerSucceeds(x) => x == t && t in e.steering && fate == Steered(e.steering[t].run)
    case SteerFails(x) => x == t && t in e.steering && e.steering[t].session in e.shared.queued && fate == Superseded
    case SteerBreaks(x) => x == t && fate == Lost
    case _ => false
  }

  /** A step decides one follow-up at most, as said above, and what was decided stays. */
  lemma StepDecides(e: Engine, st: Step)
    requires Enabled(e, st)
    ensures Next(e, st).fates == e.fates || exists t, fate :: Decides(e, st, t, fate)
    ensures forall t, fate :: Decides(e, st, t, fate) <==> Next(e, st).fates == e.fates + [Verdict(t, fate)]
  {
    var e' := Next(e, st);
    if |e'.fates| > |e.fates| {
      var v := e'.fates[|e.fates|];
      assert e'.fates == e.fates + [v];
      assert Decides(e, st, v.token, v.fate);
    }
  }

  /** A follow-up dispatched as a query is the newest query there is, of the session that drained it. */
  lemma DispatchSubmits(e: Engine, q: nat)
    requires Enabled(e, Dispatch(q))
    ensures Next(e, Dispatch(q)).queries[|e.queries|] == Query(e.queries[q].session, Submitted)
    ensures |Next(e, Dispatch(q)).queries| == |e.queries| + 1
  {
  }

  ghost predicate DecidedAt(states: seq<Engine>, steps: seq<Step>, m: nat, v: Verdict) {
    m < |steps| && m < |states| && Decides(states[m], steps[m], v.token, v.fate)
  }

  /** In every run, each recorded fate was decided by one of the steps so far. */
  lemma {:induction false} FatesHaveCauses(
      states: seq<Engine>, steps: seq<Step>, maxLocks: int, setting: Option<int>, n: nat, i: nat) returns (m: nat)
    requires IsRun(states, steps, maxLocks, setting) && n < |states| && i < |states[n].fates|
    ensures m < n && DecidedAt(states, steps, m, states[n].fates[i])
    decreases n
  {
    var before := states[n-1];
    StepDecides(before, steps[n-1]);
    if i < |before.fates| {
      m := FatesHaveCauses(states, steps, maxLocks, setting, n - 1, i);
      if states[n].fates != before.fates {
        var t, fate :| Decides(before, steps[n-1], t, fate);
        assert states[n].fates == before.fates + [Verdict(t, fate)];
      }
    } else {
      m := n - 1;
      var t, fate :| Decides(before, steps[n-1], t, fate);
      assert states[n].fates == before.fates + [Verdict(t, fate)];
    }
  }

  // ---------- what a request puts where ----------

  /** A follow-up is accepted exactly when its session has a running context, and then takes the slot. */
  lemma QueueAccepts(e: Engine, session: Key)
    ensures var e', t := Next(e, Queue(session)), |e.sessions|;
            if session in e.shared.contexts then
              e'.sessions == e.sessions + [session] && e'.shared.queued == e.shared.queued[session := t]
            else e' == e
  {
  }

  /** Only that makes a follow-up accepted. */
  lemma OnlyQueueAccepts(e: Engine, st: Step)
    requires Enabled(e, st) && !st.Queue?
    ensures Next(e, st).sessions == e.sessions
  {
  }

  /** A steer claims what is in the slot, for the session's running context, only while that streams. */
  lemma ClaimTakesTheSlot(e: Engine, session: Key, streaming: bool)
    ensures var e' := Next(e, ClaimSteer(session, streaming));
            if streaming && session in e.shared.contexts && session in e.shared.queued then
              var t := e.shared.queued[session];
              && e'.steering == e.steering[t := Claim(t, session, e.shared.contexts[session])]
              && e'.shared.queued == e.shared.queued - {session}
            else e' == e
  {
  }

  /** Sessions are listed as waiting from a busy start until the query gets its slot or ends before. */
  lemma WaitingIsListed(e: Engine, st: Step, session: Key)
    requires Enabled(e, st)
    ensures session in Next(e, st).shared.waiting <==>
              || (st.AskSlot? && st.busy && e.queries[st.q].session == session)
              || (&& session in e.shared.waiting
                  && !(st.EndWaiting? && e.queries[st.q].session == session)
                  && !(st.EndEarly? && e.queries[st.q].pc.AwaitingSlot? && e.queries[st.q].session == session))
  {
  }

  // ---------- who supersedes whom ----------

  /** A steer fails while its session's slot holds an older follow-up. */
  predicate FindsOlder(e: Engine, st: Step) {
    && st.SteerFails? && st.token in e.steering
    && e.steering[st.token].session in e.shared.queued && e.shared.queued[e.steering[st.token].session] < st.token
  }

  /**
   A superseded follow-up leaves its session's slot to another one of the session; that one is newer if and
   only if it is not a failed steer that finds an older one there.
   */
  lemma SupersededByNewer(e: Engine, st: Step, t: Token)
    requires Linear(e) && AtHome(e) && Enabled(e, st) && Decides(e, st, t, Superseded)
    ensures t < |e.sessions|
    ensures var slot := Slot(Next(e, st).shared, e.sessions[t]);
            && slot.Some? && slot.value != t && slot.value < |Next(e, st).sessions|
            && Next(e, st).sessions[slot.value] == e.sessions[t]
            && (slot.value > t <==> !FindsOlder(e, st))
  {
    if st.SteerFails? {
      var s := e.steering[t].session;
      assert Holds(e, t, InSteering) && Holds(e, e.shared.queued[s], InSlot(s));
    } else {
      assert Holds(e, t, InSlot(st.session));
    }
  }

  lemma RunSupersedes(
      states: seq<Engine>, steps: seq<Step>, maxLocks: int, setting: Option<int>, n: nat, t: Token)
    requires IsRun(states, steps, maxLocks, setting) && n < |steps| && Decides(states[n], steps[n], t, Superseded)
    ensures t < |states[n].sessions|
    ensures var slot := Slot(states[n+1].shared, states[n].sessions[t]);
            && slot.Some? && slot.value != t && slot.value < |states[n+1].sessions|
            && states[n+1].sessions[slot.value] == states[n].sessions[t]
            && (slot.value > t <==> !FindsOlder(states[n], steps[n]))
  {
    RunIsLinear(states, steps, maxLocks, setting, n);
    RunKeepsHome(states, steps, maxLocks, setting, n);
    SupersededByNewer(states[n], steps[n], t);
  }

  /** The engine while the query streams and two follow-ups were accepted. */
  function AcceptedTwo(slot: map<Key, Token>, steering: map<Token, Claim>, fates: seq<Verdict>): Engine {
    Engine(LOCK_HELD, [Query(SESSION, Streaming)], 7, 8, Shared(slot, map[SESSION := 0], {}), steering, [SESSION, SESSION], fates)
  }

  function Claimed(t: Token): map<Token, Claim> {
    map[t := Claim(t, SESSION, 0)]
  }

  lemma TwoAreSteered()
    ensures var both := map[0 := Claim(0, SESSION, 0), 1 := Claim(1, SESSION, 0)];
            && Leads(Accepted(Streaming, STREAMING, CLAIMED, []), Queue(SESSION), AcceptedTwo(map[SESSION := 1], Claimed(0), []))
            && Leads(AcceptedTwo(map[SESSION := 1], Claimed(0), []), ClaimSteer(SESSION, true), AcceptedTwo(map[], both, []))
            && Leads(AcceptedTwo(map[], both, []), SteerFails(0), AcceptedTwo(map[SESSION := 0], Claimed(1), []))
            && Leads(AcceptedTwo(map[SESSION := 0], Claimed(1), []), SteerFails(1),
                     AcceptedTwo(map[SESSION := 0], map[], [Verdict(1, Superseded)]))
  {
    var both := map[0 := Claim(0, SESSION, 0), 1 := Claim(1, SESSION, 0)];
    assert both - {0} == Claimed(1);
    assert Claimed(0)[1 := Claim(1, SESSION, 0)] == both;
    assert [SESSION] + [SESSION] == [SESSION, SESSION];
  }

  /** Two steers of one session fail in the order in which they were claimed: the newer follow-up is dropped. */
  lemma OlderWinsRunExists()
    ensures Reached(QueuedSteps() + [ClaimSteer(SESSION, true), Queue(SESSION)]
                    + [ClaimSteer(SESSION, true), SteerFails(0)] + [SteerFails(1)],
                    AcceptedTwo(map[SESSION := 0], map[], [Verdict(1, Superseded)]))
    ensures FindsOlder(AcceptedTwo(map[SESSION := 0], Claimed(1), []), SteerFails(1))
  {
    var both := map[0 := Claim(0, SESSION, 0), 1 := Claim(1, SESSION, 0)];
    var steps := QueuedSteps() + [ClaimSteer(SESSION, true), Queue(SESSION)];
    QueuedIsReached();
    SteerComesTooLate();
    TwoAreSteered();
    TwoMore(QueuedSteps(), Accepted(Streaming, QUEUED, map[], []),
            ClaimSteer(SESSION, true), Accepted(Streaming, STREAMING, CLAIMED, []),
            Queue(SESSION), AcceptedTwo(map[SESSION := 1], Claimed(0), []));
    TwoMore(steps, AcceptedTwo(map[SESSION := 1], Claimed(0), []),
            ClaimSteer(SESSION, true), AcceptedTwo(map[], both, []),
            SteerFails(0), AcceptedTwo(map[SESSION := 0], Claimed(1), []));
    OneMore(steps + [ClaimSteer(SESSION, true), SteerFails(0)], AcceptedTwo(map[SESSION := 0], Claimed(1), []),
            SteerFails(1), AcceptedTwo(map[SESSION := 0], map[], [Verdict(1, Superseded)]));
  }
}
