/**
 Accepted follow-ups are linear: at any time each one is in exactly one place, and that place belongs
 to the session it was queued for.
 */
module QueryEngineTokens {
  import opened Wrappers
  import opened SessionExecutionState
  import opened QueryEngine
  import opened QueryEngineSafety

  datatype Place = InSlot(session: Key) | InSteering | InDrain(q: nat) | InFate(i: nat)

  ghost predicate Holds(e: Engine, t: Token, pl: Place) {
    match pl
    case InSlot(s) => s in e.shared.queued && e.shared.queued[s] == t
    case InSteering => t in e.steering
    case InDrain(q) => q < |e.queries| && e.queries[q].pc == Draining(t)
    case InFate(i) => i < |e.fates| && e.fates[i].token == t
  }

  ghost predicate OnlyAccepted(e: Engine) {
    forall t: Token, pl :: Holds(e, t, pl) ==> t < |e.sessions|
  }

  ghost predicate Placed(e: Engine, t: Token) {
    exists pl :: Holds(e, t, pl)
  }

  ghost predicate SomewherePlaced(e: Engine) {
    forall t: Token :: t < |e.sessions| ==> Placed(e, t)
  }

  ghost predicate OncePlaced(e: Engine) {
    forall t: Token, p1, p2 :: Holds(e, t, p1) && Holds(e, t, p2) ==> p1 == p2
  }

  ghost predicate Linear(e: Engine) {
    OnlyAccepted(e) && SomewherePlaced(e) && OncePlaced(e)
  }

  // ---------- moving one token ----------

  /** From `e` to `e'`, only what token `t0` says of the places `from` and `to` changes. */
  ghost predicate OnlyThat(e: Engine, e': Engine, t0: Token, from: Place, to: Place) {
    && e'.sessions == e.sessions
    && forall t: Token, pl :: t != t0 || (pl != from && pl != to) ==> (Holds(e', t, pl) <==> Holds(e, t, pl))
  }

  lemma LinearAfterMove(e: Engine, e': Engine, t0: Token, from: Place, to: Place)
    requires Linear(e) && Holds(e, t0, from) && from != to
    requires OnlyThat(e, e', t0, from, to)
    requires Holds(e', t0, to) && !Holds(e', t0, from)
    ensures Linear(e')
  {
    assert !Holds(e, t0, to);
    forall pl ensures Holds(e', t0, pl) <==> pl == to {
      if pl != from && pl != to { assert Holds(e', t0, pl) <==> Holds(e, t0, pl); }
    }
    forall t: Token | t < |e'.sessions| ensures Placed(e', t) {
      if t == t0 {
        assert Holds(e', t0, to);
      } else {
        assert Placed(e, t);
        var pl :| Holds(e, t, pl);
        assert Holds(e', t, pl);
      }
    }
    forall t: Token, p1, p2 | Holds(e', t, p1) && Holds(e', t, p2) ensures p1 == p2 {
      if t != t0 { assert Holds(e, t, p1) && Holds(e, t, p2); }
    }
    forall t: Token, pl | Holds(e', t, pl) ensures t < |e'.sessions| {
      if t != t0 { assert Holds(e, t, pl); }
    }
  }

  ghost predicate NothingMoves(e: Engine, e': Engine) {
    e'.sessions == e.sessions && forall t: Token, pl :: Holds(e', t, pl) <==> Holds(e, t, pl)
  }

  lemma LinearAfterNothing(e: Engine, e': Engine)
    requires Linear(e) && NothingMoves(e, e')
    ensures Linear(e')
  {
    forall t: Token | t < |e'.sessions| ensures Placed(e', t) {
      assert Placed(e, t);
      var pl :| Holds(e, t, pl);
      assert Holds(e', t, pl);
    }
  }

  // ---------- the steps of a query ----------

  lemma NothingMovesWithQuery(e: Engine, e': Engine, q: nat, pc: Pc)
    requires q < |e.queries| && e'.queries == e.queries[q := e.queries[q].(pc := pc)]
    requires !e.queries[q].pc.Draining? && !pc.Draining?
    requires e'.shared.queued == e.shared.queued && e'.steering == e.steering
    requires e'.fates == e.fates && e'.sessions == e.sessions
    ensures NothingMoves(e, e')
  {
    forall t: Token, pl ensures Holds(e', t, pl) <==> Holds(e, t, pl) {
      match pl
      case InDrain(p) =>
      case _ =>
    }
  }

  lemma SubmitMovesNothing(e: Engine, session: Key)
    ensures NothingMoves(e, SubmitQuery(e, session))
  {
    var e' := SubmitQuery(e, session);
    forall t: Token, pl ensures Holds(e', t, pl) <==> Holds(e, t, pl) {
      match pl
      case InDrain(p) =>
      case _ =>
    }
  }

  lemma DrainIsLinear(e: Engine, q: nat)
    requires Linear(e) && Enabled(e, Drain(q))
    ensures Linear(Next(e, Drain(q)))
  {
    var s := e.queries[q].session;
    var e' := DrainStep(e, q);
    if s in e.shared.queued {
      var t0 := e.shared.queued[s];
      assert Holds(e, t0, InSlot(s));
      forall t: Token, pl | t != t0 || (pl != InSlot(s) && pl != InDrain(q))
        ensures Holds(e', t, pl) <==> Holds(e, t, pl)
      {
        match pl
        case InDrain(p) =>
        case _ =>
      }
      LinearAfterMove(e, e', t0, InSlot(s), InDrain(q));
    } else {
      forall t: Token, pl ensures Holds(e', t, pl) <==> Holds(e, t, pl) {
        match pl
        case InDrain(p) =>
        case _ =>
      }
      LinearAfterNothing(e, e');
    }
  }

  /** A drained follow-up leaves its query for the list of fates. */
  lemma SettleDrained(e: Engine, q: nat, fate: Fate)
    requires Linear(e) && q < |e.queries| && e.queries[q].pc.Draining?
    ensures Linear(Move(Decide(e, e.queries[q].pc.token, fate), q, Leaving))
  {
    var t0 := e.queries[q].pc.token;
    var e' := Move(Decide(e, t0, fate), q, Leaving);
    assert Holds(e, t0, InDrain(q));
    forall t: Token, pl | t != t0 || (pl != InDrain(q) && pl != InFate(|e.fates|))
      ensures Holds(e', t, pl) <==> Holds(e, t, pl)
    {
      match pl
      case InFate(i) =>
      case InDrain(p) =>
      case _ =>
    }
    LinearAfterMove(e, e', t0, InDrain(q), InFate(|e.fates|));
  }

  lemma DispatchIsLinear(e: Engine, q: nat)
    requires Linear(e) && Enabled(e, Dispatch(q))
    ensures Linear(Next(e, Dispatch(q)))
  {
    SettleDrained(e, q, Dispatched(|e.queries|));
    var e1 := Move(Decide(e, e.queries[q].pc.token, Dispatched(|e.queries|)), q, Leaving);
    SubmitMovesNothing(e1, e.queries[q].session);
    LinearAfterNothing(e1, SubmitQuery(e1, e.queries[q].session));
  }

  // ---------- the steps of a follow-up ----------

  /** The slot's content, if any, is decided. */
  function EmptySlot(e: Engine, session: Key, fate: Fate): Engine {
    var e1 := e.(shared := e.shared.(queued := e.shared.queued - {session}));
    if session in e.shared.queued then Decide(e1, e.shared.queued[session], fate) else e1
  }

  function FillSlot(e: Engine, session: Key): Engine {
    e.(shared := e.shared.(queued := e.shared.queued[session := |e.sessions|]), sessions := e.sessions + [session])
  }

  lemma EmptySlotIsLinear(e: Engine, session: Key, fate: Fate)
    requires Linear(e)
    ensures Linear(EmptySlot(e, session, fate))
  {
    var e' := EmptySlot(e, session, fate);
    if session in e.shared.queued {
      var t0 := e.shared.queued[session];
      assert Holds(e, t0, InSlot(session));
      forall t: Token, pl | t != t0 || (pl != InSlot(session) && pl != InFate(|e.fates|))
        ensures Holds(e', t, pl) <==> Holds(e, t, pl)
      {
        match pl
        case InFate(i) =>
        case InDrain(p) =>
        case _ =>
      }
      LinearAfterMove(e, e', t0, InSlot(session), InFate(|e.fates|));
    } else {
      assert NothingMoves(e, e');
      LinearAfterNothing(e, e');
    }
  }

  lemma FillSlotIsLinear(e: Engine, session: Key)
    requires Linear(e) && session !in e.shared.queued
    ensures Linear(FillSlot(e, session))
  {
    var e' := FillSlot(e, session);
    var t0 := |e.sessions|;
    assert Holds(e', t0, InSlot(session));
    forall t: Token, pl ensures Holds(e', t, pl) <==> Holds(e, t, pl) || (t == t0 && pl == InSlot(session)) {
      match pl
      case InSlot(s) =>
      case _ =>
    }
    forall t: Token | t < |e'.sessions| ensures Placed(e', t) {
      if t != t0 {
        assert Placed(e, t);
        var pl :| Holds(e, t, pl);
        assert Holds(e', t, pl);
      }
    }
  }

  lemma QueueIsLinear(e: Engine, session: Key)
    requires Linear(e)
    ensures Linear(QueueStep(e, session))
  {
    if session in e.shared.contexts {
      EmptySlotIsLinear(e, session, Superseded);
      FillSlotIsLinear(EmptySlot(e, session, Superseded), session);
      var e1 := FillSlot(EmptySlot(e, session, Superseded), session);
      assert e1.shared.queued == e.shared.queued[session := |e.sessions|];
      assert QueueStep(e, session) == e1;
    }
  }

  lemma ClearIsLinear(e: Engine, session: Key)
    requires Linear(e)
    ensures Linear(ClearStep(e, session))
  {
    EmptySlotIsLinear(e, session, Cleared);
    assert ClearStep(e, session) == EmptySlot(e, session, Cleared);
  }

  lemma ClaimIsLinear(e: Engine, session: Key, streaming: bool)
    requires Linear(e)
    ensures Linear(ClaimStep(e, session, streaming))
  {
    var e' := ClaimStep(e, session, streaming);
    if session in e.shared.queued && session in e.shared.contexts && streaming {
      var t0 := e.shared.queued[session];
      assert Holds(e, t0, InSlot(session));
      forall t: Token, pl | t != t0 || (pl != InSlot(session) && pl != InSteering)
        ensures Holds(e', t, pl) <==> Holds(e, t, pl)
      {
        match pl
        case InFate(i) =>
        case InDrain(p) =>
        case _ =>
      }
      LinearAfterMove(e, e', t0, InSlot(session), InSteering);
    }
  }

  /** A steered follow-up leaves the steering ones for the list of fates. */
  lemma SettleSteered(e: Engine, t0: Token, fate: Fate)
    requires Linear(e) && t0 in e.steering
    ensures Linear(Decide(e.(steering := e.steering - {t0}), t0, fate))
  {
    var e' := Decide(e.(steering := e.steering - {t0}), t0, fate);
    assert Holds(e, t0, InSteering);
    forall t: Token, pl | t != t0 || (pl != InSteering && pl != InFate(|e.fates|))
      ensures Holds(e', t, pl) <==> Holds(e, t, pl)
    {
      match pl
      case InFate(i) =>
      case InDrain(p) =>
      case _ =>
    }
    LinearAfterMove(e, e', t0, InSteering, InFate(|e.fates|));
  }

  lemma SteerFailsIsLinear(e: Engine, t0: Token)
    requires Linear(e) && t0 in e.steering && e.steering[t0].token == t0
    ensures Linear(SteerFailsStep(e, t0))
  {
    var e' := SteerFailsStep(e, t0);
    var s := e.steering[t0].session;
    var to := if s in e.shared.queued then InFate(|e.fates|) else InSlot(s);
    assert Holds(e, t0, InSteering);
    forall t: Token, pl | t != t0 || (pl != InSteering && pl != to)
      ensures Holds(e', t, pl) <==> Holds(e, t, pl)
    {
      match pl
      case InFate(i) =>
      case InDrain(p) =>
      case _ =>
    }
    LinearAfterMove(e, e', t0, InSteering, to);
  }

  lemma PlainStepIsLinear(e: Engine, st: Step)
    requires Linear(e) && Enabled(e, st)
    requires !st.Submit? && !st.Drain? && !st.Dispatch? && !st.DrainFails? && !st.ReleaseLock?
    requires !st.Queue? && !st.Clear? && !st.ClaimSteer? && !st.SteerSucceeds? && !st.SteerFails? && !st.SteerBreaks?
    ensures Linear(Next(e, st))
  {
    var e' := Next(e, st);
    NothingMovesWithQuery(e, e', st.q, e'.queries[st.q].pc);
    LinearAfterNothing(e, e');
  }

  lemma StepIsLinear(e: Engine, st: Step)
    requires Linear(e) && ClaimsNamed(e) && Enabled(e, st)
    ensures Linear(Next(e, st))
  {
    match st
    case Submit(session) => SubmitMovesNothing(e, session); LinearAfterNothing(e, Next(e, st));
    case Drain(q) => DrainIsLinear(e, q);
    case Dispatch(q) => DispatchIsLinear(e, q);
    case DrainFails(q) => SettleDrained(e, q, Lost);
    case ReleaseLock(session) => LinearAfterNothing(e, Next(e, st));
    case Queue(session) => QueueIsLinear(e, session);
    case Clear(session) => ClearIsLinear(e, session);
    case ClaimSteer(session, streaming) => ClaimIsLinear(e, session, streaming);
    case SteerSucceeds(t) => SettleSteered(e, t, Steered(e.steering[t].run));
    case SteerFails(t) => SteerFailsIsLinear(e, t);
    case SteerBreaks(t) => SettleSteered(e, t, Lost);
    case _ => PlainStepIsLinear(e, st);
  }

  /** In every run, each accepted follow-up is in exactly one place. */
  lemma {:induction false} RunIsLinear(states: seq<Engine>, steps: seq<Step>, maxLocks: int, setting: Option<int>, n: nat)
    requires IsRun(states, steps, maxLocks, setting) && n < |states|
    ensures Linear(states[n])
  {
    if n == 0 {
    } else {
      RunIsLinear(states, steps, maxLocks, setting, n - 1);
      RunInv(states, steps, maxLocks, setting, n - 1);
      StepIsLinear(states[n-1], steps[n-1]);
    }
  }

  /** In particular no follow-up meets two fates: it is not both steered and dispatched, nor either twice. */
  lemma OneFate(states: seq<Engine>, steps: seq<Step>, maxLocks: int, setting: Option<int>, n: nat, i: nat, j: nat)
    requires IsRun(states, steps, maxLocks, setting) && n < |states|
    requires i < |states[n].fates| && j < |states[n].fates|
    requires states[n].fates[i].token == states[n].fates[j].token
    ensures i == j
    ensures states[n].fates[i].token !in states[n].steering
    ensures states[n].fates[i].token < |states[n].sessions|
  {
    RunIsLinear(states, steps, maxLocks, setting, n);
    var t := states[n].fates[i].token;
    assert Holds(states[n], t, InFate(i)) && Holds(states[n], t, InFate(j));
    assert t in states[n].steering ==> Holds(states[n], t, InSteering);
  }

  function Losses(fates: seq<Verdict>): set<Token> {
    set v | v in fates && v.fate.Lost? :: v.token
  }

  /** The follow-up a step loses: one taken from its slot and not started, or one whose steer breaks. */
  function LostBy(e: Engine, st: Step): set<Token>
    requires Enabled(e, st)
  {
    match st
    case DrainFails(q) => {e.queries[q].pc.token}
    case SteerBreaks(token) => {token}
    case _ => {}
  }

  /** Exactly those two steps lose a follow-up. */
  lemma StepLoses(e: Engine, st: Step)
    requires Enabled(e, st)
    ensures Losses(Next(e, st).fates)
         == Losses(e.fates) + LostBy(e, st)
  {
    var e' := Next(e, st);
    if |e'.fates| > |e.fates| {
      LossesSnoc(e.fates, e'.fates[|e.fates|]);
      assert e'.fates == e.fates + [e'.fates[|e.fates|]];
    }
  }

  lemma LossesSnoc(fates: seq<Verdict>, v: Verdict)
    ensures Losses(fates + [v]) == Losses(fates) + (if v.fate.Lost? then {v.token} else {})
  {
    forall t | t in Losses(fates) + (if v.fate.Lost? then {v.token} else {}) ensures t in Losses(fates + [v]) {
      if t in Losses(fates) {
        var w :| w in fates && w.fate.Lost? && w.token == t;
        assert w in fates + [v];
      } else {
        assert v in fates + [v];
      }
    }
  }

  // ---------- no follow-up changes its session ----------

  ghost predicate IsRunOf(e: Engine, run: RunId, session: Key) {
    run < |e.queries| && e.queries[run].session == session
  }

  ghost predicate FateAtHome(e: Engine, v: Verdict)
    requires v.token < |e.sessions|
  {
    match v.fate
    case Steered(run) => IsRunOf(e, run, e.sessions[v.token])
    case Dispatched(run) => IsRunOf(e, run, e.sessions[v.token])
    case _ => true
  }

  ghost predicate SlotsAtHome(e: Engine) {
    forall s :: s in e.shared.queued ==> e.shared.queued[s] < |e.sessions| && e.sessions[e.shared.queued[s]] == s
  }

  ghost predicate ClaimsAtHome(e: Engine) {
    forall t :: t in e.steering ==>
      t < |e.sessions| && e.steering[t].session == e.sessions[t] && IsRunOf(e, e.steering[t].run, e.sessions[t])
  }

  ghost predicate DrainsAtHome(e: Engine) {
    forall q: nat :: q < |e.queries| && e.queries[q].pc.Draining? ==>
      e.queries[q].pc.token < |e.sessions| && e.sessions[e.queries[q].pc.token] == e.queries[q].session
  }

  ghost predicate FatesAtHome(e: Engine) {
    forall i :: 0 <= i < |e.fates| ==> e.fates[i].token < |e.sessions| && FateAtHome(e, e.fates[i])
  }

  /** A follow-up is found only in its session's slot, its session's runs, and fates that name such runs. */
  ghost predicate AtHome(e: Engine) {
    SlotsAtHome(e) && ClaimsAtHome(e) && DrainsAtHome(e) && FatesAtHome(e)
  }

  /** Queries and accepted follow-ups are only added, and keep their sessions. */
  ghost predicate Grows(e: Engine, e': Engine) {
    && |e.queries| <= |e'.queries| && e.sessions <= e'.sessions
    && forall q: nat :: q < |e.queries| ==> e'.queries[q].session == e.queries[q].session
  }

  lemma FateStaysAtHome(e: Engine, e': Engine, v: Verdict)
    requires Grows(e, e') && v.token < |e.sessions| && FateAtHome(e, v)
    ensures FateAtHome(e', v)
  {
  }

  lemma FatesStayAtHome(e: Engine, e': Engine, fates: seq<Verdict>)
    requires FatesAtHome(e) && Grows(e, e') && e'.fates == e.fates + fates
    requires forall v :: v in fates ==> v.token < |e'.sessions| && FateAtHome(e', v)
    ensures FatesAtHome(e')
  {
    forall i | 0 <= i < |e'.fates| ensures e'.fates[i].token < |e'.sessions| && FateAtHome(e', e'.fates[i]) {
      if i < |e.fates| {
        FateStaysAtHome(e, e', e.fates[i]);
      } else {
        assert e'.fates[i] in fates;
      }
    }
  }

  lemma ClaimsStayAtHome(e: Engine, e': Engine)
    requires ClaimsAtHome(e) && Grows(e, e')
    requires forall t :: t in e'.steering ==> t in e.steering && e'.steering[t] == e.steering[t]
    ensures ClaimsAtHome(e')
  {
  }

  lemma DrainsStayAtHome(e: Engine, e': Engine)
    requires DrainsAtHome(e) && Grows(e, e')
    requires forall q: nat :: q < |e'.queries| && e'.queries[q].pc.Draining? ==>
               q < |e.queries| && e'.queries[q].pc == e.queries[q].pc
    ensures DrainsAtHome(e')
  {
  }

  /** A step that takes no follow-up anywhere. */
  lemma PlainStaysAtHome(e: Engine, e': Engine)
    requires AtHome(e) && Grows(e, e') && e'.fates == e.fates && e'.sessions == e.sessions
    requires e'.shared.queued == e.shared.queued && e'.steering == e.steering
    requires forall q: nat :: q < |e'.queries| && e'.queries[q].pc.Draining? ==>
               q < |e.queries| && e'.queries[q].pc == e.queries[q].pc
    ensures AtHome(e')
  {
    assert e'.fates == e.fates + [];
    FatesStayAtHome(e, e', []);
    ClaimsStayAtHome(e, e');
    DrainsStayAtHome(e, e');
  }

  /** What a step that is about no follow-up leaves as it is. */
  lemma PlainStepFrame(e: Engine, st: Step)
    requires Enabled(e, st)
    requires !st.Drain? && !st.Dispatch? && !st.DrainFails?
    requires !st.Queue? && !st.Clear? && !st.ClaimSteer? && !st.SteerSucceeds? && !st.SteerFails? && !st.SteerBreaks?
    ensures var e' := Next(e, st);
            && e'.fates == e.fates && e'.sessions == e.sessions
            && e'.shared.queued == e.shared.queued && e'.steering == e.steering
            && |e.queries| <= |e'.queries|
  {
  }

  lemma PlainStepQueries(e: Engine, st: Step, q: nat)
    requires Enabled(e, st) && q < |Next(e, st).queries|
    requires !st.Drain? && !st.Dispatch? && !st.DrainFails?
    requires !st.Queue? && !st.Clear? && !st.ClaimSteer? && !st.SteerSucceeds? && !st.SteerFails? && !st.SteerBreaks?
    ensures var e' := Next(e, st);
            && (q < |e.queries| ==> e'.queries[q].session == e.queries[q].session)
            && (e'.queries[q].pc.Draining? ==> q < |e.queries| && e'.queries[q].pc == e.queries[q].pc)
  {
  }

  lemma PlainStepKeepsHome(e: Engine, st: Step)
    requires AtHome(e) && Enabled(e, st)
    requires !st.Drain? && !st.Dispatch? && !st.DrainFails?
    requires !st.Queue? && !st.Clear? && !st.ClaimSteer? && !st.SteerSucceeds? && !st.SteerFails? && !st.SteerBreaks?
    ensures AtHome(Next(e, st))
  {
    PlainStepFrame(e, st);
    forall q: nat | q < |Next(e, st).queries|
      ensures q < |e.queries| ==> Next(e, st).queries[q].session == e.queries[q].session
      ensures Next(e, st).queries[q].pc.Draining? ==> q < |e.queries| && Next(e, st).queries[q].pc == e.queries[q].pc
    {
      PlainStepQueries(e, st, q);
    }
    PlainStaysAtHome(e, Next(e, st));
  }

  lemma DrainKeepsHome(e: Engine, q: nat)
    requires AtHome(e) && Enabled(e, Drain(q))
    ensures AtHome(DrainStep(e, q))
  {
    var e' := DrainStep(e, q);
    assert e'.fates == e.fates + [];
    FatesStayAtHome(e, e', []);
    ClaimsStayAtHome(e, e');
  }

  /** A drained follow-up leaves its query, with a fate at home. */
  lemma DecidedKeepsHome(e: Engine, e': Engine, q: nat, fate: Fate)
    requires AtHome(e) && q < |e.queries| && e.queries[q].pc.Draining? && Grows(e, e')
    requires e'.sessions == e.sessions && e'.shared == e.shared && e'.steering == e.steering
    requires e'.fates == e.fates + [Verdict(e.queries[q].pc.token, fate)]
    requires FateAtHome(e', Verdict(e.queries[q].pc.token, fate))
    requires forall p: nat :: p < |e'.queries| && e'.queries[p].pc.Draining? ==>
               p < |e.queries| && e'.queries[p].pc == e.queries[p].pc
    ensures AtHome(e')
  {
    FatesStayAtHome(e, e', [Verdict(e.queries[q].pc.token, fate)]);
    ClaimsStayAtHome(e, e');
    DrainsStayAtHome(e, e');
  }

  lemma DispatchKeepsHome(e: Engine, q: nat)
    requires AtHome(e) && Enabled(e, Dispatch(q))
    ensures AtHome(DispatchStep(e, q))
  {
    DecidedKeepsHome(e, DispatchStep(e, q), q, Dispatched(|e.queries|));
  }

  lemma DrainFailsKeepsHome(e: Engine, q: nat)
    requires AtHome(e) && Enabled(e, DrainFails(q))
    ensures AtHome(Next(e, DrainFails(q)))
  {
    DecidedKeepsHome(e, Next(e, DrainFails(q)), q, Lost);
  }

  /** A step on the slots and claims alone that decides at most one follow-up. */
  lemma FollowUpKeepsHome(e: Engine, e': Engine, fates: seq<Verdict>)
    requires AtHome(e) && Grows(e, e') && e'.queries == e.queries
    requires e'.fates == e.fates + fates && forall v :: v in fates ==> v.token < |e.sessions| && FateAtHome(e, v)
    requires SlotsAtHome(e') && ClaimsAtHome(e')
    ensures AtHome(e')
  {
    forall v | v in fates ensures v.token < |e'.sessions| && FateAtHome(e', v) { FateStaysAtHome(e, e', v); }
    FatesStayAtHome(e, e', fates);
    DrainsStayAtHome(e, e');
  }

  lemma QueueKeepsHome(e: Engine, session: Key)
    requires AtHome(e)
    ensures AtHome(QueueStep(e, session))
  {
    var e' := QueueStep(e, session);
    if session in e.shared.contexts {
      ClaimsStayAtHome(e, e');
      var previous := Slot(e.shared, session);
      FollowUpKeepsHome(e, e', if previous.Some? then [Verdict(previous.value, Superseded)] else []);
    }
  }

  lemma ClearKeepsHome(e: Engine, session: Key)
    requires AtHome(e)
    ensures AtHome(ClearStep(e, session))
  {
    var e', removed := ClearStep(e, session), Slot(e.shared, session);
    ClaimsStayAtHome(e, e');
    FollowUpKeepsHome(e, e', if removed.Some? then [Verdict(removed.value, Cleared)] else []);
  }

  lemma ClaimKeepsHome(e: Engine, session: Key, streaming: bool)
    requires AtHome(e) && ContextsStream(e)
    ensures AtHome(ClaimStep(e, session, streaming))
  {
    var e' := ClaimStep(e, session, streaming);
    assert session in e.shared.contexts ==> IsRunOf(e, e.shared.contexts[session], session);
    FollowUpKeepsHome(e, e', []);
  }

  lemma SteeredKeepsHome(e: Engine, token: Token, fate: Fate)
    requires AtHome(e) && token in e.steering && FateAtHome(e, Verdict(token, fate))
    ensures AtHome(Decide(e.(steering := e.steering - {token}), token, fate))
  {
    var e' := Decide(e.(steering := e.steering - {token}), token, fate);
    ClaimsStayAtHome(e, e');
    FollowUpKeepsHome(e, e', [Verdict(token, fate)]);
  }

  lemma SteerFailsKeepsHome(e: Engine, token: Token)
    requires AtHome(e) && token in e.steering && e.steering[token].token == token
    ensures AtHome(SteerFailsStep(e, token))
  {
    var e' := SteerFailsStep(e, token);
    ClaimsStayAtHome(e, e');
    FollowUpKeepsHome(e, e', if e.steering[token].session in e.shared.queued then [Verdict(token, Superseded)] else []);
  }

  lemma FollowUpStepKeepsHome(e: Engine, st: Step)
    requires AtHome(e) && Core(e) && Enabled(e, st) && (AsksFollowUp(st) || EndsSteer(st))
    ensures AtHome(Next(e, st))
  {
    match st
    case Queue(session) => QueueKeepsHome(e, session);
    case Clear(session) => ClearKeepsHome(e, session);
    case ClaimSteer(session, streaming) => ClaimKeepsHome(e, session, streaming);
    case SteerSucceeds(t) => SteeredKeepsHome(e, t, Steered(e.steering[t].run));
    case SteerFails(t) => SteerFailsKeepsHome(e, t);
    case SteerBreaks(t) => SteeredKeepsHome(e, t, Lost);
  }

  lemma StepKeepsHome(e: Engine, st: Step)
    requires AtHome(e) && Inv(e) && Enabled(e, st)
    ensures AtHome(Next(e, st))
  {
    if AsksFollowUp(st) || EndsSteer(st) {
      FollowUpStepKeepsHome(e, st);
    } else if st.Drain? {
      DrainKeepsHome(e, st.q);
    } else if st.Dispatch? {
      DispatchKeepsHome(e, st.q);
    } else if st.DrainFails? {
      DrainFailsKeepsHome(e, st.q);
    } else {
      PlainStepKeepsHome(e, st);
    }
  }

  /** In every run, a follow-up is steered into, or dispatched as, a run of the session it was queued for. */
  lemma {:induction false} RunKeepsHome(states: seq<Engine>, steps: seq<Step>, maxLocks: int, setting: Option<int>, n: nat)
    requires IsRun(states, steps, maxLocks, setting) && n < |states|
    ensures AtHome(states[n])
  {
    if n == 0 {
    } else {
      RunKeepsHome(states, steps, maxLocks, setting, n - 1);
      RunInv(states, steps, maxLocks, setting, n - 1);
      StepKeepsHome(states[n-1], steps[n-1]);
    }
  }
}
