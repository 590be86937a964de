/**
 All session queries of the process, interleaved.

 A query goes through the steps of `submit_query`: take a reference to the session's lock, enter the
 lock, take a capacity slot, run, drain the follow-up slot, and give everything back.  Queueing,
 clearing and steering a follow-up are further steps, and each step is one guarded block of the code.
 */
module QueryEngine {
  import opened Wrappers
  import Locks = KeyedLocks
  import opened SessionExecutionState

  type Key = Locks.Key

  datatype Pc =
    | Submitted
    | Referenced               // waits for the session lock
    | Entered                  // holds the session lock
    | AwaitingSlot
    | Admitted                 // holds a slot, still listed as waiting if it was
    | Running                  // holds a slot, no context yet
    | Streaming                // its context is registered
    | Finishing                // context removed, follow-up slot not yet drained
    | Draining(token: Token)   // took a follow-up and has not yet started it
    | Leaving
    | SlotFree
    | Unlocked
    | Done

  datatype Query = Query(session: Key, pc: Pc)

  datatype Fate = Steered(run: RunId) | Dispatched(run: RunId) | Superseded | Cleared | Lost

  datatype Verdict = Verdict(token: Token, fate: Fate)

  datatype Engine = Engine(
    locks: Locks.System,
    queries: seq<Query>,             // a query is known by its index
    permits: int,
    capacity: int,
    shared: Shared,
    steering: map<Token, Claim>,     // claimed follow-ups whose steer call is under way
    sessions: seq<Key>,              // of the follow-ups answered with QUEUED; a token is an index
    fates: seq<Verdict>)             // what became of follow-ups, in order

  datatype Step =
    | Submit(session: Key)
    | TakeReference(q: nat)
    | EnterSession(q: nat)
    | AskSlot(q: nat, busy: bool)
    | TakeSlot(q: nat)
    | EndWaiting(q: nat)
    | EndEarly(q: nat)               // a completed duplicate, or something raised before the stream
    | Register(q: nat)
    | Unregister(q: nat)
    | Drain(q: nat)
    | SkipDrain(q: nat)              // the finalizer left before it drained
    | Dispatch(q: nat)
    | DrainFails(q: nat)             // persisting the emptied slot, or announcing the follow-up, raised
    | FreeSlot(q: nat)
    | LeaveSession(q: nat)
    | DropReference(q: nat)
    | Queue(session: Key)
    | Clear(session: Key)
    | ClaimSteer(session: Key, streaming: bool)
    | SteerSucceeds(token: Token)
    | SteerFails(token: Token)       // with the error that is expected and undone
    | SteerBreaks(token: Token)      // with any other
    | ReleaseLock(session: Key)

  predicate HasReference(pc: Pc) {
    !pc.Submitted? && !pc.Done?
  }

  predicate HasLock(pc: Pc) {
    HasReference(pc) && !pc.Referenced? && !pc.Unlocked?
  }

  /** Inside `run_claude_query` or about to leave it: the query holds one unit of capacity. */
  predicate HasSlot(pc: Pc) {
    pc.Admitted? || pc.Running? || pc.Streaming? || pc.Finishing? || pc.Draining? || pc.Leaving?
  }

  /** Before a query streams it may end, and goes on from where its locks and its slot are given back. */
  predicate BeforeStream(pc: Pc) {
    pc.Submitted? || pc.Referenced? || pc.Entered? || pc.AwaitingSlot? || pc.Running?
  }

  function EarlyEnd(pc: Pc): Pc {
    match pc
    case Submitted => Done
    case Referenced => Unlocked
    case Entered => SlotFree
    case AwaitingSlot => SlotFree
    case _ => Leaving
  }

  /** A run that can still start a follow-up of its session. */
  predicate Undrained(pc: Pc) {
    pc.Streaming? || pc.Finishing?
  }

  function NewEngine(maxLocks: int, setting: Option<int>): Engine {
    Engine(Locks.NewSystem(maxLocks), [], Capacity(setting), Capacity(setting),
           Shared(map[], map[], {}), map[], [], [])
  }

  predicate At(e: Engine, q: nat, pc: Pc) {
    q < |e.queries| && e.queries[q].pc == pc
  }

  predicate Enabled(e: Engine, st: Step) {
    match st
    case TakeReference(q) => At(e, q, Submitted) && Locks.CanAcquire(e.locks, q)
    case EnterSession(q) => At(e, q, Referenced) && Locks.CanEnter(e.locks, q)
    case AskSlot(q, busy) => At(e, q, Entered) && (e.permits == 0 ==> busy)
    case TakeSlot(q) => At(e, q, AwaitingSlot) && e.permits > 0
    case EndWaiting(q) => At(e, q, Admitted)
    case EndEarly(q) => q < |e.queries| && BeforeStream(e.queries[q].pc)
    case Register(q) => At(e, q, Running)
    case Unregister(q) => At(e, q, Streaming)
    case Drain(q) => At(e, q, Finishing)
    case SkipDrain(q) => At(e, q, Finishing)
    case Dispatch(q) => q < |e.queries| && e.queries[q].pc.Draining?
    case DrainFails(q) => q < |e.queries| && e.queries[q].pc.Draining?
    case FreeSlot(q) => At(e, q, Leaving)
    case LeaveSession(q) => At(e, q, SlotFree) && Locks.CanLeave(e.locks, q)
    case DropReference(q) => At(e, q, Unlocked) && Locks.CanUnref(e.locks, q)
    case SteerSucceeds(token) => token in e.steering
    case SteerFails(token) => token in e.steering
    case SteerBreaks(token) => token in e.steering
    case _ => true
  }

  function Move(e: Engine, q: nat, pc: Pc): Engine
    requires q < |e.queries|
  {
    e.(queries := e.queries[q := e.queries[q].(pc := pc)])
  }

  function Decide(e: Engine, token: Token, fate: Fate): Engine {
    e.(fates := e.fates + [Verdict(token, fate)])
  }

  /** A query that ends while it waits for a slot also leaves the list of those waiting. */
  function EndEarlyStep(e: Engine, q: nat): Engine
    requires q < |e.queries|
  {
    var e1 := if e.queries[q].pc.AwaitingSlot? then e.(shared := EndWait(e.shared, e.queries[q].session)) else e;
    Move(e1, q, EarlyEnd(e.queries[q].pc))
  }

  function SubmitQuery(e: Engine, session: Key): Engine {
    e.(queries := e.queries + [Query(session, Submitted)])
  }

  function QueueStep(e: Engine, session: Key): Engine {
    var (shared, outcome) := QueueMessage(e.shared, session, |e.sessions|);
    match outcome
    case RunImmediately => e
    case Queued(previous) =>
      var e1 := if previous.Some? then Decide(e, previous.value, Superseded) else e;
      e1.(shared := shared, sessions := e.sessions + [session])
  }

  function ClearStep(e: Engine, session: Key): Engine {
    var (shared, removed) := TakeQueued(e.shared, session);
    var e1 := e.(shared := shared);
    if removed.Some? then Decide(e1, removed.value, Cleared) else e1
  }

  function ClaimStep(e: Engine, session: Key, streaming: bool): Engine {
    var (shared, claim) := ClaimForSteer(e.shared, session, streaming);
    if claim.Success? then e.(shared := shared, steering := e.steering[claim.value.token := claim.value]) else e
  }

  function SteerFailsStep(e: Engine, token: Token): Engine
    requires token in e.steering
  {
    var (shared, restored) := RestoreClaim(e.shared, e.steering[token]);
    var e1 := e.(shared := shared, steering := e.steering - {token});
    if restored then e1 else Decide(e1, token, Superseded)
  }

  function DrainStep(e: Engine, q: nat): Engine
    requires q < |e.queries|
  {
    var (shared, taken) := TakeQueued(e.shared, e.queries[q].session);
    Move(e.(shared := shared), q, if taken.Some? then Draining(taken.value) else Leaving)
  }

  function DispatchStep(e: Engine, q: nat): Engine
    requires q < |e.queries| && e.queries[q].pc.Draining?
  {
    var e1 := Decide(e, e.queries[q].pc.token, Dispatched(|e.queries|));
    SubmitQuery(Move(e1, q, Leaving), e.queries[q].session)
  }

  function Next(e: Engine, st: Step): Engine
    requires Enabled(e, st)
  {
    match st
    case Submit(session) => SubmitQuery(e, session)
    case TakeReference(q) => Move(e.(locks := Locks.Acquire(e.locks, q, e.queries[q].session)), q, Referenced)
    case EnterSession(q) => Move(e.(locks := Locks.Enter(e.locks, q)), q, Entered)
    case AskSlot(q, busy) =>
      Move(e.(shared := if busy then BeginWait(e.shared, e.queries[q].session) else e.shared), q, AwaitingSlot)
    case TakeSlot(q) => Move(e.(permits := e.permits - 1), q, Admitted)
    case EndWaiting(q) => Move(e.(shared := EndWait(e.shared, e.queries[q].session)), q, Running)
    case EndEarly(q) => EndEarlyStep(e, q)
    case Register(q) => Move(e.(shared := SetContext(e.shared, e.queries[q].session, q)), q, Streaming)
    case Unregister(q) => Move(e.(shared := DropContext(e.shared, e.queries[q].session, q)), q, Finishing)
    case Drain(q) => DrainStep(e, q)
    case SkipDrain(q) => Move(e, q, Leaving)
    case Dispatch(q) => DispatchStep(e, q)
    case DrainFails(q) => Move(Decide(e, e.queries[q].pc.token, Lost), q, Leaving)
    case FreeSlot(q) => Move(e.(permits := e.permits + 1), q, SlotFree)
    case LeaveSession(q) => Move(e.(locks := Locks.Leave(e.locks, q)), q, Unlocked)
    case DropReference(q) => Move(e.(locks := Locks.Unref(e.locks, q)), q, Done)
    case Queue(session) => QueueStep(e, session)
    case Clear(session) => ClearStep(e, session)
    case ClaimSteer(session, streaming) => ClaimStep(e, session, streaming)
    case SteerSucceeds(token) =>
      Decide(e.(steering := e.steering - {token}), token, Steered(e.steering[token].run))
    case SteerFails(token) => SteerFailsStep(e, token)
    case SteerBreaks(token) => Decide(e.(steering := e.steering - {token}), token, Lost)
    case ReleaseLock(session) => e.(locks := Locks.Release(e.locks, session))
  }

  /** A run: any interleaving of steps, each taken when it can be. */
  ghost predicate IsRun(states: seq<Engine>, steps: seq<Step>, maxLocks: int, setting: Option<int>) {
    && |states| == |steps| + 1 && states[0] == NewEngine(maxLocks, setting)
    && forall i :: 0 <= i < |steps| ==> Enabled(states[i], steps[i]) && states[i+1] == Next(states[i], steps[i])
  }
}
