/**
 The process-wide record the session queries share: one follow-up slot per session, the context of
 the running query, and the sessions that wait for capacity.  Each function is one block of the code
 that runs under the queue guard; the class holds the dictionaries those blocks update in place.
 */
module SessionExecutionState {
  import opened Wrappers
  import opened KeyedLocks

  /** Identity of a command that was accepted as a follow-up. */
  type Token = nat

  /** Identity of a query run; its context is the value stored for its session. */
  type RunId = nat

  datatype Shared = Shared(queued: map<Key, Token>, contexts: map<Key, RunId>, waiting: set<Key>)

  datatype QueueOutcome = RunImmediately | Queued(previous: Option<Token>)

  datatype Claim = Claim(token: Token, session: Key, run: RunId)

  function Slot(sh: Shared, session: Key): Option<Token> {
    if session in sh.queued then Some(sh.queued[session]) else None
  }

  function QueueMessage(sh: Shared, session: Key, token: Token): (Shared, QueueOutcome) {
    if session !in sh.contexts then (sh, RunImmediately)
    else (sh.(queued := sh.queued[session := token]), Queued(Slot(sh, session)))
  }

  /** Empties the slot; used both to clear it and to drain it. */
  function TakeQueued(sh: Shared, session: Key): (Shared, Option<Token>) {
    (sh.(queued := sh.queued - {session}), Slot(sh, session))
  }

  /** Takes the slot for steering, if there is one and its session's run still streams. */
  function ClaimForSteer(sh: Shared, session: Key, streaming: bool): (Shared, Result<Claim, string>) {
    if session !in sh.queued then (sh, Failure("No queued message to steer"))
    else if session !in sh.contexts || !streaming then (sh, Failure("The current run has already finished"))
    else (sh.(queued := sh.queued - {session}), Success(Claim(sh.queued[session], session, sh.contexts[session])))
  }

  /** Puts a claimed command back unless a newer one took the slot; says whether it did. */
  function RestoreClaim(sh: Shared, claim: Claim): (Shared, bool) {
    if claim.session in sh.queued then (sh, false)
    else (sh.(queued := sh.queued[claim.session := claim.token]), true)
  }

  function SetContext(sh: Shared, session: Key, run: RunId): Shared {
    sh.(contexts := sh.contexts[session := run])
  }

  /** A run removes only its own context. */
  function DropContext(sh: Shared, session: Key, run: RunId): Shared {
    if session in sh.contexts && sh.contexts[session] == run then sh.(contexts := sh.contexts - {session}) else sh
  }

  function BeginWait(sh: Shared, session: Key): Shared {
    sh.(waiting := sh.waiting + {session})
  }

  function EndWait(sh: Shared, session: Key): Shared {
    sh.(waiting := sh.waiting - {session})
  }

  /** The configured number of concurrent queries; `None` is a setting that is not a number. */
  function Capacity(setting: Option<int>): (n: int)
    ensures 1 <= n <= 64
    ensures setting.Some? && 1 <= setting.value <= 64 ==> n == setting.value
    ensures setting.Some? && setting.value < 1 ==> n == 1
    ensures setting.Some? && setting.value > 64 ==> n == 64
    ensures setting.None? ==> n == 8
  {
    match setting
    case None => 8
    case Some(raw) =>
      var atLeastOne := if raw > 1 then raw else 1;
      if atLeastOne < 64 then atLeastOne else 64
  }

  class SessionExecution {
    var queuedMessages: map<Key, Token>
    var activeContexts: map<Key, RunId>
    var waitingForSlot: set<Key>

    ghost function Value(): Shared
      reads this
    {
      Shared(queuedMessages, activeContexts, waitingForSlot)
    }

    constructor ()
      ensures Value() == Shared(map[], map[], {})
    {
      queuedMessages, activeContexts, waitingForSlot := map[], map[], {};
    }

    method Queue(session: Key, token: Token) returns (outcome: QueueOutcome)
      modifies this`queuedMessages
      ensures (Value(), outcome) == QueueMessage(old(Value()), session, token)
    {
      if session !in activeContexts {
        return RunImmediately;
      }
      var previous := if session in queuedMessages then Some(queuedMessages[session]) else None;
      queuedMessages := queuedMessages[session := token];
      return Queued(previous);
    }

    method PopQueued(session: Key) returns (removed: Option<Token>)
      modifies this`queuedMessages
      ensures (Value(), removed) == TakeQueued(old(Value()), session)
    {
      removed := if session in queuedMessages then Some(queuedMessages[session]) else None;
      queuedMessages := queuedMessages - {session};
    }

    method ClaimQueued(session: Key, streaming: bool) returns (claim: Result<Claim, string>)
      modifies this`queuedMessages
      ensures (Value(), claim) == ClaimForSteer(old(Value()), session, streaming)
      ensures claim == Failure("No queued message to steer") <==> session !in old(queuedMessages)
    {
      if session !in queuedMessages {
        return Failure("No queued message to steer");
      }
      if session !in activeContexts || !streaming {
        return Failure("The current run has already finished");
      }
      claim := Success(Claim(queuedMessages[session], session, activeContexts[session]));
      queuedMessages := queuedMessages - {session};
    }

    method RestoreQueued(claim: Claim) returns (restored: bool)
      modifies this`queuedMessages
      ensures (Value(), restored) == RestoreClaim(old(Value()), claim)
    {
      restored := claim.session !in queuedMessages;
      if restored {
        queuedMessages := queuedMessages[claim.session := claim.token];
      }
    }

    method RegisterContext(session: Key, run: RunId)
      modifies this`activeContexts
      ensures Value() == SetContext(old(Value()), session, run)
    {
      activeContexts := activeContexts[session := run];
    }

    method RemoveContext(session: Key, run: RunId)
      modifies this`activeContexts
      ensures Value() == DropContext(old(Value()), session, run)
      ensures session in old(activeContexts) && old(activeContexts)[session] != run ==> unchanged(this)
    {
      if session in activeContexts && activeContexts[session] == run {
        activeContexts := activeContexts - {session};
      }
    }

    method StartWaiting(session: Key) returns (position: nat)
      modifies this`waitingForSlot
      ensures Value() == BeginWait(old(Value()), session) && position == |waitingForSlot| && position > 0
    {
      waitingForSlot := waitingForSlot + {session};
      position := |waitingForSlot|;
    }

    method StopWaiting(session: Key)
      modifies this`waitingForSlot
      ensures Value() == EndWait(old(Value()), session)
    {
      waitingForSlot := waitingForSlot - {session};
    }
  }
}
