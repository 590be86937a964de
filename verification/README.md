# Velpos in Dafny

Velpos is a console around a streaming coding agent. This project models the parts of its backend
whose correctness spans many steps and several callers, and proves what those parts are for.

Run `dafny verify dfyconfig.toml` in this directory.

## What is modelled

Code that updates state in place is modelled twice. A class has the fields and the branches of the
original, and each method is proved to turn the object's value into what a function on values says.
The properties are proved about that function: invariants of every step, then of every run.

- **The event pump** of one agent connection. `EventPump` is the state machine of a turn and of the
  pump on values; each message, timer firing and call is one atomic step, as the code runs each under
  its lock. `EventPumpPhases` says what every phase means and that each step keeps it. `EventPumpMemory`
  is the bounded memory of retired tasks. `EventPumpHistory` describes a turn by its history alone:
  what is passed on, when the turn ends and with what; the pump's queues are proved equal to that
  description over every run within the protocol. `EventPumpRuns` has what holds of any run at all,
  `EventPumpTasks` what is recorded and announced about each task. `EventPumpObjects` has the classes.
- **Session queries.** `KeyedLocks` is the evicting lock pool with its callers, `KeyedLocksEviction`
  what it evicts. `SessionExecutionState` is the shared record and its guarded blocks. `QueryEngine` interleaves any
  number of queries and follow-up requests; `QueryEngineSafety` proves exclusion and capacity,
  `QueryEngineTokens` that an accepted follow-up is always in one place and never leaves its session,
  `QueryEngineFollowUps` when a follow-up waits for nobody and what becomes of it, `QueryEngineProgress`
  that nothing locks up and where quiet runs end, `QueryEngineFates` which step decides what about a
  follow-up; `QueryEngineStranded` gives runs in which one is abandoned or lost.
- **The trace collector.** `TraceCollector` is the write-behind buffer with its store and a flusher
  that works outside the lock; `TraceLedger` proves that buffer, store and ledger agree whatever
  fails, `TraceOutcomes` what each request does to the envelopes; `TraceCollectorObjects` has the classes.
- **Trace projection.** `SpanOwnership` is the assignment of spans to agents over arbitrary parent
  links, `TurnRecords` the rebuilding of turns, `TurnRecordsShown` and `TurnRecordsLayout` what the
  rebuilt records show (with `Sorting` for the library sort and `Sequences` for gathering), `TreeCache` the versioned cache
  under interleaved requests and `TreeCacheOrigins` where its trees come from.
- **Transcript paging.** `Transcript` reads a file page by page while it may grow; `TranscriptContents`
  says what it tells line by line.
- **Text.** `ContextChunks` is the chunking of a conversation for a chat channel, `RuleMarkdown` the
  rule files with front matter and `RuleMarkdownFormat` how they are written and read,
  `SqlLike` the escaping of LIKE keywords.

`Wrappers` holds two stock datatypes.

## Where the code does less than it seems to

Each of these is proved, with an input that shows it and the exact condition under which it does not occur,
as far as the failures that are modelled go.

- A notification that calls a finished task "running" again leaves a turn without any pending timer
  (`RevivesIdle`, `RevivalIsReachable`). The typed status of the connection never holds that string.
- A finalizer may leave before it drains the follow-up slot. It does when both final saves fail: it then
  marks the query as failed, which raises unless the session is running, and by then the session is idle or
  in error (`backend/domain/session/model/session.py:283-289`). A follow-up in the slot then waits for
  nobody, though it was answered with QUEUED (`StepServes`, `StepAbandons`, `SkippingRunExists`).
- A steer that fails after its run has drained, while no other query of the session is under way, puts the
  follow-up back into a slot that nobody is left to drain (`StrandedRunExists`). In both cases it stays
  there until it is cleared or the session's next query takes it (`AbandonedStays`).
- A follow-up is lost when something raises between its leaving the slot and its start, or when its steer
  raises an error other than the one that is undone (`StepLoses`, `LosingRunExists`, `BreakingRunExists`).
- A newer follow-up can give way to an older one of its session: when two of them are being steered and the
  steer of the older fails first, it takes the slot again and the newer finds it filled (`RunSupersedes`,
  `OlderWinsRunExists`).
- A rule path with a quote, a backslash, a control character, one of the separators U+0085, U+2028 and
  U+2029, or an apostrophe at an end is written but read back differently (`Plain`, `QuotedPathChanges`).
  A rule without paths whose content opens with a closed block loses that block (`HasBlock`,
  `ClosedBlockIsLost`). Reading the file turns carriage returns of the content into newlines, which may
  make such a block (`FileRoundTrip`, `FileRoundTripWithoutPaths`, `ReturnsMakeABlock`).
- A span that a cycle of parent links makes its own nearest subagent belongs to no agent
  (`OwnAncestor`, `OwnAncestorExists`).
- A cached tree can miss a change that falls between the reading of the version and the lookup
  (`HitsAreExactWithoutChange`, `HitCanBeOneChangeOld`).
- A transcript cut to exactly the cursor after its size was taken yields a page that promises more but
  does not move (`MoreMeansProgress`, `EmptiedFileStalls`).

## Model

| member | source | states |
|---|---|---|
| EventPumpPhases.StepKeepsPhase | backend/infr/client/claude_event_pump.py:193-428 | every message, timer firing and call on a live turn ends it or keeps the phase invariant (what each phase holds, which timers are pending, background timer pending exactly while a task runs), except, and exactly, a notification that reports a known task as running while none runs |
| EventPumpPhases.ArmedTimerEndsTurn | backend/infr/client/claude_event_pump.py:352-411 | in each of the three waiting phases the one pending timer, when it fires, ends the turn |
| EventPumpPhases.NotificationKeeps | backend/infr/client/claude_event_pump.py:219-228 | a task notification keeps the phase invariant if and only if it does not revive an idle turn |
| EventPumpHistory.TurnFollows | backend/infr/client/claude_event_pump.py:193-428 | one event: the turn still matches the description computed from its history alone, or has ended with exactly the envelopes that history says |
| EventPumpHistory.RunMatchesBook | backend/infr/client/claude_event_pump.py:119-163 | over every run within the protocol, across any number of turns, the queues of ended and live turns and the retired memory are those of a book kept from the event history without the state machine |
| EventPumpRuns.EndedQueuesAreWellEnded | backend/infr/client/claude_event_pump.py:413-431 | over every run, the queue of an ended turn is messages that are no results, then one result and one terminal marker, or one error |
| EventPumpHistory.EndedTurnsAreFrozen | backend/infr/client/claude_event_pump.py:413-428 | no step changes the queue of a turn that has ended, and a step ends at most the one live turn |
| EventPumpRuns.RunKeepsMemory | backend/infr/client/claude_event_pump.py:451-459 | over every run, the retired ids are the most recent part, at most 1000, of all tasks ever retired, in order and without duplicates, and the live turn's tasks are disjoint from them |
| EventPumpRuns.RememberedTaskIsDropped | backend/infr/client/claude_event_pump.py:203-222 | over every run, while an id is remembered, a start, progress or notification about it changes nothing in any later turn |
| EventPumpHistory.WaitingTurnCloses | backend/infr/client/claude_event_pump.py:352-411 | in every run within the protocol, firing the pending timer of a waiting turn leaves no live turn |
| EventPumpHistory.RevivedTurnHasNoTimer | backend/infr/client/claude_event_pump.py:281-301 | outside the protocol the claim fails: the revived turn ignores all three timers |
| EventPumpHistory.RevivalIsReachable | backend/infr/client/claude_event_pump.py:219-228 | four events reach a turn that such a notification revives |
| EventPumpTasks.TimeoutAnnouncesEachTask | backend/infr/client/claude_event_pump.py:377-411 | over every run, when the background timer ends a turn, what follows the messages passed on is one failed notice for each running task, by its own id and in the order first seen, then one error result and the end; those tasks have failed and the others are as they were |
| EventPumpTasks.TimeoutEndsTurn | backend/infr/client/claude_event_pump.py:377-384 | over every run, the background timer ends the turn exactly when it is pending and some task runs |
| EventPumpTasks.ErrorEndsTurn | backend/infr/client/claude_event_pump.py:303-306 | an error result ends the live turn with itself, whatever runs or is held back |
| EventPumpTasks.TasksAreAsTold | backend/infr/client/claude_event_pump.py:244-301 | over every run within the protocol, each task of the live turn has the state, description and summary last told about it since it started |
| EventPumpTasks.TurnsAreNumbered | backend/infr/client/claude_event_pump.py:119-129 | over every run, the turns are numbered from one in the order in which they began |
| EventPumpMemory.RetireKeepsWindow | backend/infr/client/claude_event_pump.py:451-459 | retiring a turn appends its new ids to the log and keeps the memory equal to the window over the log |
| EventPumpObjects.ResponseTurn.ActiveTaskIds | backend/infr/client/claude_event_pump.py:65-71 | the running tasks in the order in which they were first seen; empty exactly when none runs |
| EventPumpObjects.ClaudeConnectionEventPump.BeginTurn | backend/infr/client/claude_event_pump.py:119-129 | a new live turn, or a refusal that changes nothing when the pump is closed or a turn is live |
| EventPumpObjects.ClaudeConnectionEventPump.ReportFailure | backend/infr/client/claude_event_pump.py:131-135 | ends the live turn with the error; does nothing for any other turn |
| EventPumpObjects.ClaudeConnectionEventPump.InterruptTurn | backend/infr/client/claude_event_pump.py:137-143 | the whole new state of the pump after an interrupt |
| EventPumpObjects.ClaudeConnectionEventPump.AbandonTurn | backend/infr/client/claude_event_pump.py:145-149 | ends the live turn with a cancellation; does nothing for any other turn |
| EventPumpObjects.ClaudeConnectionEventPump.ClosePump | backend/infr/client/claude_event_pump.py:151-163 | closes once and ends the live turn with a connection error |
| EventPumpObjects.ClaudeConnectionEventPump.FailActiveTurn | backend/infr/client/claude_event_pump.py:188-191 | ends whichever turn is live |
| EventPumpObjects.ClaudeConnectionEventPump.RouteMessage | backend/infr/client/claude_event_pump.py:193-242 | routing in place is one step of the pump's specification |
| EventPumpObjects.ClaudeConnectionEventPump.RecordTaskStarted | backend/infr/client/claude_event_pump.py:244-259 | the turn after a task start, equal to the specification |
| EventPumpObjects.ClaudeConnectionEventPump.RecordTaskProgress | backend/infr/client/claude_event_pump.py:261-279 | the turn after a task progress, equal to the specification |
| EventPumpObjects.ClaudeConnectionEventPump.RecordTaskNotification | backend/infr/client/claude_event_pump.py:281-301 | the turn after a task notification, equal to the specification |
| EventPumpObjects.ClaudeConnectionEventPump.RecordResultMessage | backend/infr/client/claude_event_pump.py:303-320 | the pump after a result: finalized, deferred behind tasks, or settling |
| EventPumpObjects.ClaudeConnectionEventPump.FinalizeDeferred | backend/infr/client/claude_event_pump.py:352-375 | a settle or completion timer acts only on the live turn in the phase it was set for |
| EventPumpObjects.ClaudeConnectionEventPump.BackgroundTimeout | backend/infr/client/claude_event_pump.py:377-411 | fails the running tasks in order, announces each, and ends the live turn; leaves an ended turn's queue alone |
| EventPumpObjects.ClaudeConnectionEventPump.FinalizeWithResult | backend/infr/client/claude_event_pump.py:413-420 | result, terminal marker, retirement and release of the turn |
| EventPumpObjects.ClaudeConnectionEventPump.FailLocked | backend/infr/client/claude_event_pump.py:422-428 | error, retirement and release of the turn |
| EventPumpObjects.ClaudeConnectionEventPump.RetireTasks | backend/infr/client/claude_event_pump.py:451-459 | the two loops over set and queue compute the retired memory |
| KeyedLocks.SameKeySameLock | backend/domain/shared/async_utils.py:18-49 | live callers of one key hold one lock object, and no two of them are inside it |
| KeyedLocks.MakeRoomLeavesRoom | backend/domain/shared/async_utils.py:21-29 | eviction drops only unlocked keys without references, keeps the rest as they were, and makes room whenever some key is idle |
| KeyedLocks.PerformInv | backend/domain/shared/async_utils.py:18-49 | acquire, enter, leave, unref and release keep: reference count equals live callers, live callers share the pooled lock, one caller inside, size at most max(max_size, peak of live keys) |
| KeyedLocks.RunInv | backend/domain/shared/async_utils.py:12-49 | the same over every interleaving of any callers and keys |
| KeyedLocksEviction.MakeRoomTakesOldest | backend/domain/shared/async_utils.py:21-29 | for any lock objects, a full pool loses exactly the oldest half of its idle keys, at least one if there is one, and a pool that is not full loses none; the rest keep locks, counts and order |
| KeyedLocksEviction.AcquireDrivesOutOldest | backend/domain/shared/async_utils.py:18-33 | an acquiring caller gets the key's lock or a new one, and drives out exactly half of the keys without a caller, at least one and those with the oldest locks, if the key is new and the pool full; otherwise none |
| KeyedLocksEviction.ReleaseDropsUnused | backend/domain/shared/async_utils.py:44-49 | a release drops the key if and only if it is pooled and has no caller, and changes nothing else |
| KeyedLocksEviction.RunCountsLiveKeys | backend/domain/shared/async_utils.py:31-42 | over every run, counts are kept for exactly the keys that have a caller, and the keys are listed from the oldest lock to the newest |
| KeyedLocks.KeyedLockPool.AcquireLock | backend/domain/shared/async_utils.py:18-33 | the pooled lock for the key, or a fresh one after eviction, and one more reference |
| KeyedLocks.KeyedLockPool.MakeRoomForOne | backend/domain/shared/async_utils.py:22-29 | the dictionaries after eviction |
| KeyedLocks.KeyedLockPool.StaleKeys | backend/domain/shared/async_utils.py:23-26 | the idle keys in insertion order |
| KeyedLocks.KeyedLockPool.StaleHalf | backend/domain/shared/async_utils.py:27 | the older half of the idle keys, at least one |
| KeyedLocks.KeyedLockPool.DeleteKeys | backend/domain/shared/async_utils.py:27-29 | exactly the given keys leave both dictionaries |
| KeyedLocks.KeyedLockPool.UnrefKey | backend/domain/shared/async_utils.py:35-42 | one reference fewer; the entry goes at zero |
| KeyedLocks.KeyedLockPool.ReleaseKey | backend/domain/shared/async_utils.py:44-49 | drops the key only if nobody holds or references it |
| SessionExecutionState.Capacity | backend/application/session/session_query_engine.py:213-223 | the configured capacity: the setting within 1..64, the nearer bound outside, and 8 if it is not a number |
| SessionExecutionState.SessionExecution.Queue | backend/application/session/session_query_engine.py:1249-1258 | under the guard: accepted with the superseded command, or told to run now when no run streams |
| SessionExecutionState.SessionExecution.PopQueued | backend/application/session/session_query_engine.py:1280-1281 | empties the slot and says what was in it, for clearing and for draining |
| SessionExecutionState.SessionExecution.ClaimQueued | backend/application/session/session_query_engine.py:1290-1305 | takes the slot only if its session's run still streams; otherwise leaves it |
| SessionExecutionState.SessionExecution.RestoreQueued | backend/application/session/session_query_engine.py:1329-1334 | puts a claimed command back unless a newer one took the slot |
| SessionExecutionState.SessionExecution.RegisterContext | backend/application/session/session_query_engine.py:229-230 | the session's context is this run |
| SessionExecutionState.SessionExecution.RemoveContext | backend/application/session/session_query_engine.py:269-271 | a run removes only its own context |
| SessionExecutionState.SessionExecution.StartWaiting | backend/application/session/session_query_engine.py:179-182 | joins the waiting sessions; the position is their number |
| SessionExecutionState.SessionExecution.StopWaiting | backend/application/session/session_query_engine.py:198-200 | leaves the waiting sessions |
| QueryEngineSafety.StepInv | backend/application/session/session_query_engine.py:137-271 | every step of the interleaved engine keeps the lock pool's invariant, permits plus slot holders equal to capacity, and one context per streaming query |
| QueryEngineSafety.OnePerSession | backend/application/session/session_query_engine.py:137-171 | two queries of one session never hold its lock together, whatever the pool evicts |
| QueryEngineSafety.RunIsBounded | backend/application/session/session_query_engine.py:173-223 | in every state of every run the queries inside a run are at most the configured capacity, itself within 1..64, and the free permits are the rest |
| QueryEngineSafety.RunIsExclusive | backend/application/session/session_query_engine.py:137-171 | in every run, no two queries of one session are past the session lock together |
| QueryEngineTokens.StepIsLinear | backend/application/session/session_query_engine.py:1249-1335 | each step moves at most one accepted follow-up, from one place to another |
| QueryEngineTokens.RunIsLinear | backend/application/session/session_query_engine.py:987-1017 | in every interleaving each accepted follow-up is in exactly one of: slot, being steered, drained, or one recorded fate |
| QueryEngineTokens.OneFate | backend/application/session/session_query_engine.py:1290-1335 | no follow-up meets two fates: never both steered and dispatched, neither twice |
| QueryEngineTokens.RunKeepsHome | backend/application/session/session_query_engine.py:1290-1335 | in every run a follow-up is in the slot of the session it was queued for, and is steered into, or dispatched as, a run of that session only |
| QueryEngineTokens.StepLoses | backend/application/session/session_query_engine.py:987-1006 | a step loses an accepted follow-up if and only if it fails between taking it from its slot and starting it, or breaks its steer with an error other than the expected one |
| QueryEngineFates.StepDecides | backend/application/session/session_query_engine.py:987-1017 | a step decides at most one follow-up, and which fate it meets by which step is said without the engine's own functions |
| QueryEngineFates.FatesHaveCauses | backend/application/session/session_query_engine.py:987-1017 | in every run each recorded fate was decided by one of its steps |
| QueryEngineFates.DispatchSubmits | backend/application/session/session_query_engine.py:1007-1017 | a follow-up dispatched starts one new query of the session that drained it |
| QueryEngineFates.QueueAccepts | backend/application/session/session_query_engine.py:1249-1258 | a follow-up is accepted exactly while its session has a context, and then takes the session's slot |
| QueryEngineFates.ClaimTakesTheSlot | backend/application/session/session_query_engine.py:1290-1305 | a steer takes the follow-up in the slot, for the session's running context, exactly while that streams |
| QueryEngineFates.WaitingIsListed | backend/application/session/session_query_engine.py:178-200 | a session is listed as waiting from a busy start until its query got its slot or ended before |
| QueryEngineFates.RunSupersedes | backend/application/session/session_query_engine.py:1329-1335 | in every run a superseded follow-up leaves its session's slot to another one of the session, and that is a newer one if and only if it is not a failed steer that finds an older one in the slot |
| QueryEngineFates.OlderWinsRunExists | backend/application/session/session_query_engine.py:1290-1335 | a run in which two steers of one session fail and the newer follow-up gives way to the older |
| QueryEngineStranded.LosingRunExists | backend/application/session/session_query_engine.py:987-991 | a run in which saving the emptied slot raises and the follow-up is lost |
| QueryEngineStranded.BreakingRunExists | backend/application/session/session_query_engine.py:1307-1335 | a run in which the steer breaks and the follow-up is lost |
| QueryEngineFollowUps.StepServes | backend/application/session/session_query_engine.py:934-1017 | a step leaves a session with a filled slot but no run that streams or finishes if and only if it is a finalizer of that session that leaves before its drain while the slot is filled, or a steer that fails, into an empty slot, when there is no such run any more |
| QueryEngineFollowUps.RunServes | backend/application/session/session_query_engine.py:1249-1258 | in every run without such a step in a session, its filled slot has a run of the session that has not drained |
| QueryEngineFollowUps.SlotHolds | backend/application/session/session_query_engine.py:987-988 | a follow-up stays in its slot until it is superseded, cleared, claimed for a steer or drained by a run of its session, and each of these puts it where it belongs |
| QueryEngineFollowUps.StepAbandons | backend/application/session/session_query_engine.py:934-1017 | a step leaves a follow-up without any query of its session that could take it if and only if it is a failed steer when none is left, or the last such query ending before its stream, skipping its drain or failing after it while the slot is filled |
| QueryEngineFollowUps.AbandonedStays | backend/application/session/session_query_engine.py:1244-1335 | such a follow-up stays where it is: only a clearing removes it and only the session's next query can take it |
| QueryEngineFollowUps.AbandonedStaysOverRun | backend/application/session/session_query_engine.py:1244-1335 | the same over any stretch of a run without a clearing or a new query of the session |
| QueryEngineFollowUps.RunAbandonsNone | backend/application/session/session_query_engine.py:987-1017 | in every run without a late failed steer or a skipped drain in the session, its follow-up always has a query that can take it |
| QueryEngineStranded.StrandedRunExists | backend/application/session/session_query_engine.py:1329-1334 | twelve steps from the start in which a late failed steer abandons a follow-up |
| QueryEngineStranded.SkippingRunExists | backend/application/session/session_query_engine.py:946-978 | ten steps from the start, none of them a steer, in which a finalizer that skips its drain abandons a follow-up |
| QueryEngineProgress.NeverDeadlocked | backend/application/session/session_query_engine.py:137-211 | while a submitted query is unfinished, some query can go on without anything failing |
| QueryEngineProgress.QuietRunsEnd | backend/application/session/session_query_engine.py:1007-1017 | left alone, the process takes at most a computed number of further steps, follow-ups it starts itself included |
| QueryEngineProgress.RestLeavesFateOrSlot | backend/application/session/session_query_engine.py:987-1017 | at rest an accepted follow-up has exactly one fate or is in the slot of its session, never both, and in the slot it is abandoned |
| QueryEngineProgress.RestSettlesEverything | backend/application/session/session_query_engine.py:987-1017 | at rest every query is done and, unless its session had a late failed steer or a skipped drain, an accepted follow-up has exactly one fate |
| TraceLedger.StepInv | backend/application/session/trace_collector.py:105-190 | every span change, snapshot, commit and failed flush keeps: buffer is the replay of all events, store the replay of the persisted ones, history = persisted ++ in flight ++ pending |
| TraceLedger.RunInv | backend/application/session/trace_collector.py:220-265 | the same over every sequence of steps with one flusher |
| TraceLedger.StoreAgreesWithBuffer | backend/application/session/trace_collector.py:220-265 | a span neither dirty nor in flight is stored exactly as it is buffered, or is in neither |
| TraceLedger.BatchesAreProper | backend/application/session/trace_collector.py:287-302 | inserts are only of ids the store lacks, updates only of ids it has |
| TraceLedger.FailInv | backend/application/session/trace_collector.py:256-265 | restoring a failed batch keeps the invariant, also for a span ended while its own insert was in flight |
| TraceLedger.QuietFlushSyncs | backend/application/session/trace_collector.py:220-255 | a flush that nothing disturbs leaves store equal to buffer and the ledger complete |
| TraceLedger.SpanChain | backend/application/session/trace_collector.py:117-133 | sequence numbers strictly increase along the ledger, and a span's events are one creation and at most one ending, which names the creation as its cause and shows the same span one revision on |
| TraceLedger.RunHasOneSpan | backend/application/session/trace_collector.py:105-145 | a run of a session never has two envelopes |
| TraceOutcomes.FinishEndsTheEnvelope | backend/application/session/trace_collector.py:147-170 | finishing a run whose envelope runs ends exactly that envelope: abandoned before cancelled before failed with the first 500 characters of a non-empty error, and completed otherwise; one event shows it |
| TraceOutcomes.FinishElseChangesNothing | backend/application/session/trace_collector.py:155-157 | a run without a running envelope cannot be finished |
| TraceOutcomes.EnsureMakesTheEnvelope | backend/application/session/trace_collector.py:105-133 | ensuring a run makes one new running envelope of that run with its event if and only if tracing is on and the run has none, and otherwise changes nothing |
| TraceOutcomes.EnsureAnswers | backend/application/session/trace_collector.py:111-133 | the answer is the envelope of the run, or nothing when tracing is off |
| TraceOutcomes.AbandonEndsTheSession | backend/application/session/trace_collector.py:172-184 | abandoning a session ends exactly its running envelopes, for the reason given and with one event each in buffer order |
| TraceCollectorObjects.TraceCollectorObject.FindRunSpan | backend/application/session/trace_collector.py:135-145 | the first buffered envelope of the run |
| TraceCollectorObjects.TraceCollectorObject.EnsureRunSpan | backend/application/session/trace_collector.py:105-133 | the existing envelope, or a new one that is numbered, dirty and queued |
| TraceCollectorObjects.TraceCollectorObject.FinishRunSpan | backend/application/session/trace_collector.py:147-170 | ends a running envelope once, with the outcome that takes precedence |
| TraceCollectorObjects.TraceCollectorObject.AbandonAll | backend/application/session/trace_collector.py:172-177 | ends exactly the session's running envelopes, in buffer order |
| TraceCollectorObjects.TraceCollectorObject.MarkUpdated | backend/application/session/trace_collector.py:179-184 | revision, sequence number, dirty mark and queued event of a changed span |
| TraceCollectorObjects.TraceCollectorObject.QueueSpanChange | backend/application/session/trace_collector.py:186-190 | the event is chained to the span's last one |
| TraceCollectorObjects.TraceCollectorObject.TakeForFlush | backend/application/session/trace_collector.py:223-233 | the batch taken and the sets and list left empty |
| TraceCollectorObjects.TraceCollectorObject.RestoreAfterFailure | backend/application/session/trace_collector.py:256-260 | the batch back in front of what was queued since |
| TraceCollectorObjects.TraceCollectorObject.Flush | backend/application/session/trace_collector.py:220-265 | store and buffer after a flush that succeeds, fails or has nothing to do |
| TraceCollectorObjects.SpanStore.Persist | backend/application/session/trace_collector.py:287-302 | the assumption about the repositories behind a flush: a batch is stored whole or, when the commit fails, not at all |
| SpanOwnership.WalkFindsNearest | backend/application/session/execution_trace_query_service.py:605-616 | the visited-set walk finds an agent if and only if a path of parent links has it as first subagent, cyclic and missing links included |
| SpanOwnership.ClimbFindsTarget | backend/application/session/execution_trace_query_service.py:586-594 | the climb meets the agent if and only if some path of parent links reaches it |
| SpanOwnership.SubagentOwnsNearest | backend/application/session/execution_trace_query_service.py:596-619 | a subagent's direct work is exactly what has it as nearest subagent ancestor |
| SpanOwnership.MainOwnsTheRest | backend/application/session/execution_trace_query_service.py:596-619 | the direct work of the main agent, and of any span that is neither a subagent nor a native tool call, is exactly what has no subagent above it |
| SpanOwnership.AtMostOneOwner | backend/application/session/execution_trace_query_service.py:602-619 | a span has at most one owner among the main agent and the subagents |
| SpanOwnership.SomeOwner | backend/application/session/execution_trace_query_service.py:602-619 | a span has an owner if and only if no cycle makes it its own nearest subagent |
| SpanOwnership.OwnAncestorExists | backend/application/session/execution_trace_query_service.py:605-618 | two spans that are each other's parent give such a span |
| SpanOwnership.DescendantsAreOwned | backend/application/session/execution_trace_query_service.py:577-595 | in the native telemetry branch the result is exactly the spans that reach the agent by parent links |
| SpanOwnership.WorkIsListed | backend/application/session/execution_trace_query_service.py:573-619 | an agent's work lists exactly the spans that parent links make its own, each once and in the order of the spans |
| SpanOwnership.IndexKnowsTheLast | backend/application/session/execution_trace_query_service.py:576 | an id stands for the last span that has it |
| SpanOwnership.NearestAgent | backend/application/session/execution_trace_query_service.py:605-616 | the loop terminates and computes the nearest subagent ancestor |
| SpanOwnership.MeetsTarget | backend/application/session/execution_trace_query_service.py:586-594 | the loop terminates and decides reachability |
| SpanOwnership.SpansOwnedByAgent | backend/application/session/execution_trace_query_service.py:573-619 | the agent's own span, then its work in span order |
| TurnRecords.ToolsArePartitioned | backend/application/session/execution_trace_query_service.py:644-654 | every tool call whose parent is a turn, or is the agent and which starts no earlier than the first turn, is assigned to exactly one turn, and no other is assigned |
| TurnRecords.BelongsToOne | backend/application/session/execution_trace_query_service.py:646-654 | no tool call belongs to two turns |
| TurnRecords.EligibleBelongs | backend/application/session/execution_trace_query_service.py:646-654 | a tool call belongs to some turn if and only if it is eligible |
| TurnRecordsLayout.BelongsWhereMade | backend/application/session/execution_trace_query_service.py:646-654 | a tool call is taken into the turn its parent link names or, under the agent, the last turn in start order that started no later than it did |
| TurnRecordsLayout.RecordsAreLaidOut | backend/application/session/execution_trace_query_service.py:621-701 | the records are the request and then one stretch per turn in start order: its input, one assistant record with its words and one use per tool call made in that turn, and the results of those that have an output; nothing else |
| TurnRecordsLayout.ToolsAreShownWhereMade | backend/application/session/execution_trace_query_service.py:645-684 | every tool call made in a turn has its use in an assistant record of that turn, and every use shown is that of a tool call made in the turn of its record |
| TurnRecordsShown.ShownUsesAreEligible | backend/application/session/execution_trace_query_service.py:662-684 | the tool uses in the assistant records are exactly the eligible tool calls, each once, from any unsorted list of spans with unique ids |
| TurnRecords.ResultsFollowUses | backend/application/session/execution_trace_query_service.py:685-700 | every record of tool results comes right after the assistant record that holds their uses |
| TurnRecordsShown.ShownResultsAreComplete | backend/application/session/execution_trace_query_service.py:685-700 | the results shown are those of the assigned tool calls with an output, in the order of their uses |
| TurnRecordsShown.EachTurnSpeaksOnce | backend/application/session/execution_trace_query_service.py:644-684 | each turn has exactly one assistant record, in the order of the turns, with the turn's thinking and text |
| TurnRecords.TurnTools | backend/application/session/execution_trace_query_service.py:645-654 | the tool calls of one turn, in order |
| TurnRecords.RecordsFromAgentSpans | backend/application/session/execution_trace_query_service.py:621-701 | the loop builds the records the lemmas describe, without timestamps, record identifiers, model name and the decoding of previews |
| Sorting.SortBySorts | backend/application/session/execution_trace_query_service.py:628-635 | the order of turns and tools: ascending, a permutation, and stable |
| TreeCache.ReturnedTreeWasCurrent | backend/application/session/execution_trace_query_service.py:495-513 | under any interleaving of version reads, slow builds and overwriting stores, a request returns a tree that was current at some moment between its version read and its return |
| TreeCache.HitIsExact | backend/application/session/execution_trace_query_service.py:503-509 | a hit is the tree a rebuild would give now if the run has not changed since the version read, and only such a change can make it older |
| TreeCache.HitsAreExactWithoutChange | backend/application/session/execution_trace_query_service.py:495-509 | over all reachable worlds in which a request that read one version hits while the run is at another: the hit is what a rebuild would give if and only if the two versions are the same |
| TreeCache.HitCanBeOneChangeOld | backend/application/session/execution_trace_query_service.py:495-513 | a run of nine steps in which a hit misses a change between version read and lookup |
| TreeCache.StaleHitIsReachable | backend/application/session/execution_trace_query_service.py:495-513 | and runs in which it misses any number of them |
| TreeCache.CacheIsBounded | backend/application/session/execution_trace_query_service.py:27-39 | in every run the cached entries and the outstanding misses together are at most 64 and the most misses ever outstanding at one time |
| TreeCacheOrigins.HitsWhatWasStored | backend/application/session/execution_trace_query_service.py:503-513 | in every run a lookup hits if and only if what was last stored under its key still stands, was stored for the version it read and by a request begun at most 30 seconds before; and it returns exactly that tree |
| TreeCacheOrigins.CachedIsStored | backend/application/session/execution_trace_query_service.py:503-513 | in every run the cache holds under a key what was last stored there, unless a miss has pruned it since |
| TreeCacheOrigins.RequestsTellTheTruth | backend/application/session/execution_trace_query_service.py:495-513 | in every run a request's version is the run's when it read it, and a tree it built is that of the moment of building |
| TreeCache.StepInv | backend/application/session/execution_trace_query_service.py:495-513 | every step keeps cached trees at least as new as their version tag and no newer than the run |
| TreeCache.TreeCacheObject.Get | backend/application/session/execution_trace_query_service.py:505-509 | a hit needs the version read and an age of at most 30 seconds |
| TreeCache.TreeCacheObject.Prune | backend/application/session/execution_trace_query_service.py:27-39 | expired entries go; of the rest everything stays, or exactly the newest 64 |
| TreeCache.TreeCacheObject.DropExpired | backend/application/session/execution_trace_query_service.py:27-35 | exactly the entries older than 30 seconds go |
| TreeCache.TreeCacheObject.DropOldest | backend/application/session/execution_trace_query_service.py:36-39 | the given number of entries go and none of them is newer than one that stays |
| TreeCache.TreeCacheObject.Put | backend/application/session/execution_trace_query_service.py:512 | the entry overwrites whatever was stored under its key |
| Transcript.Read | backend/infr/client/transcript_reader.py:37-57 | a page, or exactly the first objection: limit, negative cursor, cursor beyond the size, cursor off a line boundary |
| Transcript.ValidateCursor | backend/infr/client/transcript_reader.py:116-122 | accepts exactly the start of the file and the positions after a newline |
| Transcript.ReadPage | backend/infr/client/transcript_reader.py:124-166 | the page covers whole lines up to the first boundary with enough records or all complete lines, with its records, warnings and flags |
| Transcript.PageIsUnique | backend/infr/client/transcript_reader.py:124-166 | that description admits one page only |
| TranscriptContents.PageTellsEveryLine | backend/infr/client/transcript_reader.py:136-166 | of a page: record k is the value of the k-th covered line that parses, the warnings are the offsets of the lines that do not, and together they number the covered lines |
| Transcript.MoreMeansProgress | backend/infr/client/transcript_reader.py:160-166 | a page with more to come moves the cursor, unless and exactly unless the file was cut to the cursor after its size was taken |
| Transcript.EmptiedFileStalls | backend/infr/client/transcript_reader.py:160-166 | an input that shows that exception |
| Transcript.LinesAreTheBytes | backend/infr/client/transcript_reader.py:136-145 | the lines of a stretch between boundaries are lines and join to exactly its bytes |
| Transcript.CutIsUnique | backend/infr/client/transcript_reader.py:136-145 | bytes can be cut into lines in one way only |
| Transcript.LinesSurviveGrowth | backend/infr/client/transcript_reader.py:136-145 | appending changes no complete line |
| Transcript.CursorsAreAccepted | backend/application/session/execution_trace_query_service.py:556-571 | while the file only grows, every cursor handed from page to page is within its size and on a boundary |
| Transcript.CursorsAdvance | backend/application/session/execution_trace_query_service.py:556-571 | for a positive limit each page but the last moves the cursor |
| Transcript.PagesAreAPrefix | backend/application/session/execution_trace_query_service.py:556-571 | whatever is appended between pages, the pages read so far are the records of a line-aligned prefix: none skipped, repeated or cut |
| Transcript.FinishedSessionReachedTheEnd | backend/application/session/execution_trace_query_service.py:556-571 | a finished paged read covers every complete line within the last size taken |
| Transcript.FinishedSessionIsComplete | backend/application/session/execution_trace_query_service.py:556-571 | if the file had stopped growing by the last page, it is every complete line |
| TranscriptContents.AllRecordsTellEveryLine | backend/application/session/execution_trace_query_service.py:556-571 | the same of a full read: one record for each complete line that parses, in order |
| Transcript.ReadAllRecords | backend/application/session/execution_trace_query_service.py:550-571 | on a fixed file and for any positive limit the loop ends without error with exactly the one-shot records |
| ContextChunks.SyncSessionContext | backend/application/im_binding/im_channel_application_service.py:473-528 | the chunks are a greedy split of the entries, one message each that carries its entries under its own index; every entry is counted sent or failed; failure is reported exactly when there were entries and nothing got through |
| ContextChunks.MessageCarriesChunk | backend/application/im_binding/im_channel_application_service.py:490-499 | a message is the heading, right after it the first entry, and each further entry behind one separator; its length is theirs |
| ContextChunks.CountsAreEntries | backend/application/im_binding/im_channel_application_service.py:505-508 | what is counted as sent is the number of entries in chunks whose message got through |
| ContextChunks.GreedyIsOptimal | backend/application/im_binding/im_channel_application_service.py:510-520 | no order-preserving split into sendable chunks uses fewer |
| ContextChunks.GreedyIsUnique | backend/application/im_binding/im_channel_application_service.py:510-520 | the entries determine the chunks |
| ContextChunks.GreedyStaysAhead | backend/application/im_binding/im_channel_application_service.py:510-520 | after any number of chunks greedy has placed at least as many entries as any other split |
| ContextChunks.EveryEntryCounted | backend/application/im_binding/im_channel_application_service.py:505-508 | sent and failed add up to the entries |
| ContextChunks.ContextSync.Flush | backend/application/im_binding/im_channel_application_service.py:486-508 | an empty chunk sends nothing; otherwise one message that carries the chunk under the next index, counted by its outcome |
| ContextChunks.ContextSync.Add | backend/application/im_binding/im_channel_application_service.py:510-518 | taking one more entry keeps the split greedy |
| RuleMarkdown.RoundTrip | backend/application/memory/rule_file_application_service.py:67-75 | for every content and non-empty list of paths, composing and parsing keeps the content, and keeps the paths if and only if each is plain: no quote, backslash, control character or stray line separator, no apostrophe at an end |
| RuleMarkdown.RoundTripWithoutPaths | backend/application/memory/rule_file_application_service.py:67-69 | without paths the round trip holds if and only if the content opens with no closed block |
| RuleMarkdown.QuotedPathChanges | backend/application/memory/rule_file_application_service.py:60-62 | a path with a quote in it does not come back |
| RuleMarkdown.ClosedBlockIsLost | backend/application/memory/rule_file_application_service.py:44-49 | a content that opens with a closed block loses it when it is stored without paths |
| RuleMarkdown.UnquotedIffPlain | backend/application/memory/rule_file_application_service.py:60-62 | on one line, a path is read as it was written if and only if it is plain |
| RuleMarkdown.ParseComposed | backend/application/memory/rule_file_application_service.py:44-65 | the end of the block is found where composing put it, whatever the paths and content |
| RuleMarkdown.FrontIsRead | backend/application/memory/rule_file_application_service.py:49-65 | without stray separators each path is read from its own line |
| RuleMarkdownFormat.ComposedFile | backend/application/memory/rule_file_application_service.py:67-75 | a composed file is three dashes, the key, one list item per path in order, three dashes and the content; each item is a JSON string that says its path |
| RuleMarkdownFormat.JsonIsRead | backend/application/memory/rule_file_application_service.py:72 | a JSON parser (section 7 of RFC 8259) reads each path from its literal as it was |
| RuleMarkdownFormat.ParseTakesApart | backend/application/memory/rule_file_application_service.py:44-65 | from any text that opens with a closed block, the paths are read from the block and the content is what follows, less one newline |
| RuleMarkdownFormat.ParseKeepsTheRest | backend/application/memory/rule_file_application_service.py:45-49 | any other text is all content |
| RuleMarkdownFormat.ItemsAreRead | backend/application/memory/rule_file_application_service.py:54-65 | from any lines, the paths are exactly the items of a list under the key, in order; only items and blank lines keep a list open |
| RuleMarkdownFormat.ItemIsRead | backend/application/memory/rule_file_application_service.py:62 | an item loses its dash, then white space, then quotes, then apostrophes around it, and nothing else |
| RuleMarkdownFormat.EachReturnIsOneNewline | backend/application/memory/rule_file_application_service.py:79 | each carriage return, with a newline after it or not, is read as one newline |
| RuleMarkdown.ParseRuleMarkdown | backend/application/memory/rule_file_application_service.py:44-65 | the loop with its flag computes the specified paths and content |
| RuleMarkdown.Find | backend/application/memory/rule_file_application_service.py:47-49 | the first occurrence at or after the start, or none |
| RuleMarkdown.ValidateRulePaths | backend/application/memory/rule_file_application_service.py:33-42 | stripped paths in order, or a refusal exactly when one is empty, opens with a slash or climbs |
| RuleMarkdown.ComponentsAreTheParts | backend/application/memory/rule_file_application_service.py:38 | the parts of a path hold no slash and join to the path |
| RuleMarkdown.PartsClimb | backend/application/memory/rule_file_application_service.py:38 | some part is two dots if and only if two dots stand between slashes or ends |
| RuleMarkdown.FileRoundTrip | backend/application/memory/rule_file_application_service.py:78-84 | through the file the content loses its carriage returns, and the rule comes back as it was if and only if it had none and every path is plain |
| RuleMarkdown.FileRoundTripWithoutPaths | backend/application/memory/rule_file_application_service.py:78-84 | without paths it comes back if and only if it had none and opens with no closed block |
| RuleMarkdown.ReturnsMakeABlock | backend/application/memory/rule_file_application_service.py:78-84 | carriage returns can turn into a closed block that is lost |
| RuleMarkdown.WriteRule | backend/application/memory/rule_file_application_service.py:120-140 | refused exactly for an unacceptable path; answered with what was asked to be stored exactly when the content has no carriage return and every path is plain or, without paths, no closed block opens the content |
| SqlLike.EscapeIsPerCharacter | backend/infr/repository/sql_like.py:6-12 | the three chained replacements equal one escape per character |
| SqlLike.EscapedPrefix | backend/infr/repository/sql_like.py:6-12 | matching an escaped keyword before any pattern consumes exactly the keyword |
| SqlLike.EscapedMatchesItself | backend/infr/repository/sql_like.py:6-12 | the escaped keyword matches the keyword and nothing else |
| SqlLike.EscapedMatchesContaining | backend/infr/repository/sql_like.py:6-12 | between percent signs it matches exactly the strings that contain the keyword |
| SqlLike.EscapeIsInjective | backend/infr/repository/sql_like.py:6-12 | different keywords have different patterns |

## Left out

- The agent SDK, subprocesses, sockets, HTTP, the chat adapters and the SQL repositories: only the outcome of a call, success or failure, is an input where a step depends on it.
- Real time: a timer is absent, pending or fired, and clocks are integers that do not run backwards; no delay is modelled.
- Cancellation of asyncio tasks, `cancel_query` (the finalizer of a cancelled session, which does not drain, is a `SkipDrain`), and the dictionary clearing of `cleanup_session_state` in the query engine: only its release of the session lock is a step (`ReleaseLock`).
- Why a step raises: a query may end before it streams (`EndEarly`), its finalizer may leave before the drain (`SkipDrain`) or after it (`DrainFails`), and a steer may fail or break, whatever the cause. Starting and finishing the trace of a run are taken not to raise.
- A dispatched follow-up is a submitted query and may end early like any other, for example when no service can be made for it; its fate stays the dispatch.
- A query that ends while it waits for a slot leaves the list of those waiting at once, not after it has left the session lock.
- `refresh_context_usage` of the session service, which takes a session's lock and no slot: the lock pool's results hold for it as for any caller, but it is no step of the query engine.
- The database execution lock around a query: a further lock inside the session lock, decided by code outside these files.
- Order of waiting: a lock or a slot goes to any waiter, which covers the first-come order of the code.
- The reader of a turn's queue (`messages`), the `phase_changed` callback, the creation and cancellation of the reader task, and logging.
- RouteMessage: message kinds are told apart by constructor; the string tests of `_is_result_message` on other representations are not modelled, and a dictionary result carries no error attribute, as `getattr` sees it.
- Turns in the interrupted phase closing by a timer: the code does not promise it.
- `discard_session`, two overlapping flushes, the broadcast after a flush, and the start and stop of the flush loop in the trace collector.
- Persist: whether a batch is stored is an input, all or nothing, as the commit at the end of the original makes it; a repository that keeps half a batch is not modelled.
- Identifiers drawn at random are modelled as numbers never drawn twice.
- QueryEngine steps carry no payload: a command is known by the number under which it was accepted.
- The tree itself: a cached tree is known by the version it was built from, and building reads that version at one moment; joining session, run and agent into one cache key by colons is modelled as a triple that loses nothing.
- Parsing a transcript line is any function from the line to an optional record; the text of a warning, the resolution of transcript paths and the checks of project and session are not modelled.
- RecordsFromAgentSpans: record identifiers, timestamps, the model name and the JSON reading of previews are not modelled; a preview is its text.
- Choosing which messages of a conversation become entries, their labels, and the pause between chunks.
- WriteRule: where the file lies, the checks of its own path, and its size and time are not modelled; a newline is written as one newline, as on POSIX systems.
- Characters are Unicode scalar values; lone surrogates are not modelled.
- ILIKE: the folding of case is not modelled, matching is exact.
- `_run_outcome_span`, `_resolve_subagent_span`, `_is_continuation_request` and the projector: pure lookups with easy claims.
- Audit, timeline, presentation, settings, authentication, market, plugin, git and terminal services: no hard properties of their own.
