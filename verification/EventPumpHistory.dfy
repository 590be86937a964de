/**
 What the event pump does, said without its state machine.

 A turn is described by the history of events it has seen and by the set of task ids that were
 retired when it began.  From these alone: which messages it forwards (`Forwarded`), when an event
 ends it and with what last envelopes (`Verdict`).  A `Book` keeps this description for a whole
 run of the pump, and `RunMatchesBook` proves that the pump's queues are exactly the book's.
 */
module EventPumpHistory {
  import opened Wrappers
  import opened EventPump
  import opened EventPumpPhases
  import opened Sequences
  import opened EventPumpMemory

  datatype History = Empty | Snoc(before: History, event: Event)

  // ---------- the meaning of a history ----------

  /** Tasks that belong to the turn: named, started in it, and not of a remembered earlier turn. */
  function Own(h: History, retired: set<TaskId>): seq<TaskId> {
    match h
    case Empty => []
    case Snoc(b, e) =>
      if e.Route? && e.message.Started? && e.message.taskId != "" && e.message.taskId !in retired
         && e.message.taskId !in Own(b, retired)
      then Own(b, retired) + [e.message.taskId]
      else Own(b, retired)
  }

  /** Own tasks whose last word was a start, a progress, or a "running" notification. */
  function RunningIds(h: History, retired: set<TaskId>): set<TaskId> {
    match h
    case Empty => {}
    case Snoc(b, e) =>
      if !e.Route? then RunningIds(b, retired)
      else match e.message
        case Started(id, _) =>
          if id in Own(h, retired) && id !in retired then RunningIds(b, retired) + {id} else RunningIds(b, retired)
        case Progress(id, _) =>
          if id in Own(b, retired) then RunningIds(b, retired) + {id} else RunningIds(b, retired)
        case Notification(id, status, _) =>
          if id !in Own(b, retired) then RunningIds(b, retired)
          else if status == "running" then RunningIds(b, retired) + {id}
          else RunningIds(b, retired) - {id}
        case _ => RunningIds(b, retired)
  }

  predicate WasInterrupted(h: History) {
    h.Snoc? && (h.event.Interrupt? || WasInterrupted(h.before))
  }

  function LastResult(h: History): Option<Message> {
    match h
    case Empty => None
    case Snoc(b, e) => if e.Route? && IsResult(e.message) then Some(e.message) else LastResult(b)
  }

  /** Does message `m`, arriving after `h`, concern a task of the turn? */
  predicate ConcernsOwn(h: History, retired: set<TaskId>, m: Message) {
    match m
    case Started(id, _) => id != "" && id !in retired
    case Progress(id, _) => id in Own(h, retired)
    case Notification(id, _, _) => id in Own(h, retired)
    case _ => false
  }

  /** Messages that say nothing about tasks or results. */
  predicate Plain(m: Message) {
    m.StateMarker? || m.FailedNotice? || m.Other?
  }

  /** A result was the last thing of note, and the turn never had a task nor an interrupt. */
  predicate Settling(h: History, retired: set<TaskId>) {
    match h
    case Empty => false
    case Snoc(b, Interrupt) => false
    case Snoc(b, Route(m)) =>
      if IsResult(m) then Own(b, retired) == [] && !WasInterrupted(b)
      else if ConcernsOwn(b, retired, m) then false
      else if m.FailedNotice? || m.Other? then false
      else Settling(b, retired)
    case Snoc(b, _) => Settling(b, retired)
  }

  /** A result is held back, no task runs, and something came after the result. */
  predicate Awaiting(h: History, retired: set<TaskId>) {
    match h
    case Empty => false
    case Snoc(b, Interrupt) => false
    case Snoc(b, Route(m)) =>
      if IsResult(m) then false
      else if ConcernsOwn(b, retired, m) then
        m.Notification? && RunningIds(h, retired) == {} && LastResult(b).Some?
      else if m.FailedNotice? || m.Other? then Settling(b, retired) || Awaiting(b, retired)
      else Awaiting(b, retired)
    case Snoc(b, _) => Awaiting(b, retired)
  }

  /** Is message `m`, arriving after `h`, passed on to the reader of the turn? */
  predicate Accepts(h: History, retired: set<TaskId>, m: Message) {
    match m
    case Started(id, _) => id !in retired
    case Progress(id, _) => id in Own(h, retired)
    case Notification(id, _, _) => id in Own(h, retired)
    case StateMarker(_) => !Settling(h, retired)
    case ResultObject(_, _) => false
    case ResultDict(_, _) => false
    case _ => true
  }

  function Forwarded(h: History, retired: set<TaskId>): seq<Message> {
    match h
    case Empty => []
    case Snoc(b, e) =>
      if e.Route? && Accepts(b, retired, e.message) then Forwarded(b, retired) + [e.message]
      else Forwarded(b, retired)
  }

  function Closing(result: Message): seq<Envelope> {
    [Item(result), End]
  }

  /** The envelopes with which event `e`, coming after `h`, ends the turn; `None` if it does not. */
  function Verdict(h: History, retired: set<TaskId>, e: Event): Option<seq<Envelope>> {
    match e
    case Route(m) =>
      if IsResult(m)
         && ((m.ResultObject? && m.isError) || WasInterrupted(h) || (Own(h, retired) != [] && RunningIds(h, retired) == {}))
      then Some(Closing(m)) else None
    case SettleFires =>
      if Settling(h, retired) && LastResult(h).Some? then Some(Closing(LastResult(h).value)) else None
    case CompletionFires =>
      if Awaiting(h, retired) && LastResult(h).Some? then Some(Closing(LastResult(h).value)) else None
    case BackgroundFires =>
      if RunningIds(h, retired) != {} then
        Some(Items(Notices(Select(Own(h, retired), RunningIds(h, retired)))) + Closing(TIMEOUT_RESULT))
      else None
    case Fail(error) => Some([Error(error)])
    case Close => Some([Error(ConnectionClosed)])
    case Interrupt => None
    case Begin => None
  }

  /** The history reading of `RevivesIdle`. */
  predicate Revives(h: History, retired: set<TaskId>, e: Event) {
    && e.Route? && e.message.Notification?
    && e.message.taskId in Own(h, retired)
    && e.message.status == "running"
    && RunningIds(h, retired) == {}
  }

  // ---------- the book of a whole run ----------

  datatype Book = Book(
    live: Option<History>,
    log: seq<TaskId>,              // every task id ever retired, in order
    outputs: seq<seq<Envelope>>,   // the complete queue of every ended turn
    closed: bool)

  function Retired(b: Book): set<TaskId> {
    Elements(Window(b.log))
  }

  function BookStep(b: Book, e: Event): Book {
    if e.Begin? then
      if b.closed || b.live.Some? then b else b.(live := Some(Empty))
    else if e.Close? && b.closed then b
    else
      var b1 := if e.Close? then b.(closed := true) else b;
      if b.live.None? then b1
      else
        var h := b.live.value;
        var own := Own(h, Retired(b));
        match Verdict(h, Retired(b), e)
        case None => b1.(live := Some(Snoc(h, e)))
        case Some(last) =>
          b1.(live := None, log := b.log + own,
              outputs := b.outputs + [Items(Forwarded(h, Retired(b))) + last])
  }

  function BookRun(es: seq<Event>): Book {
    if es == [] then Book(None, [], [], false)
    else BookStep(BookRun(es[..|es|-1]), es[|es|-1])
  }

  /** No event of the run revives an idle turn. */
  ghost predicate InProtocol(es: seq<Event>) {
    forall i :: 0 <= i < |es| ==>
      var b := BookRun(es[..i]);
      b.live.Some? ==> !Revives(b.live.value, Retired(b), es[i])
  }

  // ---------- the state machine follows the history ----------

  ghost predicate Follows(t: Turn, h: History, retired: set<TaskId>) {
    && PhaseInv(t)
    && t.order == Own(h, retired)
    && Active(t) == RunningIds(h, retired)
    && t.interrupted == WasInterrupted(h)
    && t.deferred == LastResult(h)
    && (t.phase.SettlingResult? <==> Settling(h, retired))
    && (t.phase.AwaitingFinalResult? <==> Awaiting(h, retired))
    && t.queue == Items(Forwarded(h, retired))
  }

  /** After `e` the turn either still follows its history, or has ended with the verdict. */
  ghost predicate Advances(t: Turn, h: History, retired: set<TaskId>, e: Event) {
    var t' := TurnStep(t, retired, e);
    && t'.order == (if Verdict(h, retired, e).None? then Own(Snoc(h, e), retired) else Own(h, retired))
    && match Verdict(h, retired, e)
       case None => !t'.phase.Terminal? && Follows(t', Snoc(h, e), retired)
       case Some(last) => t'.phase.Terminal? && t'.queue == Items(Forwarded(h, retired)) + last
  }

  lemma ItemsSnoc(ms: seq<Message>, m: Message)
    ensures Items(ms + [m]) == Items(ms) + [Item(m)]
  {
  }

  lemma {:induction false} OwnIsFresh(h: History, retired: set<TaskId>)
    ensures NoDuplicates(Own(h, retired)) && Disjoint(Own(h, retired), retired)
    ensures "" !in Own(h, retired)
  {
    if h.Empty? {
    } else {
      OwnIsFresh(h.before, retired);
    }
  }

  lemma {:induction false} RunningAreOwn(h: History, retired: set<TaskId>)
    ensures forall id :: id in RunningIds(h, retired) ==> id in Own(h, retired)
  {
    if h.Empty? {
    } else {
      RunningAreOwn(h.before, retired);
    }
  }

  /** What an accepted event of an own task, other than its last notification, makes of the history. */
  lemma OwnTaskRuns(h: History, retired: set<TaskId>, m: Message)
    requires ConcernsOwn(h, retired, m) && !m.Notification?
    ensures var h' := Snoc(h, Route(m));
            && RunningIds(h', retired) == RunningIds(h, retired) + {m.taskId}
            && LastResult(h') == LastResult(h) && WasInterrupted(h') == WasInterrupted(h)
            && !Settling(h', retired) && !Awaiting(h', retired)
            && Forwarded(h', retired) == Forwarded(h, retired) + [m]
  {
  }

  lemma UnrelatedTask(h: History, retired: set<TaskId>, m: Message)
    requires !ConcernsOwn(h, retired, m) && !Plain(m) && !IsResult(m)
    ensures var h' := Snoc(h, Route(m));
            && Own(h', retired) == Own(h, retired)
            && RunningIds(h', retired) == RunningIds(h, retired)
            && LastResult(h') == LastResult(h) && WasInterrupted(h') == WasInterrupted(h)
            && Settling(h', retired) == Settling(h, retired) && Awaiting(h', retired) == Awaiting(h, retired)
            && Forwarded(h', retired)
               == Forwarded(h, retired) + (if m.Started? && m.taskId !in retired then [m] else [])
  {
    OwnIsFresh(h, retired);
  }

  /** The part of a turn that a started or progressing task changes. */
  ghost predicate TaskRuns(t: Turn, t': Turn, id: TaskId) {
    && t'.order == (if id in t.order then t.order else t.order + [id])
    && Active(t') == Active(t) + {id}
    && t'.deferred == t.deferred && t'.interrupted == t.interrupted && t'.queue == t.queue
    && t'.phase == (if t.deferred.Some? then WaitingBackground else t.phase)
  }

  lemma StartedRuns(t: Turn, id: TaskId, description: string)
    requires Tracked(t) && id != ""
    ensures TaskRuns(t, RecordStarted(t, id, description), id)
  {
    assert Active(RecordStarted(t, id, description)) == Active(t) + {id};
  }

  lemma ProgressRuns(t: Turn, id: TaskId, description: string)
    requires Tracked(t) && id in t.tasks
    ensures TaskRuns(t, RecordProgress(t, id, description), id)
  {
    assert Active(RecordProgress(t, id, description)) == Active(t) + {id};
  }

  lemma RunsFollow(t: Turn, t': Turn, h: History, retired: set<TaskId>, m: Message)
    requires Follows(t, h, retired) && ConcernsOwn(h, retired, m) && !m.Notification?
    requires TaskRuns(t, t', m.taskId) && PhaseInv(t')
    ensures Follows(Emit(t', m), Snoc(h, Route(m)), retired)
  {
    ItemsSnoc(Forwarded(h, retired), m);
    OwnTaskRuns(h, retired, m);
  }

  lemma UnrelatedFollows(t: Turn, h: History, retired: set<TaskId>, m: Message)
    requires Follows(t, h, retired) && !ConcernsOwn(h, retired, m) && !Plain(m) && !IsResult(m)
    ensures Follows(if m.Started? && m.taskId !in retired then Emit(t, m) else t, Snoc(h, Route(m)), retired)
  {
    ItemsSnoc(Forwarded(h, retired), m);
    UnrelatedTask(h, retired, m);
  }

  lemma StartedFollows(t: Turn, h: History, retired: set<TaskId>, m: Message)
    requires Follows(t, h, retired) && m.Started?
    ensures Advances(t, h, retired, Route(m))
  {
    if ConcernsOwn(h, retired, m) {
      StartedKeeps(t, m.taskId, m.description);
      StartedRuns(t, m.taskId, m.description);
      RunsFollow(t, RecordStarted(t, m.taskId, m.description), h, retired, m);
    } else {
      UnrelatedFollows(t, h, retired, m);
    }
  }

  lemma ProgressFollows(t: Turn, h: History, retired: set<TaskId>, m: Message)
    requires Follows(t, h, retired) && m.Progress?
    ensures Advances(t, h, retired, Route(m))
  {
    if ConcernsOwn(h, retired, m) {
      ProgressKeeps(t, m.taskId, m.description);
      ProgressRuns(t, m.taskId, m.description);
      RunsFollow(t, RecordProgress(t, m.taskId, m.description), h, retired, m);
    } else {
      UnrelatedFollows(t, h, retired, m);
    }
  }

  lemma NotificationEffect(t: Turn, m: Message)
    requires Tracked(t) && m.Notification? && m.taskId in t.tasks
    ensures var t' := RouteNotification(t, m);
            && t'.order == t.order
            && Active(t') == (if m.status == "running" then Active(t) + {m.taskId} else Active(t) - {m.taskId})
            && t'.deferred == t.deferred && t'.interrupted == t.interrupted
            && t'.queue == t.queue + [Item(m)]
            && t'.phase == (if Active(t') == {} && t.deferred.Some? then AwaitingFinalResult else t.phase)
  {
    var t1 := RecordNotification(t, m.taskId, m.status, m.summary);
    assert Active(t1) == (if m.status == "running" then Active(t) + {m.taskId} else Active(t) - {m.taskId});
    assert Active(RouteNotification(t, m)) == Active(t1);
  }

  lemma NotificationFollows(t: Turn, h: History, retired: set<TaskId>, m: Message)
    requires Follows(t, h, retired) && m.Notification? && !Revives(h, retired, Route(m))
    ensures Advances(t, h, retired, Route(m))
  {
    if ConcernsOwn(h, retired, m) {
      NotificationKeeps(t, m);
      NotificationEffect(t, m);
      OwnNotificationFollows(t, RouteNotification(t, m), h, retired, m);
    } else {
      UnrelatedFollows(t, h, retired, m);
    }
  }

  lemma OwnNotificationFollows(t: Turn, t': Turn, h: History, retired: set<TaskId>, m: Message)
    requires Follows(t, h, retired) && m.Notification? && !Revives(h, retired, Route(m))
    requires m.taskId in Own(h, retired) && PhaseInv(t') && t'.order == t.order
    requires Active(t') == (if m.status == "running" then Active(t) + {m.taskId} else Active(t) - {m.taskId})
    requires t'.deferred == t.deferred && t'.interrupted == t.interrupted && t'.queue == t.queue + [Item(m)]
    requires t'.phase == (if Active(t') == {} && t.deferred.Some? then AwaitingFinalResult else t.phase)
    ensures Follows(t', Snoc(h, Route(m)), retired)
  {
    ItemsSnoc(Forwarded(h, retired), m);
    var h' := Snoc(h, Route(m));
    assert RunningIds(h', retired) == Active(t');
    assert !t.phase.SettlingResult?;
  }

  lemma ResultFollows(t: Turn, h: History, retired: set<TaskId>, m: Message)
    requires Follows(t, h, retired) && IsResult(m)
    ensures Advances(t, h, retired, Route(m))
  {
    ResultKeeps(t, m);
    assert TurnStep(t, retired, Route(m)) == RecordResult(t, m);
    if t.order == [] {
      assert Active(t) == {};
    }
  }

  lemma PlainFollows(t: Turn, h: History, retired: set<TaskId>, m: Message)
    requires Follows(t, h, retired) && Plain(m)
    ensures Advances(t, h, retired, Route(m))
  {
    OtherKeeps(t, m);
    ItemsSnoc(Forwarded(h, retired), m);
  }

  lemma BackgroundFollows(t: Turn, h: History, retired: set<TaskId>)
    requires Follows(t, h, retired)
    ensures Advances(t, h, retired, BackgroundFires)
  {
    if Active(t) != {} {
      var notices := Notices(ActiveIds(t));
      assert t.background.Armed?;
      assert ActiveIds(t.(background := Expired)) == ActiveIds(t);
      assert Items(Forwarded(h, retired)) + Items(notices) + Closing(TIMEOUT_RESULT)
          == Items(Forwarded(h, retired)) + (Items(notices) + Closing(TIMEOUT_RESULT));
    }
  }

  lemma TurnFollows(t: Turn, h: History, retired: set<TaskId>, e: Event)
    requires Follows(t, h, retired) && !e.Begin? && !Revives(h, retired, e)
    ensures Advances(t, h, retired, e)
  {
    match e
    case Route(m) =>
      match m {
        case Started(_, _) => StartedFollows(t, h, retired, m);
        case Progress(_, _) => ProgressFollows(t, h, retired, m);
        case Notification(_, _, _) => NotificationFollows(t, h, retired, m);
        case ResultObject(_, _) => ResultFollows(t, h, retired, m);
        case ResultDict(_, _) => ResultFollows(t, h, retired, m);
        case _ => PlainFollows(t, h, retired, m);
      }
    case BackgroundFires => BackgroundFollows(t, h, retired);
    case _ =>
  }

  // ---------- whole runs ----------

  /** All tasks of a sequence of ended turns, in the order in which they were retired. */
  function TasksOf(turns: seq<Turn>): seq<TaskId> {
    if turns == [] then [] else TasksOf(turns[..|turns|-1]) + turns[|turns|-1].order
  }

  ghost predicate Matches(p: Pump, b: Book) {
    && p.closed == b.closed
    && p.live.Some? == b.live.Some?
    && (p.live.Some? ==> Follows(p.live.value, b.live.value, p.retired.ids))
    && Consistent(p.retired) && p.retired.order == Window(b.log)
    && b.log == TasksOf(p.finished)
    && |p.finished| == |b.outputs|
    && forall i :: 0 <= i < |p.finished| ==> p.finished[i].queue == b.outputs[i] && p.finished[i].phase.Terminal?
  }

  lemma TasksOfSnoc(turns: seq<Turn>, t: Turn)
    ensures TasksOf(turns + [t]) == TasksOf(turns) + t.order
  {
    assert (turns + [t])[..|turns|] == turns;
  }

  lemma TurnEndMatches(p: Pump, b: Book, e: Event)
    requires Matches(p, b) && b.live.Some?
    requires Advances(p.live.value, b.live.value, p.retired.ids, e)
    requires Verdict(b.live.value, p.retired.ids, e).Some?
    ensures var own := Own(b.live.value, p.retired.ids);
            var last := Verdict(b.live.value, p.retired.ids, e).value;
            Matches(Settle(p, TurnStep(p.live.value, p.retired.ids, e)),
                    b.(live := None, log := b.log + own,
                       outputs := b.outputs + [Items(Forwarded(b.live.value, p.retired.ids)) + last]))
  {
    var t' := TurnStep(p.live.value, p.retired.ids, e);
    OwnIsFresh(b.live.value, p.retired.ids);
    RetireKeepsWindow(p.retired, b.log, t'.order);
    TasksOfSnoc(p.finished, t');
  }

  lemma StepMatches(p: Pump, b: Book, e: Event)
    requires Matches(p, b)
    requires b.live.Some? ==> !Revives(b.live.value, Retired(b), e)
    ensures Matches(Step(p, e), BookStep(b, e))
  {
    assert Retired(b) == p.retired.ids;
    if b.live.Some? && !e.Begin? && !(e.Close? && b.closed) {
      var p1 := if e.Close? then p.(closed := true) else p;
      var b1 := if e.Close? then b.(closed := true) else b;
      TurnFollows(p.live.value, b.live.value, p.retired.ids, e);
      if Verdict(b.live.value, p.retired.ids, e).Some? {
        TurnEndMatches(p1, b1, e);
      }
    }
  }

  /** For every run within the protocol, the pump's queues and memory are those of the book. */
  lemma {:induction false} RunMatchesBook(es: seq<Event>)
    requires InProtocol(es)
    ensures Matches(Run(es), BookRun(es))
    decreases |es|
  {
    if es == [] {
    } else {
      var before := es[..|es|-1];
      assert forall i :: 0 <= i < |before| ==> before[..i] == es[..i];
      RunMatchesBook(before);
      StepMatches(Run(before), BookRun(before), es[|es|-1]);
    }
  }

  // ---------- consequences for every run within the protocol ----------

  /** Steps only append ended turns: nothing is ever enqueued to a turn that has ended. */
  lemma EndedTurnsAreFrozen(p: Pump, e: Event)
    ensures |p.finished| <= |Step(p, e).finished| <= |p.finished| + 1
    ensures Step(p, e).finished[..|p.finished|] == p.finished
    ensures |Step(p, e).finished| > |p.finished| ==> p.live.Some? && Step(p, e).live.None?
  {
  }

  /** A live turn of such a run satisfies the phase invariant, so a waiting turn closes by its timer. */
  lemma WaitingTurnCloses(es: seq<Event>)
    requires InProtocol(es) && Run(es).live.Some?
    ensures PhaseInv(Run(es).live.value)
    ensures var p := Run(es);
            && (p.live.value.phase.SettlingResult? ==> Step(p, SettleFires).live.None?)
            && (p.live.value.phase.WaitingBackground? ==> Step(p, BackgroundFires).live.None?)
            && (p.live.value.phase.AwaitingFinalResult? ==> Step(p, CompletionFires).live.None?)
  {
    RunMatchesBook(es);
    ArmedTimerEndsTurn(Run(es).live.value, Run(es).retired.ids);
  }

  /**
   Outside the protocol the claim fails: a turn that awaits its final result and is told that a
   finished task runs again is left with no pending timer at all.
   */
  lemma RevivedTurnHasNoTimer(t: Turn, retired: set<TaskId>, m: Message)
    requires PhaseInv(t) && t.phase.AwaitingFinalResult? && RevivesIdle(t, Route(m))
    ensures var t' := TurnStep(t, retired, Route(m));
            && t'.phase.AwaitingFinalResult?
            && TurnStep(t', retired, SettleFires) == t'
            && TurnStep(t', retired, CompletionFires) == t'
            && TurnStep(t', retired, BackgroundFires) == t'
  {
    var t1 := RecordNotification(t, m.taskId, m.status, m.summary);
    assert m.taskId in Active(t1);
  }

  /** A turn that waits for its final result after its only task completed. */
  function AwaitingTurn(): Turn {
    Turn(1, AwaitingFinalResult, ["t"], map["t" := BackgroundTask(Completed, "", "")], Some(ResultObject(false, "held")),
         true, false, [Item(Started("t", "")), Item(Notification("t", "completed", ""))], NoTimer, Armed, NoTimer)
  }

  function RunningTurn(deferred: Option<Message>): Turn {
    Turn(1, if deferred.Some? then WaitingBackground else Streaming, ["t"], map["t" := BackgroundTask(InProgress, "", "")],
         deferred, true, false, [Item(Started("t", ""))], NoTimer, NoTimer, Armed)
  }

  lemma TaskStarts()
    ensures TurnStep(NewTurn(1), {}, Route(Started("t", ""))) == RunningTurn(None)
  {
  }

  lemma ResultIsHeld()
    ensures var held := ResultObject(false, "held");
            TurnStep(RunningTurn(None), {}, Route(held)) == RunningTurn(Some(held))
  {
    assert "t" in Active(RunningTurn(None));
  }

  lemma TaskCompletes()
    ensures TurnStep(RunningTurn(Some(ResultObject(false, "held"))), {}, Route(Notification("t", "completed", "")))
         == AwaitingTurn()
  {
    var t := RunningTurn(Some(ResultObject(false, "held")));
    var t1 := RecordNotification(t, "t", "completed", "");
    assert t1.tasks == map["t" := BackgroundTask(Completed, "", "")];
    assert Active(t1) == {};
  }

  lemma FourSteps(e1: Event, e2: Event, e3: Event, e4: Event)
    ensures Run([e1, e2, e3, e4]) == Step(Step(Step(Step(NewPump(), e1), e2), e3), e4)
  {
    RunSnoc([], e1);
    RunSnoc([e1], e2);
    RunSnoc([e1, e2], e3);
    RunSnoc([e1, e2, e3], e4);
    assert [] + [e1] == [e1] && [e1] + [e2] == [e1, e2] && [e1, e2] + [e3] == [e1, e2, e3];
    assert [e1, e2, e3] + [e4] == [e1, e2, e3, e4];
  }

  lemma LiveStep(p: Pump, e: Event, t: Turn)
    requires p.live.Some? && !e.Begin? && !e.Close?
    requires TurnStep(p.live.value, p.retired.ids, e) == t && !t.phase.Terminal?
    ensures Step(p, e) == p.(live := Some(t))
  {
  }

  /** Such a turn is reached by four events. */
  lemma RevivalIsReachable()
    ensures Run([Begin, Route(Started("t", "")), Route(ResultObject(false, "held")),
                 Route(Notification("t", "completed", ""))]).live == Some(AwaitingTurn())
    ensures PhaseInv(AwaitingTurn()) && RevivesIdle(AwaitingTurn(), Route(Notification("t", "running", "")))
  {
    TaskStarts();
    ResultIsHeld();
    TaskCompletes();
    var held := ResultObject(false, "held");
    var p1 := Step(NewPump(), Begin);
    var p2 := p1.(live := Some(RunningTurn(None)));
    var p3 := p1.(live := Some(RunningTurn(Some(held))));
    LiveStep(p1, Route(Started("t", "")), RunningTurn(None));
    LiveStep(p2, Route(held), RunningTurn(Some(held)));
    LiveStep(p3, Route(Notification("t", "completed", "")), AwaitingTurn());
    FourSteps(Begin, Route(Started("t", "")), Route(held), Route(Notification("t", "completed", "")));
    assert Active(AwaitingTurn()) == {};
  }

  lemma RunSnoc(es: seq<Event>, e: Event)
    ensures Run(es + [e]) == Step(Run(es), e)
  {
    assert (es + [e])[..|es|] == es;
  }
}
