/**
 What holds of the pump over every run at all, also when a notification revives an idle turn: the shape
 of the queue of an ended turn and the memory of retired tasks.
 */
module EventPumpRuns {
  import opened Wrappers
  import opened EventPump
  import opened EventPumpPhases
  import opened Sequences
  import opened EventPumpMemory
  import opened EventPumpHistory

  // ---------- queues ----------

  ghost predicate NoResult(ms: seq<Message>) {
    forall i :: 0 <= i < |ms| ==> !IsResult(ms[i])
  }

  /** One result and the end marker, or one error. */
  ghost predicate Closes(last: seq<Envelope>) {
    || (|last| == 2 && last[0].Item? && IsResult(last[0].message) && last[1] == End)
    || (|last| == 1 && last[0].Error?)
  }

  ghost predicate Ends(queue: seq<Envelope>, ms: seq<Message>, last: seq<Envelope>) {
    NoResult(ms) && Closes(last) && queue == Items(ms) + last
  }

  /** Messages that are no results, and then one result and the end marker, or one error. */
  ghost predicate WellEnded(queue: seq<Envelope>) {
    exists ms, last :: Ends(queue, ms, last)
  }

  /** Nothing but messages that are no results. */
  ghost predicate Unfinished(queue: seq<Envelope>) {
    forall i :: 0 <= i < |queue| ==> queue[i].Item? && !IsResult(queue[i].message)
  }

  lemma UnfinishedEnds(queue: seq<Envelope>, last: seq<Envelope>)
    requires Unfinished(queue) && Closes(last)
    ensures WellEnded(queue + last)
  {
    var ms := seq(|queue|, i requires 0 <= i < |queue| => queue[i].message);
    assert Items(ms) == queue;
    assert Ends(queue + last, ms, last);
  }

  // ---------- one turn ----------

  ghost predicate Kept(t: Turn, retired: set<TaskId>) {
    Tracked(t) && Disjoint(t.order, retired)
  }

  ghost predicate Lives(t: Turn, retired: set<TaskId>) {
    && !t.phase.Terminal? && Kept(t, retired) && Unfinished(t.queue)
    && (t.deferred.Some? ==> IsResult(t.deferred.value))
  }

  ghost predicate Sound(t: Turn, retired: set<TaskId>) {
    if t.phase.Terminal? then Kept(t, retired) && WellEnded(t.queue) else Lives(t, retired)
  }

  lemma FinalizeIsSound(t: Turn, retired: set<TaskId>, result: Message)
    requires Kept(t, retired) && Unfinished(t.queue) && IsResult(result)
    ensures Sound(Finalize(t, result), retired)
  {
    UnfinishedEnds(t.queue, [Item(result), End]);
  }

  lemma FailIsSound(t: Turn, retired: set<TaskId>, error: PumpError)
    requires Kept(t, retired) && Unfinished(t.queue)
    ensures Sound(FailTurn(t, error), retired)
  {
    UnfinishedEnds(t.queue, [Error(error)]);
  }

  lemma StartedIsSound(t: Turn, retired: set<TaskId>, id: TaskId, description: string)
    requires Lives(t, retired) && id !in retired
    ensures Lives(RecordStarted(t, id, description), retired)
  {
    if id != "" { PutTaskTracked(t, id, BackgroundTask(InProgress, description, "")); }
  }

  lemma ProgressIsSound(t: Turn, retired: set<TaskId>, id: TaskId, description: string)
    requires Lives(t, retired) && id in t.tasks
    ensures Lives(RecordProgress(t, id, description), retired)
  {
    var task := t.tasks[id];
    PutTaskTracked(t, id,
      task.(state := InProgress, description := if description != "" then description else task.description));
  }

  lemma NotificationIsSound(t: Turn, retired: set<TaskId>, m: Message)
    requires Lives(t, retired) && m.Notification? && m.taskId in t.tasks
    ensures Lives(RouteNotification(t, m), retired)
  {
    PutTaskTracked(t, m.taskId, t.tasks[m.taskId].(state := StateOfStatus(m.status), summary := m.summary));
  }

  lemma ResultIsSound(t: Turn, retired: set<TaskId>, m: Message)
    requires Lives(t, retired) && IsResult(m)
    ensures Sound(RecordResult(t, m), retired)
  {
    FinalizeIsSound(t, retired, m);
  }

  lemma EmitIsSound(t: Turn, retired: set<TaskId>, m: Message)
    requires Lives(t, retired) && !IsResult(m)
    ensures Lives(Emit(t, m), retired)
  {
  }

  lemma RouteTaskIsSound(t: Turn, retired: set<TaskId>, m: Message)
    requires Lives(t, retired) && (m.Started? || m.Progress?)
    ensures Lives(RouteTurn(t, retired, m), retired)
  {
    if m.Started? && m.taskId !in retired {
      StartedIsSound(t, retired, m.taskId, m.description);
      EmitIsSound(RecordStarted(t, m.taskId, m.description), retired, m);
    } else if m.Progress? && m.taskId in t.tasks {
      ProgressIsSound(t, retired, m.taskId, m.description);
      EmitIsSound(RecordProgress(t, m.taskId, m.description), retired, m);
    }
  }

  lemma RouteOtherIsSound(t: Turn, retired: set<TaskId>, m: Message)
    requires Lives(t, retired) && !IsResult(m)
    ensures Lives(RouteOther(t, m), retired)
  {
  }

  lemma RouteIsSound(t: Turn, retired: set<TaskId>, m: Message)
    requires Lives(t, retired)
    ensures Sound(RouteTurn(t, retired, m), retired)
  {
    if m.Started? || m.Progress? {
      RouteTaskIsSound(t, retired, m);
    } else if m.Notification? {
      if m.taskId in t.tasks { NotificationIsSound(t, retired, m); }
    } else if IsResult(m) {
      ResultIsSound(t, retired, m);
    } else {
      RouteOtherIsSound(t, retired, m);
    }
  }

  lemma TimeoutIsSound(t: Turn, retired: set<TaskId>)
    requires Lives(t, retired)
    ensures Sound(BackgroundTimerFires(t), retired)
  {
    var ids := ActiveIds(t);
    var failed := EmitAll(t.(tasks := FailTasks(t.tasks, ids)), Notices(ids));
    assert Unfinished(failed.queue);
    FinalizeIsSound(failed, retired, TIMEOUT_RESULT);
  }

  lemma DeferredIsSound(t: Turn, retired: set<TaskId>, expected: Phase)
    requires Lives(t, retired)
    ensures Sound(DeferredTimerFires(t, expected), retired)
  {
    if t.deferred.Some? { FinalizeIsSound(t, retired, t.deferred.value); }
  }

  lemma TurnIsSound(t: Turn, retired: set<TaskId>, e: Event)
    requires Lives(t, retired)
    ensures Sound(TurnStep(t, retired, e), retired)
  {
    match e
    case Route(m) => RouteIsSound(t, retired, m);
    case SettleFires => DeferredIsSound(t.(settle := Expired), retired, SettlingResult);
    case CompletionFires => DeferredIsSound(t.(completion := Expired), retired, AwaitingFinalResult);
    case BackgroundFires => TimeoutIsSound(t.(background := Expired), retired);
    case Fail(error) => FailIsSound(t, retired, error);
    case Close => FailIsSound(t, retired, ConnectionClosed);
    case _ =>
  }

  // ---------- the pump ----------

  ghost predicate PumpSound(p: Pump) {
    && Consistent(p.retired) && p.retired.order == Window(TasksOf(p.finished))
    && (p.live.Some? ==> Lives(p.live.value, p.retired.ids))
    && forall i :: 0 <= i < |p.finished| ==> WellEnded(p.finished[i].queue)
  }

  lemma SettleIsSound(p: Pump, t: Turn)
    requires PumpSound(p) && Sound(t, p.retired.ids)
    ensures PumpSound(Settle(p, t))
  {
    if t.phase.Terminal? {
      RetireKeepsWindow(p.retired, TasksOf(p.finished), t.order);
      TasksOfSnoc(p.finished, t);
    }
  }

  lemma StepIsSound(p: Pump, e: Event)
    requires PumpSound(p)
    ensures PumpSound(Step(p, e))
  {
    if p.live.Some? && !e.Begin? {
      TurnIsSound(p.live.value, p.retired.ids, e);
      SettleIsSound(if e.Close? then p.(closed := true) else p, TurnStep(p.live.value, p.retired.ids, e));
    }
  }

  lemma {:induction false} RunIsSound(es: seq<Event>)
    ensures PumpSound(Run(es))
    decreases |es|
  {
    if es == [] {
    } else {
      RunIsSound(es[..|es|-1]);
      StepIsSound(Run(es[..|es|-1]), es[|es|-1]);
    }
  }

  // ---------- for every run ----------

  /** Every turn that has ended has a queue of the promised shape. */
  lemma EndedQueuesAreWellEnded(es: seq<Event>, i: nat)
    requires i < |Run(es).finished|
    ensures WellEnded(Run(es).finished[i].queue)
  {
    RunIsSound(es);
  }

  /**
   Retired-task memory, over any number of turns: it is the most recent part of everything retired,
   holds no id twice, and shares no id with the live turn.
   */
  lemma RunKeepsMemory(es: seq<Event>)
    ensures var p := Run(es);
            && (var log := TasksOf(p.finished);
                p.retired.order == if |log| <= 1000 then log else log[|log| - 1000..])
            && p.retired.ids == Elements(p.retired.order)
            && NoDuplicates(p.retired.order)
            && (p.live.Some? ==> forall id :: id in p.live.value.tasks ==> id !in p.retired.ids)
  {
    RunIsSound(es);
  }

  /** While an id is remembered, no message about that task enters a later turn. */
  lemma RememberedTaskIsDropped(es: seq<Event>, m: Message)
    requires (m.Started? || m.Progress? || m.Notification?) && m.taskId in Run(es).retired.ids
    ensures Step(Run(es), Route(m)) == Run(es)
  {
    RunIsSound(es);
  }
}
