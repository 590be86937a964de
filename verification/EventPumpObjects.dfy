/**
 The event pump as the code has it: a turn object and a pump object whose fields the methods update
 in place.  Every public method is proved to be one `EventPump.Step` of the pump's value, and every
 helper to be the function of the same name; turns other than the live one are never written.
 */
module EventPumpObjects {
  import opened Wrappers
  import opened EventPump
  import opened Sequences

  lemma {:induction false} SelectEmpty(ids: seq<TaskId>, keep: set<TaskId>)
    ensures Select(ids, keep) == [] <==> forall id :: id in ids ==> id !in keep
  {
    if ids == [] {
    } else {
      assert ids == [ids[0]] + ids[1..];
      SelectEmpty(ids[1..], keep);
    }
  }

  lemma {:induction false} SelectSubset(ids: seq<TaskId>, keep: set<TaskId>)
    ensures forall id :: id in Select(ids, keep) ==> id in ids && id in keep
  {
    if ids == [] {
    } else {
      SelectSubset(ids[1..], keep);
    }
  }

  class ResponseTurn {
    const turnId: nat
    var phase: Phase
    var order: seq<TaskId>
    var tasks: map<TaskId, BackgroundTask>
    var deferredResult: Option<Message>
    var hadBackgroundTasks: bool
    var interrupted: bool
    var queue: seq<Envelope>
    var settleTimer: Timer
    var completionTimer: Timer
    var backgroundTimer: Timer

    ghost function Value(): Turn
      reads this
    {
      Turn(turnId, phase, order, tasks, deferredResult, hadBackgroundTasks, interrupted, queue,
           settleTimer, completionTimer, backgroundTimer)
    }

    /** `order` lists the keys of `tasks`, each once. */
    ghost predicate Valid()
      reads this
    {
      NoDuplicates(order) && forall id :: id in tasks <==> id in order
    }

    constructor (id: nat)
      ensures Valid() && Value() == NewTurn(id)
    {
      turnId, phase := id, Streaming;
      order, tasks := [], map[];
      deferredResult, hadBackgroundTasks, interrupted, queue := None, false, false, [];
      settleTimer, completionTimer, backgroundTimer := NoTimer, NoTimer, NoTimer;
    }

    method ActiveTaskIds() returns (ids: seq<TaskId>)
      requires Valid()
      ensures ids == ActiveIds(Value())
      ensures ids == [] <==> Active(Value()) == {}
    {
      ids := [];
      ghost var keep := Active(Value());
      for i := 0 to |order|
        invariant ids == Select(order[..i], keep)
      {
        SelectSnoc(order[..i], order[i], keep);
        assert order[..i] + [order[i]] == order[..i+1];
        if tasks[order[i]].state.InProgress? {
          ids := ids + [order[i]];
        }
      }
      assert order[..|order|] == order;
      SelectEmpty(order, keep);
    }

    method SetTask(id: TaskId, task: BackgroundTask)
      requires Valid()
      modifies this`order, this`tasks
      ensures Valid() && Value() == PutTask(old(Value()), id, task)
    {
      if id !in tasks {
        order := order + [id];
      }
      tasks := tasks[id := task];
    }
  }

  class ClaudeConnectionEventPump {
    var active: ResponseTurn?
    var nextTurnId: nat
    var closed: bool
    var retiredIds: set<TaskId>
    var retiredOrder: seq<TaskId>
    ghost var finished: seq<Turn>

    ghost function Value(): Pump
      reads this, active
    {
      Pump(if active == null then None else Some(active.Value()), nextTurnId, closed,
           Memory(retiredIds, retiredOrder), finished)
    }

    ghost predicate Valid()
      reads this, active
    {
      active != null ==> active.Valid() && !active.phase.Terminal?
    }

    constructor ()
      ensures Valid() && Value() == NewPump()
    {
      active, nextTurnId, closed := null, 1, false;
      retiredIds, retiredOrder, finished := {}, [], [];
    }

    // ---------- calls ----------

    method BeginTurn() returns (turn: Result<ResponseTurn, string>)
      requires Valid()
      modifies this
      ensures Valid() && Value() == Step(old(Value()), Begin)
      ensures turn.Success? <==> !old(closed) && old(active) == null
      ensures turn.Success? ==> fresh(turn.value) && active == turn.value
      ensures turn.Failure? ==> unchanged(this)
    {
      if closed {
        return Failure("Event pump is closed");
      }
      if active != null {
        return Failure("A Claude response is already active");
      }
      var t := new ResponseTurn(nextTurnId);
      nextTurnId := nextTurnId + 1;
      active := t;
      return Success(t);
    }

    method ReportFailure(turn: ResponseTurn, error: PumpError)
      requires Valid()
      modifies this, active
      ensures Valid()
      ensures Value() == if turn == old(active) then Step(old(Value()), Fail(error)) else old(Value())
    {
      if active != turn {
        return;
      }
      FailLocked(turn, error);
    }

    method InterruptTurn()
      requires Valid()
      modifies this, active
      ensures Valid() && Value() == Step(old(Value()), Interrupt)
    {
      if active == null {
        return;
      }
      active.interrupted := true;
      active.phase := Interrupted;
    }

    method AbandonTurn(turn: ResponseTurn)
      requires Valid()
      modifies this, active
      ensures Valid()
      ensures Value() == if turn == old(active) then Step(old(Value()), Fail(Cancelled)) else old(Value())
    {
      if active != turn {
        return;
      }
      FailLocked(turn, Cancelled);
    }

    method ClosePump()
      requires Valid()
      modifies this, active
      ensures Valid() && Value() == Step(old(Value()), Close)
    {
      if closed {
        return;
      }
      closed := true;
      if active != null {
        FailLocked(active, ConnectionClosed);
      }
    }

    /** The reader's last act: the message stream raised, or ended while the pump was open. */
    method FailActiveTurn(error: PumpError)
      requires Valid()
      modifies this, active
      ensures Valid() && Value() == Step(old(Value()), Fail(error))
    {
      if active != null {
        FailLocked(active, error);
      }
    }

    // ---------- messages ----------

    method RouteMessage(m: Message)
      requires Valid()
      modifies this, active
      ensures Valid()
      ensures Value() == Step(old(Value()), Route(m))
    {
      if active == null {
        return;
      }
      var turn := active;
      if m.StateMarker? && turn.phase.SettlingResult? {
        return;
      }
      if m.Started? {
        if m.taskId in retiredIds {
          return;
        }
        RecordTaskStarted(turn, m.taskId, m.description);
        turn.queue := turn.queue + [Item(m)];
        return;
      }
      if m.Progress? {
        if m.taskId !in turn.tasks {
          return;
        }
        RecordTaskProgress(turn, m.taskId, m.description);
        turn.queue := turn.queue + [Item(m)];
        return;
      }
      if m.Notification? {
        if m.taskId !in turn.tasks {
          return;
        }
        RouteTaskNotification(turn, m);
        return;
      }
      if IsResult(m) {
        RecordResultMessage(turn, m);
        return;
      }
      RouteOtherMessage(turn, m);
    }

    method RouteTaskNotification(turn: ResponseTurn, m: Message)
      requires turn.Valid() && m.Notification?
      modifies turn
      ensures turn.Valid() && turn.Value() == RouteNotification(old(turn.Value()), m)
    {
      RecordTaskNotification(turn, m.taskId, m.status, m.summary);
      turn.queue := turn.queue + [Item(m)];
      var ids := turn.ActiveTaskIds();
      if ids == [] && turn.deferredResult.Some? {
        turn.phase := AwaitingFinalResult;
        turn.completionTimer := Armed;
      }
    }

    method RouteOtherMessage(turn: ResponseTurn, m: Message)
      requires turn.Valid()
      modifies turn
      ensures turn.Valid() && turn.Value() == RouteOther(old(turn.Value()), m)
    {
      if turn.phase.SettlingResult? {
        turn.settleTimer := NoTimer;
        turn.phase := AwaitingFinalResult;
        turn.completionTimer := Armed;
      } else if turn.phase.AwaitingFinalResult? {
        turn.completionTimer := Armed;
      }
      turn.queue := turn.queue + [Item(m)];
    }

    method RecordTaskStarted(turn: ResponseTurn, id: TaskId, description: string)
      requires turn.Valid()
      modifies turn
      ensures turn.Valid() && turn.Value() == RecordStarted(old(turn.Value()), id, description)
    {
      if id == "" {
        return;
      }
      turn.hadBackgroundTasks := true;
      CancelResultTimersOf(turn);
      turn.SetTask(id, BackgroundTask(InProgress, description, ""));
      if turn.deferredResult.Some? {
        turn.phase := WaitingBackground;
      }
      ArmBackgroundTimer(turn);
    }

    method RecordTaskProgress(turn: ResponseTurn, id: TaskId, description: string)
      requires turn.Valid()
      modifies turn
      ensures turn.Valid() && turn.Value() == RecordProgress(old(turn.Value()), id, description)
    {
      if id == "" {
        return;
      }
      turn.hadBackgroundTasks := true;
      CancelResultTimersOf(turn);
      var task := if id in turn.tasks then turn.tasks[id] else BackgroundTask(InProgress, "", "");
      task := task.(state := InProgress);
      if description != "" {
        task := task.(description := description);
      }
      turn.SetTask(id, task);
      if turn.deferredResult.Some? {
        turn.phase := WaitingBackground;
      }
      ArmBackgroundTimer(turn);
    }

    method RecordTaskNotification(turn: ResponseTurn, id: TaskId, status: string, summary: string)
      requires turn.Valid()
      modifies turn
      ensures turn.Valid() && turn.Value() == RecordNotification(old(turn.Value()), id, status, summary)
    {
      if id == "" {
        return;
      }
      turn.hadBackgroundTasks := true;
      CancelResultTimersOf(turn);
      var task := if id in turn.tasks then turn.tasks[id] else BackgroundTask(InProgress, "", "");
      turn.SetTask(id, task.(state := StateOfStatus(status), summary := summary));
      var ids := turn.ActiveTaskIds();
      if ids == [] {
        turn.backgroundTimer := NoTimer;
      }
    }

    method RecordResultMessage(turn: ResponseTurn, m: Message)
      requires turn == active && turn.Valid() && !turn.phase.Terminal?
      modifies this, turn
      ensures Valid()
      ensures Value() == Settle(old(Value()), RecordResult(old(turn.Value()), m))
    {
      if SeenError(m) || turn.interrupted {
        FinalizeWithResult(turn, m);
        return;
      }
      var ids := turn.ActiveTaskIds();
      if ids != [] {
        turn.deferredResult := Some(m);
        turn.phase := WaitingBackground;
        ArmBackgroundTimer(turn);
        return;
      }
      if turn.hadBackgroundTasks {
        FinalizeWithResult(turn, m);
        return;
      }
      turn.deferredResult := Some(m);
      turn.phase := SettlingResult;
      turn.settleTimer := Armed;
    }

    // ---------- timers ----------

    method SettleTimerFires(turn: ResponseTurn)
      requires Valid() && turn.settleTimer.Armed?
      modifies this, turn
      ensures Valid()
      ensures turn == old(active) ==> Value() == Step(old(Value()), SettleFires)
      ensures turn != old(active) ==> Value() == old(Value()) && turn.queue == old(turn.queue)
    {
      turn.settleTimer := Expired;
      FinalizeDeferred(turn, SettlingResult);
    }

    method CompletionTimerFires(turn: ResponseTurn)
      requires Valid() && turn.completionTimer.Armed?
      modifies this, turn
      ensures Valid()
      ensures turn == old(active) ==> Value() == Step(old(Value()), CompletionFires)
      ensures turn != old(active) ==> Value() == old(Value()) && turn.queue == old(turn.queue)
    {
      turn.completionTimer := Expired;
      FinalizeDeferred(turn, AwaitingFinalResult);
    }

    method FinalizeDeferred(turn: ResponseTurn, expected: Phase)
      requires Valid()
      modifies this, turn
      ensures Valid()
      ensures turn == old(active) ==>
                Value() == Settle(old(Value()), DeferredTimerFires(old(turn.Value()), expected))
      ensures turn != old(active) ==> Value() == old(Value()) && turn.queue == old(turn.queue)
    {
      if active != turn || turn.phase != expected {
        return;
      }
      var ids := turn.ActiveTaskIds();
      if turn.deferredResult.None? || ids != [] {
        return;
      }
      FinalizeWithResult(turn, turn.deferredResult.value);
    }

    method BackgroundTimeout(turn: ResponseTurn)
      requires Valid() && turn.backgroundTimer.Armed?
      modifies this, turn
      ensures Valid()
      ensures turn == old(active) ==> Value() == Step(old(Value()), BackgroundFires)
      ensures turn != old(active) ==> Value() == old(Value()) && turn.queue == old(turn.queue)
    {
      turn.backgroundTimer := Expired;
      if active != turn {
        return;
      }
      var ids := turn.ActiveTaskIds();
      if ids == [] {
        return;
      }
      ghost var t := turn.Value();
      SelectSubset(turn.order, Active(t));
      FailRunningTasks(turn, ids);
      FinalizeWithResult(turn, TIMEOUT_RESULT);
    }

    method FailRunningTasks(turn: ResponseTurn, ids: seq<TaskId>)
      requires forall id :: id in ids ==> id in turn.tasks
      modifies turn`tasks, turn`queue
      ensures turn.Value() == var t := old(turn.Value()); EmitAll(t.(tasks := FailTasks(t.tasks, ids)), Notices(ids))
    {
      ghost var t := turn.Value();
      for i := 0 to |ids|
        invariant turn.tasks == FailTasks(t.tasks, ids[..i])
        invariant turn.queue == t.queue + Items(Notices(ids[..i]))
      {
        turn.tasks := turn.tasks[ids[i] := turn.tasks[ids[i]].(state := Failed, summary := TIMEOUT_SUMMARY)];
        turn.queue := turn.queue + [Item(FailedNotice(ids[i], TIMEOUT_SUMMARY))];
        assert ids[..i+1] == ids[..i] + [ids[i]];
        assert Items(Notices(ids[..i+1])) == Items(Notices(ids[..i])) + [Item(FailedNotice(ids[i], TIMEOUT_SUMMARY))];
      }
      assert ids[..|ids|] == ids;
    }

    method CancelResultTimersOf(turn: ResponseTurn)
      modifies turn`settleTimer, turn`completionTimer
      ensures turn.Value() == CancelResultTimers(old(turn.Value()))
    {
      turn.settleTimer := NoTimer;
      turn.completionTimer := NoTimer;
    }

    method ArmBackgroundTimer(turn: ResponseTurn)
      modifies turn`backgroundTimer
      ensures turn.Value() == ArmBackground(old(turn.Value()))
    {
      if turn.backgroundTimer != NoTimer {
        return;
      }
      turn.backgroundTimer := Armed;
    }

    // ---------- the end of a turn ----------

    method FinalizeWithResult(turn: ResponseTurn, result: Message)
      requires turn == active
      modifies this, turn
      ensures active == null && turn.Value() == Finalize(old(turn.Value()), result)
      ensures Value() == Settle(old(Value()), turn.Value())
    {
      CancelResultTimersOf(turn);
      turn.backgroundTimer := NoTimer;
      RetireTasks(turn);
      turn.queue := turn.queue + [Item(result)];
      turn.queue := turn.queue + [End];
      turn.phase := Terminal;
      assert turn.queue == old(turn.queue) + [Item(result), End];
      finished := finished + [turn.Value()];
      active := null;
    }

    method FailLocked(turn: ResponseTurn, error: PumpError)
      requires turn == active
      modifies this, turn
      ensures active == null && turn.Value() == FailTurn(old(turn.Value()), error)
      ensures Value() == Settle(old(Value()), turn.Value())
    {
      CancelResultTimersOf(turn);
      turn.backgroundTimer := NoTimer;
      RetireTasks(turn);
      turn.queue := turn.queue + [Error(error)];
      turn.phase := Terminal;
      finished := finished + [turn.Value()];
      active := null;
    }

    method RetireTasks(turn: ResponseTurn)
      modifies this`retiredIds, this`retiredOrder
      ensures Memory(retiredIds, retiredOrder) == Retire(old(Memory(retiredIds, retiredOrder)), turn.order)
    {
      ghost var m := Memory(retiredIds, retiredOrder);
      for i := 0 to |turn.order|
        invariant RememberAll(Memory(retiredIds, retiredOrder), turn.order[i..]) == RememberAll(m, turn.order)
      {
        var id := turn.order[i];
        if id !in retiredIds {
          retiredIds := retiredIds + {id};
          retiredOrder := retiredOrder + [id];
        }
      }
      while |retiredOrder| > MAX_RETIRED
        invariant Trim(Memory(retiredIds, retiredOrder)) == Retire(m, turn.order)
        decreases |retiredOrder|
      {
        var expired := retiredOrder[0];
        retiredOrder := retiredOrder[1..];
        retiredIds := retiredIds - {expired};
      }
    }
  }
}
