/** What every step of a live turn keeps: the meaning of each phase and of each timer. */
module EventPumpPhases {
  import opened Wrappers
  import opened EventPump
  import opened Sequences

  ghost predicate Tracked(t: Turn) {
    && NoDuplicates(t.order)
    && (forall id :: id in t.tasks <==> id in t.order)
    && "" !in t.tasks
    && (t.hadBackground <==> t.order != [])
  }

  /** The phase invariant of a turn that has not ended. */
  ghost predicate PhaseInv(t: Turn) {
    && Tracked(t)
    && t.background == (if Active(t) == {} then NoTimer else Armed)
    && match t.phase
       case Streaming => t.deferred.None?
       case SettlingResult => t.deferred.Some? && t.tasks == map[] && t.settle.Armed? && !t.interrupted
       case WaitingBackground => t.deferred.Some? && Active(t) != {}
       case AwaitingFinalResult => t.deferred.Some? && Active(t) == {} && t.completion.Armed?
       case Interrupted => t.interrupted
       case Terminal => false
  }

  /**
   The one input outside the protocol: a notification that reports a known task as "running"
   while no task is running.  The typed status of the connection never holds that string.
   */
  predicate RevivesIdle(t: Turn, e: Event) {
    && e.Route? && e.message.Notification?
    && e.message.taskId in t.tasks && e.message.taskId != ""
    && e.message.status == "running"
    && Active(t) == {}
  }

  lemma PutTaskTracked(t: Turn, id: TaskId, task: BackgroundTask)
    requires Tracked(t) && id != ""
    ensures Tracked(PutTask(t.(hadBackground := true), id, task))
  {
  }

  lemma StartedKeeps(t: Turn, id: TaskId, description: string)
    requires PhaseInv(t)
    ensures PhaseInv(RecordStarted(t, id, description))
  {
    if id != "" {
      PutTaskTracked(t, id, BackgroundTask(InProgress, description, ""));
      assert id in Active(RecordStarted(t, id, description));
    }
  }

  lemma ProgressKeeps(t: Turn, id: TaskId, description: string)
    requires PhaseInv(t) && id in t.tasks
    ensures PhaseInv(RecordProgress(t, id, description))
  {
    assert id in Active(RecordProgress(t, id, description));
  }

  lemma OnlyThatTaskChanged(t: Turn, t': Turn, id: TaskId)
    requires Tracked(t) && Tracked(t') && t.order == t'.order && id in t.tasks
    requires forall x :: x in t.tasks && x != id ==> t'.tasks[x] == t.tasks[x]
    requires !t'.tasks[id].state.InProgress?
    ensures Active(t) == {} ==> Active(t') == {}
    ensures Active(t') != {} ==> Active(t) != {}
  {
    if Active(t') != {} {
      var x :| x in Active(t');
      assert x in Active(t);
    }
  }

  lemma NotificationKeeps(t: Turn, m: Message)
    requires PhaseInv(t) && m.Notification? && m.taskId in t.tasks
    ensures var t' := RouteNotification(t, m);
            PhaseInv(t') <==> !RevivesIdle(t, Route(m))
  {
    var t1 := RecordNotification(t, m.taskId, m.status, m.summary);
    assert m.taskId != "";
    assert t1.order == t.order;
    assert Tracked(t1);
    if m.status != "running" {
      OnlyThatTaskChanged(t, t1, m.taskId);
    } else {
      assert m.taskId in Active(t1);
      if Active(t) != {} {
        assert t1.background.Armed?;
        assert !t.phase.AwaitingFinalResult?;
        assert t.tasks != map[];
      } else {
        assert t1.background.NoTimer?;
      }
    }
  }

  lemma ResultKeeps(t: Turn, m: Message)
    requires PhaseInv(t)
    ensures RecordResult(t, m).phase.Terminal? || PhaseInv(RecordResult(t, m))
  {
    if !t.hadBackground {
      assert t.order == [];
      assert t.tasks == map[] by {
        assert forall id :: id !in t.tasks;
      }
    }
  }

  lemma OtherKeeps(t: Turn, m: Message)
    requires PhaseInv(t)
    ensures PhaseInv(RouteOther(t, m))
  {
    assert t.tasks == map[] ==> Active(t) == {};
  }

  ghost predicate RouteFits(t: Turn, retired: set<TaskId>, m: Message) {
    var t' := RouteTurn(t, retired, m);
    t'.phase.Terminal? || PhaseInv(t') <==> !RevivesIdle(t, Route(m))
  }

  lemma EmitKeeps(t: Turn, m: Message)
    requires PhaseInv(t)
    ensures PhaseInv(Emit(t, m))
  {
    assert Active(Emit(t, m)) == Active(t);
  }

  lemma RouteStartedKeeps(t: Turn, retired: set<TaskId>, m: Message)
    requires PhaseInv(t) && m.Started?
    ensures PhaseInv(RouteTurn(t, retired, m))
  {
    if m.taskId !in retired {
      StartedKeeps(t, m.taskId, m.description);
      EmitKeeps(RecordStarted(t, m.taskId, m.description), m);
    }
  }

  lemma RouteProgressKeeps(t: Turn, retired: set<TaskId>, m: Message)
    requires PhaseInv(t) && m.Progress?
    ensures PhaseInv(RouteTurn(t, retired, m))
  {
    if m.taskId in t.tasks {
      ProgressKeeps(t, m.taskId, m.description);
      EmitKeeps(RecordProgress(t, m.taskId, m.description), m);
    }
  }

  lemma RouteNotificationKeeps(t: Turn, retired: set<TaskId>, m: Message)
    requires PhaseInv(t) && m.Notification?
    ensures RouteFits(t, retired, m)
  {
    if m.taskId in t.tasks { NotificationKeeps(t, m); }
  }

  lemma RouteKeeps(t: Turn, retired: set<TaskId>, m: Message)
    requires PhaseInv(t)
    ensures RouteFits(t, retired, m)
  {
    if m.Started? {
      RouteStartedKeeps(t, retired, m);
    } else if m.Progress? {
      RouteProgressKeeps(t, retired, m);
    } else if m.Notification? {
      RouteNotificationKeeps(t, retired, m);
    } else if IsResult(m) {
      ResultKeeps(t, m);
    } else {
      OtherKeeps(t, m);
    }
  }

  lemma TimerKeeps(t: Turn, retired: set<TaskId>, e: Event)
    requires PhaseInv(t) && (e.SettleFires? || e.CompletionFires? || e.BackgroundFires?)
    ensures var t' := TurnStep(t, retired, e); t'.phase.Terminal? || PhaseInv(t')
  {
  }

  /**
   Every message, timer firing and call keeps the phase invariant or ends the turn, and the single
   exception is exactly `RevivesIdle`.
   */
  lemma StepKeepsPhase(t: Turn, retired: set<TaskId>, e: Event)
    requires PhaseInv(t)
    ensures var t' := TurnStep(t, retired, e);
            t'.phase.Terminal? || PhaseInv(t') <==> !RevivesIdle(t, e)
  {
    match e
    case Route(m) => RouteKeeps(t, retired, m);
    case SettleFires => TimerKeeps(t, retired, e);
    case CompletionFires => TimerKeeps(t, retired, e);
    case BackgroundFires => TimerKeeps(t, retired, e);
    case _ =>
  }

  /** In the three waiting phases, the pending timer alone ends the turn. */
  lemma ArmedTimerEndsTurn(t: Turn, retired: set<TaskId>)
    requires PhaseInv(t)
    ensures t.phase.SettlingResult? ==> t.settle.Armed? && TurnStep(t, retired, SettleFires).phase.Terminal?
    ensures t.phase.WaitingBackground? ==> t.background.Armed? && TurnStep(t, retired, BackgroundFires).phase.Terminal?
    ensures t.phase.AwaitingFinalResult? ==> t.completion.Armed? && TurnStep(t, retired, CompletionFires).phase.Terminal?
  {
  }
}
