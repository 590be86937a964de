/**
 The tasks of a turn: each is recorded as its messages told, a timeout announces every running one by its
 own name, and the turns themselves are numbered as they begin.
 */
module EventPumpTasks {
  import opened Wrappers
  import opened EventPump
  import opened EventPumpPhases
  import opened Sequences
  import opened EventPumpMemory
  import opened EventPumpHistory
  import opened EventPumpRuns

  // ---------- what a timeout announces ----------

  predicate RunsIn(t: Turn, id: TaskId) {
    id in t.tasks && t.tasks[id].state == InProgress
  }

  /** The running tasks, each once, in the order in which the turn's tasks were first seen. */
  ghost predicate AreRunning(t: Turn, at: seq<nat>, ids: seq<TaskId>) {
    && Filters(t.order, at, ids, id => RunsIn(t, id)) && NoDuplicates(ids)
    && forall id :: id in ids <==> RunsIn(t, id)
  }

  /** One notice for each of the tasks, that it failed and why. */
  predicate Announces(notices: seq<Envelope>, ids: seq<TaskId>) {
    && |notices| == |ids|
    && forall i :: 0 <= i < |ids| ==>
         notices[i] == Item(FailedNotice(ids[i], "Background task timed out before reporting completion."))
  }

  /** The envelopes that end a turn whose background tasks took too long. */
  predicate TimedOut(last: seq<Envelope>, ids: seq<TaskId>) {
    && |last| == |ids| + 2 && Announces(last[..|ids|], ids)
    && last[|ids|].Item? && last[|ids|].message.ResultDict? && last[|ids|].message.errorKey
    && last[|ids|].message.text == "Claude background task timed out."
    && last[|ids|+1] == End
  }

  /** The tasks that ran have failed with that summary; the others are as they were. */
  predicate FailedThose(tasks: map<TaskId, BackgroundTask>, tasks': map<TaskId, BackgroundTask>, ids: seq<TaskId>) {
    && tasks'.Keys == tasks.Keys
    && forall id :: id in tasks ==>
         tasks'[id] == if id in ids then BackgroundTask(Failed, tasks[id].description, TIMEOUT_SUMMARY) else tasks[id]
  }

  lemma {:induction false} SelectFilters(ids: seq<TaskId>, keep: set<TaskId>) returns (at: seq<nat>)
    ensures Filters(ids, at, Select(ids, keep), id => id in keep)
    decreases |ids|
  {
    if ids == [] {
      at := [];
    } else {
      var front, last := ids[..|ids|-1], ids[|ids|-1];
      at := SelectFilters(front, keep);
      SelectSnoc(front, last, keep);
      FiltersSnoc(front, at, Select(front, keep), id => id in keep, last);
      assert ids == front + [last];
      if last in keep { at := at + [|front|]; }
    }
  }

  lemma ActiveAreRunning(t: Turn) returns (at: seq<nat>)
    requires Tracked(t)
    ensures AreRunning(t, at, ActiveIds(t))
  {
    var ids := ActiveIds(t);
    at := SelectFilters(t.order, Active(t));
    FiltersKeeps(t.order, at, ids, id => id in Active(t));
    assert Filters(t.order, at, ids, id => RunsIn(t, id));
    forall i, j | 0 <= i < j < |ids| ensures ids[i] != ids[j] { assert at[i] < at[j]; }
  }

  /**
   In every run: when the background timer ends a turn, the reader is told of each running task, by its own
   identifier and in the order in which the tasks were first seen, that it failed; then come a result that
   is an error, and the end.
   */
  lemma TimeoutAnnouncesEachTask(es: seq<Event>) returns (at: seq<nat>, ids: seq<TaskId>)
    requires Run(es).live.Some? && Step(Run(es), BackgroundFires).live.None?
    ensures var p, p' := Run(es), Step(Run(es), BackgroundFires);
            var t := p.live.value;
            && AreRunning(t, at, ids) && ids != []
            && |p'.finished| == |p.finished| + 1
            && var ended := p'.finished[|p.finished|];
               && t.queue <= ended.queue && TimedOut(ended.queue[|t.queue|..], ids)
               && FailedThose(t.tasks, ended.tasks, ids)
  {
    RunIsSound(es);
    var t := Run(es).live.value;
    at := ActiveAreRunning(t);
    ids := ActiveIds(t);
    assert ActiveIds(t.(background := Expired)) == ids;
    var ended := BackgroundTimerFires(t.(background := Expired));
    assert Step(Run(es), BackgroundFires).finished == Run(es).finished + [ended];
    var last := Items(Notices(ids)) + [Item(TIMEOUT_RESULT), End];
    assert ended.queue == t.queue + last;
  }

  /** The timer ends the turn exactly when it is pending and some task runs. */
  lemma TimeoutEndsTurn(es: seq<Event>)
    requires Run(es).live.Some?
    ensures var t := Run(es).live.value;
            Step(Run(es), BackgroundFires).live.None? <==> t.background.Armed? && exists id :: RunsIn(t, id)
  {
    RunIsSound(es);
    var t := Run(es).live.value;
    assert Active(t) == {} <==> forall id :: !RunsIn(t, id) by {
      assert forall id :: id in Active(t) <==> RunsIn(t, id);
    }
  }

  // ---------- an error ends a turn at once ----------

  /** A result object that is an error ends the turn with itself, whatever runs or is held back. */
  lemma ErrorEndsTurn(p: Pump, text: string)
    requires p.live.Some?
    ensures var p' := Step(p, Route(ResultObject(true, text)));
            && p'.live.None? && |p'.finished| == |p.finished| + 1
            && p'.finished[|p.finished|].queue == p.live.value.queue + [Item(ResultObject(true, text)), End]
  {
  }

  // ---------- what is recorded about a task ----------

  /** Does event `e`, after `h`, start or restart the task in this turn? */
  predicate Starts(retired: set<TaskId>, e: Event, id: TaskId) {
    e.Route? && e.message.Started? && e.message.taskId == id && id != "" && id !in retired
  }

  /** The last word about the state of a task. */
  function StateTold(h: History, retired: set<TaskId>, id: TaskId): TaskState {
    match h
    case Empty => InProgress
    case Snoc(b, Route(Notification(x, status, _))) =>
      if x != id || id !in Own(b, retired) then StateTold(b, retired, id)
      else if status == "running" then InProgress
      else if status == "completed" then Completed
      else if status == "stopped" then Stopped
      else Failed
    case Snoc(b, Route(Progress(x, _))) =>
      if x == id && id in Own(b, retired) then InProgress else StateTold(b, retired, id)
    case Snoc(b, e) =>
      if Starts(retired, e, id) then InProgress else StateTold(b, retired, id)
  }

  /** The description given at its last start, or a later one that is not empty. */
  function DescriptionTold(h: History, retired: set<TaskId>, id: TaskId): string {
    match h
    case Empty => ""
    case Snoc(b, Route(Progress(x, description))) =>
      if x == id && id in Own(b, retired) && |description| > 0 then description else DescriptionTold(b, retired, id)
    case Snoc(b, e) =>
      if Starts(retired, e, id) then e.message.description else DescriptionTold(b, retired, id)
  }

  /** The summary of the last notification since its last start. */
  function SummaryTold(h: History, retired: set<TaskId>, id: TaskId): string {
    match h
    case Empty => ""
    case Snoc(b, Route(Notification(x, _, summary))) =>
      if x == id && id in Own(b, retired) then summary else SummaryTold(b, retired, id)
    case Snoc(b, e) =>
      if Starts(retired, e, id) then "" else SummaryTold(b, retired, id)
  }

  predicate IsAsTold(task: BackgroundTask, h: History, retired: set<TaskId>, id: TaskId) {
    && task.state == StateTold(h, retired, id)
    && task.description == DescriptionTold(h, retired, id)
    && task.summary == SummaryTold(h, retired, id)
  }

  ghost predicate AllAsTold(tasks: map<TaskId, BackgroundTask>, h: History, retired: set<TaskId>) {
    forall id :: id in tasks ==> IsAsTold(tasks[id], h, retired, id)
  }

  /** The task a message is about, as the turn records it after the message. */
  lemma StartRecorded(t: Turn, retired: set<TaskId>, m: Message)
    requires m.Started? && m.taskId !in retired && m.taskId != ""
    ensures RouteTurn(t, retired, m).tasks == t.tasks[m.taskId := BackgroundTask(InProgress, m.description, "")]
  {
  }

  lemma ProgressRecorded(t: Turn, retired: set<TaskId>, m: Message)
    requires m.Progress? && m.taskId in t.tasks && m.taskId != ""
    ensures var task := t.tasks[m.taskId];
            RouteTurn(t, retired, m).tasks
            == t.tasks[m.taskId := task.(state := InProgress,
                                         description := if |m.description| > 0 then m.description else task.description)]
  {
  }

  lemma NotificationRecorded(t: Turn, retired: set<TaskId>, m: Message)
    requires m.Notification? && m.taskId in t.tasks && m.taskId != ""
    ensures RouteTurn(t, retired, m).tasks
         == t.tasks[m.taskId := t.tasks[m.taskId].(state := StateOfStatus(m.status), summary := m.summary)]
  {
  }

  /** A message is about no task of the turn. */
  predicate Unrelated(h: History, retired: set<TaskId>, m: Message) {
    match m
    case Started(id, _) => id == "" || id in retired
    case Progress(id, _) => id !in Own(h, retired)
    case Notification(id, _, _) => id !in Own(h, retired)
    case _ => true
  }

  lemma UnrelatedRecordsNothing(t: Turn, h: History, retired: set<TaskId>, m: Message)
    requires Follows(t, h, retired) && Unrelated(h, retired, m) && (m.Started? || m.Progress? || m.Notification?)
    ensures RouteTurn(t, retired, m).tasks == t.tasks
  {
  }

  /** It tells nothing about task `id`. */
  lemma ToldOfOthers(h: History, retired: set<TaskId>, m: Message, id: TaskId)
    requires Unrelated(h, retired, m) || m.taskId != id
    ensures var h' := Snoc(h, Route(m));
            && StateTold(h', retired, id) == StateTold(h, retired, id)
            && DescriptionTold(h', retired, id) == DescriptionTold(h, retired, id)
            && SummaryTold(h', retired, id) == SummaryTold(h, retired, id)
  {
  }

  lemma ToldOfTask(task: BackgroundTask, h: History, retired: set<TaskId>, m: Message)
    requires !Unrelated(h, retired, m)
    requires !m.Started? ==> IsAsTold(task, h, retired, m.taskId)
    ensures m.Started? ==> IsAsTold(BackgroundTask(InProgress, m.description, ""), Snoc(h, Route(m)), retired, m.taskId)
    ensures m.Progress? ==>
              IsAsTold(task.(state := InProgress,
                             description := if |m.description| > 0 then m.description else task.description),
                       Snoc(h, Route(m)), retired, m.taskId)
    ensures m.Notification? ==>
              IsAsTold(task.(state := StateOfStatus(m.status), summary := m.summary), Snoc(h, Route(m)), retired, m.taskId)
  {
  }

  lemma RelatedRecorded(t: Turn, h: History, retired: set<TaskId>, m: Message)
    requires Follows(t, h, retired) && !Unrelated(h, retired, m)
    requires m.taskId in t.tasks ==> IsAsTold(t.tasks[m.taskId], h, retired, m.taskId)
    ensures exists task :: RouteTurn(t, retired, m).tasks == t.tasks[m.taskId := task]
                           && IsAsTold(task, Snoc(h, Route(m)), retired, m.taskId)
  {
    OwnIsFresh(h, retired);
    match m
    case Started(_, _) =>
      StartRecorded(t, retired, m);
      ToldOfTask(BackgroundTask(InProgress, "", ""), h, retired, m);
    case Progress(_, _) =>
      ProgressRecorded(t, retired, m);
      ToldOfTask(t.tasks[m.taskId], h, retired, m);
    case Notification(_, _, _) =>
      NotificationRecorded(t, retired, m);
      ToldOfTask(t.tasks[m.taskId], h, retired, m);
  }

  lemma TaskMessageTold(t: Turn, h: History, retired: set<TaskId>, m: Message, id: TaskId)
    requires Follows(t, h, retired) && AllAsTold(t.tasks, h, retired)
    requires m.Started? || m.Progress? || m.Notification?
    requires id in RouteTurn(t, retired, m).tasks
    ensures IsAsTold(RouteTurn(t, retired, m).tasks[id], Snoc(h, Route(m)), retired, id)
  {
    if Unrelated(h, retired, m) {
      UnrelatedRecordsNothing(t, h, retired, m);
      ToldOfOthers(h, retired, m, id);
    } else {
      RelatedRecorded(t, h, retired, m);
      var task :| RouteTurn(t, retired, m).tasks == t.tasks[m.taskId := task]
                  && IsAsTold(task, Snoc(h, Route(m)), retired, m.taskId);
      if id != m.taskId { ToldOfOthers(h, retired, m, id); }
    }
  }

  lemma OtherEventsTellNothing(h: History, retired: set<TaskId>, e: Event, id: TaskId)
    requires e.Route? ==> !e.message.Started? && !e.message.Progress? && !e.message.Notification?
    ensures StateTold(Snoc(h, e), retired, id) == StateTold(h, retired, id)
    ensures DescriptionTold(Snoc(h, e), retired, id) == DescriptionTold(h, retired, id)
    ensures SummaryTold(Snoc(h, e), retired, id) == SummaryTold(h, retired, id)
  {
  }

  lemma OtherEventsChangeNoTask(t: Turn, retired: set<TaskId>, e: Event)
    requires e.Route? ==> !e.message.Started? && !e.message.Progress? && !e.message.Notification?
    requires !TurnStep(t, retired, e).phase.Terminal? && !t.phase.Terminal?
    ensures TurnStep(t, retired, e).tasks == t.tasks
  {
  }

  lemma EventTold(t: Turn, h: History, retired: set<TaskId>, e: Event)
    requires Follows(t, h, retired) && AllAsTold(t.tasks, h, retired) && !TurnStep(t, retired, e).phase.Terminal?
    ensures AllAsTold(TurnStep(t, retired, e).tasks, Snoc(h, e), retired)
  {
    var t' := TurnStep(t, retired, e);
    forall id | id in t'.tasks ensures IsAsTold(t'.tasks[id], Snoc(h, e), retired, id) {
      if e.Route? && (e.message.Started? || e.message.Progress? || e.message.Notification?) {
        TaskMessageTold(t, h, retired, e.message, id);
      } else {
        OtherEventsChangeNoTask(t, retired, e);
        OtherEventsTellNothing(h, retired, e, id);
      }
    }
  }

  /** In every run within the protocol, each task of the live turn is recorded as its messages told. */
  lemma {:induction false} TasksAreAsTold(es: seq<Event>)
    requires InProtocol(es)
    ensures Run(es).live.Some? == BookRun(es).live.Some?
    ensures Run(es).live.Some? ==> AllAsTold(Run(es).live.value.tasks, BookRun(es).live.value, Run(es).retired.ids)
    decreases |es|
  {
    RunMatchesBook(es);
    if es == [] {
    } else {
      var before, e := es[..|es|-1], es[|es|-1];
      assert forall i :: 0 <= i < |before| ==> before[..i] == es[..i];
      TasksAreAsTold(before);
      RunMatchesBook(before);
      StepTold(Run(before), BookRun(before), e);
    }
  }

  lemma StepTold(p: Pump, b: Book, e: Event)
    requires Matches(p, b) && Matches(Step(p, e), BookStep(b, e))
    requires p.live.Some? ==> AllAsTold(p.live.value.tasks, b.live.value, p.retired.ids)
    ensures Step(p, e).live.Some? ==>
              AllAsTold(Step(p, e).live.value.tasks, BookStep(b, e).live.value, Step(p, e).retired.ids)
  {
    if p.live.Some? && !e.Begin? && !e.Close? && Step(p, e).live.Some? {
      assert Retired(b) == p.retired.ids;
      EventTold(p.live.value, b.live.value, p.retired.ids, e);
    }
  }

  // ---------- the turns of a pump ----------

  /** In every run, turn after turn gets the next number. */
  lemma {:induction false} TurnsAreNumbered(es: seq<Event>)
    ensures var p := Run(es);
            && (forall i :: 0 <= i < |p.finished| ==> p.finished[i].id == i + 1)
            && (p.live.Some? ==> p.live.value.id == |p.finished| + 1)
            && p.nextTurnId == |p.finished| + (if p.live.Some? then 2 else 1)
    decreases |es|
  {
    if es == [] {
    } else {
      TurnsAreNumbered(es[..|es|-1]);
      var p, e := Run(es[..|es|-1]), es[|es|-1];
      if p.live.Some? { StepsKeepTheNumber(p.live.value, p.retired.ids, e); }
    }
  }

  lemma RoutingKeepsTheNumber(t: Turn, retired: set<TaskId>, m: Message)
    ensures RouteTurn(t, retired, m).id == t.id
  {
    if m.Notification? && m.taskId in t.tasks { NotificationKeepsTheNumber(t, m); }
  }

  lemma NotificationKeepsTheNumber(t: Turn, m: Message)
    requires m.Notification?
    ensures RouteNotification(t, m).id == t.id
  {
  }

  lemma StepsKeepTheNumber(t: Turn, retired: set<TaskId>, e: Event)
    ensures TurnStep(t, retired, e).id == t.id
  {
    if e.Route? { RoutingKeepsTheNumber(t, retired, e.message); }
  }
}
