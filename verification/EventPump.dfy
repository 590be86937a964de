/**
 The event pump of one persistent agent connection, on values.

 A turn is a six-phase state machine over the messages routed to it, its three timers and the
 calls made on it.  Every body of the pump runs under one lock, so each message, timer firing and
 call is one atomic `Step`.  The classes of `EventPumpObjects` do the same work in place and are
 proved equal to these functions; `EventPumpHistory` says what the functions mean.
 */
module EventPump {
  import opened Wrappers

  type TaskId = string

  datatype Phase =
    | Streaming
    | SettlingResult
    | WaitingBackground
    | AwaitingFinalResult
    | Interrupted
    | Terminal

  datatype TaskState = InProgress | Completed | Failed | Stopped

  datatype BackgroundTask = BackgroundTask(state: TaskState, description: string, summary: string)

  /** What the connection delivers, and the two dictionaries the pump makes itself on a timeout. */
  datatype Message =
    | Started(taskId: TaskId, description: string)
    | Progress(taskId: TaskId, description: string)
    | Notification(taskId: TaskId, status: string, summary: string)
    | ResultObject(isError: bool, text: string)
    | ResultDict(errorKey: bool, text: string)
    | StateMarker(state: string)
    | FailedNotice(taskId: TaskId, summary: string)
    | Other(payload: string)

  datatype PumpError = ConnectionClosed | StreamEnded | ReaderFailed(detail: string) | Cancelled | Reported(detail: string)

  datatype Envelope = Item(message: Message) | Error(error: PumpError) | End

  /** A timer field is empty, holds a pending timer, or still holds one whose body has run. */
  datatype Timer = NoTimer | Armed | Expired

  const TIMEOUT_SUMMARY: string := "Background task timed out before reporting completion."
  const TIMEOUT_RESULT: Message := ResultDict(true, "Claude background task timed out.")
  const MAX_RETIRED: nat := 1000

  datatype Turn = Turn(
    id: nat,
    phase: Phase,
    order: seq<TaskId>,                  // keys of `tasks` in insertion order
    tasks: map<TaskId, BackgroundTask>,
    deferred: Option<Message>,
    hadBackground: bool,
    interrupted: bool,
    queue: seq<Envelope>,
    settle: Timer,
    completion: Timer,
    background: Timer)

  /** The bounded memory of task ids that belonged to earlier turns. */
  datatype Memory = Memory(ids: set<TaskId>, order: seq<TaskId>)

  datatype Pump = Pump(
    live: Option<Turn>,
    nextTurnId: nat,
    closed: bool,
    retired: Memory,
    finished: seq<Turn>)                 // turns that reached their end, in order

  datatype Event =
    | Begin
    | Route(message: Message)
    | Interrupt
    | SettleFires
    | CompletionFires
    | BackgroundFires
    | Fail(error: PumpError)
    | Close

  // ---------- tasks ----------

  function NewTurn(id: nat): Turn {
    Turn(id, Streaming, [], map[], None, false, false, [], NoTimer, NoTimer, NoTimer)
  }

  function Running(tasks: map<TaskId, BackgroundTask>): set<TaskId> {
    set id | id in tasks && tasks[id].state.InProgress?
  }

  function Active(t: Turn): set<TaskId> {
    Running(t.tasks)
  }

  /** The members of `keep`, in the order of `ids`. */
  function Select(ids: seq<TaskId>, keep: set<TaskId>): seq<TaskId> {
    if ids == [] then []
    else (if ids[0] in keep then [ids[0]] else []) + Select(ids[1..], keep)
  }

  lemma {:induction false} SelectSnoc(ids: seq<TaskId>, last: TaskId, keep: set<TaskId>)
    ensures Select(ids + [last], keep) == Select(ids, keep) + (if last in keep then [last] else [])
  {
    if ids == [] {
      assert ids + [last] == [last];
    } else {
      assert (ids + [last])[1..] == ids[1..] + [last];
      SelectSnoc(ids[1..], last, keep);
    }
  }

  /** Ids of the running tasks, in the order in which the tasks were first seen. */
  function ActiveIds(t: Turn): seq<TaskId> {
    Select(t.order, Active(t))
  }

  function PutTask(t: Turn, id: TaskId, task: BackgroundTask): Turn {
    t.(tasks := t.tasks[id := task], order := if id in t.order then t.order else t.order + [id])
  }

  /** Any status string outside the four known ones counts as a failure. */
  function StateOfStatus(status: string): TaskState {
    if status == "running" then InProgress
    else if status == "completed" then Completed
    else if status == "stopped" then Stopped
    else Failed
  }

  predicate IsResult(m: Message) {
    m.ResultObject? || m.ResultDict?
  }

  /** The error flag is an attribute, so a dictionary result never shows one. */
  predicate SeenError(m: Message) {
    m.ResultObject? && m.isError
  }

  // ---------- timers and phases ----------

  function CancelResultTimers(t: Turn): Turn {
    t.(settle := NoTimer, completion := NoTimer)
  }

  function CancelAllTimers(t: Turn): Turn {
    CancelResultTimers(t).(background := NoTimer)
  }

  function ArmBackground(t: Turn): Turn {
    if t.background.NoTimer? then t.(background := Armed) else t
  }

  function WaitIfDeferred(t: Turn): Turn {
    if t.deferred.Some? then t.(phase := WaitingBackground) else t
  }

  function Emit(t: Turn, m: Message): Turn {
    t.(queue := t.queue + [Item(m)])
  }

  function EmitAll(t: Turn, ms: seq<Message>): Turn {
    t.(queue := t.queue + Items(ms))
  }

  function Items(ms: seq<Message>): (r: seq<Envelope>)
    ensures |r| == |ms|
    ensures forall i :: 0 <= i < |ms| ==> r[i] == Item(ms[i])
  {
    seq(|ms|, i requires 0 <= i < |ms| => Item(ms[i]))
  }

  function Finalize(t: Turn, result: Message): Turn {
    CancelAllTimers(t).(queue := t.queue + [Item(result), End], phase := Terminal)
  }

  function FailTurn(t: Turn, error: PumpError): Turn {
    CancelAllTimers(t).(queue := t.queue + [Error(error)], phase := Terminal)
  }

  // ---------- routing one message to the live turn ----------

  function RecordStarted(t: Turn, id: TaskId, description: string): Turn {
    if id == "" then t
    else
      var t1 := CancelResultTimers(t.(hadBackground := true));
      ArmBackground(WaitIfDeferred(PutTask(t1, id, BackgroundTask(InProgress, description, ""))))
  }

  function RecordProgress(t: Turn, id: TaskId, description: string): Turn {
    if id == "" then t
    else
      var t1 := CancelResultTimers(t.(hadBackground := true));
      var task := if id in t.tasks then t.tasks[id] else BackgroundTask(InProgress, "", "");
      var task' := task.(state := InProgress, description := if description != "" then description else task.description);
      ArmBackground(WaitIfDeferred(PutTask(t1, id, task')))
  }

  function RecordNotification(t: Turn, id: TaskId, status: string, summary: string): Turn {
    if id == "" then t
    else
      var t1 := CancelResultTimers(t.(hadBackground := true));
      var task := if id in t.tasks then t.tasks[id] else BackgroundTask(InProgress, "", "");
      var t2 := PutTask(t1, id, task.(state := StateOfStatus(status), summary := summary));
      if Active(t2) == {} then t2.(background := NoTimer) else t2
  }

  function RecordResult(t: Turn, m: Message): Turn {
    if SeenError(m) || t.interrupted then Finalize(t, m)
    else if Active(t) != {} then ArmBackground(t.(deferred := Some(m), phase := WaitingBackground))
    else if t.hadBackground then Finalize(t, m)
    else t.(deferred := Some(m), phase := SettlingResult, settle := Armed)
  }

  function RouteNotification(t: Turn, m: Message): Turn
    requires m.Notification?
  {
    var t1 := Emit(RecordNotification(t, m.taskId, m.status, m.summary), m);
    if Active(t1) == {} && t1.deferred.Some? then
      t1.(phase := AwaitingFinalResult, completion := Armed)
    else t1
  }

  function RouteOther(t: Turn, m: Message): Turn {
    if t.phase.SettlingResult? then
      Emit(t.(settle := NoTimer, phase := AwaitingFinalResult, completion := Armed), m)
    else if t.phase.AwaitingFinalResult? then
      Emit(t.(completion := Armed), m)
    else Emit(t, m)
  }

  function RouteTurn(t: Turn, retired: set<TaskId>, m: Message): Turn {
    if m.StateMarker? && t.phase.SettlingResult? then t
    else match m
      case Started(id, description) =>
        if id in retired then t else Emit(RecordStarted(t, id, description), m)
      case Progress(id, description) =>
        if id !in t.tasks then t else Emit(RecordProgress(t, id, description), m)
      case Notification(id, _, _) =>
        if id !in t.tasks then t else RouteNotification(t, m)
      case ResultObject(_, _) => RecordResult(t, m)
      case ResultDict(_, _) => RecordResult(t, m)
      case _ => RouteOther(t, m)
  }

  // ---------- timers ----------

  function DeferredTimerFires(t: Turn, expected: Phase): Turn {
    if t.phase != expected || t.deferred.None? || Active(t) != {} then t
    else Finalize(t, t.deferred.value)
  }

  function FailTasks(tasks: map<TaskId, BackgroundTask>, ids: seq<TaskId>): map<TaskId, BackgroundTask> {
    map id | id in tasks ::
      if id in ids then tasks[id].(state := Failed, summary := TIMEOUT_SUMMARY) else tasks[id]
  }

  function Notices(ids: seq<TaskId>): (r: seq<Message>)
    ensures |r| == |ids|
  {
    seq(|ids|, i requires 0 <= i < |ids| => FailedNotice(ids[i], TIMEOUT_SUMMARY))
  }

  function BackgroundTimerFires(t: Turn): Turn {
    if Active(t) == {} then t
    else
      var ids := ActiveIds(t);
      Finalize(EmitAll(t.(tasks := FailTasks(t.tasks, ids)), Notices(ids)), TIMEOUT_RESULT)
  }

  /** One event seen by a live turn.  A timer event acts only while that timer is pending. */
  function TurnStep(t: Turn, retired: set<TaskId>, e: Event): Turn {
    match e
    case Route(m) => RouteTurn(t, retired, m)
    case Interrupt => t.(interrupted := true, phase := Interrupted)
    case SettleFires => if t.settle.Armed? then DeferredTimerFires(t.(settle := Expired), SettlingResult) else t
    case CompletionFires => if t.completion.Armed? then DeferredTimerFires(t.(completion := Expired), AwaitingFinalResult) else t
    case BackgroundFires => if t.background.Armed? then BackgroundTimerFires(t.(background := Expired)) else t
    case Fail(error) => FailTurn(t, error)
    case Close => FailTurn(t, ConnectionClosed)
    case Begin => t
  }

  // ---------- the retired-task memory ----------

  function Remember(m: Memory, id: TaskId): Memory {
    if id in m.ids then m else Memory(m.ids + {id}, m.order + [id])
  }

  function RememberAll(m: Memory, ids: seq<TaskId>): Memory
    decreases |ids|
  {
    if ids == [] then m else RememberAll(Remember(m, ids[0]), ids[1..])
  }

  function Trim(m: Memory): Memory
    decreases |m.order|
  {
    if |m.order| <= MAX_RETIRED then m
    else Trim(Memory(m.ids - {m.order[0]}, m.order[1..]))
  }

  function Retire(m: Memory, ids: seq<TaskId>): Memory {
    Trim(RememberAll(m, ids))
  }

  // ---------- the pump ----------

  function NewPump(): Pump {
    Pump(None, 1, false, Memory({}, []), [])
  }

  /** Stores the live turn back; a turn that became terminal is retired and released. */
  function Settle(p: Pump, t: Turn): Pump {
    if t.phase.Terminal? then
      p.(live := None, retired := Retire(p.retired, t.order), finished := p.finished + [t])
    else p.(live := Some(t))
  }

  /** One atomic step of the pump.  A rejected `Begin` raises in the code and changes nothing. */
  function Step(p: Pump, e: Event): Pump {
    match e
    case Begin =>
      if p.closed || p.live.Some? then p
      else p.(live := Some(NewTurn(p.nextTurnId)), nextTurnId := p.nextTurnId + 1)
    case Close =>
      if p.closed then p
      else
        var p1 := p.(closed := true);
        if p.live.Some? then Settle(p1, TurnStep(p.live.value, p.retired.ids, e)) else p1
    case _ =>
      if p.live.Some? then Settle(p, TurnStep(p.live.value, p.retired.ids, e)) else p
  }

  function Run(es: seq<Event>): Pump
  {
    if es == [] then NewPump() else Step(Run(es[..|es|-1]), es[|es|-1])
  }
}
