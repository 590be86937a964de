/**
 The write-behind buffer of run envelopes: spans created and ended in memory, with two sets of dirty
 ids and a list of ledger events that a flusher persists outside the lock.

 `Collector` is the value of the buffer; `World` adds what a flusher has taken, what the store holds
 and, as history, every event ever queued.
 */
module TraceCollector {
  import opened Wrappers

  type Id = nat      // span and event identifiers; the code draws them at random and never twice

  datatype Status = Running | Completed | Failed | Cancelled | Abandoned

  datatype Action = Created | Ended(status: Status)

  datatype Span = Span(
    id: Id,
    session: string,
    run: string,
    source: Option<string>,
    status: Status,
    note: string,              // the error, or the reason of a cancellation or abandonment
    sequence: nat,
    revision: nat)

  /** A ledger event carries a copy of its span. */
  datatype Event = Event(id: Id, action: Action, span: Span, causation: Option<Id>)

  datatype Batch = Batch(newSpans: map<Id, Span>, updatedSpans: map<Id, Span>, events: seq<Event>)

  datatype Collector = Collector(
    enabled: bool,
    order: seq<Id>,            // keys of `buffer` in insertion order
    buffer: map<Id, Span>,
    dirtyNew: set<Id>,
    dirtyUpdate: set<Id>,
    pending: seq<Event>,
    lastEvent: map<Id, Id>,    // by span
    counter: nat,
    nextId: Id)

  const MAX_ERROR: nat := 500

  function NewCollector(enabled: bool): Collector {
    Collector(enabled, [], map[], {}, {}, [], map[], 0, 0)
  }

  predicate IsRun(c: Collector, id: Id, session: string, run: string) {
    id in c.buffer && c.buffer[id].session == session && c.buffer[id].run == run
  }

  /** The first buffered span of a run. */
  function FindRun(c: Collector, ids: seq<Id>, session: string, run: string): Option<Id> {
    if ids == [] then None
    else if IsRun(c, ids[0], session, run) then Some(ids[0])
    else FindRun(c, ids[1..], session, run)
  }

  function LastEvent(c: Collector, span: Id): Option<Id> {
    if span in c.lastEvent then Some(c.lastEvent[span]) else None
  }

  /** The event that queueing `span` makes. */
  function MakeEvent(c: Collector, span: Span, action: Action): Event {
    Event(c.nextId, action, span, LastEvent(c, span.id))
  }

  function QueueChange(c: Collector, span: Span, action: Action): Collector {
    c.(lastEvent := c.lastEvent[span.id := c.nextId],
       pending := c.pending + [MakeEvent(c, span, action)],
       nextId := c.nextId + 1)
  }

  function CreateSpan(c: Collector, session: string, run: string, source: Option<string>): Collector {
    var span := Span(c.nextId, session, run, source, Running, "", c.counter + 1, 1);
    var c1 := c.(counter := c.counter + 1, nextId := c.nextId + 1,
                 order := c.order + [span.id], buffer := c.buffer[span.id := span],
                 dirtyNew := c.dirtyNew + {span.id});
    QueueChange(c1, span, Created)
  }

  function EnsureRun(c: Collector, session: string, run: string, source: Option<string>): (Collector, Option<Id>) {
    if !c.enabled then (c, None)
    else
      var found := FindRun(c, c.order, session, run);
      if found.Some? then (c, found) else (CreateSpan(c, session, run, source), Some(c.nextId))
  }

  /** Ends a running span in the buffer and queues the change. */
  function EndSpan(c: Collector, id: Id, status: Status, note: string): Collector
    requires id in c.buffer
  {
    var span := c.buffer[id].(status := status, note := note,
                              revision := c.buffer[id].revision + 1, sequence := c.counter + 1);
    var c1 := c.(counter := c.counter + 1, buffer := c.buffer[id := span], dirtyUpdate := c.dirtyUpdate + {id});
    QueueChange(c1, span, Ended(status))
  }

  function Cut(s: string): string {
    if |s| <= MAX_ERROR then s else s[..MAX_ERROR]
  }

  function Outcome(error: Option<string>, cancelled: bool, abandoned: bool): (Status, string) {
    if abandoned then (Abandoned, "Process lost")
    else if cancelled then (Cancelled, "Query cancelled")
    else if error.Some? && error.value != "" then (Failed, Cut(error.value))
    else (Completed, "")
  }

  function FinishRun(c: Collector, session: string, run: string, error: Option<string>, cancelled: bool, abandoned: bool): Collector {
    var found := FindRun(c, c.order, session, run);
    if found.None? || found.value !in c.buffer || !c.buffer[found.value].status.Running? then c
    else
      var (status, note) := Outcome(error, cancelled, abandoned);
      EndSpan(c, found.value, status, note)
  }

  function AbandonEach(c: Collector, ids: seq<Id>, session: string, reason: string): Collector
    decreases |ids|
  {
    if ids == [] then c
    else
      var c1 :=
        if ids[0] in c.buffer && c.buffer[ids[0]].session == session && c.buffer[ids[0]].status.Running?
        then EndSpan(c, ids[0], Abandoned, reason) else c;
      AbandonEach(c1, ids[1..], session, reason)
  }

  function AbandonAllRunning(c: Collector, session: string, reason: string): Collector {
    AbandonEach(c, c.order, session, reason)
  }

  // ---------- flushing ----------

  predicate Clean(c: Collector) {
    c.dirtyNew == {} && c.dirtyUpdate == {} && c.pending == []
  }

  function Pick(buffer: map<Id, Span>, ids: set<Id>): map<Id, Span> {
    map id | id in ids && id in buffer :: buffer[id]
  }

  function TakeBatch(c: Collector): (Collector, Batch) {
    (c.(dirtyNew := {}, dirtyUpdate := {}, pending := []),
     Batch(Pick(c.buffer, c.dirtyNew), Pick(c.buffer, c.dirtyUpdate - c.dirtyNew), c.pending))
  }

  function RestoreBatch(c: Collector, b: Batch): Collector {
    c.(dirtyNew := c.dirtyNew + b.newSpans.Keys,
       dirtyUpdate := c.dirtyUpdate + b.updatedSpans.Keys,
       pending := b.events + c.pending)
  }

  // ---------- the world around the buffer ----------

  datatype World = World(
    c: Collector,
    inFlight: Option<Batch>,
    store: map<Id, Span>,
    persisted: seq<Event>,
    history: seq<Event>)

  datatype Step =
    | Ensure(session: string, run: string, source: Option<string>)
    | Finish(session: string, run: string, error: Option<string>, cancelled: bool, abandoned: bool)
    | AbandonAll(session: string, reason: string)
    | Take
    | Commit
    | FailFlush

  function NewWorld(enabled: bool): World {
    World(NewCollector(enabled), None, map[], [], [])
  }

  /** The world after the buffer changed: what was appended to the pending list joins the history. */
  function Changed(w: World, c: Collector): World
    requires |c.pending| >= |w.c.pending|
  {
    w.(c := c, history := w.history + c.pending[|w.c.pending|..])
  }

  lemma {:induction false} AbandonAppends(c: Collector, ids: seq<Id>, session: string, reason: string)
    ensures c.pending <= AbandonEach(c, ids, session, reason).pending
    decreases |ids|
  {
    if ids == [] {
    } else {
      var c1 :=
        if ids[0] in c.buffer && c.buffer[ids[0]].session == session && c.buffer[ids[0]].status.Running?
        then EndSpan(c, ids[0], Abandoned, reason) else c;
      AbandonAppends(c1, ids[1..], session, reason);
    }
  }

  /** One flusher: a batch is taken only when none is in flight and there is something to flush. */
  predicate Enabled(w: World, st: Step) {
    match st
    case Take => w.inFlight.None? && !Clean(w.c)
    case Commit => w.inFlight.Some?
    case FailFlush => w.inFlight.Some?
    case _ => true
  }

  function Next(w: World, st: Step): World
    requires Enabled(w, st)
  {
    match st
    case Ensure(session, run, source) => Changed(w, EnsureRun(w.c, session, run, source).0)
    case Finish(session, run, error, cancelled, abandoned) =>
      Changed(w, FinishRun(w.c, session, run, error, cancelled, abandoned))
    case AbandonAll(session, reason) =>
      AbandonAppends(w.c, w.c.order, session, reason);
      Changed(w, AbandonAllRunning(w.c, session, reason))
    case Take =>
      var (c, b) := TakeBatch(w.c);
      w.(c := c, inFlight := Some(b))
    case Commit =>
      var b := w.inFlight.value;
      w.(inFlight := None, store := w.store + b.newSpans + b.updatedSpans, persisted := w.persisted + b.events)
    case FailFlush =>
      w.(inFlight := None, c := RestoreBatch(w.c, w.inFlight.value))
  }

  ghost predicate IsRunOf(worlds: seq<World>, steps: seq<Step>, enabled: bool) {
    && |worlds| == |steps| + 1 && worlds[0] == NewWorld(enabled)
    && forall i :: 0 <= i < |steps| ==> Enabled(worlds[i], steps[i]) && worlds[i+1] == Next(worlds[i], steps[i])
  }
}
