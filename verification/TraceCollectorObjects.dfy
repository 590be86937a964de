/** The collector object and the store it persists to, changed in place as the code does. */
module TraceCollectorObjects {
  import opened Wrappers
  import opened TraceCollector

  /** The repositories behind one commit: all of a batch is stored, or none of it. */
  class SpanStore {
    var spans: map<Id, Span>
    var events: seq<Event>

    constructor ()
      ensures spans == map[] && events == []
    {
      spans, events := map[], [];
    }

    method Persist(batch: Batch, succeeds: bool)
      modifies this
      ensures spans == (if succeeds then old(spans) + batch.newSpans + batch.updatedSpans else old(spans))
      ensures events == (if succeeds then old(events) + batch.events else old(events))
    {
      if succeeds {
        spans := spans + batch.newSpans;
        spans := spans + batch.updatedSpans;
        events := events + batch.events;
      }
    }
  }

  class TraceCollectorObject {
    const enabled: bool
    var order: seq<Id>
    var buffer: map<Id, Span>
    var dirtyNew: set<Id>
    var dirtyUpdate: set<Id>
    var pendingEvents: seq<Event>
    var lastEventIdBySpan: map<Id, Id>
    var sequenceCounter: nat
    var nextId: Id

    ghost function Value(): Collector
      reads this
    {
      Collector(enabled, order, buffer, dirtyNew, dirtyUpdate, pendingEvents, lastEventIdBySpan, sequenceCounter, nextId)
    }

    /** `order` lists the keys of the buffer. */
    ghost predicate Valid()
      reads this
    {
      forall id :: id in buffer <==> id in order
    }

    constructor (enabled: bool)
      ensures Valid() && Value() == NewCollector(enabled)
    {
      this.enabled := enabled;
      order, buffer, dirtyNew, dirtyUpdate := [], map[], {}, {};
      pendingEvents, lastEventIdBySpan, sequenceCounter, nextId := [], map[], 0, 0;
    }

    method FindRunSpan(session: string, run: string) returns (found: Option<Id>)
      requires Valid()
      ensures found == FindRun(Value(), order, session, run)
      ensures found.Some? ==> found.value in buffer
    {
      for i := 0 to |order|
        invariant FindRun(Value(), order, session, run) == FindRun(Value(), order[i..], session, run)
      {
        var span := buffer[order[i]];
        if span.session == session && span.run == run {
          return Some(order[i]);
        }
        assert order[i..][1..] == order[i+1..];
      }
      return None;
    }

    method EnsureRunSpan(session: string, run: string, source: Option<string>) returns (id: Option<Id>)
      requires Valid()
      modifies this
      ensures Valid() && (Value(), id) == EnsureRun(old(Value()), session, run, source)
    {
      if !enabled {
        return None;
      }
      var existing := FindRunSpan(session, run);
      if existing.Some? {
        return existing;
      }
      sequenceCounter := sequenceCounter + 1;
      var span := Span(nextId, session, run, source, Running, "", sequenceCounter, 1);
      nextId := nextId + 1;
      order := order + [span.id];
      buffer := buffer[span.id := span];
      dirtyNew := dirtyNew + {span.id};
      QueueSpanChange(span, Created);
      return Some(span.id);
    }

    method FinishRunSpan(session: string, run: string, error: Option<string>, cancelled: bool, abandoned: bool)
      requires Valid()
      modifies this
      ensures Valid() && Value() == FinishRun(old(Value()), session, run, error, cancelled, abandoned)
    {
      var found := FindRunSpan(session, run);
      if found.None? || !buffer[found.value].status.Running? {
        return;
      }
      var span := buffer[found.value];
      var status: Status;
      if abandoned {
        status, span := Abandoned, span.(status := Abandoned, note := "Process lost");
      } else if cancelled {
        status, span := Cancelled, span.(status := Cancelled, note := "Query cancelled");
      } else if error.Some? && error.value != "" {
        status, span := Failed, span.(status := Failed, note := Cut(error.value));
      } else {
        status, span := Completed, span.(status := Completed, note := "");
      }
      MarkUpdated(found.value, span, Ended(status));
    }

    method AbandonAll(session: string, reason: string)
      requires Valid()
      modifies this
      ensures Valid() && Value() == AbandonAllRunning(old(Value()), session, reason)
    {
      var ids := order;
      for i := 0 to |ids|
        invariant Valid() && order == ids
        invariant AbandonEach(Value(), ids[i..], session, reason) == AbandonAllRunning(old(Value()), session, reason)
      {
        assert ids[i..][0] == ids[i] && ids[i..][1..] == ids[i+1..];
        var span := buffer[ids[i]];
        if span.session == session && span.status.Running? {
          MarkUpdated(ids[i], span.(status := Abandoned, note := reason), Ended(Abandoned));
        }
      }
    }

    /** Stores the changed span under the next revision and sequence number, and queues the change. */
    method MarkUpdated(id: Id, changed: Span, action: Action)
      requires Valid() && id in buffer
      requires action.Ended? && changed == buffer[id].(status := action.status, note := changed.note)
      modifies this
      ensures Valid() && order == old(order) && Value() == EndSpan(old(Value()), id, action.status, changed.note)
    {
      sequenceCounter := sequenceCounter + 1;
      var span := changed.(revision := changed.revision + 1, sequence := sequenceCounter);
      buffer := buffer[id := span];
      dirtyUpdate := dirtyUpdate + {id};
      QueueSpanChange(span, action);
    }

    method QueueSpanChange(span: Span, action: Action)
      modifies this`pendingEvents, this`lastEventIdBySpan, this`nextId
      ensures Value() == QueueChange(old(Value()), span, action)
    {
      var cause := if span.id in lastEventIdBySpan then Some(lastEventIdBySpan[span.id]) else None;
      var event := Event(nextId, action, span, cause);
      nextId := nextId + 1;
      lastEventIdBySpan := lastEventIdBySpan[span.id := event.id];
      pendingEvents := pendingEvents + [event];
    }

    /** The locked first half of a flush. */
    method TakeForFlush() returns (batch: Batch)
      modifies this`dirtyNew, this`dirtyUpdate, this`pendingEvents
      ensures (Value(), batch) == TakeBatch(old(Value()))
    {
      batch := Batch(Pick(buffer, dirtyNew), Pick(buffer, dirtyUpdate - dirtyNew), pendingEvents);
      dirtyNew := {};
      dirtyUpdate := {};
      pendingEvents := [];
    }

    /** The locked second half of a flush that failed. */
    method RestoreAfterFailure(batch: Batch)
      modifies this`dirtyNew, this`dirtyUpdate, this`pendingEvents
      ensures Value() == RestoreBatch(old(Value()), batch)
    {
      dirtyNew := dirtyNew + batch.newSpans.Keys;
      dirtyUpdate := dirtyUpdate + batch.updatedSpans.Keys;
      pendingEvents := batch.events + pendingEvents;
    }

    /** A flush during which nothing else changes the buffer. */
    method Flush(store: SpanStore, succeeds: bool)
      modifies this`dirtyNew, this`dirtyUpdate, this`pendingEvents, store
      ensures var (taken, batch) := TakeBatch(old(Value()));
              && Value() == (if Clean(old(Value())) then old(Value())
                             else if succeeds then taken else RestoreBatch(taken, batch))
              && (if succeeds && !Clean(old(Value())) then
                    store.spans == old(store.spans) + batch.newSpans + batch.updatedSpans
                    && store.events == old(store.events) + batch.events
                  else store.spans == old(store.spans) && store.events == old(store.events))
    {
      if dirtyNew == {} && dirtyUpdate == {} && pendingEvents == [] {
        return;
      }
      var batch := TakeForFlush();
      store.Persist(batch, succeeds);
      if !succeeds {
        RestoreAfterFailure(batch);
      }
    }
  }
}
