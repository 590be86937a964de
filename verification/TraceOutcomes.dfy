/** What the requests to the trace collector do to the envelopes, said of buffer and pending events alone. */
module TraceOutcomes {
  import opened Wrappers
  import opened Sequences
  import opened TraceCollector
  import opened TraceLedger

  // ---------- the envelope of a run ----------

  predicate IsEnvelope(c: Collector, id: Id, session: string, run: string) {
    id in c.buffer && c.buffer[id].session == session && c.buffer[id].run == run
  }

  lemma FindsEnvelope(w: World, id: Id, session: string, run: string)
    requires Buffered(w) && OneSpanPerRun(w.c) && IsEnvelope(w.c, id, session, run)
    ensures FindRun(w.c, w.c.order, session, run) == Some(id)
  {
    FindRunFinds(w.c, w.c.order, session, run);
    assert IsRun(w.c, id, session, run);
    var found := FindRun(w.c, w.c.order, session, run);
    assert found.Some?;
    assert IsRun(w.c, found.value, w.c.buffer[id].session, w.c.buffer[id].run);
  }

  lemma FindsNone(w: World, session: string, run: string)
    requires Buffered(w) && forall id :: !IsEnvelope(w.c, id, session, run)
    ensures FindRun(w.c, w.c.order, session, run).None?
  {
    FindRunFinds(w.c, w.c.order, session, run);
    var found := FindRun(w.c, w.c.order, session, run);
    assert found.Some? ==> IsEnvelope(w.c, found.value, session, run);
  }

  // ---------- finishing a run ----------

  /** The status of a finished run: being abandoned comes before being cancelled, and that before an error. */
  predicate EndsAs(status: Status, error: Option<string>, cancelled: bool, abandoned: bool) {
    && !status.Running?
    && (status.Abandoned? <==> abandoned)
    && (status.Cancelled? <==> cancelled && !abandoned)
    && (status.Failed? <==> !cancelled && !abandoned && error.Some? && |error.value| > 0)
  }

  /** An error is noted up to its first 500 characters. */
  predicate Notes(note: string, status: Status, error: Option<string>) {
    match status
    case Failed => error.Some? && note <= error.value && (|note| == 500 || note == error.value) && |note| <= 500
    case Abandoned => note == "Process lost"
    case Cancelled => note == "Query cancelled"
    case _ => note == ""
  }

  /** Only envelope `id` changed, to `span`, and the change was queued as one event. */
  predicate OnlyEnded(w: World, w': World, id: Id, span: Span) {
    && id in w.c.buffer && w'.c.buffer == w.c.buffer[id := span]
    && IsRevision(w.c.buffer[id], span) && span.sequence == w.c.counter + 1
    && |w'.c.pending| == |w.c.pending| + 1 && w'.c.pending[..|w.c.pending|] == w.c.pending
    && w'.c.pending[|w.c.pending|].span == span && w'.c.pending[|w.c.pending|].action == Ended(span.status)
    && w'.c.order == w.c.order && id in w'.c.dirtyUpdate
    && w'.store == w.store && w'.persisted == w.persisted && w'.inFlight == w.inFlight
  }

  /** Finishing a run ends its running envelope with the outcome that takes precedence, and nothing else. */
  lemma FinishEndsTheEnvelope(
      w: World, session: string, run: string, error: Option<string>, cancelled: bool, abandoned: bool, id: Id)
    requires Inv(w) && OneSpanPerRun(w.c)
    requires IsEnvelope(w.c, id, session, run) && w.c.buffer[id].status.Running?
    ensures var w' := Next(w, Finish(session, run, error, cancelled, abandoned));
            && id in w'.c.buffer && OnlyEnded(w, w', id, w'.c.buffer[id])
            && EndsAs(w'.c.buffer[id].status, error, cancelled, abandoned)
            && Notes(w'.c.buffer[id].note, w'.c.buffer[id].status, error)
  {
    FindsEnvelope(w, id, session, run);
  }

  /** A run without an envelope, or whose envelope has ended, cannot be finished again. */
  lemma FinishElseChangesNothing(
      w: World, session: string, run: string, error: Option<string>, cancelled: bool, abandoned: bool)
    requires Inv(w) && OneSpanPerRun(w.c)
    requires forall id :: IsEnvelope(w.c, id, session, run) ==> !w.c.buffer[id].status.Running?
    ensures Next(w, Finish(session, run, error, cancelled, abandoned)) == w
  {
    assert Changed(w, w.c) == w;
    if id :| IsEnvelope(w.c, id, session, run) {
      FindsEnvelope(w, id, session, run);
    } else {
      FindsNone(w, session, run);
    }
  }

  // ---------- starting a run ----------

  /** One new envelope and the event of its creation, at the end of the buffer and of the pending events. */
  predicate OnlyCreated(w: World, w': World, span: Span) {
    && span.id !in w.c.buffer && w'.c.buffer == w.c.buffer[span.id := span] && w'.c.order == w.c.order + [span.id]
    && |w'.c.pending| == |w.c.pending| + 1 && w'.c.pending[..|w.c.pending|] == w.c.pending
    && w'.c.pending[|w.c.pending|].span == span && w'.c.pending[|w.c.pending|].action == Created
    && span.id in w'.c.dirtyNew
    && w'.store == w.store && w'.persisted == w.persisted && w'.inFlight == w.inFlight
  }

  /** Ensuring a run answers with its envelope when tracing is on. */
  lemma EnsureAnswers(w: World, session: string, run: string, source: Option<string>)
    requires Inv(w) && OneSpanPerRun(w.c)
    ensures var (c', id) := EnsureRun(w.c, session, run, source);
            && c' == Next(w, Ensure(session, run, source)).c
            && (id.Some? <==> w.c.enabled) && (id.Some? ==> IsEnvelope(c', id.value, session, run))
  {
    FindRunFinds(w.c, w.c.order, session, run);
  }

  /** Ensuring a run makes an envelope exactly when tracing is on and the run has none. */
  lemma EnsureMakesTheEnvelope(w: World, session: string, run: string, source: Option<string>)
    requires Inv(w) && OneSpanPerRun(w.c)
    ensures var w' := Next(w, Ensure(session, run, source));
            if w.c.enabled && forall id :: !IsEnvelope(w.c, id, session, run)
            then OnlyCreated(w, w', Span(w.c.nextId, session, run, source, Running, "", w.c.counter + 1, 1))
            else w' == w
  {
    assert Changed(w, w.c) == w;
    if id :| IsEnvelope(w.c, id, session, run) {
      FindsEnvelope(w, id, session, run);
    } else {
      FindsNone(w, session, run);
    }
  }

  // ---------- abandoning a session ----------

  predicate RunsIn(c: Collector, session: string, id: Id) {
    id in c.buffer && c.buffer[id].session == session && c.buffer[id].status.Running?
  }

  /** The running envelopes of the session among `ids`, in order. */
  ghost predicate AreRunning(c: Collector, session: string, ids: seq<Id>, at: seq<nat>, ended: seq<Id>) {
    Filters(ids, at, ended, id => RunsIn(c, session, id))
  }

  /** The envelopes ended are abandoned for the reason given, each with one event, in order; no other changes. */
  ghost predicate AllAbandoned(c: Collector, c': Collector, session: string, reason: string, ended: seq<Id>) {
    && c'.buffer.Keys == c.buffer.Keys
    && (forall id :: id in c.buffer && id !in ended ==> c'.buffer[id] == c.buffer[id])
    && (forall id :: id in c.buffer && id in ended ==>
          && c'.buffer[id].status == Abandoned && c'.buffer[id].note == reason
          && IsRevision(c.buffer[id], c'.buffer[id]))
    && |c'.pending| == |c.pending| + |ended| && c'.pending[..|c.pending|] == c.pending
    && forall k :: 0 <= k < |ended| ==> EndedBy(c', c'.pending[|c.pending|+k], ended[k])
  }

  predicate EndedBy(c': Collector, e: Event, id: Id) {
    id in c'.buffer && e.action == Ended(Abandoned) && e.span == c'.buffer[id]
  }

  lemma RunningSnoc(c: Collector, session: string, ids: seq<Id>, at: seq<nat>, ended: seq<Id>, last: Id)
    requires AreRunning(c, session, ids, at, ended) && last !in ids
    ensures last !in ended
    ensures if RunsIn(c, session, last) then AreRunning(c, session, ids + [last], at + [|ids|], ended + [last])
            else AreRunning(c, session, ids + [last], at, ended)
  {
    FiltersSnoc(ids, at, ended, id => RunsIn(c, session, id), last);
    FiltersKeeps(ids, at, ended, id => RunsIn(c, session, id));
  }

  /** The same, for the envelopes seen first. */
  lemma {:induction false} AbandonsEach(c: Collector, ids: seq<Id>, session: string, reason: string)
    returns (at: seq<nat>, ended: seq<Id>)
    requires NoDuplicates(ids) && forall id :: id in c.buffer ==> c.buffer[id].id == id
    ensures AreRunning(c, session, ids, at, ended)
    ensures AllAbandoned(c, AbandonEach(c, ids, session, reason), session, reason, ended)
    decreases |ids|
  {
    if ids == [] {
      at, ended := [], [];
    } else {
      var front, last := ids[..|ids|-1], ids[|ids|-1];
      AbandonEachSnoc(c, front, last, session, reason);
      at, ended := AbandonsEach(c, front, session, reason);
      assert ids == front + [last];
      RunningSnoc(c, session, front, at, ended, last);
      var c1 := AbandonEach(c, front, session, reason);
      assert RunsIn(c1, session, last) <==> RunsIn(c, session, last);
      if RunsIn(c, session, last) {
        OneMoreAbandoned(c, c1, session, reason, ended, last);
        at, ended := at + [|front|], ended + [last];
      }
    }
  }

  lemma OneMoreAbandoned(c: Collector, c1: Collector, session: string, reason: string, ended: seq<Id>, last: Id)
    requires AllAbandoned(c, c1, session, reason, ended) && last !in ended && last in c.buffer && c.buffer[last].id == last
    ensures AllAbandoned(c, EndSpan(c1, last, Abandoned, reason), session, reason, ended + [last])
  {
    var c' := EndSpan(c1, last, Abandoned, reason);
    forall k | 0 <= k < |ended| + 1 ensures EndedBy(c', c'.pending[|c.pending|+k], (ended + [last])[k]) {
      if k < |ended| {
        assert EndedBy(c1, c1.pending[|c.pending|+k], ended[k]);
        assert ended[k] in ended;
      }
    }
  }

  lemma {:induction false} AbandonEachSnoc(c: Collector, front: seq<Id>, last: Id, session: string, reason: string)
    ensures var c1 := AbandonEach(c, front, session, reason);
            AbandonEach(c, front + [last], session, reason)
            == if RunsIn(c1, session, last) then EndSpan(c1, last, Abandoned, reason) else c1
    decreases |front|
  {
    if front == [] {
      assert front + [last] == [last];
      assert [last][1..] == [];
    } else {
      var c1 := if RunsIn(c, session, front[0]) then EndSpan(c, front[0], Abandoned, reason) else c;
      assert (front + [last])[1..] == front[1..] + [last];
      AbandonEachSnoc(c1, front[1..], last, session, reason);
    }
  }

  /** Abandoning a session ends exactly its running envelopes, in buffer order, for the reason given. */
  lemma AbandonEndsTheSession(w: World, session: string, reason: string) returns (at: seq<nat>, ended: seq<Id>)
    requires Inv(w)
    ensures AreRunning(w.c, session, w.c.order, at, ended)
    ensures forall id :: id in ended <==> RunsIn(w.c, session, id)
    ensures AllAbandoned(w.c, Next(w, AbandonAll(session, reason)).c, session, reason, ended)
  {
    at, ended := AbandonsEach(w.c, w.c.order, session, reason);
    FiltersKeeps(w.c.order, at, ended, id => RunsIn(w.c, session, id));
  }
}
