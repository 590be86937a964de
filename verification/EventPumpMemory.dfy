/** The bounded memory of retired task ids, as a window over everything that was ever retired. */
module EventPumpMemory {
  import opened EventPump
  import opened Sequences

  function Elements(ids: seq<TaskId>): set<TaskId> {
    set id | id in ids
  }

  /** The most recent `MAX_RETIRED` entries of a log, oldest first. */
  function Window(log: seq<TaskId>): seq<TaskId> {
    if |log| <= MAX_RETIRED then log else log[|log| - MAX_RETIRED..]
  }

  ghost predicate Consistent(m: Memory) {
    NoDuplicates(m.order) && m.ids == Elements(m.order)
  }

  ghost predicate Disjoint(a: seq<TaskId>, b: set<TaskId>) {
    forall id :: id in a ==> id !in b
  }

  lemma {:induction false} RememberFresh(m: Memory, ids: seq<TaskId>)
    requires Consistent(m) && NoDuplicates(ids) && Disjoint(ids, m.ids)
    ensures Consistent(RememberAll(m, ids))
    ensures RememberAll(m, ids).order == m.order + ids
    decreases |ids|
  {
    if ids != [] {
      var m1 := Remember(m, ids[0]);
      assert m1.order == m.order + [ids[0]];
      assert Elements(m1.order) == m1.ids;
      assert forall i :: 0 <= i < |m.order| ==> m.order[i] in m.ids;
      RememberFresh(m1, ids[1..]);
      assert m1.order + ids[1..] == m.order + ids;
    } else {
      assert m.order + ids == m.order;
    }
  }

  lemma ForgetOldest(m: Memory)
    requires Consistent(m) && m.order != []
    ensures Consistent(Memory(m.ids - {m.order[0]}, m.order[1..]))
  {
    var ids, rest := m.ids - {m.order[0]}, m.order[1..];
    forall id ensures id in ids <==> id in rest {
      if id in ids {
        var i :| 0 <= i < |m.order| && m.order[i] == id;
        assert rest[i-1] == id;
      }
    }
  }

  lemma {:induction false} TrimKeepsWindow(m: Memory)
    requires Consistent(m)
    ensures Consistent(Trim(m))
    ensures Trim(m).order == Window(m.order)
    decreases |m.order|
  {
    if |m.order| <= MAX_RETIRED {
    } else {
      ForgetOldest(m);
      TrimKeepsWindow(Memory(m.ids - {m.order[0]}, m.order[1..]));
      OneShorter(m.order);
    }
  }

  lemma OneShorter(log: seq<TaskId>)
    requires |log| > MAX_RETIRED
    ensures Window(log[1..]) == Window(log)
  {
  }

  /** Retiring a turn appends its tasks to the log; the memory stays the window over the log. */
  lemma RetireKeepsWindow(m: Memory, log: seq<TaskId>, ids: seq<TaskId>)
    requires Consistent(m) && m.order == Window(log)
    requires NoDuplicates(ids) && Disjoint(ids, m.ids)
    ensures Consistent(Retire(m, ids))
    ensures Retire(m, ids).order == Window(log + ids)
    ensures |Retire(m, ids).order| <= MAX_RETIRED
  {
    RememberFresh(m, ids);
    TrimKeepsWindow(RememberAll(m, ids));
    assert Window(Window(log) + ids) == Window(log + ids);
  }
}
