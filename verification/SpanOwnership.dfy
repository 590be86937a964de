/**
 Which spans are the direct work of which agent, over parent links that may be missing or cyclic.

 `Path` says what it means to climb parent links; `Walk` and `Climbs` are the climbs of the code with
 their visited sets, and the lemmas prove them to find exactly what the paths say.
 */
module SpanOwnership {
  import opened Wrappers
  import opened Sequences

  datatype SpanId = SpanId(text: string)

  datatype Kind = LlmTurn | ToolCall | Agent | Subagent | OtherKind

  datatype Span = Span(id: SpanId, parent: Option<SpanId>, kind: Kind, fromOtel: bool)

  type Index = map<SpanId, Span>

  /** An absent or empty parent id stops a climb. */
  predicate Names(p: Option<SpanId>) {
    p.Some? && p.value.text != ""
  }

  /** Spans by id; the last span wins if an id repeats. */
  function ById(spans: seq<Span>): Index {
    if spans == [] then map[] else ById(spans[..|spans|-1])[spans[|spans|-1].id := spans[|spans|-1]]
  }

  // ---------- climbing, as a relation ----------

  /** The parent link `p` leads to `id`; an empty id is no link. */
  predicate LeadsTo(p: Option<SpanId>, id: SpanId) {
    p == Some(id) && id.text != ""
  }

  /** `path` climbs from the parent link `p`: each id but the last is known and links to the next. */
  ghost predicate Path(byId: Index, p: Option<SpanId>, path: seq<SpanId>) {
    && path != [] && LeadsTo(p, path[0])
    && forall i :: 0 <= i < |path| - 1 ==> path[i] in byId && LeadsTo(byId[path[i]].parent, path[i+1])
  }

  ghost predicate PathTo(byId: Index, p: Option<SpanId>, target: SpanId, path: seq<SpanId>) {
    Path(byId, p, path) && path[|path|-1] == target
  }

  predicate IsSubagent(byId: Index, id: SpanId) {
    id in byId && byId[id].kind.Subagent?
  }

  /** The path ends at a subagent and passes none before it. */
  ghost predicate PathToNearest(byId: Index, p: Option<SpanId>, agent: SpanId, path: seq<SpanId>) {
    && PathTo(byId, p, agent, path) && IsSubagent(byId, agent)
    && forall i :: 0 <= i < |path| - 1 ==> !IsSubagent(byId, path[i])
  }

  ghost predicate Nearest(byId: Index, p: Option<SpanId>, agent: SpanId) {
    exists path :: PathToNearest(byId, p, agent, path)
  }

  ghost predicate Reaches(byId: Index, p: Option<SpanId>, target: SpanId) {
    exists path :: PathTo(byId, p, target, path)
  }

  lemma PathTail(byId: Index, p: Option<SpanId>, path: seq<SpanId>)
    requires Path(byId, p, path) && |path| > 1
    ensures p.value in byId && Path(byId, byId[p.value].parent, path[1..])
  {
    assert path[0] in byId && LeadsTo(byId[path[0]].parent, path[1]);
  }

  lemma PathPrepend(byId: Index, p: Option<SpanId>, path: seq<SpanId>)
    requires Names(p) && p.value in byId && Path(byId, byId[p.value].parent, path)
    ensures Path(byId, p, [p.value] + path)
  {
    var longer := [p.value] + path;
    forall i | 0 <= i < |longer| - 1
      ensures longer[i] in byId && LeadsTo(byId[longer[i]].parent, longer[i+1])
    {
      if i > 0 { assert longer[i] == path[i-1] && longer[i+1] == path[i]; }
    }
  }

  // ---------- climbing with a visited set ----------

  /** The nearest subagent at or above the parent link `p`. */
  function Walk(byId: Index, p: Option<SpanId>, visited: set<SpanId>): Option<SpanId>
    decreases byId.Keys - visited
  {
    if !Names(p) || p.value in visited || p.value !in byId then None
    else if byId[p.value].kind.Subagent? then Some(p.value)
    else Walk(byId, byId[p.value].parent, visited + {p.value})
  }

  /** Does a climb from the parent link `p` meet `target`? */
  predicate Climbs(byId: Index, p: Option<SpanId>, target: SpanId, visited: set<SpanId>)
    decreases byId.Keys - visited
  {
    if !Names(p) || p.value in visited then false
    else if p.value == target then true
    else if p.value !in byId then false
    else Climbs(byId, byId[p.value].parent, target, visited + {p.value})
  }

  lemma {:induction false} WalkIsSound(byId: Index, p: Option<SpanId>, visited: set<SpanId>)
    ensures Walk(byId, p, visited).Some? ==> Nearest(byId, p, Walk(byId, p, visited).value)
    decreases byId.Keys - visited
  {
    if Walk(byId, p, visited).None? {
    } else {
      var agent := Walk(byId, p, visited).value;
      if byId[p.value].kind.Subagent? {
        assert PathToNearest(byId, p, agent, [p.value]);
      } else {
        WalkIsSound(byId, byId[p.value].parent, visited + {p.value});
        var path :| PathToNearest(byId, byId[p.value].parent, agent, path);
        PathPrepend(byId, p, path);
        var longer := [p.value] + path;
        forall i | 0 <= i < |longer| - 1 ensures !IsSubagent(byId, longer[i]) {
          if i > 0 { assert longer[i] == path[i-1]; }
        }
        assert PathToNearest(byId, p, agent, longer);
      }
    }
  }

  lemma {:induction false} ClimbIsSound(byId: Index, p: Option<SpanId>, target: SpanId, visited: set<SpanId>)
    ensures Climbs(byId, p, target, visited) ==> Reaches(byId, p, target)
    decreases byId.Keys - visited
  {
    if !Climbs(byId, p, target, visited) {
    } else {
      if p.value == target {
        assert PathTo(byId, p, target, [p.value]);
      } else {
        ClimbIsSound(byId, byId[p.value].parent, target, visited + {p.value});
        var path :| PathTo(byId, byId[p.value].parent, target, path);
        PathPrepend(byId, p, path);
        assert PathTo(byId, p, target, [p.value] + path);
      }
    }
  }

  /** The ids passed so far link only to one another and to the id the climb stands at. */
  ghost predicate ClosedUpTo(byId: Index, visited: set<SpanId>, p: Option<SpanId>) {
    forall v :: v in visited ==>
      v in byId && (Names(byId[v].parent) ==> byId[v].parent.value in visited || byId[v].parent == p)
  }

  /** Once a climb stands at an id it passed before, it can never leave the ids it passed. */
  lemma {:induction false} StaysInside(byId: Index, visited: set<SpanId>, p: Option<SpanId>, q: Option<SpanId>, path: seq<SpanId>)
    requires ClosedUpTo(byId, visited, p) && Names(p) && p.value in visited
    requires Path(byId, q, path) && q.value in visited
    ensures forall i :: 0 <= i < |path| ==> path[i] in visited
    decreases |path|
  {
    if |path| == 1 {
    } else {
      PathTail(byId, q, path);
      StaysInside(byId, visited, p, byId[q.value].parent, path[1..]);
      forall i | 0 <= i < |path| ensures path[i] in visited {
        if i > 0 { assert path[i] == path[1..][i-1]; }
      }
    }
  }

  lemma {:induction false} WalkIsComplete(byId: Index, p: Option<SpanId>, visited: set<SpanId>, agent: SpanId, path: seq<SpanId>)
    requires PathToNearest(byId, p, agent, path)
    requires ClosedUpTo(byId, visited, p)
    requires forall v :: v in visited ==> !IsSubagent(byId, v)
    ensures Walk(byId, p, visited) == Some(agent)
    decreases |path|
  {
    if p.value in visited {
      StaysInside(byId, visited, p, p, path);
    } else if |path| > 1 {
      PathTail(byId, p, path);
      assert !IsSubagent(byId, path[0]);
      var rest := path[1..];
      forall i | 0 <= i < |rest| - 1 ensures !IsSubagent(byId, rest[i]) {
        assert rest[i] == path[i+1];
      }
      assert rest[|rest|-1] == path[|path|-1];
      WalkIsComplete(byId, byId[p.value].parent, visited + {p.value}, agent, rest);
    }
  }

  lemma {:induction false} ClimbIsComplete(byId: Index, p: Option<SpanId>, target: SpanId, visited: set<SpanId>, path: seq<SpanId>)
    requires PathTo(byId, p, target, path)
    requires ClosedUpTo(byId, visited, p) && target !in visited
    ensures Climbs(byId, p, target, visited)
    decreases |path|
  {
    if p.value in visited {
      StaysInside(byId, visited, p, p, path);
    } else if p.value != target {
      PathTail(byId, p, path);
      assert path[1..][|path|-2] == path[|path|-1];
      ClimbIsComplete(byId, byId[p.value].parent, target, visited + {p.value}, path[1..]);
    }
  }

  /** The visited-set walk computes the nearest subagent ancestor, cycles or not. */
  lemma WalkFindsNearest(byId: Index, p: Option<SpanId>, agent: SpanId)
    ensures Walk(byId, p, {}) == Some(agent) <==> Nearest(byId, p, agent)
  {
    WalkIsSound(byId, p, {});
    if Nearest(byId, p, agent) {
      var path :| PathToNearest(byId, p, agent, path);
      WalkIsComplete(byId, p, {}, agent, path);
    }
  }

  lemma ClimbFindsTarget(byId: Index, p: Option<SpanId>, target: SpanId)
    ensures Climbs(byId, p, target, {}) <==> Reaches(byId, p, target)
  {
    ClimbIsSound(byId, p, target, {});
    if Reaches(byId, p, target) {
      var path :| PathTo(byId, p, target, path);
      ClimbIsComplete(byId, p, target, {}, path);
    }
  }

  // ---------- ownership ----------

  /** An agent whose span is a tool call of the native telemetry owns all its descendants. */
  predicate OwnsDescendants(agent: Option<Span>) {
    agent.Some? && agent.value.kind.ToolCall? && agent.value.fromOtel
  }

  function OwnerId(agent: Option<Span>): Option<SpanId> {
    if agent.Some? && agent.value.kind.Subagent? then Some(agent.value.id) else None
  }

  predicate IsWork(byId: Index, agent: Option<Span>, c: Span) {
    && (agent.Some? ==> c.id != agent.value.id)
    && (if OwnsDescendants(agent) then Climbs(byId, c.parent, agent.value.id, {})
        else Walk(byId, c.parent, {}) == OwnerId(agent))
  }

  function WorkOf(byId: Index, agent: Option<Span>, spans: seq<Span>): seq<Span> {
    if spans == [] then []
    else
      var last := spans[|spans|-1];
      WorkOf(byId, agent, spans[..|spans|-1]) + (if IsWork(byId, agent, last) then [last] else [])
  }

  function Head(agent: Option<Span>): seq<Span> {
    if agent.Some? then [agent.value] else []
  }

  lemma {:induction false} WorkMembers(byId: Index, agent: Option<Span>, spans: seq<Span>)
    ensures forall c :: c in WorkOf(byId, agent, spans) <==> c in spans && IsWork(byId, agent, c)
  {
    if spans == [] {
    } else {
      WorkMembers(byId, agent, spans[..|spans|-1]);
      assert spans == spans[..|spans|-1] + [spans[|spans|-1]];
    }
  }

  /** The index as the code builds it. */
  method BuildIndex(spans: seq<Span>) returns (byId: Index)
    ensures byId == ById(spans)
  {
    byId := map[];
    for i := 0 to |spans|
      invariant byId == ById(spans[..i])
    {
      assert spans[..i+1][..i] == spans[..i];
      byId := byId[spans[i].id := spans[i]];
    }
    assert spans[..|spans|] == spans;
  }

  method NearestAgent(byId: Index, start: Option<SpanId>) returns (nearest: Option<SpanId>)
    ensures nearest == Walk(byId, start, {})
    ensures forall a :: nearest == Some(a) <==> Nearest(byId, start, a)
  {
    forall a ensures Walk(byId, start, {}) == Some(a) <==> Nearest(byId, start, a) {
      WalkFindsNearest(byId, start, a);
    }
    nearest := None;
    var p, visited := start, {};
    while Names(p) && p.value !in visited
      invariant Walk(byId, p, visited) == Walk(byId, start, {})
      decreases byId.Keys - visited
    {
      visited := visited + {p.value};
      if p.value !in byId {
        return;
      }
      if byId[p.value].kind.Subagent? {
        return Some(p.value);
      }
      p := byId[p.value].parent;
    }
  }

  method MeetsTarget(byId: Index, start: Option<SpanId>, target: SpanId) returns (met: bool)
    ensures met == Climbs(byId, start, target, {})
    ensures met <==> Reaches(byId, start, target)
  {
    ClimbFindsTarget(byId, start, target);
    met := false;
    var p, visited := start, {};
    while Names(p) && p.value !in visited
      invariant Climbs(byId, p, target, visited) == Climbs(byId, start, target, {})
      decreases byId.Keys - visited
    {
      if p.value == target {
        return true;
      }
      if p.value !in byId {
        return;
      }
      visited := visited + {p.value};
      p := byId[p.value].parent;
    }
  }

  method SpansOwnedByAgent(agent: Option<Span>, spans: seq<Span>) returns (owned: seq<Span>)
    ensures owned == (if agent.Some? then [agent.value] else []) + WorkOf(ById(spans), agent, spans)
  {
    var byId := BuildIndex(spans);
    owned := Head(agent);
    var ownerId := OwnerId(agent);
    for i := 0 to |spans|
      invariant owned == Head(agent) + WorkOf(byId, agent, spans[..i])
    {
      assert spans[..i+1][..i] == spans[..i];
      var candidate := spans[i];
      if agent.Some? && candidate.id == agent.value.id {
        continue;
      }
      if OwnsDescendants(agent) {
        var met := MeetsTarget(byId, candidate.parent, agent.value.id);
        if met {
          owned := owned + [candidate];
        }
      } else {
        var nearest := NearestAgent(byId, candidate.parent);
        if nearest == ownerId {
          owned := owned + [candidate];
        }
      }
    }
    assert spans[..|spans|] == spans;
  }

  // ---------- the partition ----------

  ghost predicate UniqueIds(spans: seq<Span>) {
    forall i, j :: 0 <= i < j < |spans| ==> spans[i].id != spans[j].id
  }

  lemma {:induction false} IndexHolds(spans: seq<Span>)
    requires UniqueIds(spans)
    ensures forall c :: c in spans ==> c.id in ById(spans) && ById(spans)[c.id] == c
    ensures forall id :: id in ById(spans) ==> ById(spans)[id] in spans && ById(spans)[id].id == id
  {
    if spans == [] {
    } else {
      var front, last := spans[..|spans|-1], spans[|spans|-1];
      IndexHolds(front);
      assert spans == front + [last];
      forall c | c in front ensures c.id != last.id {
        var i :| 0 <= i < |front| && front[i] == c;
        assert spans[i] == c;
      }
    }
  }

  /** The main agent: nobody in particular, or a span that is neither a subagent nor a native tool call. */
  predicate IsMain(main: Option<Span>) {
    main.Some? ==> !main.value.kind.Subagent? && !(main.value.kind.ToolCall? && main.value.fromOtel)
  }

  /** The owners of direct work: the main agent, and every subagent among the spans. */
  predicate IsOwner(spans: seq<Span>, main: Option<Span>, owner: Option<Span>) {
    owner == main || (owner.Some? && owner.value in spans && owner.value.kind.Subagent?)
  }

  ghost predicate Owns(spans: seq<Span>, owner: Option<Span>, c: Span) {
    c in WorkOf(ById(spans), owner, spans)
  }

  /** A cycle of parent links can make a subagent its own nearest ancestor. */
  ghost predicate OwnAncestor(spans: seq<Span>, c: Span) {
    Nearest(ById(spans), c.parent, c.id)
  }

  ghost predicate HasNoAgentAbove(spans: seq<Span>, c: Span) {
    forall a :: !Nearest(ById(spans), c.parent, a)
  }

  lemma WalkFindsNone(spans: seq<Span>, c: Span)
    ensures Walk(ById(spans), c.parent, {}).None? <==> HasNoAgentAbove(spans, c)
  {
    var found := Walk(ById(spans), c.parent, {});
    if found.Some? {
      WalkFindsNearest(ById(spans), c.parent, found.value);
    } else {
      forall a ensures !Nearest(ById(spans), c.parent, a) {
        WalkFindsNearest(ById(spans), c.parent, a);
      }
    }
  }

  /** A subagent's direct work is what has it as nearest subagent ancestor. */
  lemma SubagentOwnsNearest(spans: seq<Span>, agent: Span, c: Span)
    requires agent.kind.Subagent? && c in spans
    ensures Owns(spans, Some(agent), c) <==> c.id != agent.id && Nearest(ById(spans), c.parent, agent.id)
  {
    WorkMembers(ById(spans), Some(agent), spans);
    WalkFindsNearest(ById(spans), c.parent, agent.id);
  }

  /** The main agent's direct work is what has no subagent above it. */
  lemma MainOwnsTheRest(spans: seq<Span>, main: Option<Span>, c: Span)
    requires IsMain(main) && c in spans
    ensures Owns(spans, main, c) <==> (main.Some? ==> c.id != main.value.id) && HasNoAgentAbove(spans, c)
  {
    WorkMembers(ById(spans), main, spans);
    WalkFindsNone(spans, c);
  }

  /** Nobody owns a span twice over: its owner is determined. */
  lemma AtMostOneOwner(spans: seq<Span>, main: Option<Span>, c: Span, o1: Option<Span>, o2: Option<Span>)
    requires UniqueIds(spans) && IsMain(main) && IsOwner(spans, main, o1) && IsOwner(spans, main, o2)
    requires Owns(spans, o1, c) && Owns(spans, o2, c)
    ensures o1 == o2
  {
    WorkMembers(ById(spans), o1, spans);
    WorkMembers(ById(spans), o2, spans);
    IndexHolds(spans);
  }

  /** Every span but the main agent's own has an owner, unless a cycle makes it its own nearest subagent. */
  lemma SomeOwner(spans: seq<Span>, main: Option<Span>, c: Span)
    requires UniqueIds(spans) && IsMain(main) && c in spans && (main.Some? ==> c.id != main.value.id)
    ensures (exists o :: IsOwner(spans, main, o) && Owns(spans, o, c)) <==> !OwnAncestor(spans, c)
  {
    var byId := ById(spans);
    IndexHolds(spans);
    WalkFindsNearest(byId, c.parent, c.id);
    var nearest := Walk(byId, c.parent, {});
    if nearest.None? {
      WorkMembers(byId, main, spans);
      assert IsOwner(spans, main, main) && Owns(spans, main, c);
    } else {
      WalkIsSound(byId, c.parent, {});
      var path :| PathToNearest(byId, c.parent, nearest.value, path);
      var agent := byId[nearest.value];
      assert IsOwner(spans, main, Some(agent));
      WorkMembers(byId, Some(agent), spans);
      forall o | IsOwner(spans, main, o) && Owns(spans, o, c) ensures o == Some(agent) {
        WorkMembers(byId, o, spans);
      }
    }
  }

  /** Under native telemetry, an agent's work is exactly what reaches it by parent links. */
  lemma DescendantsAreOwned(agent: Span, spans: seq<Span>, c: Span)
    requires agent.kind.ToolCall? && agent.fromOtel && c in spans
    ensures Owns(spans, Some(agent), c) <==> c.id != agent.id && Reaches(ById(spans), c.parent, agent.id)
  {
    WorkMembers(ById(spans), Some(agent), spans);
    ClimbFindsTarget(ById(spans), c.parent, agent.id);
  }

  /** The direct work of an agent, said by parent links alone. */
  ghost predicate IsDirectWork(byId: Index, agent: Option<Span>, c: Span) {
    && (agent.Some? ==> c.id != agent.value.id)
    && (if agent.Some? && agent.value.kind.ToolCall? && agent.value.fromOtel then Reaches(byId, c.parent, agent.value.id)
        else if agent.Some? && agent.value.kind.Subagent? then Nearest(byId, c.parent, agent.value.id)
        else forall a :: !Nearest(byId, c.parent, a))
  }

  lemma WorkIsDirect(byId: Index, agent: Option<Span>, c: Span)
    ensures IsWork(byId, agent, c) <==> IsDirectWork(byId, agent, c)
  {
    if agent.Some? {
      ClimbFindsTarget(byId, c.parent, agent.value.id);
      WalkFindsNearest(byId, c.parent, agent.value.id);
    }
    forall a ensures Walk(byId, c.parent, {}) == Some(a) <==> Nearest(byId, c.parent, a) {
      WalkFindsNearest(byId, c.parent, a);
    }
  }

  ghost predicate AreDirectWork(byId: Index, agent: Option<Span>, spans: seq<Span>, at: seq<nat>, work: seq<Span>) {
    Filters(spans, at, work, c => IsDirectWork(byId, agent, c))
  }

  /** An agent's work lists exactly its direct work among the spans, in their order, each once. */
  lemma {:induction false} WorkIsListed(byId: Index, agent: Option<Span>, spans: seq<Span>) returns (at: seq<nat>)
    ensures AreDirectWork(byId, agent, spans, at, WorkOf(byId, agent, spans))
  {
    if spans == [] {
      at := [];
    } else {
      var front, last := spans[..|spans|-1], spans[|spans|-1];
      at := WorkIsListed(byId, agent, front);
      FiltersSnoc(front, at, WorkOf(byId, agent, front), c => IsDirectWork(byId, agent, c), last);
      WorkIsDirect(byId, agent, last);
      assert spans == front + [last];
      if IsWork(byId, agent, last) { at := at + [|front|]; }
    }
  }

  /** The index knows exactly the ids of the spans, each by the last span that has it. */
  lemma {:induction false} IndexKnowsTheLast(spans: seq<Span>)
    ensures forall id :: id in ById(spans) <==> exists c :: c in spans && c.id == id
    ensures forall i :: 0 <= i < |spans| && (forall j :: i < j < |spans| ==> spans[j].id != spans[i].id) ==>
              spans[i].id in ById(spans) && ById(spans)[spans[i].id] == spans[i]
  {
    if spans == [] {
    } else {
      var front, last := spans[..|spans|-1], spans[|spans|-1];
      IndexKnowsTheLast(front);
      assert spans == front + [last];
    }
  }

  /** The exception exists: two spans that are each other's parent, one of them a subagent. */
  lemma OwnAncestorExists()
    ensures var a := Span(SpanId("a"), Some(SpanId("b")), Subagent, false);
            var b := Span(SpanId("b"), Some(SpanId("a")), ToolCall, false);
            UniqueIds([a, b]) && OwnAncestor([a, b], a)
  {
    var a := Span(SpanId("a"), Some(SpanId("b")), Subagent, false);
    var b := Span(SpanId("b"), Some(SpanId("a")), ToolCall, false);
    IndexHolds([a, b]);
    assert a in [a, b] && b in [a, b];
    assert PathToNearest(ById([a, b]), a.parent, a.id, [b.id, a.id]);
  }
}
