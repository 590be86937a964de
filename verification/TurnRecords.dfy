/**
 Turns of one agent rebuilt from its spans: which tool calls belong to which turn, and the records
 that show each turn's input, output, tool uses and tool results.
 */
module TurnRecords {
  import opened Wrappers
  import opened Sequences
  import opened Sorting

  datatype Id = Id(text: string)

  datatype Kind = LlmTurn | ToolCall | OtherKind

  datatype Span = Span(
    id: Id,
    parent: Option<Id>,
    kind: Kind,
    started: int,
    name: string,
    toolUse: Option<Id>,
    input: Option<string>,
    thinking: Option<string>,
    output: Option<string>,
    failed: bool)

  datatype Block = Thinking(text: string) | Text(text: string) | ToolUse(useId: Id, name: string, input: Option<string>)

  datatype ToolResult = ToolResult(useId: Id, content: string, isError: bool)

  datatype Record =
    | Request(agent: Id, text: string)
    | TurnInput(turn: Id, text: string)
    | Assistant(turn: Id, blocks: seq<Block>)
    | Results(turn: Id, results: seq<ToolResult>)

  /** An absent or empty text shows nothing. */
  predicate Shown(text: Option<string>) {
    text.Some? && text.value != ""
  }

  function Pick(spans: seq<Span>, kind: Kind): seq<Span> {
    if spans == [] then [] else Pick(spans[..|spans|-1], kind) + (if spans[|spans|-1].kind == kind then [spans[|spans|-1]] else [])
  }

  function ByStart(spans: seq<Span>): seq<Span> {
    SortBy(spans, (s: Span) => s.started)
  }

  function UseId(tool: Span): Id {
    if tool.toolUse.Some? && tool.toolUse.value.text != "" then tool.toolUse.value else tool.id
  }

  /** Does `tool` belong to turn `i`: by its parent link, or by the agent's link and its start time? */
  predicate Belongs(agent: Option<Span>, turns: seq<Span>, i: nat, tool: Span)
    requires i < |turns|
  {
    || tool.parent == Some(turns[i].id)
    || (&& agent.Some? && tool.parent == Some(agent.value.id)
        && tool.started >= turns[i].started
        && (i + 1 < |turns| ==> tool.started < turns[i+1].started))
  }

  function ToolsOf(agent: Option<Span>, turns: seq<Span>, i: nat, tools: seq<Span>): seq<Span>
    requires i < |turns|
  {
    if tools == [] then []
    else
      var last := tools[|tools|-1];
      ToolsOf(agent, turns, i, tools[..|tools|-1]) + (if Belongs(agent, turns, i, last) then [last] else [])
  }

  function Use(tool: Span): Block {
    ToolUse(UseId(tool), tool.name, tool.input)
  }

  function UseOf(tool: Span): seq<Block> {
    [Use(tool)]
  }

  function Uses(tools: seq<Span>): seq<Block> {
    Gather(tools, UseOf)
  }

  /** A tool call has a result once it has an output. */
  function ResultOf(tool: Span): seq<ToolResult> {
    if tool.output.Some? then [ToolResult(UseId(tool), tool.output.value, tool.failed)] else []
  }

  function ResultsOf(tools: seq<Span>): seq<ToolResult> {
    Gather(tools, ResultOf)
  }

  function Said(turn: Span): seq<Block> {
    (if Shown(turn.thinking) then [Thinking(turn.thinking.value)] else [])
    + (if Shown(turn.output) then [Text(turn.output.value)] else [])
  }

  function TurnOutput(turn: Span, tools: seq<Span>): seq<Record> {
    [Assistant(turn.id, Said(turn) + Uses(tools))]
    + (if ResultsOf(tools) != [] then [Results(turn.id, ResultsOf(tools))] else [])
  }

  function TurnShown(turn: Span, tools: seq<Span>): seq<Record> {
    (if Shown(turn.input) then [TurnInput(turn.id, turn.input.value)] else []) + TurnOutput(turn, tools)
  }

  /** The records of the first `n` turns. */
  function FirstTurns(agent: Option<Span>, turns: seq<Span>, tools: seq<Span>, n: nat): seq<Record>
    requires n <= |turns|
  {
    if n == 0 then []
    else FirstTurns(agent, turns, tools, n - 1) + TurnShown(turns[n-1], ToolsOf(agent, turns, n - 1, tools))
  }

  function Opening(agent: Option<Span>): seq<Record> {
    if agent.Some? && Shown(agent.value.input) then [Request(agent.value.id, agent.value.input.value)] else []
  }

  function RecordsOf(agent: Option<Span>, spans: seq<Span>): seq<Record> {
    var turns, tools := ByStart(Pick(spans, LlmTurn)), ByStart(Pick(spans, ToolCall));
    Opening(agent) + FirstTurns(agent, turns, tools, |turns|)
  }

  // ---------- the loops of the code ----------

  method PickKind(spans: seq<Span>, kind: Kind) returns (picked: seq<Span>)
    ensures picked == Pick(spans, kind)
  {
    picked := [];
    for i := 0 to |spans|
      invariant picked == Pick(spans[..i], kind)
    {
      assert spans[..i+1][..i] == spans[..i];
      if spans[i].kind == kind {
        picked := picked + [spans[i]];
      }
    }
    assert spans[..|spans|] == spans;
  }

  method TurnTools(agent: Option<Span>, turns: seq<Span>, i: nat, tools: seq<Span>) returns (mine: seq<Span>)
    requires i < |turns|
    ensures mine == ToolsOf(agent, turns, i, tools)
  {
    var nextStarted := if i + 1 < |turns| then Some(turns[i+1].started) else None;
    mine := [];
    for k := 0 to |tools|
      invariant mine == ToolsOf(agent, turns, i, tools[..k])
    {
      assert tools[..k+1][..k] == tools[..k];
      var tool := tools[k];
      if tool.parent == Some(turns[i].id)
         || (agent.Some? && tool.parent == Some(agent.value.id) && tool.started >= turns[i].started
             && (nextStarted.None? || tool.started < nextStarted.value)) {
        mine := mine + [tool];
      }
    }
    assert tools[..|tools|] == tools;
  }

  method AppendUses(said: seq<Block>, tools: seq<Span>) returns (blocks: seq<Block>)
    ensures blocks == said + Uses(tools)
  {
    blocks := said;
    for k := 0 to |tools|
      invariant blocks == said + Uses(tools[..k])
    {
      assert tools[..k+1][..k] == tools[..k];
      blocks := blocks + [Use(tools[k])];
    }
    assert tools[..|tools|] == tools;
  }

  method CollectResults(tools: seq<Span>) returns (results: seq<ToolResult>)
    ensures results == ResultsOf(tools)
  {
    results := [];
    for k := 0 to |tools|
      invariant results == ResultsOf(tools[..k])
    {
      assert tools[..k+1][..k] == tools[..k];
      if tools[k].output.Some? {
        results := results + [ToolResult(UseId(tools[k]), tools[k].output.value, tools[k].failed)];
      }
    }
    assert tools[..|tools|] == tools;
  }

  method RecordsFromAgentSpans(agent: Option<Span>, spans: seq<Span>) returns (records: seq<Record>)
    ensures records == RecordsOf(agent, spans)
  {
    var turns := PickKind(spans, LlmTurn);
    var tools := PickKind(spans, ToolCall);
    records := [];
    if agent.Some? && Shown(agent.value.input) {
      records := [Request(agent.value.id, agent.value.input.value)];
    }
    records := AppendTurns(records, agent, ByStart(turns), ByStart(tools));
  }

  method AppendTurns(opening: seq<Record>, agent: Option<Span>, turns: seq<Span>, tools: seq<Span>) returns (records: seq<Record>)
    ensures records == opening + FirstTurns(agent, turns, tools, |turns|)
  {
    records := opening;
    for i := 0 to |turns|
      invariant records == opening + FirstTurns(agent, turns, tools, i)
    {
      var mine := TurnTools(agent, turns, i, tools);
      records := AppendTurn(records, turns[i], mine);
      FirstTurnsStep(opening, agent, turns, tools, i);
    }
  }

  lemma FirstTurnsStep(opening: seq<Record>, agent: Option<Span>, turns: seq<Span>, tools: seq<Span>, i: nat)
    requires i < |turns|
    ensures opening + FirstTurns(agent, turns, tools, i + 1)
         == opening + FirstTurns(agent, turns, tools, i) + TurnShown(turns[i], ToolsOf(agent, turns, i, tools))
  {
  }

  method AppendTurn(before: seq<Record>, turn: Span, tools: seq<Span>) returns (records: seq<Record>)
    ensures records == before + TurnShown(turn, tools)
  {
    records := before;
    if Shown(turn.input) {
      records := records + [TurnInput(turn.id, turn.input.value)];
    }
    ghost var input := records;
    var blocks := AppendUses(Said(turn), tools);
    records := records + [Assistant(turn.id, blocks)];
    var results := CollectResults(tools);
    if results != [] {
      records := records + [Results(turn.id, results)];
    }
    assert records == input + TurnOutput(turn, tools);
  }

  // ---------- the partition of tool calls ----------

  ghost predicate UniqueTurns(turns: seq<Span>) {
    forall i, j :: 0 <= i < j < |turns| ==> turns[i].id != turns[j].id
  }

  ghost predicate Ascending(turns: seq<Span>) {
    forall i, j :: 0 <= i <= j < |turns| ==> turns[i].started <= turns[j].started
  }

  /** The agent is not itself one of the turns. */
  ghost predicate AgentApart(agent: Option<Span>, turns: seq<Span>) {
    agent.Some? ==> forall i :: 0 <= i < |turns| ==> turns[i].id != agent.value.id
  }

  /** A tool call of some turn: by its parent, or under the agent and not before the first turn. */
  ghost predicate Eligible(agent: Option<Span>, turns: seq<Span>, tool: Span) {
    || (exists i :: 0 <= i < |turns| && tool.parent == Some(turns[i].id))
    || (agent.Some? && tool.parent == Some(agent.value.id) && turns != [] && tool.started >= turns[0].started)
  }

  lemma BelongsToOne(agent: Option<Span>, turns: seq<Span>, i: nat, j: nat, tool: Span)
    requires UniqueTurns(turns) && Ascending(turns) && AgentApart(agent, turns)
    requires i < |turns| && j < |turns|
    requires Belongs(agent, turns, i, tool) && Belongs(agent, turns, j, tool)
    ensures i == j
  {
  }

  /** The last turn that starts no later than the time given. */
  lemma {:induction false} LastStarted(turns: seq<Span>, time: int, n: nat) returns (i: nat)
    requires Ascending(turns) && 0 < n <= |turns| && turns[0].started <= time
    requires forall k :: n <= k < |turns| ==> time < turns[k].started
    ensures i < n && turns[i].started <= time
    ensures forall k :: i < k < |turns| ==> time < turns[k].started
  {
    if turns[n-1].started <= time {
      i := n - 1;
    } else {
      i := LastStarted(turns, time, n - 1);
    }
  }

  lemma EligibleBelongs(agent: Option<Span>, turns: seq<Span>, tool: Span)
    requires Ascending(turns)
    ensures Eligible(agent, turns, tool) <==> exists i: nat :: i < |turns| && Belongs(agent, turns, i, tool)
  {
    if Eligible(agent, turns, tool) {
      if i :| 0 <= i < |turns| && tool.parent == Some(turns[i].id) {
        assert Belongs(agent, turns, i, tool);
      } else {
        var i := LastStarted(turns, tool.started, |turns|);
        assert Belongs(agent, turns, i, tool);
      }
    }
    if i: nat :| i < |turns| && Belongs(agent, turns, i, tool) {
      assert turns[0].started <= turns[i].started;
    }
  }

  function OneIf(cond: bool, tool: Span): multiset<Span> {
    if cond then multiset{tool} else multiset{}
  }

  /** All tool calls of the first `n` turns, turn by turn. */
  function AllTools(agent: Option<Span>, turns: seq<Span>, tools: seq<Span>, n: nat): seq<Span>
    requires n <= |turns|
  {
    if n == 0 then [] else AllTools(agent, turns, tools, n - 1) + ToolsOf(agent, turns, n - 1, tools)
  }

  ghost function EligibleTools(agent: Option<Span>, turns: seq<Span>, tools: seq<Span>): multiset<Span> {
    if tools == [] then multiset{}
    else
      var last := tools[|tools|-1];
      EligibleTools(agent, turns, tools[..|tools|-1]) + OneIf(Eligible(agent, turns, last), last)
  }

  ghost predicate BelongsBefore(agent: Option<Span>, turns: seq<Span>, n: nat, tool: Span)
    requires n <= |turns|
  {
    exists i: nat :: i < n && Belongs(agent, turns, i, tool)
  }

  lemma ToolsSnoc(agent: Option<Span>, turns: seq<Span>, i: nat, tools: seq<Span>, tool: Span)
    requires i < |turns|
    ensures ToolsOf(agent, turns, i, tools + [tool])
         == ToolsOf(agent, turns, i, tools) + (if Belongs(agent, turns, i, tool) then [tool] else [])
  {
    assert (tools + [tool])[..|tools|] == tools;
  }

  lemma BelongsAtOnce(agent: Option<Span>, turns: seq<Span>, n: nat, tool: Span)
    requires UniqueTurns(turns) && Ascending(turns) && AgentApart(agent, turns) && 0 < n <= |turns|
    ensures OneIf(BelongsBefore(agent, turns, n, tool), tool)
         == OneIf(BelongsBefore(agent, turns, n - 1, tool), tool) + OneIf(Belongs(agent, turns, n - 1, tool), tool)
  {
    if Belongs(agent, turns, n - 1, tool) {
      if i: nat :| i < n - 1 && Belongs(agent, turns, i, tool) {
        BelongsToOne(agent, turns, i, n - 1, tool);
      }
    } else if BelongsBefore(agent, turns, n, tool) {
      var i: nat :| i < n && Belongs(agent, turns, i, tool);
      assert i < n - 1;
    }
  }

  lemma {:induction false} OneMoreTool(agent: Option<Span>, turns: seq<Span>, tools: seq<Span>, tool: Span, n: nat)
    requires UniqueTurns(turns) && Ascending(turns) && AgentApart(agent, turns) && n <= |turns|
    ensures multiset(AllTools(agent, turns, tools + [tool], n))
         == multiset(AllTools(agent, turns, tools, n)) + OneIf(BelongsBefore(agent, turns, n, tool), tool)
  {
    if n == 0 {
    } else {
      OneMoreTool(agent, turns, tools, tool, n - 1);
      ToolsSnoc(agent, turns, n - 1, tools, tool);
      BelongsAtOnce(agent, turns, n, tool);
      var earlier, mine := AllTools(agent, turns, tools, n - 1), ToolsOf(agent, turns, n - 1, tools);
      var earlier', mine' := AllTools(agent, turns, tools + [tool], n - 1), ToolsOf(agent, turns, n - 1, tools + [tool]);
      var x, y := BelongsBefore(agent, turns, n - 1, tool), Belongs(agent, turns, n - 1, tool);
      assert multiset(mine') == multiset(mine) + OneIf(y, tool);
      AddUp(multiset(earlier'), multiset(earlier), OneIf(x, tool), multiset(mine'), multiset(mine), OneIf(y, tool));
      assert multiset(earlier' + mine') == multiset(earlier') + multiset(mine');
      assert multiset(earlier + mine) == multiset(earlier) + multiset(mine);
    }
  }

  lemma AddUp<T>(a': multiset<T>, a: multiset<T>, x: multiset<T>, b': multiset<T>, b: multiset<T>, y: multiset<T>)
    requires a' == a + x && b' == b + y
    ensures a' + b' == (a + b) + (x + y)
  {
  }

  lemma {:induction false} NoTools(agent: Option<Span>, turns: seq<Span>, n: nat)
    requires n <= |turns|
    ensures AllTools(agent, turns, [], n) == []
  {
    if n == 0 {
    } else {
      NoTools(agent, turns, n - 1);
    }
  }

  /** Over all turns, the tool calls assigned are exactly the eligible ones, each once. */
  lemma {:induction false} ToolsArePartitioned(agent: Option<Span>, turns: seq<Span>, tools: seq<Span>)
    requires UniqueTurns(turns) && Ascending(turns) && AgentApart(agent, turns)
    ensures multiset(AllTools(agent, turns, tools, |turns|)) == EligibleTools(agent, turns, tools)
  {
    if tools == [] {
      NoTools(agent, turns, |turns|);
    } else {
      var front, last := tools[..|tools|-1], tools[|tools|-1];
      ToolsArePartitioned(agent, turns, front);
      OneMoreTool(agent, turns, front, last, |turns|);
      EligibleBelongs(agent, turns, last);
      assert tools == front + [last];
    }
  }

  // ---------- the turns and tools of a list of spans ----------

  lemma {:induction false} PickHasKind(spans: seq<Span>, kind: Kind)
    ensures forall s :: s in Pick(spans, kind) <==> s in spans && s.kind == kind
  {
    if spans == [] {
    } else {
      PickHasKind(spans[..|spans|-1], kind);
      assert spans == spans[..|spans|-1] + [spans[|spans|-1]];
    }
  }

  ghost predicate UniqueIds(spans: seq<Span>) {
    forall i, j :: 0 <= i < j < |spans| ==> spans[i].id != spans[j].id
  }

  lemma {:induction false} PickIsUnique(spans: seq<Span>, kind: Kind)
    requires UniqueIds(spans)
    ensures UniqueIds(Pick(spans, kind))
  {
    if spans == [] {
    } else {
      var front, last := spans[..|spans|-1], spans[|spans|-1];
      PickIsUnique(front, kind);
      PickHasKind(front, kind);
      forall s | s in Pick(front, kind) ensures s.id != last.id {
        var i :| 0 <= i < |front| && front[i] == s;
        assert spans[i] == s;
      }
    }
  }

  lemma {:induction false} InsertIsUnique(x: Span, xs: seq<Span>)
    requires UniqueIds(xs) && forall y :: y in xs ==> y.id != x.id
    ensures UniqueIds(Insert(x, xs, (s: Span) => s.started))
    ensures forall y :: y in Insert(x, xs, (s: Span) => s.started) <==> y == x || y in xs
  {
    if xs == [] || x.started <= xs[0].started {
    } else {
      assert xs == [xs[0]] + xs[1..];
      InsertIsUnique(x, xs[1..]);
      forall y | y in xs[1..] ensures y.id != xs[0].id {
        var i :| 0 <= i < |xs[1..]| && xs[1..][i] == y;
        assert xs[i+1] == y;
      }
    }
  }

  lemma {:induction false} ByStartIsUnique(xs: seq<Span>)
    requires UniqueIds(xs)
    ensures UniqueIds(ByStart(xs))
    ensures forall y :: y in ByStart(xs) <==> y in xs
  {
    if xs == [] {
    } else {
      assert xs == [xs[0]] + xs[1..];
      ByStartIsUnique(xs[1..]);
      forall y | y in xs[1..] ensures y.id != xs[0].id {
        var i :| 0 <= i < |xs[1..]| && xs[1..][i] == y;
        assert xs[i+1] == y;
      }
      InsertIsUnique(xs[0], ByStart(xs[1..]));
    }
  }

  lemma TurnsAreReady(agent: Option<Span>, spans: seq<Span>)
    requires UniqueIds(spans)
    requires agent.Some? ==> forall s :: s in spans && s.kind.LlmTurn? ==> s.id != agent.value.id
    ensures var turns := ByStart(Pick(spans, LlmTurn));
            UniqueTurns(turns) && Ascending(turns) && AgentApart(agent, turns)
  {
    var picked := Pick(spans, LlmTurn);
    PickHasKind(spans, LlmTurn);
    PickIsUnique(spans, LlmTurn);
    ByStartIsUnique(picked);
    SortBySorts(picked, (s: Span) => s.started);
    var turns := ByStart(picked);
    forall i | agent.Some? && 0 <= i < |turns| ensures turns[i].id != agent.value.id {
      assert turns[i] in turns;
    }
  }

  // ---------- results follow their uses ----------

  lemma ResultHasUse(tools: seq<Span>, r: ToolResult)
    requires r in ResultsOf(tools)
    ensures exists b :: b in Uses(tools) && b.ToolUse? && b.useId == r.useId
  {
    GatherMembers(tools, ResultOf);
    GatherMembers(tools, UseOf);
    var tool :| tool in tools && r in ResultOf(tool);
    assert Use(tool) in UseOf(tool);
    assert Use(tool) in Uses(tools);
  }

  /** Record `k` shows results: the record before it is the assistant record holding their uses. */
  ghost predicate Answers(records: seq<Record>, k: int) {
    0 < k < |records| && records[k].Results? ==>
      && records[k-1].Assistant? && records[k-1].turn == records[k].turn
      && forall r :: r in records[k].results ==>
           exists b :: b in records[k-1].blocks && b.ToolUse? && b.useId == r.useId
  }

  /** Every record of results comes right after the assistant record that holds their uses. */
  ghost predicate AllAnswered(records: seq<Record>) {
    && (forall k :: Answers(records, k))
    && (records != [] ==> !records[0].Results?)
  }

  lemma TurnAnswers(turn: Span, tools: seq<Span>)
    ensures AllAnswered(TurnShown(turn, tools))
  {
    var rs := TurnShown(turn, tools);
    forall k ensures Answers(rs, k) {
      if 0 < k < |rs| && rs[k].Results? {
        assert rs[k-1] == Assistant(turn.id, Said(turn) + Uses(tools));
        forall r | r in rs[k].results
          ensures exists b :: b in rs[k-1].blocks && b.ToolUse? && b.useId == r.useId
        {
          ResultHasUse(tools, r);
          var b :| b in Uses(tools) && b.ToolUse? && b.useId == r.useId;
          assert b in rs[k-1].blocks;
        }
      }
    }
  }

  lemma AnswersConcat(a: seq<Record>, b: seq<Record>)
    requires AllAnswered(a) && AllAnswered(b)
    ensures AllAnswered(a + b)
  {
    forall k ensures Answers(a + b, k) {
      if 0 < k < |a| {
        assert Answers(a, k) && (a + b)[k] == a[k] && (a + b)[k-1] == a[k-1];
      } else if |a| < k < |a + b| {
        assert Answers(b, k - |a|) && (a + b)[k] == b[k-|a|] && (a + b)[k-1] == b[k-|a|-1];
      }
    }
  }

  lemma {:induction false} FirstTurnsAnswer(agent: Option<Span>, turns: seq<Span>, tools: seq<Span>, n: nat)
    requires n <= |turns|
    ensures AllAnswered(FirstTurns(agent, turns, tools, n))
  {
    if n == 0 {
    } else {
      var mine := ToolsOf(agent, turns, n - 1, tools);
      FirstTurnsAnswer(agent, turns, tools, n - 1);
      TurnAnswers(turns[n-1], mine);
      AnswersConcat(FirstTurns(agent, turns, tools, n - 1), TurnShown(turns[n-1], mine));
    }
  }

  /** Every record of tool results comes right after the assistant record that holds their uses. */
  lemma ResultsFollowUses(agent: Option<Span>, spans: seq<Span>)
    ensures AllAnswered(RecordsOf(agent, spans))
  {
    var turns, tools := ByStart(Pick(spans, LlmTurn)), ByStart(Pick(spans, ToolCall));
    FirstTurnsAnswer(agent, turns, tools, |turns|);
    AnswersConcat(Opening(agent), FirstTurns(agent, turns, tools, |turns|));
  }
}
