/**
 How the rebuilt records lie, said of the records alone: one stretch per turn, in the order of the turns,
 with the turn's words, a use for each tool call made in that turn, and the results of those that have one.
 */
module TurnRecordsLayout {
  import opened Wrappers
  import opened Sequences
  import opened Sorting
  import opened TurnRecords

  // ---------- the turn in which a tool call was made ----------

  /**
   A tool call was made in the turn its parent link names; under the agent, in the last turn that started
   no later than it did.
   */
  ghost predicate MadeIn(agent: Option<Span>, turns: seq<Span>, i: nat, tool: Span)
    requires i < |turns|
  {
    || tool.parent == Some(turns[i].id)
    || (&& agent.Some? && tool.parent == Some(agent.value.id)
        && turns[i].started <= tool.started
        && forall j :: i < j < |turns| ==> tool.started < turns[j].started)
  }

  lemma BelongsWhereMade(agent: Option<Span>, turns: seq<Span>, i: nat, tool: Span)
    requires Ascending(turns) && i < |turns|
    ensures Belongs(agent, turns, i, tool) <==> MadeIn(agent, turns, i, tool)
  {
    assert forall j :: i < j < |turns| ==> turns[i+1].started <= turns[j].started;
  }

  /** The tool calls made in turn `i`, in order, and where each stood. */
  ghost predicate AreMadeIn(agent: Option<Span>, turns: seq<Span>, i: nat, tools: seq<Span>, at: seq<nat>, mine: seq<Span>)
    requires i < |turns|
  {
    Filters(tools, at, mine, t => MadeIn(agent, turns, i, t))
  }

  lemma {:induction false} ToolsWhereMade(agent: Option<Span>, turns: seq<Span>, i: nat, tools: seq<Span>) returns (at: seq<nat>)
    requires Ascending(turns) && i < |turns|
    ensures AreMadeIn(agent, turns, i, tools, at, ToolsOf(agent, turns, i, tools))
  {
    if tools == [] {
      at := [];
    } else {
      var front, last := tools[..|tools|-1], tools[|tools|-1];
      at := ToolsWhereMade(agent, turns, i, front);
      FiltersSnoc(front, at, ToolsOf(agent, turns, i, front), t => MadeIn(agent, turns, i, t), last);
      BelongsWhereMade(agent, turns, i, last);
      assert tools == front + [last];
      if MadeIn(agent, turns, i, last) { at := at + [|front|]; }
    }
  }

  // ---------- what one turn shows ----------

  predicate HasText(text: Option<string>) {
    text.Some? && text.value != ""
  }

  /** The thinking and the text of the turn, in this order, as far as they are not empty. */
  predicate AreWords(words: seq<Block>, turn: Span) {
    && |words| == (if HasText(turn.thinking) then 1 else 0) + (if HasText(turn.output) then 1 else 0)
    && (HasText(turn.thinking) ==> words[0] == Thinking(turn.thinking.value))
    && (HasText(turn.output) ==> words[|words|-1] == Text(turn.output.value))
  }

  /** A tool call is known by the identifier of its use or, without one, by that of its span. */
  predicate Identifies(id: Id, tool: Span) {
    if tool.toolUse.Some? && tool.toolUse.value.text != "" then Some(id) == tool.toolUse else id == tool.id
  }

  predicate IsUseOf(b: Block, tool: Span) {
    b.ToolUse? && Identifies(b.useId, tool) && b.name == tool.name && b.input == tool.input
  }

  predicate IsResultOf(r: ToolResult, tool: Span) {
    Identifies(r.useId, tool) && tool.output == Some(r.content) && r.isError == tool.failed
  }

  /** One use for each of the tool calls, in order. */
  ghost predicate AreUses(uses: seq<Block>, mine: seq<Span>) {
    |uses| == |mine| && forall k :: 0 <= k < |mine| ==> IsUseOf(uses[k], mine[k])
  }

  /** The tool calls that have an output, in order. */
  ghost predicate AreDone(tools: seq<Span>, at: seq<nat>, done: seq<Span>) {
    Filters(tools, at, done, (t: Span) => t.output.Some?)
  }

  ghost predicate ResultsMatch(results: seq<ToolResult>, done: seq<Span>) {
    |results| == |done| && forall k :: 0 <= k < |done| ==> IsResultOf(results[k], done[k])
  }

  /** One result for each tool call that has an output, in order. */
  ghost predicate AreResults(results: seq<ToolResult>, mine: seq<Span>) {
    exists at, done :: AreDone(mine, at, done) && ResultsMatch(results, done)
  }

  function InputOf(turn: Span): seq<Record> {
    if HasText(turn.input) then [TurnInput(turn.id, turn.input.value)] else []
  }

  /**
   A stretch of records that shows a turn: its input if it has one, then its words followed by its uses, and
   the results if there are any.
   */
  ghost predicate IsTurn(
      part: seq<Record>, turn: Span, mine: seq<Span>, words: seq<Block>, uses: seq<Block>, results: seq<ToolResult>)
  {
    && part == InputOf(turn) + [Assistant(turn.id, words + uses)] + (if results == [] then [] else [Results(turn.id, results)])
    && AreWords(words, turn) && AreUses(uses, mine) && AreResults(results, mine)
  }

  ghost predicate ShowsTurn(part: seq<Record>, turn: Span, mine: seq<Span>) {
    exists words, uses, results :: IsTurn(part, turn, mine, words, uses, results)
  }

  lemma WordsAreSaid(turn: Span)
    ensures AreWords(Said(turn), turn)
  {
  }

  lemma {:induction false} UsesOneEach(tools: seq<Span>)
    ensures AreUses(Uses(tools), tools)
  {
    if tools == [] {
    } else {
      UsesOneEach(tools[..|tools|-1]);
    }
  }

  lemma DoneSnoc(tools: seq<Span>, at: seq<nat>, done: seq<Span>, last: Span)
    requires AreDone(tools, at, done)
    ensures if last.output.Some? then AreDone(tools + [last], at + [|tools|], done + [last])
            else AreDone(tools + [last], at, done)
  {
    FiltersSnoc(tools, at, done, (t: Span) => t.output.Some?, last);
  }

  lemma ResultsSnoc(tools: seq<Span>, done: seq<Span>, last: Span)
    requires ResultsMatch(ResultsOf(tools), done)
    ensures ResultsMatch(ResultsOf(tools + [last]), if last.output.Some? then done + [last] else done)
  {
    GatherSnoc(tools, last, ResultOf);
  }

  /** The tool calls that have an output, and one result for each. */
  ghost predicate DoneWithResults(tools: seq<Span>, at: seq<nat>, done: seq<Span>) {
    AreDone(tools, at, done) && ResultsMatch(ResultsOf(tools), done)
  }

  lemma OneMoreDone(tools: seq<Span>, at: seq<nat>, done: seq<Span>, last: Span)
    requires DoneWithResults(tools, at, done)
    ensures if last.output.Some? then DoneWithResults(tools + [last], at + [|tools|], done + [last])
            else DoneWithResults(tools + [last], at, done)
  {
    DoneSnoc(tools, at, done, last);
    ResultsSnoc(tools, done, last);
  }

  lemma NothingDone()
    ensures DoneWithResults([], [], [])
  {
  }

  lemma {:induction false} ResultsOneEach(tools: seq<Span>) returns (at: seq<nat>, done: seq<Span>)
    ensures DoneWithResults(tools, at, done)
    decreases |tools|
  {
    if tools == [] {
      NothingDone();
      return [], [];
    }
    var front, last := tools[..|tools|-1], tools[|tools|-1];
    assert front + [last] == tools;
    var at0, done0 := ResultsOneEach(front);
    OneMoreDone(front, at0, done0, last);
    if last.output.Some? {
      at, done := at0 + [|front|], done0 + [last];
    } else {
      at, done := at0, done0;
    }
  }

  lemma TurnIsShown(turn: Span, mine: seq<Span>)
    ensures ShowsTurn(TurnShown(turn, mine), turn, mine)
  {
    WordsAreSaid(turn);
    UsesOneEach(mine);
    var at, done := ResultsOneEach(mine);
    assert AreResults(ResultsOf(mine), mine);
    Regroup(InputOf(turn), [Assistant(turn.id, Said(turn) + Uses(mine))],
            if ResultsOf(mine) == [] then [] else [Results(turn.id, ResultsOf(mine))]);
    assert IsTurn(TurnShown(turn, mine), turn, mine, Said(turn), Uses(mine), ResultsOf(mine));
  }

  lemma Regroup<T>(a: seq<T>, b: seq<T>, c: seq<T>)
    ensures a + b + c == a + (b + c)
  {
  }

  // ---------- all turns ----------

  /** Records `from` up to `to` show turn `i` with the tool calls made in it. */
  ghost predicate ShowsAt(
      agent: Option<Span>, turns: seq<Span>, tools: seq<Span>, records: seq<Record>, i: nat, from: nat, to: nat)
    requires i < |turns|
  {
    && from <= to <= |records|
    && exists at, mine ::
         AreMadeIn(agent, turns, i, tools, at, mine) && ShowsTurn(records[from..to], turns[i], mine)
  }

  /** The turns' stretches lie one after the other, from `starts[0]` to the end of the records. */
  ghost predicate LaidOut(
      agent: Option<Span>, turns: seq<Span>, tools: seq<Span>, records: seq<Record>, starts: seq<nat>)
  {
    && |starts| == |turns| + 1 && starts[|turns|] == |records|
    && forall i: nat :: i < |turns| ==> ShowsAt(agent, turns, tools, records, i, starts[i], starts[i+1])
  }

  ghost predicate FirstLaidOut(
      agent: Option<Span>, turns: seq<Span>, tools: seq<Span>, records: seq<Record>, starts: seq<nat>, n: nat)
    requires n <= |turns|
  {
    && |starts| == n + 1 && starts[n] == |records|
    && forall i: nat :: i < n ==> ShowsAt(agent, turns, tools, records, i, starts[i], starts[i+1])
  }

  lemma StillShown(
      agent: Option<Span>, turns: seq<Span>, tools: seq<Span>, records: seq<Record>, more: seq<Record>,
      i: nat, from: nat, to: nat)
    requires i < |turns| && ShowsAt(agent, turns, tools, records, i, from, to)
    ensures ShowsAt(agent, turns, tools, records + more, i, from, to)
  {
    assert (records + more)[from..to] == records[from..to];
  }

  lemma NextTurnShown(
      agent: Option<Span>, turns: seq<Span>, tools: seq<Span>, before: seq<Record>, i: nat, part: seq<Record>)
    requires Ascending(turns) && i < |turns| && part == TurnShown(turns[i], ToolsOf(agent, turns, i, tools))
    ensures ShowsAt(agent, turns, tools, before + part, i, |before|, |before + part|)
  {
    var mine := ToolsOf(agent, turns, i, tools);
    var at := ToolsWhereMade(agent, turns, i, tools);
    TurnIsShown(turns[i], mine);
    assert (before + part)[|before|..|before + part|] == part;
  }

  lemma OneMoreLaidOut(
      agent: Option<Span>, turns: seq<Span>, tools: seq<Span>, before: seq<Record>, part: seq<Record>, starts: seq<nat>, n: nat)
    requires n < |turns| && FirstLaidOut(agent, turns, tools, before, starts, n)
    requires ShowsAt(agent, turns, tools, before + part, n, |before|, |before + part|)
    ensures FirstLaidOut(agent, turns, tools, before + part, starts + [|before + part|], n + 1)
  {
    var starts' := starts + [|before + part|];
    forall i: nat | i < n + 1 ensures ShowsAt(agent, turns, tools, before + part, i, starts'[i], starts'[i+1]) {
      if i < n { StillShown(agent, turns, tools, before, part, i, starts[i], starts[i+1]); }
    }
  }

  lemma {:induction false} TurnsAreLaidOut(
      agent: Option<Span>, turns: seq<Span>, tools: seq<Span>, opening: seq<Record>, n: nat) returns (starts: seq<nat>)
    requires Ascending(turns) && n <= |turns|
    ensures FirstLaidOut(agent, turns, tools, opening + FirstTurns(agent, turns, tools, n), starts, n)
    ensures starts[0] == |opening|
  {
    if n == 0 {
      starts := [|opening|];
      assert opening + [] == opening;
    } else {
      var before := opening + FirstTurns(agent, turns, tools, n - 1);
      var part := TurnShown(turns[n-1], ToolsOf(agent, turns, n - 1, tools));
      FirstTurnsStep(opening, agent, turns, tools, n - 1);
      var earlier := TurnsAreLaidOut(agent, turns, tools, opening, n - 1);
      NextTurnShown(agent, turns, tools, before, n - 1, part);
      OneMoreLaidOut(agent, turns, tools, before, part, earlier, n - 1);
      starts := earlier + [|before + part|];
    }
  }

  /**
   The spans of one kind, in ascending order of their starts; those that start together keep their order.
   */
  ghost predicate InStartOrder(spans: seq<Span>, kind: Kind, sorted: seq<Span>) {
    exists at, picked :: AreOfKind(spans, kind, at, picked) && SortedFrom(picked, sorted)
  }

  ghost predicate AreOfKind(spans: seq<Span>, kind: Kind, at: seq<nat>, picked: seq<Span>) {
    Filters(spans, at, picked, (s: Span) => s.kind == kind)
  }

  ghost predicate SameOrderAt(a: seq<Span>, b: seq<Span>, time: int) {
    WithKey(a, (s: Span) => s.started, time) == WithKey(b, (s: Span) => s.started, time)
  }

  ghost predicate SortedFrom(picked: seq<Span>, sorted: seq<Span>) {
    && Ascending(sorted) && multiset(sorted) == multiset(picked)
    && forall time :: SameOrderAt(sorted, picked, time)
  }

  lemma {:induction false} PickFilters(spans: seq<Span>, kind: Kind) returns (at: seq<nat>)
    ensures AreOfKind(spans, kind, at, Pick(spans, kind))
  {
    if spans == [] {
      at := [];
    } else {
      var front, last := spans[..|spans|-1], spans[|spans|-1];
      at := PickFilters(front, kind);
      FiltersSnoc(front, at, Pick(front, kind), (s: Span) => s.kind == kind, last);
      assert spans == front + [last];
      if last.kind == kind { at := at + [|front|]; }
    }
  }

  lemma ByStartIsInOrder(spans: seq<Span>, kind: Kind)
    ensures InStartOrder(spans, kind, ByStart(Pick(spans, kind)))
  {
    var at := PickFilters(spans, kind);
    SortBySorts(Pick(spans, kind), (s: Span) => s.started);
    assert SortedFrom(Pick(spans, kind), ByStart(Pick(spans, kind)));
  }

  /**
   The records of a list of spans: the agent's request if it has one, and then the turns in the order of
   their starts, one stretch each, that shows its input, its words, the uses of the tool calls made in it
   and the results of those that have an output; nothing else.
   */
  lemma RecordsAreLaidOut(agent: Option<Span>, spans: seq<Span>)
    returns (turns: seq<Span>, tools: seq<Span>, starts: seq<nat>)
    ensures InStartOrder(spans, LlmTurn, turns) && InStartOrder(spans, ToolCall, tools)
    ensures LaidOut(agent, turns, tools, RecordsOf(agent, spans), starts)
    ensures starts[0] <= |RecordsOf(agent, spans)|
    ensures RecordsOf(agent, spans)[..starts[0]]
         == if agent.Some? && HasText(agent.value.input) then [Request(agent.value.id, agent.value.input.value)] else []
  {
    turns, tools := ByStart(Pick(spans, LlmTurn)), ByStart(Pick(spans, ToolCall));
    ByStartIsInOrder(spans, LlmTurn);
    ByStartIsInOrder(spans, ToolCall);
    SortBySorts(Pick(spans, LlmTurn), (s: Span) => s.started);
    starts := TurnsAreLaidOut(agent, turns, tools, Opening(agent), |turns|);
    assert RecordsOf(agent, spans)[..|Opening(agent)|] == Opening(agent);
  }

  // ---------- one tool call, one use ----------

  /** Some assistant record of the turn holds a use of the tool call. */
  ghost predicate HasUse(records: seq<Record>, turn: Id, tool: Span) {
    exists p, k :: UseAt(records, p, k, turn, tool)
  }

  ghost predicate UseAt(records: seq<Record>, p: nat, k: nat, turn: Id, tool: Span) {
    && p < |records| && records[p].Assistant? && records[p].turn == turn
    && k < |records[p].blocks| && IsUseOf(records[p].blocks[k], tool)
  }

  /** The use of a tool call is shown by a turn in which it was made. */
  ghost predicate MadeThere(agent: Option<Span>, turns: seq<Span>, spans: seq<Span>, turn: Id, b: Block) {
    exists i: nat, tool :: MadeUse(agent, turns, spans, turn, b, i, tool)
  }

  ghost predicate MadeUse(
      agent: Option<Span>, turns: seq<Span>, spans: seq<Span>, turn: Id, b: Block, i: nat, tool: Span)
  {
    && i < |turns| && turns[i].id == turn && tool in spans && tool.kind.ToolCall?
    && MadeIn(agent, turns, i, tool) && IsUseOf(b, tool)
  }

  lemma MadeMembers(agent: Option<Span>, turns: seq<Span>, i: nat, tools: seq<Span>, at: seq<nat>, mine: seq<Span>)
    requires i < |turns| && AreMadeIn(agent, turns, i, tools, at, mine)
    ensures forall t :: t in mine <==> t in tools && MadeIn(agent, turns, i, t)
  {
    FiltersKeeps(tools, at, mine, t => MadeIn(agent, turns, i, t));
  }

  lemma UseInPart(part: seq<Record>, turn: Span, mine: seq<Span>, tool: Span) returns (p: nat, k: nat)
    requires ShowsTurn(part, turn, mine) && tool in mine
    ensures UseAt(part, p, k, turn.id, tool)
  {
    var words, uses, results :| IsTurn(part, turn, mine, words, uses, results);
    var m: nat :| m < |mine| && mine[m] == tool;
    p, k := |InputOf(turn)|, |words| + m;
    assert part[p] == Assistant(turn.id, words + uses);
    assert (words + uses)[k] == uses[m];
  }

  lemma UseFromPart(part: seq<Record>, turn: Span, mine: seq<Span>, r: Record, b: Block) returns (tool: Span)
    requires ShowsTurn(part, turn, mine) && r in part && r.Assistant? && b in r.blocks && b.ToolUse?
    ensures tool in mine && r.turn == turn.id && IsUseOf(b, tool)
  {
    var words, uses, results :| IsTurn(part, turn, mine, words, uses, results);
    assert r == Assistant(turn.id, words + uses);
    assert b in uses;
    var m: nat :| m < |uses| && uses[m] == b;
    tool := mine[m];
  }

  /** A stretch of records holds a use for each tool call made in the turn, and for no other. */
  ghost predicate HoldsUses(agent: Option<Span>, turns: seq<Span>, tools: seq<Span>, i: nat, part: seq<Record>)
    requires i < |turns|
  {
    && (forall tool :: tool in tools && MadeIn(agent, turns, i, tool) ==> HasUse(part, turns[i].id, tool))
    && (forall r, b :: r in part && r.Assistant? && b in r.blocks && b.ToolUse? ==>
          r.turn == turns[i].id && IsMadeUse(agent, turns, tools, i, b))
  }

  ghost predicate IsMadeUse(agent: Option<Span>, turns: seq<Span>, tools: seq<Span>, i: nat, b: Block)
    requires i < |turns|
  {
    exists tool :: tool in tools && MadeIn(agent, turns, i, tool) && IsUseOf(b, tool)
  }

  lemma PartHoldsUses(
      agent: Option<Span>, turns: seq<Span>, tools: seq<Span>, i: nat, part: seq<Record>, at: seq<nat>, mine: seq<Span>)
    requires i < |turns| && AreMadeIn(agent, turns, i, tools, at, mine) && ShowsTurn(part, turns[i], mine)
    ensures HoldsUses(agent, turns, tools, i, part)
  {
    MadeMembers(agent, turns, i, tools, at, mine);
    forall tool | tool in tools && MadeIn(agent, turns, i, tool) ensures HasUse(part, turns[i].id, tool) {
      var p, k := UseInPart(part, turns[i], mine, tool);
    }
    forall r, b | r in part && r.Assistant? && b in r.blocks && b.ToolUse?
      ensures r.turn == turns[i].id && IsMadeUse(agent, turns, tools, i, b)
    {
      var tool := UseFromPart(part, turns[i], mine, r, b);
    }
  }

  lemma StretchHoldsUses(
      agent: Option<Span>, turns: seq<Span>, tools: seq<Span>, records: seq<Record>, i: nat, from: nat, to: nat)
    requires i < |turns| && ShowsAt(agent, turns, tools, records, i, from, to)
    ensures HoldsUses(agent, turns, tools, i, records[from..to])
  {
    var at, mine :| AreMadeIn(agent, turns, i, tools, at, mine) && ShowsTurn(records[from..to], turns[i], mine);
    PartHoldsUses(agent, turns, tools, i, records[from..to], at, mine);
  }

  lemma UseInWhole(records: seq<Record>, from: nat, to: nat, turn: Id, tool: Span)
    requires from <= to <= |records| && HasUse(records[from..to], turn, tool)
    ensures HasUse(records, turn, tool)
  {
    var p, k :| UseAt(records[from..to], p, k, turn, tool);
    assert UseAt(records, from + p, k, turn, tool);
  }

  /** The stretch in which a record lies. */
  lemma {:induction false} StretchOf(starts: seq<nat>, p: nat, n: nat) returns (i: nat)
    requires n < |starts| && starts[0] <= p < starts[n]
    ensures i < n && starts[i] <= p < starts[i+1]
  {
    if starts[n-1] <= p {
      i := n - 1;
    } else {
      i := StretchOf(starts, p, n - 1);
    }
  }

  lemma NoAssistantBefore(records: seq<Record>, start: nat, p: nat)
    requires start <= |records| && p < |records| && records[p].Assistant?
    requires forall r :: r in records[..start] ==> r.Request?
    ensures start <= p
  {
    assert forall q :: 0 <= q < start ==> records[..start][q] in records[..start] && records[..start][q] == records[q];
  }

  lemma PickedMembers(spans: seq<Span>, kind: Kind, sorted: seq<Span>)
    requires InStartOrder(spans, kind, sorted)
    ensures forall s :: s in sorted <==> s in spans && s.kind == kind
  {
    var at, picked :| AreOfKind(spans, kind, at, picked) && SortedFrom(picked, sorted);
    FiltersKeeps(spans, at, picked, (s: Span) => s.kind == kind);
    forall s ensures s in sorted <==> s in picked {
      assert s in sorted <==> s in multiset(sorted);
      assert s in picked <==> s in multiset(picked);
    }
  }

  lemma MadeAreShown(
      agent: Option<Span>, turns: seq<Span>, tools: seq<Span>, records: seq<Record>, starts: seq<nat>, i: nat, tool: Span)
    requires LaidOut(agent, turns, tools, records, starts)
    requires i < |turns| && tool in tools && MadeIn(agent, turns, i, tool)
    ensures HasUse(records, turns[i].id, tool)
  {
    StretchHoldsUses(agent, turns, tools, records, i, starts[i], starts[i+1]);
    UseInWhole(records, starts[i], starts[i+1], turns[i].id, tool);
  }

  lemma ShownAreMade(
      agent: Option<Span>, turns: seq<Span>, tools: seq<Span>, records: seq<Record>, starts: seq<nat>, p: nat, b: Block)
    returns (i: nat)
    requires LaidOut(agent, turns, tools, records, starts)
    requires starts[0] <= p < |records| && records[p].Assistant? && b in records[p].blocks && b.ToolUse?
    ensures i < |turns| && records[p].turn == turns[i].id && IsMadeUse(agent, turns, tools, i, b)
  {
    i := StretchOf(starts, p, |turns|);
    StretchHoldsUses(agent, turns, tools, records, i, starts[i], starts[i+1]);
    var part := records[starts[i]..starts[i+1]];
    assert part[p-starts[i]] == records[p] && records[p] in part;
  }

  /**
   Every tool call made in a turn has its use in an assistant record of that turn, and every use shown is
   that of a tool call made in the turn of its record.
   */
  lemma ToolsAreShownWhereMade(agent: Option<Span>, spans: seq<Span>) returns (turns: seq<Span>)
    ensures InStartOrder(spans, LlmTurn, turns)
    ensures forall i: nat, tool ::
              i < |turns| && tool in spans && tool.kind.ToolCall? && MadeIn(agent, turns, i, tool)
              ==> HasUse(RecordsOf(agent, spans), turns[i].id, tool)
    ensures forall r, b ::
              r in RecordsOf(agent, spans) && r.Assistant? && b in r.blocks && b.ToolUse?
              ==> MadeThere(agent, turns, spans, r.turn, b)
  {
    var records := RecordsOf(agent, spans);
    var tools, starts;
    turns, tools, starts := RecordsAreLaidOut(agent, spans);
    PickedMembers(spans, ToolCall, tools);
    forall i: nat, tool | i < |turns| && tool in spans && tool.kind.ToolCall? && MadeIn(agent, turns, i, tool)
      ensures HasUse(records, turns[i].id, tool)
    {
      MadeAreShown(agent, turns, tools, records, starts, i, tool);
    }
    forall r, b | r in records && r.Assistant? && b in r.blocks && b.ToolUse?
      ensures MadeThere(agent, turns, spans, r.turn, b)
    {
      var p: nat :| p < |records| && records[p] == r;
      assert starts[0] <= p by { NoAssistantBefore(records, starts[0], p); }
      var i := ShownAreMade(agent, turns, tools, records, starts, p, b);
      var tool :| tool in tools && MadeIn(agent, turns, i, tool) && IsUseOf(b, tool);
      assert MadeUse(agent, turns, spans, r.turn, b, i, tool);
    }
  }
}
