/** What the rebuilt records show: every eligible tool use once, every result, every turn's own words. */
module TurnRecordsShown {
  import opened Wrappers
  import opened Sequences
  import opened TurnRecords

  // ---------- gathering from the records ----------

  /** What one turn's records give, record by record. */
  function GivenBy<U>(turn: Span, tools: seq<Span>, g: Record -> seq<U>): seq<U> {
    (if Shown(turn.input) then g(TurnInput(turn.id, turn.input.value)) else [])
    + g(Assistant(turn.id, Said(turn) + Uses(tools)))
    + (if ResultsOf(tools) != [] then g(Results(turn.id, ResultsOf(tools))) else [])
  }

  lemma TurnGives<U>(turn: Span, tools: seq<Span>, g: Record -> seq<U>)
    ensures Gather(TurnShown(turn, tools), g) == GivenBy(turn, tools, g)
  {
    var said := Assistant(turn.id, Said(turn) + Uses(tools));
    var input := if Shown(turn.input) then [TurnInput(turn.id, turn.input.value)] else [];
    var results := if ResultsOf(tools) != [] then [Results(turn.id, ResultsOf(tools))] else [];
    assert TurnShown(turn, tools) == input + [said] + results;
    GatherConcat(input + [said], results, g);
    GatherSnoc(input, said, g);
    if input != [] { GatherOne(input[0], g); }
    if results != [] { GatherOne(results[0], g); }
  }

  /** A turn with its tool calls. */
  type Sorted = (Span, seq<Span>)

  function ShownBy(t: Sorted): seq<Record> {
    TurnShown(t.0, t.1)
  }

  function OneWithTools(agent: Option<Span>, turns: seq<Span>, tools: seq<Span>, i: nat): Sorted
    requires i < |turns|
  {
    (turns[i], ToolsOf(agent, turns, i, tools))
  }

  /** The turns, each with its tool calls. */
  function WithTools(agent: Option<Span>, turns: seq<Span>, tools: seq<Span>): seq<Sorted> {
    seq(|turns|, i requires 0 <= i < |turns| => OneWithTools(agent, turns, tools, i))
  }

  function ToolsIn(t: Sorted): seq<Span> {
    t.1
  }

  function TurnIn(t: Sorted): seq<Span> {
    [t.0]
  }

  lemma FirstTurnsOneMore(agent: Option<Span>, turns: seq<Span>, tools: seq<Span>, n: nat)
    requires n < |turns|
    ensures FirstTurns(agent, turns, tools, n + 1)
         == FirstTurns(agent, turns, tools, n) + ShownBy(OneWithTools(agent, turns, tools, n))
  {
  }

  lemma AllToolsOneMore(agent: Option<Span>, turns: seq<Span>, tools: seq<Span>, n: nat)
    requires n < |turns|
    ensures AllTools(agent, turns, tools, n + 1)
         == AllTools(agent, turns, tools, n) + ToolsIn(OneWithTools(agent, turns, tools, n))
  {
  }

  lemma FirstTurnsGathered(agent: Option<Span>, turns: seq<Span>, tools: seq<Span>)
    ensures FirstTurns(agent, turns, tools, |turns|) == Gather(WithTools(agent, turns, tools), ShownBy)
  {
    var all := WithTools(agent, turns, tools);
    var sums := seq(|turns| + 1, i requires 0 <= i <= |turns| => FirstTurns(agent, turns, tools, i));
    forall i: nat | i < |all| ensures Adds(sums, all, ShownBy, i) { FirstTurnsOneMore(agent, turns, tools, i); }
    SumsAreGathered(sums, all, ShownBy, |all|);
    assert all[..|all|] == all;
  }

  lemma AllToolsGathered(agent: Option<Span>, turns: seq<Span>, tools: seq<Span>)
    ensures AllTools(agent, turns, tools, |turns|) == Gather(WithTools(agent, turns, tools), ToolsIn)
  {
    var all := WithTools(agent, turns, tools);
    var sums := seq(|turns| + 1, i requires 0 <= i <= |turns| => AllTools(agent, turns, tools, i));
    forall i: nat | i < |all| ensures Adds(sums, all, ToolsIn, i) { AllToolsOneMore(agent, turns, tools, i); }
    SumsAreGathered(sums, all, ToolsIn, |all|);
    assert all[..|all|] == all;
  }

  lemma TurnsGathered(agent: Option<Span>, turns: seq<Span>, tools: seq<Span>)
    ensures turns == Gather(WithTools(agent, turns, tools), TurnIn)
  {
    var all := WithTools(agent, turns, tools);
    var sums := seq(|turns| + 1, i requires 0 <= i <= |turns| => turns[..i]);
    SumsAreGathered(sums, all, TurnIn, |all|);
    assert all[..|all|] == all;
  }

  /** If each turn gives something for each of its tool calls, the turns give that for all tool calls. */
  lemma ToolsGive<U>(
      agent: Option<Span>, turns: seq<Span>, tools: seq<Span>, g: Record -> seq<U>, each: Span -> seq<U>, both: Sorted -> seq<U>)
    requires forall t :: Gather(ShownBy(t), g) == both(t) == Gather(ToolsIn(t), each)
    ensures Gather(FirstTurns(agent, turns, tools, |turns|), g) == Gather(AllTools(agent, turns, tools, |turns|), each)
  {
    var all := WithTools(agent, turns, tools);
    FirstTurnsGathered(agent, turns, tools);
    AllToolsGathered(agent, turns, tools);
    GatherGather(all, ShownBy, g, both);
    GatherGather(all, ToolsIn, each, both);
  }

  /** If each turn gives something of its own, the turns give that, in order. */
  lemma TurnsGive<U>(
      agent: Option<Span>, turns: seq<Span>, tools: seq<Span>, g: Record -> seq<U>, own: Span -> seq<U>, both: Sorted -> seq<U>)
    requires forall t :: Gather(ShownBy(t), g) == both(t) == Gather(TurnIn(t), own)
    ensures Gather(FirstTurns(agent, turns, tools, |turns|), g) == Gather(turns, own)
  {
    var all := WithTools(agent, turns, tools);
    FirstTurnsGathered(agent, turns, tools);
    TurnsGathered(agent, turns, tools);
    GatherGather(all, ShownBy, g, both);
    GatherGather(all, TurnIn, own, both);
  }

  lemma OpeningGivesNothing<U>(agent: Option<Span>, records: seq<Record>, g: Record -> seq<U>)
    requires forall r: Record :: r.Request? ==> g(r) == []
    ensures Gather(Opening(agent) + records, g) == Gather(records, g)
  {
    GatherConcat(Opening(agent), records, g);
    if Opening(agent) != [] { GatherOne(Opening(agent)[0], g); }
  }

  // ---------- tool uses ----------

  function UseBlock(b: Block): seq<Block> {
    if b.ToolUse? then [b] else []
  }

  function UsesIn(r: Record): seq<Block> {
    if r.Assistant? then Gather(r.blocks, UseBlock) else []
  }

  /** Every tool use of the assistant records, in order. */
  function ShownUses(records: seq<Record>): seq<Block> {
    Gather(records, UsesIn)
  }

  lemma UsesAreUses(tools: seq<Span>)
    ensures forall b :: b in Uses(tools) ==> b.ToolUse?
  {
    GatherMembers(tools, UseOf);
  }

  lemma SaidAreNoUses(turn: Span)
    ensures forall b :: b in Said(turn) ==> !b.ToolUse?
  {
  }

  lemma OnlyUsesAreUses(turn: Span, tools: seq<Span>)
    ensures Gather(Said(turn) + Uses(tools), UseBlock) == Uses(tools)
  {
    GatherConcat(Said(turn), Uses(tools), UseBlock);
    SaidAreNoUses(turn);
    GatherNothing(Said(turn), UseBlock);
    UsesAreUses(tools);
    GatherEach(Uses(tools), UseBlock);
  }

  function UsesBy(t: Sorted): seq<Block> {
    Uses(t.1)
  }

  lemma TurnShowsItsUses(t: Sorted)
    ensures Gather(ShownBy(t), UsesIn) == UsesBy(t) == Gather(ToolsIn(t), UseOf)
  {
    OnlyUsesAreUses(t.0, t.1);
    TurnGives(t.0, t.1, UsesIn);
  }

  /**
   The tool uses shown over all assistant records are exactly those of the eligible tool calls, each
   as often as it occurs: none is lost, none is shown in two turns.
   */
  lemma ShownUsesAreEligible(agent: Option<Span>, spans: seq<Span>)
    requires UniqueIds(spans)
    requires agent.Some? ==> forall s :: s in spans && s.kind.LlmTurn? ==> s.id != agent.value.id
    ensures var turns, tools := ByStart(Pick(spans, LlmTurn)), ByStart(Pick(spans, ToolCall));
            && ShownUses(RecordsOf(agent, spans)) == Uses(AllTools(agent, turns, tools, |turns|))
            && multiset(AllTools(agent, turns, tools, |turns|)) == EligibleTools(agent, turns, tools)
  {
    var turns, tools := ByStart(Pick(spans, LlmTurn)), ByStart(Pick(spans, ToolCall));
    TurnsAreReady(agent, spans);
    ToolsArePartitioned(agent, turns, tools);
    forall t ensures Gather(ShownBy(t), UsesIn) == UsesBy(t) == Gather(ToolsIn(t), UseOf) { TurnShowsItsUses(t); }
    ToolsGive(agent, turns, tools, UsesIn, UseOf, UsesBy);
    OpeningGivesNothing(agent, FirstTurns(agent, turns, tools, |turns|), UsesIn);
  }

  // ---------- tool results ----------

  function ResultsIn(r: Record): seq<ToolResult> {
    if r.Results? then r.results else []
  }

  /** Every tool result of the records, in order. */
  function ShownResults(records: seq<Record>): seq<ToolResult> {
    Gather(records, ResultsIn)
  }

  function ResultsBy(t: Sorted): seq<ToolResult> {
    ResultsOf(t.1)
  }

  lemma TurnShowsItsResults(t: Sorted)
    ensures Gather(ShownBy(t), ResultsIn) == ResultsBy(t) == Gather(ToolsIn(t), ResultOf)
  {
    TurnGives(t.0, t.1, ResultsIn);
  }

  /** The results shown are those of the assigned tool calls that have an output, in the order of their uses. */
  lemma ShownResultsAreComplete(agent: Option<Span>, spans: seq<Span>)
    ensures var turns, tools := ByStart(Pick(spans, LlmTurn)), ByStart(Pick(spans, ToolCall));
            ShownResults(RecordsOf(agent, spans)) == ResultsOf(AllTools(agent, turns, tools, |turns|))
  {
    var turns, tools := ByStart(Pick(spans, LlmTurn)), ByStart(Pick(spans, ToolCall));
    forall t ensures Gather(ShownBy(t), ResultsIn) == ResultsBy(t) == Gather(ToolsIn(t), ResultOf) { TurnShowsItsResults(t); }
    ToolsGive(agent, turns, tools, ResultsIn, ResultOf, ResultsBy);
    OpeningGivesNothing(agent, FirstTurns(agent, turns, tools, |turns|), ResultsIn);
  }

  // ---------- the turns' own words ----------

  function WordBlock(b: Block): seq<Block> {
    if b.ToolUse? then [] else [b]
  }

  /** What an assistant record says apart from its tool uses, and for which turn. */
  function SayingIn(r: Record): seq<(Id, seq<Block>)> {
    if r.Assistant? then [(r.turn, Gather(r.blocks, WordBlock))] else []
  }

  function Sayings(records: seq<Record>): seq<(Id, seq<Block>)> {
    Gather(records, SayingIn)
  }

  function SaidIn(turn: Span): seq<(Id, seq<Block>)> {
    [(turn.id, Said(turn))]
  }

  lemma WordsAreSaid(turn: Span, tools: seq<Span>)
    ensures Gather(Said(turn) + Uses(tools), WordBlock) == Said(turn)
  {
    GatherConcat(Said(turn), Uses(tools), WordBlock);
    SaidAreNoUses(turn);
    GatherEach(Said(turn), WordBlock);
    UsesAreUses(tools);
    GatherNothing(Uses(tools), WordBlock);
  }

  function SaidBy(t: Sorted): seq<(Id, seq<Block>)> {
    SaidIn(t.0)
  }

  lemma TurnSays(t: Sorted)
    ensures Gather(ShownBy(t), SayingIn) == SaidBy(t) == Gather(TurnIn(t), SaidIn)
  {
    WordsAreSaid(t.0, t.1);
    TurnGives(t.0, t.1, SayingIn);
    GatherOne(t.0, SaidIn);
  }

  /** Each turn has one assistant record, in the order of the turns, that says the turn's thinking and text. */
  lemma EachTurnSpeaksOnce(agent: Option<Span>, spans: seq<Span>)
    ensures Sayings(RecordsOf(agent, spans)) == Gather(ByStart(Pick(spans, LlmTurn)), SaidIn)
  {
    var turns, tools := ByStart(Pick(spans, LlmTurn)), ByStart(Pick(spans, ToolCall));
    forall t ensures Gather(ShownBy(t), SayingIn) == SaidBy(t) == Gather(TurnIn(t), SaidIn) { TurnSays(t); }
    TurnsGive(agent, turns, tools, SayingIn, SaidIn, SaidBy);
    OpeningGivesNothing(agent, FirstTurns(agent, turns, tools, |turns|), SayingIn);
  }
}
