/** The data search agent (`agents/sub_agents/data_search_agent/data_search_agent.py`):
    two producer/reviewer loops of at most three rounds each, run one after the
    other. The first extracts column names from the user's question and has them
    checked; the second writes SQL and has it run against the database.

    The loop itself is the agent framework's `LoopAgent`, which is not part of
    this model; it is modelled on values as an iteration with fuel over a
    producer/reviewer pair that stops once the reviewer escalates. What the
    language model says in each round is a parameter. The reviewers escalate
    through their tools (`ColumnNameExtractionTools.EscalatesIn`,
    `McpServer.QueryBgaDatabase`), and the SQL stage's artifact is what
    `FileUtils.Plan` decides for the tool's answer.

    Source defects:
    - the extractor's `output_key` is `BGA_COLUMN_NAMES_STATES`
      (`data_search_agent.py:70`) while the reviewer's tool reads
      `COLUMN_NAMES_STATES`; when those keys differ, the reviewer never sees
      the names and the loop always runs its three rounds
      (`ExtractionLoopAsWritten`). The intended key is `COLUMN_NAMES_STATES`
      (`ExtractionLoopIntended`).
    - the reference-document callback is imported (`data_search_agent.py:11`)
      but attached to no agent, so the SQL generator never receives the
      documents (`SqlLoopWithoutReferences`); its prompt reads the state key
      the callback fills, so the intended tree attaches it to the SQL
      generator as its before-model callback (`withReferences`). */
module DataSearchAgent {
  import opened Wrappers
  import opened Py
  import opened Json
  import opened Constants
  import StateManager
  import McpServer
  import ColumnNameExtractionTools
  import SqlGeneratorTools
  import FileUtils

  // ---------------------------------------------------------------- schema

  /** `ExtractedSingleColumnName`: one column name taken from the question. */
  datatype ExtractedSingleColumnName = ExtractedSingleColumnName(extractedColumnName: string)

  /** `ExtractedColumnNames`: the extractor's structured output. */
  datatype ExtractedColumnNames = ExtractedColumnNames(items: seq<ExtractedSingleColumnName>)

  /** The output as stored in the session state (`model_dump()`). */
  function ColumnNamesJson(names: ExtractedColumnNames): (j: Json)
    ensures McpServer.HasItems(j) <==> names.items != []
  {
    Obj(map["items" := Arr(ItemsJson(names.items))])
  }

  function ItemsJson(items: seq<ExtractedSingleColumnName>): (js: seq<Json>)
    ensures |js| == |items|
    decreases |items|
  {
    if items == [] then []
    else [Obj(map["extracted_column_name" := Str(items[0].extractedColumnName)])] + ItemsJson(items[1..])
  }

  /** Validating one item against the schema: a dictionary whose
      `extracted_column_name` is a string (other keys are ignored). */
  function ParseItem(j: Json): (r: Result<ExtractedSingleColumnName, Exc>)
    ensures r.Success? <==> j.Obj? && "extracted_column_name" in j.fields && j.fields["extracted_column_name"].Str?
  {
    if j.Obj? && "extracted_column_name" in j.fields && j.fields["extracted_column_name"].Str? then
      Success(ExtractedSingleColumnName(j.fields["extracted_column_name"].s))
    else Failure(ValueError("validation error for ExtractedSingleColumnName"))
  }

  function ParseItems(js: seq<Json>): (r: Result<seq<ExtractedSingleColumnName>, Exc>)
    ensures r.Success? ==> |r.value| == |js|
    decreases |js|
  {
    if js == [] then Success([])
    else
      var first :- ParseItem(js[0]);
      var rest :- ParseItems(js[1..]);
      Success([first] + rest)
  }

  /** Validating the extractor's output: a dictionary whose `items` is a list
      of valid items. */
  function ParseColumnNames(j: Json): (r: Result<ExtractedColumnNames, Exc>)
    ensures r.Success? ==> j.Obj? && "items" in j.fields && j.fields["items"].Arr?
    ensures r.Success? ==> |r.value.items| == |j.fields["items"].items|
  {
    if j.Obj? && "items" in j.fields && j.fields["items"].Arr? then
      var items :- ParseItems(j.fields["items"].items);
      Success(ExtractedColumnNames(items))
    else Failure(ValueError("validation error for ExtractedColumnNames"))
  }

  lemma {:induction false} ItemsRoundTrip(items: seq<ExtractedSingleColumnName>)
    ensures ParseItems(ItemsJson(items)) == Success(items)
    decreases |items|
  {
    if items != [] {
      ItemsRoundTrip(items[1..]);
      assert ItemsJson(items)[1..] == ItemsJson(items[1..]);
      assert [items[0]] + items[1..] == items;
    }
  }

  /** The stored output validates back to the same value. */
  lemma SchemaRoundTrip(names: ExtractedColumnNames)
    ensures ParseColumnNames(ColumnNamesJson(names)) == Success(names)
  {
    ItemsRoundTrip(names.items);
  }

  // ---------------------------------------------------------------- agents

  /** The agent tree as configured: a language-model agent with its state
      output key, structured output, tools and callbacks, a loop of sub-agents
      with a round limit, or a sequence of sub-agents. */
  datatype Agent =
    | Llm(name: string, outputKey: Option<string>, outputSchema: bool, tools: seq<string>,
          beforeModelCallbacks: seq<string>, afterToolCallbacks: seq<string>)
    | Loop(name: string, subAgents: seq<Agent>, maxIterations: nat)
    | Sequential(name: string, subAgents: seq<Agent>)

  const MAX_ITERATIONS: nat := 3

  const EXTRACTOR: string := "column_name_extractor"
  const COLUMN_REVIEWER: string := "column_name_reviewer"
  const SQL_GENERATOR: string := "sqk_generator"
  const SQL_REVIEWER: string := "sql_reviewer"

  /** The agent tree with the extractor writing to `outputKey` and, when
      `withReferences`, the reference-document callback on the SQL generator. */
  function DataSearchAgentTree(outputKey: string, withReferences: bool): (a: Agent)
    ensures a.Sequential? && |a.subAgents| == 2
    ensures forall i :: 0 <= i < 2 ==>
      a.subAgents[i].Loop? && a.subAgents[i].maxIterations == MAX_ITERATIONS && |a.subAgents[i].subAgents| == 2
  {
    var extractor := Llm(EXTRACTOR, Some(outputKey), true, [], [], []);
    var reviewer := Llm(COLUMN_REVIEWER, None, false, ["exit_column_extraction_loop"], [], []);
    var generator := Llm(SQL_GENERATOR, None, false, [],
                         if withReferences then ["get_sql_query_references_before_model_callback"] else [], []);
    var sqlReviewer := Llm(SQL_REVIEWER, None, false, ["query_bga_database"], [], ["save_file_artifact_after_tool_callback"]);
    Sequential("data_search_agent", [
      Loop("column_name_extraction_loop", [extractor, reviewer], MAX_ITERATIONS),
      Loop("sql_generation_loop_agent", [generator, sqlReviewer], MAX_ITERATIONS)])
  }

  /** In both loops the producer comes first and holds no tool, and the
      reviewer comes second and holds the one tool that can escalate; every SQL
      reviewer tool result passes through the artifact callback. */
  lemma OnlyReviewersHoldTools(outputKey: string, withReferences: bool)
    ensures var a := DataSearchAgentTree(outputKey, withReferences);
      forall i :: 0 <= i < 2 ==>
        var loop := a.subAgents[i];
        && loop.subAgents[0].Llm? && loop.subAgents[0].tools == []
        && loop.subAgents[1].Llm? && |loop.subAgents[1].tools| == 1
    ensures DataSearchAgentTree(outputKey, withReferences).subAgents[1].subAgents[1].afterToolCallbacks
      == ["save_file_artifact_after_tool_callback"]
  {
  }

  // ---------------------------------------------------------------- running

  /** What happens in a run: a producer's turn, or a reviewer's turn with the
      state it saw and whether its tool escalated. */
  datatype Event =
    | Produced(agent: string, round: nat)
    | Reviewed(agent: string, round: nat, seen: Dict, escalated: bool)

  /** A producer/reviewer pair: the producer's effect on the state in a round,
      and whether the reviewer escalates in a round given the state it sees. */
  datatype Pair = Pair(
    producer: string, reviewer: string,
    produce: (Dict, nat) -> Dict,
    review: (Dict, nat) -> bool)

  datatype LoopRun = LoopRun(state: Dict, events: seq<Event>)

  /** A loop with `fuel` rounds left, from round `round`: the producer, then the
      reviewer; the loop ends when the reviewer escalates or the rounds run out.
      Events alternate producer and reviewer, one round per pair; only the last
      event may escalate, and a loop that stops early stops on an escalation. */
  function RunLoop(p: Pair, state: Dict, round: nat, fuel: nat): (r: LoopRun)
    ensures |r.events| % 2 == 0 && |r.events| <= 2 * fuel
    ensures fuel > 0 ==> |r.events| >= 2
    ensures forall i :: 0 <= i < |r.events| ==>
      && r.events[i].round == round + i / 2
      && (r.events[i].Produced? <==> i % 2 == 0)
      && (r.events[i].Produced? ==> r.events[i].agent == p.producer)
      && (r.events[i].Reviewed? ==> r.events[i].agent == p.reviewer && r.events[i].escalated == p.review(r.events[i].seen, r.events[i].round))
    ensures |r.events| >= 2 ==> r.events[1].Reviewed? && r.events[1].seen == p.produce(state, round)
    ensures forall i :: 0 <= i < |r.events| && r.events[i].Reviewed? && r.events[i].escalated ==> i == |r.events| - 1
    ensures |r.events| < 2 * fuel ==> |r.events| >= 2 && r.events[|r.events| - 1].Reviewed? && r.events[|r.events| - 1].escalated
    decreases fuel
  {
    if fuel == 0 then LoopRun(state, [])
    else
      var produced := p.produce(state, round);
      var escalated := p.review(produced, round);
      var turn := [Produced(p.producer, round), Reviewed(p.reviewer, round, produced, escalated)];
      if escalated then LoopRun(produced, turn)
      else
        var rest := RunLoop(p, produced, round + 1, fuel - 1);
        LoopRun(rest.state, turn + rest.events)
  }

  /** Each reviewer after the first sees what the producer made of the state
      the previous reviewer saw, and the loop leaves the state the last
      reviewer saw (the state it was given when it ran no round). */
  lemma {:induction false} RunLoopThreadsState(p: Pair, state: Dict, round: nat, fuel: nat)
    ensures var r := RunLoop(p, state, round, fuel);
      && (forall i :: 3 <= i < |r.events| && i % 2 == 1 ==>
            r.events[i].Reviewed? && r.events[i - 2].Reviewed?
            && r.events[i].seen == p.produce(r.events[i - 2].seen, r.events[i].round))
      && (|r.events| == 0 ==> r.state == state)
      && (|r.events| >= 2 ==> r.events[|r.events| - 1].Reviewed? && r.state == r.events[|r.events| - 1].seen)
    decreases fuel
  {
    if fuel > 0 {
      var produced := p.produce(state, round);
      if !p.review(produced, round) {
        RunLoopThreadsState(p, produced, round + 1, fuel - 1);
        var rest := RunLoop(p, produced, round + 1, fuel - 1);
        var r := RunLoop(p, state, round, fuel);
        assert r.events == [Produced(p.producer, round), Reviewed(p.reviewer, round, produced, false)] + rest.events;
        forall i | 3 <= i < |r.events| && i % 2 == 1
          ensures r.events[i].Reviewed? && r.events[i - 2].Reviewed?
          ensures r.events[i].seen == p.produce(r.events[i - 2].seen, r.events[i].round)
        {
          assert r.events[i] == rest.events[i - 2];
          assert r.events[i - 2].Reviewed?;
          if i == 3 {
            assert r.events[i - 2].seen == produced;
          } else {
            assert r.events[i - 2] == rest.events[i - 4];
          }
        }
      }
    }
  }

  /** A property of the state that the producer keeps holds of every state a
      reviewer sees and of the final state. */
  lemma {:induction false} RunLoopPreserves(p: Pair, state: Dict, round: nat, fuel: nat, inv: Dict -> bool)
    requires inv(state)
    requires forall s, k :: inv(s) ==> inv(p.produce(s, k))
    ensures var r := RunLoop(p, state, round, fuel);
      && inv(r.state)
      && forall i :: 0 <= i < |r.events| && r.events[i].Reviewed? ==> inv(r.events[i].seen)
    decreases fuel
  {
    if fuel > 0 {
      var produced := p.produce(state, round);
      if !p.review(produced, round) {
        RunLoopPreserves(p, produced, round + 1, fuel - 1, inv);
        var rest := RunLoop(p, produced, round + 1, fuel - 1);
        var r := RunLoop(p, state, round, fuel);
        assert r.events == [Produced(p.producer, round), Reviewed(p.reviewer, round, produced, false)] + rest.events;
        forall i | 0 <= i < |r.events| && r.events[i].Reviewed?
          ensures inv(r.events[i].seen)
        {
          if i >= 2 {
            assert r.events[i] == rest.events[i - 2];
          }
        }
      }
    }
  }

  /** The column-name loop with the extractor writing its output under
      `outputKey`: in round `k` the model extracts `extract(k)`, and the
      reviewer calls the exit tool when `callsExit(k)`. */
  function ExtractionPair(outputKey: string, extract: nat -> ExtractedColumnNames, callsExit: nat -> bool): Pair {
    Pair(EXTRACTOR, COLUMN_REVIEWER,
      (s: Dict, k: nat) => s[outputKey := ColumnNamesJson(extract(k))],
      (s: Dict, k: nat) => callsExit(k) && ColumnNameExtractionTools.EscalatesIn(s))
  }

  /** The state the SQL generator leaves: with the reference-document callback
      (`attached`), the documents' JSON text under `COLUMN_NAMES_REF_DOCS_STATES`
      when retrieval succeeds; without it, the state as it was. */
  function WithReferences(s: Dict, inv: StateManager.Invocation,
                          simSearch: (seq<Option<string>>, int) -> Result<seq<seq<Option<string>>>, Exc>,
                          attached: bool): Dict {
    if !attached then s
    else
      var refs := SqlGeneratorTools.References(inv, simSearch);
      if refs.Success? then s[COLUMN_NAMES_REF_DOCS_STATES := refs.value["reference_docs"]] else s
  }

  /** The SQL loop: with `withReferences` (the intended wiring) the reference
      documents are retrieved before the generator's model call, and without
      it (the tree as written) the generator leaves the state alone; in round
      `k` the reviewer runs `sqlOf(k)` against the database when it is `Some`. */
  function SqlPair(inv: StateManager.Invocation,
                   simSearch: (seq<Option<string>>, int) -> Result<seq<seq<Option<string>>>, Exc>,
                   sqlOf: nat -> Option<string>, execute: string -> McpServer.DbOutcome,
                   withReferences: bool): Pair {
    Pair(SQL_GENERATOR, SQL_REVIEWER,
      (s: Dict, k: nat) => WithReferences(s, inv, simSearch, withReferences),
      (s: Dict, k: nat) => sqlOf(k).Some? && McpServer.Escalates(McpServer.QueryBgaDatabase(sqlOf(k).value, execute)))
  }

  datatype PipelineRun = PipelineRun(state: Dict, extraction: seq<Event>, sql: seq<Event>)

  /** The sequential agent: the column-name loop, then the SQL loop from the
      state the first one left, whatever its outcome. Each loop takes at most
      three rounds, and every event of the first loop comes before every event
      of the second. */
  function RunDataSearchAgent(state: Dict, extraction: Pair, sql: Pair): (r: PipelineRun)
    ensures |r.extraction| <= 2 * MAX_ITERATIONS && |r.sql| <= 2 * MAX_ITERATIONS
    ensures |r.extraction| >= 2 && |r.sql| >= 2
    ensures forall i :: 0 <= i < |r.extraction| ==> r.extraction[i].agent in {extraction.producer, extraction.reviewer}
    ensures forall i :: 0 <= i < |r.sql| ==> r.sql[i].agent in {sql.producer, sql.reviewer}
  {
    var first := RunLoop(extraction, state, 0, MAX_ITERATIONS);
    var second := RunLoop(sql, first.state, 0, MAX_ITERATIONS);
    PipelineRun(second.state, first.events, second.events)
  }

  /** As written, the extractor stores its output under
      `BGA_COLUMN_NAMES_STATES` and the reviewer's tool reads
      `COLUMN_NAMES_STATES`. Whenever those two keys differ (their values live
      in `agents/constants`, which is not part of this model), the output key
      is one the tool does not read. Starting from a state without the key the
      tool reads, the reviewer then never escalates, whatever is extracted, and
      the loop always runs all three rounds. */
  lemma ExtractionLoopAsWritten(outputKey: string, state: Dict, extract: nat -> ExtractedColumnNames, callsExit: nat -> bool)
    requires outputKey != COLUMN_NAMES_STATES
    requires COLUMN_NAMES_STATES !in state
    ensures var r := RunLoop(ExtractionPair(outputKey, extract, callsExit), state, 0, MAX_ITERATIONS);
      && |r.events| == 2 * MAX_ITERATIONS
      && forall i :: 0 <= i < |r.events| && r.events[i].Reviewed? ==> !r.events[i].escalated
  {
    var p := ExtractionPair(outputKey, extract, callsExit);
    var unread := (s: Dict) => COLUMN_NAMES_STATES !in s;
    RunLoopPreserves(p, state, 0, MAX_ITERATIONS, unread);
    var r := RunLoop(p, state, 0, MAX_ITERATIONS);
    forall i | 0 <= i < |r.events| && r.events[i].Reviewed?
      ensures !r.events[i].escalated
    {
      ColumnNameExtractionTools.ReplyAccepted(r.events[i].seen);
    }
  }

  /** With the intended output key, a first extraction that found names and a
      reviewer that calls the exit tool end the loop after one round. */
  lemma ExtractionLoopIntended(state: Dict, extract: nat -> ExtractedColumnNames, callsExit: nat -> bool)
    requires extract(0).items != [] && callsExit(0)
    ensures var r := RunLoop(ExtractionPair(COLUMN_NAMES_STATES, extract, callsExit), state, 0, MAX_ITERATIONS);
      |r.events| == 2 && r.events[1].Reviewed? && r.events[1].escalated
  {
    var p := ExtractionPair(COLUMN_NAMES_STATES, extract, callsExit);
    var seen := p.produce(state, 0);
    assert ColumnNameExtractionTools.CurrentColumnNames(seen) == ColumnNamesJson(extract(0));
    ColumnNameExtractionTools.ReplyAccepted(seen);
    assert p.review(seen, 0);
  }

  /** The database answered `sql`, and the artifact callback records the
      wrapped answer as a table of as many rows as were fetched. The tool was
      called as `query_bga_database(generated_sql=sql)`, so the record holds no
      SQL text. */
  predicate SavedAsTable(sql: string, execute: string -> McpServer.DbOutcome, timestamp: string) {
    var outcome := execute(McpServer.SerializeForCell(sql));
    var answer := SqlGeneratorTools.Reply(McpServer.QueryBgaDatabase(sql, execute));
    && outcome.Fetched?
    && answer.Success?
    && FileUtils.Plan("query_bga_database", FileUtils.BgaQueryArgs(sql), answer.value, timestamp)
       == FileUtils.SaveTable("output_data_" + timestamp + ".csv", |outcome.rows|, None)
  }

  /** The SQL reviewer escalates only on a query the database answered, and
      that answer is then saved as a table. */
  lemma EscalationSavesTable(sql: string, execute: string -> McpServer.DbOutcome, timestamp: string)
    requires McpServer.Escalates(McpServer.QueryBgaDatabase(sql, execute))
    ensures SavedAsTable(sql, execute, timestamp)
  {
    FileUtils.DbAnswerPlan(sql, execute, FileUtils.BgaQueryArgs(sql), timestamp);
    FileUtils.RecordedSql(sql);
  }

  /** The SQL loop ends early only on a query the database answered, saved as
      a table, whether or not the reference documents are retrieved. */
  lemma SqlLoopStopsOnTable(state: Dict, inv: StateManager.Invocation,
                            simSearch: (seq<Option<string>>, int) -> Result<seq<seq<Option<string>>>, Exc>,
                            sqlOf: nat -> Option<string>, execute: string -> McpServer.DbOutcome,
                            withReferences: bool, timestamp: string)
    ensures var r := RunLoop(SqlPair(inv, simSearch, sqlOf, execute, withReferences), state, 0, MAX_ITERATIONS);
      |r.events| < 2 * MAX_ITERATIONS ==>
        var k := r.events[|r.events| - 1].round;
        sqlOf(k).Some? && SavedAsTable(sqlOf(k).value, execute, timestamp)
  {
    var p := SqlPair(inv, simSearch, sqlOf, execute, withReferences);
    LastReviewEscalated(p, state, MAX_ITERATIONS);
    var r := RunLoop(p, state, 0, MAX_ITERATIONS);
    if |r.events| < 2 * MAX_ITERATIONS {
      var last := r.events[|r.events| - 1];
      EscalationSavesTable(sqlOf(last.round).value, execute, timestamp);
    }
  }

  /** A loop that stops before its cap stopped on a reviewer that escalated. */
  lemma LastReviewEscalated(p: Pair, state: Dict, fuel: nat)
    ensures var r := RunLoop(p, state, 0, fuel);
      |r.events| < 2 * fuel ==>
        var last := r.events[|r.events| - 1];
        last.Reviewed? && p.review(last.seen, last.round)
  {
  }

  /** As written, no agent carries the reference-document callback: every SQL
      reviewer sees the state the loop started from, so a state without the
      reference documents never gains them. */
  lemma SqlLoopWithoutReferences(state: Dict, inv: StateManager.Invocation,
                                 simSearch: (seq<Option<string>>, int) -> Result<seq<seq<Option<string>>>, Exc>,
                                 sqlOf: nat -> Option<string>, execute: string -> McpServer.DbOutcome)
    ensures var r := RunLoop(SqlPair(inv, simSearch, sqlOf, execute, false), state, 0, MAX_ITERATIONS);
      && r.state == state
      && forall i :: 0 <= i < |r.events| && r.events[i].Reviewed? ==> r.events[i].seen == state
  {
    var p := SqlPair(inv, simSearch, sqlOf, execute, false);
    RunLoopPreserves(p, state, 0, MAX_ITERATIONS, (s: Dict) => s == state);
  }
}
