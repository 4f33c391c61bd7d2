/** The agent-side wrappers of the SQL stage
    (`agents/sub_agents/data_search_agent/tools/sql_generator_tools.py`): the
    database tool wrapper, which copies escalation onto the context and rewraps
    the tool's data as a `ToolResponse`, and the before-model callback that
    injects reference documents into the SQL generator's request. */
module SqlGeneratorTools {
  import opened Wrappers
  import opened Py
  import opened Json
  import opened Constants
  import opened Adk
  import McpServer
  import ToolResponse

  /** The wrapper's answer to a tool result. An error carries status and message
      only. Otherwise a present `data` is rebuilt as `ToolResponseData(type,
      content)` and passed through its `to_json()`; absent data is passed as an
      explicit `None`, which the response model does not accept. */
  function Reply(result: Dict): (r: Result<Dict, Exc>)
    ensures r.Success? ==> "status" in r.value && r.value["status"] == Get(result, "status", Str("success"))
    ensures r.Success? && Get(result, "status", Str("success")) == Str("error") ==> "data" !in r.value
    ensures Get(result, "status", Str("success")) != Str("error") && !Truthy(Get(result, "data", Null)) ==> r.Failure?
  {
    var status := Get(result, "status", Str("success"));
    var message := Get(result, "message", Str(""));
    var data := Get(result, "data", Null);
    if status == Str("error") then
      var t :- ToolResponse.MakeToolResponse(status, message, None);
      Success(ToolResponse.ToJson(t))
    else if Truthy(data) then
      var kind :- Subscript(data, "type");
      var content :- Subscript(data, "content");
      var rd :- ToolResponse.MakeResponseData(kind, content);
      var t :- ToolResponse.MakeToolResponse(status, message, Some(Obj(ToolResponse.ResponseDataToJson(rd))));
      Success(ToolResponse.ToJson(t))
    else
      // the response model rejects an explicit `None` for data
      Failure(ToolResponse.MakeToolResponse(status, message, Some(Null)).error)
  }

  /** An error result is answered with its status and message and nothing else. */
  lemma ErrorReplyHasNoData(result: Dict)
    requires "status" in result && result["status"] == Str("error")
    requires "message" in result && result["message"].Str?
    ensures Reply(result) == Success(map["status" := Str("error"), "message" := result["message"]])
  {
  }

  /** A success result whose data is a valid `type`/`content` dictionary is
      answered with that data unchanged. */
  lemma SuccessReplyKeepsData(result: Dict, kind: ToolResponse.DataKind, content: Json)
    requires Get(result, "status", Str("success")) == Str("success")
    requires "message" in result && result["message"].Str?
    requires ToolResponse.ContentAllowed(content)
    requires "data" in result && result["data"] == Obj(map["type" := Str(ToolResponse.KindText(kind)), "content" := content])
    ensures Reply(result) == Success(map["status" := Str("success"), "message" := result["message"], "data" := result["data"]])
  {
    var data := result["data"];
    assert "type" in data.fields;
    assert Truthy(data);
    var rd := ToolResponse.ResponseData(kind, content);
    assert ToolResponse.MakeResponseData(Str(ToolResponse.KindText(kind)), content) == Success(rd);
    assert Obj(ToolResponse.ResponseDataToJson(rd)) == data;
    var t := ToolResponse.Response(ToolResponse.SuccessStatus, result["message"].s, ToolResponse.Mapping(data.fields));
    assert ToolResponse.MakeToolResponse(Str("success"), result["message"], Some(data)) == Success(t);
  }

  /** What the wrapper answers for every database outcome: it never raises; a
      failure is answered with the tool's error status and message and no data;
      a success keeps the tool's `csv_table` data exactly. */
  lemma DbReplyKeepsData(generatedSql: string, execute: string -> McpServer.DbOutcome)
    ensures var d := McpServer.QueryBgaDatabase(generatedSql, execute);
      && Reply(d).Success?
      && ("data" in Reply(d).value <==> execute(McpServer.SerializeForCell(generatedSql)).Fetched?)
      && ("data" in Reply(d).value ==> Reply(d).value["data"] == d["data"])
      && Reply(d).value["status"] == d["status"]
  {
    var d := McpServer.QueryBgaDatabase(generatedSql, execute);
    var sql := McpServer.SerializeForCell(generatedSql);
    match execute(sql) {
      case DbFailed(e) =>
        ErrorReplyHasNoData(d);
      case Fetched(columns, rows) =>
        var content := Obj(map["sql" := Str(sql), "records" := Arr(McpServer.Records(columns, rows))]);
        assert d["data"] == Obj(map["type" := Str("csv_table"), "content" := content]);
        SuccessReplyKeepsData(d, ToolResponse.CsvTable, content);
    }
  }

  /** `query_bga_database(generated_sql, tool_context)`: the escalate flag becomes
      set exactly when the tool's result carries escalate (on success), and is
      never cleared; the state is only read. */
  method QueryBgaDatabase(generatedSql: string, ctx: ToolContext, execute: string -> McpServer.DbOutcome)
    returns (r: Result<Dict, Exc>)
    modifies ctx
    ensures ctx.state == old(ctx.state)
    ensures ctx.escalate == (old(ctx.escalate) || McpServer.Escalates(McpServer.QueryBgaDatabase(generatedSql, execute)))
    ensures r == Reply(McpServer.QueryBgaDatabase(generatedSql, execute))
  {
    var result := McpServer.QueryBgaDatabase(generatedSql, execute);
    if McpServer.Escalates(result) {
      ctx.escalate := true;
    }
    r := Reply(result);
  }

  /** The number of documents the callback asks for. */
  const REFERENCE_COUNT: int := 15

  /** The retrieval the callback performs for an invocation: the text of the
      first part of the user's message is the single query. */
  function References(inv: StateManager.Invocation, simSearch: (seq<Option<string>>, int) -> Result<seq<seq<Option<string>>>, Exc>)
    : (r: Result<Dict, Exc>)
    ensures r.Success? ==> "reference_docs" in r.value && r.value["reference_docs"].Str?
    ensures r.Success? ==> Get(r.value, "status", Null) == Str("success")
  {
    if inv.userTexts == [] then Failure(IndexError("list index out of range"))
    else McpServer.GetSqlQueryReferences(inv.userTexts[0], REFERENCE_COUNT, simSearch)
  }

  /** The message injected into the request. */
  function RagContent(docsJson: string): Content {
    Content("user", [TextPart("Retrieved docs relevant to user query: " + docsJson)])
  }

  /** `get_sql_query_references_before_model_callback`: on a successful retrieval
      the documents' JSON text is stored under `COLUMN_NAMES_REF_DOCS_STATES` and
      exactly one user message is appended to the request, after the existing
      contents; otherwise neither is touched. It returns `None` (here
      `Success(())`) unless an exception escapes. */
  method GetSqlQueryReferencesBeforeModelCallback(
    ctx: ToolContext, req: LlmRequest,
    simSearch: (seq<Option<string>>, int) -> Result<seq<seq<Option<string>>>, Exc>)
    returns (r: Result<(), Exc>)
    modifies ctx, req
    ensures ctx.escalate == old(ctx.escalate)
    ensures var refs := References(ctx.invocation, simSearch);
      && (r.Success? <==> refs.Success?)
      && (refs.Success? ==>
            && ctx.state == old(ctx.state)[COLUMN_NAMES_REF_DOCS_STATES := refs.value["reference_docs"]]
            && req.contents == old(req.contents) + [RagContent(refs.value["reference_docs"].s)])
      && (refs.Failure? ==> ctx.state == old(ctx.state) && req.contents == old(req.contents))
  {
    var result := References(ctx.invocation, simSearch);
    if result.Failure? {
      return Failure(result.error);
    }
    if Get(result.value, "status", Null) == Str("success") {
      var docsJson := result.value["reference_docs"];
      ctx.state := ctx.state[COLUMN_NAMES_REF_DOCS_STATES := docsJson];
      req.contents := req.contents + [RagContent(docsJson.s)];
    }
    return Success(());
  }
}
