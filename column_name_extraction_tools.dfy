/** The agent-side wrapper of the column-extraction exit tool
    (`agents/sub_agents/data_search_agent/tools/column_name_extraction_tools.py`):
    it feeds the extracted column names from session state to the tool, copies
    the tool's escalation onto the context and answers with a `ToolResponse`. */
module ColumnNameExtractionTools {
  import opened Wrappers
  import opened Py
  import opened Json
  import opened Constants
  import opened Adk
  import McpServer
  import ToolResponse

  /** The column names the reviewer checks: the state entry, or `{"items": []}`
      when the state has none. */
  function CurrentColumnNames(state: Dict): (j: Json)
    ensures COLUMN_NAMES_STATES !in state ==> j == Obj(map["items" := Arr([])])
    ensures COLUMN_NAMES_STATES in state ==> j == state[COLUMN_NAMES_STATES]
  {
    Get(state, COLUMN_NAMES_STATES, Obj(map["items" := Arr([])]))
  }

  /** The wrapper's answer: a `ToolResponse` carrying the tool's status and
      message (defaults "success" and ""), and never any data. */
  function Reply(result: Dict): (r: Result<Dict, Exc>)
    ensures r.Success? ==> r.value.Keys == {"status", "message"}
    ensures r.Success? ==>
      && r.value["status"] == Get(result, "status", Str("success"))
      && r.value["message"] == Get(result, "message", Str(""))
    ensures r.Success? <==>
      (Get(result, "status", Str("success")) in {Str("success"), Str("error")} && Get(result, "message", Str("")).Str?)
  {
    var t :- ToolResponse.MakeToolResponse(Get(result, "status", Str("success")), Get(result, "message", Str("")), None);
    Success(ToolResponse.ToJson(t))
  }

  /** Whether a call of the wrapper in state `state` escalates. */
  predicate EscalatesIn(state: Dict) {
    var delegate := McpServer.ExitColumnExtractionLoop(CurrentColumnNames(state));
    delegate.Success? && McpServer.Escalates(delegate.value)
  }

  /** The tool answers whatever it is given with a status and message the
      wrapper accepts, so the wrapper raises only when the tool does; it
      escalates exactly when the state holds a non-empty `items`, and a state
      without column names does not escalate. */
  lemma ReplyAccepted(state: Dict)
    ensures var delegate := McpServer.ExitColumnExtractionLoop(CurrentColumnNames(state));
      delegate.Success? ==> Reply(delegate.value).Success?
    ensures EscalatesIn(state) <==> McpServer.HasItems(CurrentColumnNames(state))
    ensures COLUMN_NAMES_STATES !in state ==> !EscalatesIn(state)
  {
    var delegate := McpServer.ExitColumnExtractionLoop(CurrentColumnNames(state));
    if delegate.Success? {
      assert delegate.value["status"] in {Str("success"), Str("error")};
    }
  }

  /** `exit_column_extraction_loop(tool_context)`: the escalate flag becomes set
      exactly when the tool's result carries escalate, and is never cleared; the
      state is only read. */
  method ExitColumnExtractionLoop(ctx: ToolContext) returns (r: Result<Dict, Exc>)
    modifies ctx
    ensures ctx.state == old(ctx.state)
    ensures var delegate := McpServer.ExitColumnExtractionLoop(CurrentColumnNames(old(ctx.state)));
      && (delegate.Failure? ==> r == Failure(delegate.error) && ctx.escalate == old(ctx.escalate))
      && (delegate.Success? ==> r == Reply(delegate.value))
    ensures ctx.escalate == (old(ctx.escalate) || EscalatesIn(old(ctx.state)))
  {
    var result := McpServer.ExitColumnExtractionLoop(CurrentColumnNames(ctx.state));
    if result.Failure? {
      return Failure(result.error);
    }
    if McpServer.Escalates(result.value) {
      ctx.escalate := true;
    }
    r := Reply(result.value);
  }
}
