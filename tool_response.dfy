/** The uniform tool result (`agents/custom_types/tool_response.py`): a status,
    a message and optional data, validated on construction like the pydantic
    models they are, and their dictionary and MCP renderings. */
module ToolResponse {
  import opened Wrappers
  import opened Py
  import opened Json

  /** `Literal["success", "error"]`. */
  datatype Status = SuccessStatus | ErrorStatus

  function StatusText(s: Status): string {
    match s
    case SuccessStatus => "success"
    case ErrorStatus => "error"
  }

  /** Validating the `status` field: exactly the two literal strings are accepted. */
  function ParseStatus(j: Json): (r: Result<Status, Exc>)
    ensures r.Success? <==> j == Str("success") || j == Str("error")
    ensures r.Success? ==> j == Str(StatusText(r.value))
  {
    if j == Str("success") then Success(SuccessStatus)
    else if j == Str("error") then Success(ErrorStatus)
    else Failure(ValueError("validation error: status must be 'success' or 'error'"))
  }

  /** `Literal["image", "markdown_table", "csv_table", "excel_table"]`. */
  datatype DataKind = Image | MarkdownTable | CsvTable | ExcelTable

  function KindText(k: DataKind): string {
    match k
    case Image => "image"
    case MarkdownTable => "markdown_table"
    case CsvTable => "csv_table"
    case ExcelTable => "excel_table"
  }

  predicate IsKindText(j: Json) {
    j == Str("image") || j == Str("markdown_table") || j == Str("csv_table") || j == Str("excel_table")
  }

  /** Validating the `type` field of `ToolResponseData`. */
  function ParseKind(j: Json): (r: Result<DataKind, Exc>)
    ensures r.Success? <==> IsKindText(j)
    ensures r.Success? ==> j == Str(KindText(r.value))
  {
    if j == Str("image") then Success(Image)
    else if j == Str("markdown_table") then Success(MarkdownTable)
    else if j == Str("csv_table") then Success(CsvTable)
    else if j == Str("excel_table") then Success(ExcelTable)
    else Failure(ValueError("validation error: unknown data type"))
  }

  /** `str | list[str] | list[dict] | dict`. */
  predicate ContentAllowed(j: Json) {
    match j
    case Str(_) => true
    case Obj(_) => true
    case Arr(items) =>
      (forall i :: 0 <= i < |items| ==> items[i].Str?) || (forall i :: 0 <= i < |items| ==> items[i].Obj?)
    case _ => false
  }

  /** A validated `ToolResponseData`. */
  datatype ResponseData = ResponseData(kind: DataKind, content: Json)

  /** `ToolResponseData(type=..., content=...)`: accepted exactly when the type is
      one of the four literals and the content has one of the four shapes; the
      content is kept as given. */
  function MakeResponseData(kind: Json, content: Json): (r: Result<ResponseData, Exc>)
    ensures r.Success? <==> IsKindText(kind) && ContentAllowed(content)
    ensures r.Success? ==> kind == Str(KindText(r.value.kind)) && r.value.content == content
  {
    var k :- ParseKind(kind);
    if ContentAllowed(content) then Success(ResponseData(k, content))
    else Failure(ValueError("validation error: content must be str, list[str], list[dict] or dict"))
  }

  /** `ToolResponseData.to_json()`. */
  function ResponseDataToJson(d: ResponseData): Dict {
    map["type" := Str(KindText(d.kind)), "content" := d.content]
  }

  /** Building a `ToolResponseData` from its own `to_json()` gives it back. */
  lemma ResponseDataRoundTrip(d: ResponseData)
    requires ContentAllowed(d.content)
    ensures MakeResponseData(ResponseDataToJson(d)["type"], ResponseDataToJson(d)["content"]) == Success(d)
  {
    match d.kind {
      case Image =>
      case MarkdownTable =>
      case CsvTable =>
      case ExcelTable =>
    }
  }

  /** The `data` field, `list[dict] | dict | ToolResponseData`, or left unset. A
      `ToolResponseData` instance is never passed in this code (only its
      `to_json()` dictionary is), so it does not appear. */
  datatype Payload = NoData | Records(rows: seq<Dict>) | Mapping(fields: Dict)

  /** Validating an explicitly passed `data` value. `None` is not among the
      accepted types, so passing it explicitly is a validation error. */
  function ParsePayload(j: Json): (r: Result<Payload, Exc>)
    ensures r.Success? <==> j.Obj? || (j.Arr? && forall i :: 0 <= i < |j.items| ==> j.items[i].Obj?)
    ensures r.Success? ==> r.value != NoData && PayloadJson(r.value) == j
  {
    match j
    case Obj(m) => Success(Mapping(m))
    case Arr(items) =>
      if forall i :: 0 <= i < |items| ==> items[i].Obj? then
        var rows := seq(|items|, i requires 0 <= i < |items| && items[i].Obj? => items[i].fields);
        assert Arr(seq(|rows|, i requires 0 <= i < |rows| => Obj(rows[i]))) == j;
        Success(Records(rows))
      else Failure(ValueError("validation error: data must be list[dict] or dict"))
    case _ => Failure(ValueError("validation error: data must be list[dict] or dict"))
  }

  /** The JSON value of the data (`None` when unset). */
  function PayloadJson(p: Payload): Json {
    match p
    case NoData => Null
    case Records(rows) => Arr(seq(|rows|, i requires 0 <= i < |rows| => Obj(rows[i])))
    case Mapping(m) => Obj(m)
  }

  datatype Response = Response(status: Status, message: string, data: Payload)

  /** `ToolResponse(status=..., message=..., data=...)`; `data` is `None` when the
      argument is not passed. Status and message are validated, then data. */
  function MakeToolResponse(status: Json, message: Json, data: Option<Json>): (r: Result<Response, Exc>)
    ensures r.Success? <==>
      (status == Str("success") || status == Str("error")) && message.Str? && (data.Some? ==> ParsePayload(data.value).Success?)
    ensures r.Success? ==> status == Str(StatusText(r.value.status)) && message == Str(r.value.message)
    ensures r.Success? ==> (r.value.data == NoData <==> data.None?)
    ensures r.Success? && data.Some? ==> PayloadJson(r.value.data) == data.value
  {
    var s :- ParseStatus(status);
    if !message.Str? then Failure(ValueError("validation error: message must be a string"))
    else if data.None? then Success(Response(s, message.s, NoData))
    else
      var p :- ParsePayload(data.value);
      Success(Response(s, message.s, p))
  }

  /** `ToolResponse.to_json()`: `model_dump(exclude_none=True)`, so the `data`
      key is present exactly when data was given. */
  function ToJson(t: Response): (d: Dict)
    ensures d.Keys == if t.data == NoData then {"status", "message"} else {"status", "message", "data"}
  {
    var base := map["status" := Str(StatusText(t.status)), "message" := Str(t.message)];
    if t.data == NoData then base else base["data" := PayloadJson(t.data)]
  }

  /** Rebuilding a response from its `to_json()` dictionary gives it back: the
      dictionary loses nothing. */
  lemma ToJsonRoundTrip(t: Response)
    ensures
      var d := ToJson(t);
      MakeToolResponse(d["status"], d["message"], if "data" in d then Some(d["data"]) else None) == Success(t)
  {
    var d := ToJson(t);
    match t.data {
      case NoData =>
      case Mapping(m) =>
        assert ParsePayload(d["data"]) == Success(t.data);
      case Records(rows) =>
        var j := PayloadJson(t.data);
        assert j.items == seq(|rows|, i requires 0 <= i < |rows| => Obj(rows[i]));
        var back := seq(|j.items|, i requires 0 <= i < |j.items| && j.items[i].Obj? => j.items[i].fields);
        assert back == rows;
    }
  }

  /** The MCP tool result: its text parts, the error flag and the structured content. */
  datatype McpResult = McpResult(content: seq<string>, isError: bool, structuredContent: Json)

  /** `to_mcp_result()`. The text parts are the message and then the JSON text of
      the data; `dumps` stands for `json.dumps(..., ensure_ascii=False)`, whose
      rendering of dictionaries depends on insertion order, which the model does
      not keep.
      Source defect: the code wraps the MCP text parts in a genai `Content`
      (`tool_response.py:31`), whose parts must be genai `Part`s, and hands that
      `Content` to `CallToolResult` as its content list; the intended result,
      a list of two text parts, is modelled. */
  function ToMcpResult(t: Response, dumps: Json -> string): (m: McpResult)
    ensures m.isError <==> t.status == ErrorStatus
    ensures |m.content| == 2 && m.content[0] == t.message && m.content[1] == dumps(m.structuredContent)
    ensures m.structuredContent == PayloadJson(t.data)
  {
    McpResult([t.message, dumps(PayloadJson(t.data))], t.status == ErrorStatus, PayloadJson(t.data))
  }

  /** The MCP rendering and the dictionary rendering agree: the error flag is the
      `status` key read as "error", and the structured content is the `data` key
      (`None` when that key is absent). */
  lemma McpAgreesWithJson(t: Response, dumps: Json -> string)
    ensures ToMcpResult(t, dumps).isError <==> ToJson(t)["status"] == Str("error")
    ensures ToMcpResult(t, dumps).structuredContent == Get(ToJson(t), "data", Null)
  {
  }
}
