/** The tool implementations behind the data-search agent (`agents/mcp_server.py`):
    the column-extraction exit check, the database query with its row-to-record
    mapping, and the shaping of the reference-document search. The database
    and the vector store are parameters. */
module McpServer {
  import opened Wrappers
  import opened Py
  import opened Json

  const NBSP: char := '\U{a0}'

  /** `_serialize_for_cell`: every no-break space becomes a plain space and every
      other character is kept. */
  function SerializeForCell(s: string): (r: string)
    ensures |r| == |s|
    ensures forall i :: 0 <= i < |s| ==> r[i] == (if s[i] == NBSP then ' ' else s[i])
    ensures NBSP !in r
  {
    if s == [] then [] else [if s[0] == NBSP then ' ' else s[0]] + SerializeForCell(s[1..])
  }

  /** Sanitising twice is sanitising once, and text without a no-break space is
      left as it is. */
  lemma SerializeForCellIdempotent(s: string)
    ensures SerializeForCell(SerializeForCell(s)) == SerializeForCell(s)
    ensures NBSP !in s ==> SerializeForCell(s) == s
  {
  }

  /** `result.get("escalate")` read as a condition. */
  predicate Escalates(d: Dict) {
    "escalate" in d && Truthy(d["escalate"])
  }

  function StatusMessage(status: string, message: string): Dict {
    map["status" := Str(status), "message" := Str(message)]
  }

  /** The extracted column names are present: a dictionary whose `items` is a
      non-empty list (or other sized value). */
  predicate HasItems(columnNames: Json) {
    columnNames.Obj? && Len(Get(columnNames.fields, "items", Arr([]))).Success?
    && Len(Get(columnNames.fields, "items", Arr([]))).value != 0
  }

  /** `exit_column_extraction_loop`: an empty or falsy input, or one whose `items`
      is empty or missing, gives an error status and no escalation; otherwise the
      result is a success that escalates. A non-empty value that is not a
      dictionary has no `.get`, and `items` without a length has no `len`. */
  function ExitColumnExtractionLoop(columnNames: Json): (r: Result<Dict, Exc>)
    ensures r.Success? ==> (Escalates(r.value) <==> HasItems(columnNames))
    ensures r.Success? ==> "status" in r.value && r.value["status"] == Str(if HasItems(columnNames) then "success" else "error")
    ensures !Truthy(columnNames) ==> r.Success? && !Escalates(r.value)
    ensures columnNames.Obj? && "items" !in columnNames.fields ==> r.Success? && !Escalates(r.value)
    ensures r.Failure? <==>
      Truthy(columnNames) && (!columnNames.Obj? || Len(Get(columnNames.fields, "items", Arr([]))).Failure?)
  {
    if !Truthy(columnNames) then Success(StatusMessage("error", "Column name extraction required."))
    else if !columnNames.Obj? then Failure(AttributeError("object has no attribute 'get'"))
    else
      var n :- Len(Get(columnNames.fields, "items", Arr([])));
      if n == 0 then Success(StatusMessage("error", "Column name extraction required."))
      else Success(StatusMessage("success", "Column name extraction completed.")["escalate" := Bool(true)])
  }

  /** One fetched row as a record, `{k: v for k, v in zip(columns, row)}` over
      the first `n` pairs: every column name among them is a key, and its value
      is the row value at the last position carrying that name. */
  function RecordOf(columns: seq<string>, row: seq<Json>, n: nat): (r: Dict)
    requires n <= |columns| && n <= |row|
    ensures r.Keys == set i | 0 <= i < n :: columns[i]
    ensures forall i :: 0 <= i < n && (forall j :: i < j < n ==> columns[j] != columns[i]) ==>
      r[columns[i]] == row[i]
    decreases n
  {
    if n == 0 then map[] else RecordOf(columns, row, n - 1)[columns[n - 1] := row[n - 1]]
  }

  function Min(a: int, b: int): int {
    if a < b then a else b
  }

  /** `zip` pairs as many values as the shorter of the two sequences has. */
  function Record(columns: seq<string>, row: seq<Json>): Dict {
    RecordOf(columns, row, Min(|columns|, |row|))
  }

  /** When the column names are distinct and the row has a value per column,
      each column name maps to the value at its own position. */
  lemma RecordPositional(columns: seq<string>, row: seq<Json>, i: nat)
    requires |row| == |columns| && i < |columns|
    requires forall a, b :: 0 <= a < b < |columns| ==> columns[a] != columns[b]
    ensures columns[i] in Record(columns, row) && Record(columns, row)[columns[i]] == row[i]
  {
  }

  /** One record per fetched row, in order. */
  function Records(columns: seq<string>, rows: seq<seq<Json>>): (r: seq<Json>)
    ensures |r| == |rows|
    ensures forall i :: 0 <= i < |rows| ==> r[i] == Obj(Record(columns, rows[i]))
  {
    seq(|rows|, i requires 0 <= i < |rows| => Obj(Record(columns, rows[i])))
  }

  /** What executing a statement gives: the column names and the rows, or the
      text of the exception raised by the connection, cursor or statement. */
  datatype DbOutcome = Fetched(columns: seq<string>, rows: seq<seq<Json>>) | DbFailed(error: string)

  /** The `data` value of a successful query: a `csv_table` whose content holds
      the SQL that ran and its records. */
  function CsvTable(sql: string, records: seq<Json>): Json {
    Obj(map["type" := Str("csv_table"), "content" := Obj(map["sql" := Str(sql), "records" := Arr(records)])])
  }

  /** `query_bga_database`: the SQL is sanitised, then executed. A failure gives
      an error status with the exception text and nothing else; a success gives
      a `csv_table` of one record per row, holding the sanitised SQL, and
      escalates. */
  function QueryBgaDatabase(generatedSql: string, execute: string -> DbOutcome): (d: Dict)
    ensures "status" in d && "message" in d
    ensures d["status"] == Str("error") <==> execute(SerializeForCell(generatedSql)).DbFailed?
    ensures Escalates(d) <==> execute(SerializeForCell(generatedSql)).Fetched?
    ensures execute(SerializeForCell(generatedSql)).DbFailed? ==>
      d == StatusMessage("error", "Error while querying DB: " + execute(SerializeForCell(generatedSql)).error)
    ensures execute(SerializeForCell(generatedSql)).Fetched? ==>
      var out := execute(SerializeForCell(generatedSql));
      "data" in d && d["data"] == CsvTable(SerializeForCell(generatedSql), Records(out.columns, out.rows))
  {
    var sql := SerializeForCell(generatedSql);
    match execute(sql)
    case DbFailed(e) => StatusMessage("error", "Error while querying DB: " + e)
    case Fetched(columns, rows) =>
      StatusMessage("success", "SQL executed.")["data" := CsvTable(sql, Records(columns, rows))]["escalate" := Bool(true)]
  }

  /** `get_sql_query_references`. `simSearch` stands for `get_sim_search`: it
      queries the vector store with the given texts and yields, per query, the
      matching documents, or raises (it never returns a non-success status, so
      the error branch of the source is not reachable). The result carries the
      documents of the single query, their JSON text and their count. */
  function GetSqlQueryReferences(
    userInput: Option<string>, nResults: int,
    simSearch: (seq<Option<string>>, int) -> Result<seq<seq<Option<string>>>, Exc>): (r: Result<Dict, Exc>)
    ensures r.Success? <==> simSearch([userInput], nResults).Success? && simSearch([userInput], nResults).value != []
    ensures r.Success? ==>
      var docs := simSearch([userInput], nResults).value[0];
      && r.value.Keys == {"status", "message", "reference_docs", "documents"}
      && r.value["status"] == Str("success")
      && r.value["documents"] == StringsValue(docs)
      && r.value["reference_docs"] == Str(DumpStrings(docs))
      && r.value["message"] == Str("Retrieved " + IntToString(|docs|) + " reference documents")
      && Len(r.value["documents"]) == Success(|docs|)
  {
    var documents :- simSearch([userInput], nResults);
    if documents == [] then Failure(IndexError("list index out of range"))
    else
      var docs := documents[0];
      Success(map[
        "status" := Str("success"),
        "message" := Str("Retrieved " + IntToString(|docs|) + " reference documents"),
        "reference_docs" := Str(DumpStrings(docs)),
        "documents" := StringsValue(docs)])
  }
}
