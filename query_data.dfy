/** The SQL query tool of the data toolbox (`toolbox/data_toolbox/query_data.py`):
    the SQL is sanitised and executed, the rows become records, a non-empty
    result is saved as a CSV artifact and profiled in the workspace index. The
    database, pandas' CSV rendering and type inference, artifact storage and
    the clock are parameters. `_serialize_for_cell` and the row-to-record
    mapping are the ones of the MCP server (`McpServer.SerializeForCell`,
    `McpServer.Records`), which this file repeats.
    Source defect: the connection pool is imported as `POOL`
    (`query_data.py:11`), a name the database client module does not define
    (`db_clients.py:26` defines `_POOL`, reached through `get_pool()`); the
    database is a parameter here, so the intended pool is used. */
module QueryData {
  import opened Wrappers
  import opened Py
  import opened Json
  import opened Adk
  import opened StateIndex
  import McpServer

  const STATE_QUERY_RESULTS: string := "workspace:query_results"

  /** `len(utf_8_sig_bytes)`: the byte-order mark and the UTF-8 bytes. */
  function Utf8SigLength(s: string): (n: nat)
    ensures 3 + |s| <= n <= 3 + 4 * |s|
  {
    3 + Utf8Length(s)
  }

  /** `data_df.head(10).to_dict(orient="records")`: the first ten records, or
      all of them when fewer. */
  function SampleRows(records: seq<Json>): (rows: seq<Json>)
    ensures |rows| == if |records| < 10 then |records| else 10
    ensures rows == records[..|rows|]
  {
    if |records| < 10 then records else records[..10]
  }

  /** The outside effects of the tool: pandas' CSV text of the records, the
      column types pandas infers (or the exception's text), artifact storage
      (the version, or the exception's text), and the local time. */
  datatype Effects = Effects(
    toCsv: seq<Json> -> string,
    dtypes: seq<Json> -> Result<Dict, string>,
    save: (string, string) -> Result<Option<int>, string>,
    now: string)

  /** The profile of a saved result. The type and sample entries are added only
      when the types could be inferred; otherwise the failure is recorded. */
  function QueryProfile(filename: string, version: Option<int>, bytes: nat, now: string,
                        columns: seq<string>, records: seq<Json>, dtypes: Result<Dict, string>): (p: Dict)
    ensures "row_count" in p && p["row_count"] == Num(|records|)
    ensures "sample_rows" in p <==> dtypes.Success?
    ensures "sample_rows" in p ==> p["sample_rows"] == Arr(SampleRows(records))
    ensures "metadata_error" in p <==> dtypes.Failure?
  {
    var base := map[
      "filename" := Str(filename),
      "version" := VersionJson(version),
      "mime_type" := Str("text/csv"),
      "bytes" := Num(bytes),
      "timestamp" := Str(now),
      "row_count" := Num(|records|),
      "columns" := ColumnsJson(columns)];
    match dtypes
    case Success(types) => base["dtypes" := Obj(types)]["sample_rows" := Arr(SampleRows(records))]
    case Failure(e) => base["metadata_error" := Str(e)]
  }

  function ColumnsJson(columns: seq<string>): Json {
    Arr(seq(|columns|, i requires 0 <= i < |columns| => Str(columns[i])))
  }

  /** The success answer after saving: the row count, the columns and the
      sample rows of the profile (none when they could not be made). */
  function SavedAnswer(filename: string, version: Option<int>, columns: seq<string>, profile: Dict, n: nat): (d: Dict)
    ensures "status" in d && d["status"] == Str("success")
    ensures "row_count" in d && d["row_count"] == Num(n)
    ensures "sample_rows" in d && d["sample_rows"] == Get(profile, "sample_rows", Arr([]))
  {
    map[
      "status" := Str("success"),
      "message" := Str("Query executed successfully. " + IntToString(n) + " rows saved to artifact."),
      "filename" := Str(filename),
      "version" := VersionJson(version),
      "row_count" := Num(n),
      "columns" := ColumnsJson(columns),
      "sample_rows" := Get(profile, "sample_rows", Arr([]))]
  }

  /** The answer to a query that returned no rows. */
  function EmptyAnswer(columns: seq<string>): (d: Dict)
    ensures "status" in d && d["status"] == Str("success")
    ensures "row_count" in d && d["row_count"] == Num(0)
    ensures "sample_rows" !in d
  {
    map[
      "status" := Str("success"),
      "message" := Str("Query executed successfully but returned no results"),
      "row_count" := Num(0),
      "columns" := ColumnsJson(columns)]
  }

  /** `query_data(tool_context, sql_query, artifact_filename)`; `defaultName` is
      the timestamped name used when no file name is given. The sanitised SQL is
      what runs. A database failure is answered with an error and an empty result
      with a zero row count and the columns, neither saving nor touching the
      state; a failed save is answered with an error. Otherwise the result is
      profiled under its file name in the workspace index, with `row_count`
      the number of records and at most ten sample rows. */
  method Query(
    ctx: ToolContext, sqlQuery: string, artifactFilename: Option<string>, defaultName: string,
    execute: string -> McpServer.DbOutcome, fx: Effects)
    returns (d: Dict)
    modifies ctx
    ensures ctx.escalate == old(ctx.escalate)
    ensures "status" in d
    ensures var outcome := execute(McpServer.SerializeForCell(sqlQuery));
      && (outcome.DbFailed? ==> d == ErrorReply("Error executing SQL: " + outcome.error) && ctx.state == old(ctx.state))
      && (outcome.Fetched? && outcome.rows == [] ==> d == EmptyAnswer(outcome.columns) && ctx.state == old(ctx.state))
      && (outcome.Fetched? && outcome.rows != [] ==>
            var records := McpServer.Records(outcome.columns, outcome.rows);
            var filename := artifactFilename.GetOr(defaultName);
            var saved := fx.save(filename, fx.toCsv(records));
            if saved.Failure? then d == ErrorReply("Error saving artifact: " + saved.error) && ctx.state == old(ctx.state)
            else
              var profile := QueryProfile(filename, saved.value, Utf8SigLength(fx.toCsv(records)), fx.now,
                                          outcome.columns, records, fx.dtypes(records));
              && d == SavedAnswer(filename, saved.value, outcome.columns, profile, |outcome.rows|)
              && ctx.state == Upserted(old(ctx.state), STATE_QUERY_RESULTS, filename, Obj(profile)))
  {
    var filename := artifactFilename.GetOr(defaultName);
    var sql := McpServer.SerializeForCell(sqlQuery);
    var outcome := execute(sql);
    if outcome.DbFailed? {
      return ErrorReply("Error executing SQL: " + outcome.error);
    }
    var columns := outcome.columns;
    var records := McpServer.Records(columns, outcome.rows);
    if records == [] {
      return EmptyAnswer(columns);
    }
    var rowCount := |records|;
    var csvText := fx.toCsv(records);
    var saved := fx.save(filename, csvText);
    if saved.Failure? {
      return ErrorReply("Error saving artifact: " + saved.error);
    }
    var version := saved.value;
    var profile := QueryProfile(filename, version, Utf8SigLength(csvText), fx.now, columns, records, fx.dtypes(records));
    Upsert(ctx, STATE_QUERY_RESULTS, filename, Obj(profile));
    d := SavedAnswer(filename, version, columns, profile, rowCount);
  }

  /** A saved result answers with as many rows as were fetched and its first
      ten records as samples, whenever the column types could be inferred. */
  lemma SavedAnswerCounts(filename: string, version: Option<int>, bytes: nat, now: string,
                          columns: seq<string>, rows: seq<seq<Json>>, types: Dict)
    ensures var records := McpServer.Records(columns, rows);
      var profile := QueryProfile(filename, version, bytes, now, columns, records, Success(types));
      var d := SavedAnswer(filename, version, columns, profile, |rows|);
      && d["row_count"] == Num(|records|)
      && d["sample_rows"] == Arr(records[..if |rows| < 10 then |rows| else 10])
  {
  }
}
