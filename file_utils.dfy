/** Agent-side file handling (`agents/utils/file_utils.py`): the preview subset of
    a table, the after-tool callback that stores tool output as artifacts and
    records them in the ledger, and the before-model filter that strips inline
    data from a request. Artifact storage and the clock are parameters. */
module FileUtils {
  import opened Wrappers
  import opened Py
  import opened Json
  import opened Adk
  import opened StateManager
  import ToolResponse
  import McpServer
  import SqlGeneratorTools

  // ---------------------------------------------------------------------------
  // make_subset_data

  /** A data frame: column labels and rows of cells; `Null` stands for a
      missing value (`None` or NaN). */
  datatype Frame = Frame(columns: seq<string>, rows: seq<seq<Json>>)

  /** Every row has one cell per column. */
  predicate Rectangular(f: Frame) {
    forall i :: 0 <= i < |f.rows| ==> |f.rows[i]| == |f.columns|
  }

  /** Column `j` has no value in any row (so, vacuously, every column of a frame
      without rows). */
  predicate AllMissing(f: Frame, j: nat)
    requires Rectangular(f) && j < |f.columns|
  {
    forall i :: 0 <= i < |f.rows| ==> f.rows[i][j] == Null
  }

  /** The indices below `n` of the columns `dropna(axis=1, how="all")` keeps:
      ascending, and exactly those that hold a value somewhere. */
  function KeptColumns(f: Frame, n: nat): (idx: seq<nat>)
    requires Rectangular(f) && n <= |f.columns|
    ensures |idx| <= n
    ensures forall k :: 0 <= k < |idx| ==> idx[k] < n && !AllMissing(f, idx[k])
    ensures forall k, l :: 0 <= k < l < |idx| ==> idx[k] < idx[l]
    ensures forall j :: 0 <= j < n && !AllMissing(f, j) ==> j in idx
    decreases n
  {
    if n == 0 then []
    else if AllMissing(f, n - 1) then KeptColumns(f, n - 1)
    else KeptColumns(f, n - 1) + [n - 1]
  }

  /** `data_df.dropna(axis=1, how="all")`. */
  function DropEmptyColumns(f: Frame): (d: Frame)
    requires Rectangular(f)
    ensures Rectangular(d) && |d.rows| == |f.rows| && |d.columns| <= |f.columns|
  {
    var idx := KeptColumns(f, |f.columns|);
    Frame(
      seq(|idx|, k requires 0 <= k < |idx| => f.columns[idx[k]]),
      seq(|f.rows|, i requires 0 <= i < |f.rows| => seq(|idx|, k requires 0 <= k < |idx| => f.rows[i][idx[k]])))
  }

  /** The end of the Python slice `[:stop]` over `len` items: a negative stop
      counts from the end, and the result is clamped to `0..len`. */
  function SliceEnd(len: nat, stop: int): (e: nat)
    ensures e <= len
    ensures 0 <= stop ==> e == if stop < len then stop else len
  {
    if stop < 0 then (if len + stop < 0 then 0 else len + stop)
    else if stop < len then stop
    else len
  }

  function Min(a: int, b: int): int {
    if a < b then a else b
  }

  /** `make_subset_data(total_count, data_df)`, with `NUM_OF_DISPLAYED_DATA` as
      `numDisplayed`: the frame without its empty columns, and its first
      `min(numDisplayed, total_count)` rows restricted to its first seven
      columns. The second frame stands for its `to_dict()`. */
  function MakeSubsetData(totalCount: int, numDisplayed: int, f: Frame): (r: (Frame, Frame))
    requires Rectangular(f)
    ensures r.0 == DropEmptyColumns(f)
    ensures r.1.columns == r.0.columns[..Min(7, |r.0.columns|)]
    ensures |r.1.rows| == SliceEnd(|r.0.rows|, if totalCount > numDisplayed then numDisplayed else totalCount)
    ensures forall i :: 0 <= i < |r.1.rows| ==> r.1.rows[i] == r.0.rows[i][..|r.1.columns|]
  {
    var n := if totalCount > numDisplayed then numDisplayed else totalCount;
    var dropped := DropEmptyColumns(f);
    var width := Min(7, |dropped.columns|);
    var height := SliceEnd(|dropped.rows|, n);
    (dropped, Frame(dropped.columns[..width], seq(height, i requires 0 <= i < height => dropped.rows[i][..width])))
  }

  /** For a count that is a real row count, the preview has
      `min(numDisplayed, totalCount)` rows and at most seven columns, and the
      dropped frame keeps each column that has a value and none that has not. */
  lemma SubsetBounds(totalCount: int, numDisplayed: int, f: Frame)
    requires Rectangular(f) && 0 <= totalCount <= |f.rows| && 0 <= numDisplayed
    ensures var r := MakeSubsetData(totalCount, numDisplayed, f);
      && |r.1.rows| == Min(numDisplayed, totalCount)
      && |r.1.columns| <= 7
      && |r.0.columns| == |KeptColumns(f, |f.columns|)|
      && (f.rows == [] ==> r.0.columns == [])
  {
    if f.rows == [] {
      var idx := KeptColumns(f, |f.columns|);
      if idx != [] {
        assert AllMissing(f, idx[0]);
      }
    }
  }

  // ---------------------------------------------------------------------------
  // remove_non_text_part_from_llmrequest_before_model_callback

  /** The parts that carry no inline data, in their order. */
  function WithoutInlineData(parts: seq<Part>): (r: seq<Part>)
    ensures |r| <= |parts|
    ensures forall k :: 0 <= k < |r| ==> r[k].inlineData.None? && r[k] in parts
    ensures forall p :: p in parts && p.inlineData.None? ==> p in r
  {
    if parts == [] then []
    else if parts[0].inlineData.None? then [parts[0]] + WithoutInlineData(parts[1..])
    else WithoutInlineData(parts[1..])
  }

  /** Filtering respects concatenation (so the kept parts stay in order), and
      filtering twice is filtering once. */
  lemma {:induction false} WithoutInlineDataAppend(a: seq<Part>, b: seq<Part>)
    ensures WithoutInlineData(a + b) == WithoutInlineData(a) + WithoutInlineData(b)
    ensures WithoutInlineData(WithoutInlineData(a)) == WithoutInlineData(a)
    decreases |a|
  {
    if a != [] {
      assert (a + b)[1..] == a[1..] + b;
      WithoutInlineDataAppend(a[1..], b);
      if a[0].inlineData.None? {
        assert ([a[0]] + WithoutInlineData(a[1..]))[1..] == WithoutInlineData(a[1..]);
      }
    } else {
      assert a + b == b;
    }
  }

  /** A message with its inline-data parts removed. */
  function TextOnly(c: Content): Content {
    Content(c.role, WithoutInlineData(c.parts))
  }

  /** `remove_non_text_part_from_llmrequest_before_model_callback`: the request
      keeps as many messages as it had, in order, and each keeps exactly its
      parts without inline data. The callback returns `None`. */
  method RemoveNonTextPartFromLlmRequest(req: LlmRequest)
    modifies req
    ensures |req.contents| == |old(req.contents)|
    ensures forall i :: 0 <= i < |req.contents| ==> req.contents[i] == TextOnly(old(req.contents)[i])
  {
    var newContents: seq<Content> := [];
    var i := 0;
    while i < |req.contents|
      invariant 0 <= i <= |req.contents|
      invariant req.contents == old(req.contents)
      invariant |newContents| == i
      invariant forall k :: 0 <= k < i ==> newContents[k] == TextOnly(req.contents[k])
    {
      var content := req.contents[i];
      var newContent := Content(content.role, WithoutInlineData(content.parts));
      newContents := newContents + [newContent];
      i := i + 1;
    }
    req.contents := newContents;
  }

  // ---------------------------------------------------------------------------
  // save_file_artifact_after_tool_callback

  const CHART_TOOL: string := "generate_chart_from_data"
  const STATISTICS_TOOL: string := "anlyze_basic_statistics"
  const XLSX_MIME: string := "application/vnd.openxmlformats-officedocument.spreadsheetml.sheet"

  /** `mime_lookup_for_tool.get(tool_name)`. */
  function MimeForTool(toolName: string): Option<string> {
    if toolName == STATISTICS_TOOL then Some(XLSX_MIME)
    else if toolName == CHART_TOOL then Some("image/png")
    else None
  }

  /** Python's `repr` of a string: single quotes unless the text has a single
      quote and no double quote; backslashes, the chosen quote and the line
      controls are escaped, and the other characters Python does not print
      (the ASCII controls, U+007F to U+00A0 and U+00AD) become `\xNN`. Reading
      the literal back gives the text (`PyReprRoundTrip`). */
  function PyRepr(s: string): (r: string)
    ensures |r| >= 2 && r[0] == r[|r| - 1]
    ensures r[0] == (if '\'' in s && '"' !in s then '"' else '\'')
  {
    var q := if '\'' in s && '"' !in s then '"' else '\'';
    [q] + ReprBody(s, q) + [q]
  }

  /** A Latin-1 character Python's `repr` shows as a `\xNN` escape. */
  predicate HexEscaped(c: char) {
    c < ' ' || ('\U{7f}' <= c <= '\U{a0}') || c == '\U{ad}'
  }

  predicate IsLowerHex(c: char) {
    ('0' <= c <= '9') || ('a' <= c <= 'f')
  }

  /** The lower-case hexadecimal digit for a value below 16. */
  function HexChar(d: nat): char
    requires d < 16
  {
    if d < 10 then ('0' as int + d) as char else ('a' as int + d - 10) as char
  }

  /** The value of a lower-case hexadecimal digit (0 for any other character). */
  function HexValue(c: char): (d: nat)
    ensures d < 16
    ensures IsLowerHex(c) ==> HexChar(d) == c
  {
    if '0' <= c <= '9' then c as int - '0' as int
    else if 'a' <= c <= 'f' then c as int - 'a' as int + 10
    else 0
  }

  /** Two lower-case hexadecimal digits of a byte, most significant first. */
  function Hex2(n: nat): (r: string)
    requires n < 256
    ensures |r| == 2 && IsLowerHex(r[0]) && IsLowerHex(r[1])
    ensures 16 * HexValue(r[0]) + HexValue(r[1]) == n
  {
    [HexChar(n / 16), HexChar(n % 16)]
  }

  /** How `repr` shows one character inside quotes `q`. */
  function ReprChar(c: char, q: char): string {
    if c == '\\' then "\\\\"
    else if c == q then ['\\', q]
    else if c == '\n' then "\\n"
    else if c == '\r' then "\\r"
    else if c == '\t' then "\\t"
    else if HexEscaped(c) then "\\x" + Hex2(c as int)
    else [c]
  }

  function ReprBody(s: string, q: char): string {
    if s == [] then "" else ReprChar(s[0], q) + ReprBody(s[1..], q)
  }

  /** Reading the body of a Python string literal: `\n`, `\r`, `\t` and `\xNN`
      stand for the character they name, and a backslash before any other
      character (a backslash or a quote) for that character. */
  function Unescape(t: string): string
    decreases |t|
  {
    if t == [] then ""
    else if t[0] == '\\' && |t| >= 2 then
      var e := t[1];
      if e == 'x' && |t| >= 4 then [(16 * HexValue(t[2]) + HexValue(t[3])) as char] + Unescape(t[4..])
      else (if e == 'n' then "\n" else if e == 'r' then "\r" else if e == 't' then "\t" else [e]) + Unescape(t[2..])
    else [t[0]] + Unescape(t[1..])
  }

  /** One escaped character reads back as itself. */
  lemma UnescapeReprChar(c: char, q: char, rest: string)
    requires q == '\'' || q == '"'
    ensures Unescape(ReprChar(c, q) + rest) == [c] + Unescape(rest)
  {
    var t := ReprChar(c, q) + rest;
    if c == '\\' || c == q || c == '\n' || c == '\r' || c == '\t' {
      assert t[0] == '\\' && t[2..] == rest;
    } else if HexEscaped(c) {
      var h := Hex2(c as int);
      assert t[0] == '\\' && t[1] == 'x' && t[2] == h[0] && t[3] == h[1] && t[4..] == rest;
    } else {
      assert t[0] == c && t[1..] == rest;
    }
  }

  /** Reading back the body of a `repr` gives the text. */
  lemma {:induction false} ReprBodyRoundTrip(s: string, q: char)
    requires q == '\'' || q == '"'
    ensures Unescape(ReprBody(s, q)) == s
    decreases |s|
  {
    if s != [] {
      UnescapeReprChar(s[0], q, ReprBody(s[1..], q));
      ReprBodyRoundTrip(s[1..], q);
    }
  }

  /** `ast.literal_eval(repr(s)) == s`: between its quotes, a `repr` reads back
      as the text it shows. */
  lemma PyReprRoundTrip(s: string)
    ensures var r := PyRepr(s); Unescape(r[1..|r| - 1]) == s
  {
    var q := if '\'' in s && '"' !in s then '"' else '\'';
    var r := PyRepr(s);
    assert r[1..|r| - 1] == ReprBody(s, q);
    ReprBodyRoundTrip(s, q);
  }

  /** Printable ASCII text without a backslash or the quote is rendered as it is. */
  lemma ReprBodyPlain(s: string, q: char)
    requires forall i :: 0 <= i < |s| ==> ' ' <= s[i] <= '~' && s[i] != '\\' && s[i] != q
    ensures ReprBody(s, q) == s
  {
  }

  /** Plain text is rendered between single quotes. */
  lemma PyReprPlain(s: string)
    requires forall i :: 0 <= i < |s| ==> Plain(s[i])
    ensures PyRepr(s) == "'" + s + "'"
  {
    ReprBodyPlain(s, '\'');
  }

  /** `str(list_of_strings)`. */
  function PyListRepr(items: seq<string>): (r: string)
    ensures |r| >= 2 && r[0] == '[' && r[|r| - 1] == ']'
  {
    "[" + Join(", ", seq(|items|, i requires 0 <= i < |items| => PyRepr(items[i]))) + "]"
  }

  /** The chart file name as written: `f"{temp_file_name.split('.'[0])}.png"`.
      `'.'[0]` is just `'.'`, so the whole list of pieces is rendered. */
  function ChartFileNameAsWritten(name: string): (r: string)
    ensures |r| > 4 && r[0] == '[' && r[|r| - 4..] == ".png"
  {
    PyListRepr(Split(name, '.')) + ".png"
  }

  /** The chart file name as intended: the name up to its first dot, with a
      `.png` extension. It has exactly one dot, which starts the extension. */
  function ChartFileName(name: string): (r: string)
    ensures Split(r, '.') == [Split(name, '.')[0], "png"]
  {
    var stem := Split(name, '.')[0];
    SplitJoin([stem, "png"], '.');
    assert Join(".", [stem, "png"]) == stem + ".png";
    stem + ".png"
  }

  /** A printable ASCII character, other than a backslash, a single quote or a
      dot, which Python's `repr` shows as it is. */
  predicate Plain(c: char) {
    ' ' <= c <= '~' && c !in {'\\', '\'', '.'}
  }

  lemma ListReprTwo(x: string, y: string)
    ensures PyListRepr([x, y]) == "[" + PyRepr(x) + ", " + PyRepr(y) + "]"
  {
    var items := [x, y];
    var shown := seq(|items|, i requires 0 <= i < |items| => PyRepr(items[i]));
    assert shown == [PyRepr(x), PyRepr(y)];
    assert shown[1..] == [PyRepr(y)];
    assert Join(", ", shown) == PyRepr(x) + ", " + PyRepr(y);
  }

  /** A name with one dot between two dot-free parts splits into those parts. */
  lemma SplitAtDot(stem: string, ext: string)
    requires '.' !in stem && '.' !in ext
    ensures Split(stem + "." + ext, '.') == [stem, ext]
  {
    SplitJoin([stem, ext], '.');
    assert [stem, ext][1..] == [ext];
  }

  lemma Regroup(l: string, q: string, x: string, comma: string, y: string, r: string)
    ensures l + (q + x + q) + comma + (q + y + q) + r == (l + q) + x + (q + comma + q) + y + (q + r)
  {
  }

  /** For any name with one dot between plain parts, such as "chart.png", the
      file name as written is the list of both parts followed by ".png"
      ("['chart', 'png'].png"). */
  lemma ChartFileNameMismatch(stem: string, ext: string)
    requires forall i :: 0 <= i < |stem| ==> Plain(stem[i])
    requires forall i :: 0 <= i < |ext| ==> Plain(ext[i])
    ensures ChartFileNameAsWritten(stem + "." + ext) == "['" + stem + "', '" + ext + "'].png"
  {
    SplitAtDot(stem, ext);
    ListReprTwo(stem, ext);
    PyReprPlain(stem);
    PyReprPlain(ext);
    var q := "'";
    var open, mid, close := "['", "', '", "'].png";
    assert "[" + q == open && q + ", " + q == mid && q + ("]" + ".png") == close;
    calc {
      ChartFileNameAsWritten(stem + "." + ext);
      PyListRepr([stem, ext]) + ".png";
      "[" + (q + stem + q) + ", " + (q + ext + q) + "]" + ".png";
      { Regroup("[", q, stem, ", ", ext, "]" + ".png"); }
      ("[" + q) + stem + (q + ", " + q) + ext + (q + ("]" + ".png"));
      open + stem + mid + ext + close;
    }
  }

  /** The intended file name of the same input is its stem followed by ".png"
      ("chart.png"). */
  lemma ChartFileNameIntended(stem: string, ext: string)
    requires '.' !in stem && '.' !in ext
    ensures ChartFileName(stem + "." + ext) == stem + ".png"
  {
    SplitAtDot(stem, ext);
  }

  /** The argument the table record takes its SQL text from. Source defect:
      `file_utils.py:191` reads the misspelt key "sql_queery"; the intended
      "sql_query" is modelled. */
  const SQL_QUERY_ARG: string := "sql_query"

  /** A string argument as the optional SQL text of the table record. */
  function SqlArg(args: Dict): (r: Option<string>)
    ensures r.Some? <==> SQL_QUERY_ARG in args && args[SQL_QUERY_ARG].Str?
    ensures r.Some? ==> args[SQL_QUERY_ARG] == Str(r.value)
  {
    var q := Get(args, SQL_QUERY_ARG, Null);
    if q.Str? then Some(q.s) else None
  }

  /** The arguments of the pipeline's database tool, `query_bga_database(generated_sql)`. */
  function BgaQueryArgs(sql: string): Dict {
    map["generated_sql" := Str(sql)]
  }

  /** The SQL text is recorded for a tool whose argument is `sql_query`, as
      `query_data`'s is, and not for the pipeline's `query_bga_database`, whose
      argument is `generated_sql`: the tables it produces carry no SQL text. */
  lemma RecordedSql(sql: string)
    ensures SqlArg(map["sql_query" := Str(sql)]) == Some(sql)
    ensures SqlArg(BgaQueryArgs(sql)) == None
  {
  }

  /** What the callback decides from its inputs, before any effect. */
  datatype Step =
    | Raise(error: Exc)
      // an exception escapes before anything is saved
    | SaveTable(fileName: string, dataLength: nat, sqlQuery: Option<string>)
      // csv_table: save the CSV, record a table artifact, answer with a summary
    | SaveChart(fileName: string)
      // chart: save the image and record an image artifact; errors are swallowed
    | SaveReport(reportName: Json)
      // statistics: save the workbook, record nothing; errors are swallowed
    | Return(answer: Option<Dict>)
      // answer (None keeps the tool's own response) without saving

  function Reason(text: string): Dict {
    map["status" := Str("error"), "reason" := Str(text)]
  }

  /** The dispatch on the tool's name, reached when the response is not a
      `csv_table`. A failed chart leaves the file name unbound, so the save in the
      `try` block fails at once and is swallowed: the error status is returned. */
  function ToolDispatch(toolName: string, args: Dict, toolResponse: Dict): (s: Step)
    ensures toolName != CHART_TOOL && toolName != STATISTICS_TOOL ==> s == Return(None)
    ensures s.SaveChart? ==>
      toolName == CHART_TOOL && "filename" in args && args["filename"].Str? && s.fileName == ChartFileName(args["filename"].s)
    ensures s.SaveReport? ==> toolName == STATISTICS_TOOL && Get(toolResponse, "report_xlsx", Null) != Null
    ensures s.SaveTable? ==> false
  {
    if toolName == CHART_TOOL then
      match Subscript(Obj(toolResponse), "status")
      case Failure(e) => Raise(e)
      case Success(status) =>
        if status == Str("success") then
          match Subscript(Get(toolResponse, "data", Null), "img_data")
          case Failure(e) =>
            if "data" in toolResponse then Raise(e) else Raise(KeyError("data"))
          case Success(_) =>
            match Subscript(Obj(args), "filename")
            case Failure(e) => Raise(e)
            case Success(name) =>
              if name.Str? then SaveChart(ChartFileName(name.s))
              else Raise(AttributeError("object has no attribute 'split'"))
        else Return(Some(map["status" := Str("error")]))
    else if toolName == STATISTICS_TOOL then
      if Get(toolResponse, "report_xlsx", Null) == Null then
        Return(Some(Reason("tool_respone 안에 report_xlsx가 없습니다.")))
      else if Get(toolResponse, "file_name", Null) == Null then
        Return(Some(Reason("tool_response 안에 file_name가 없습니다.")))
      else SaveReport(toolResponse["file_name"])
    else Return(None)
  }

  /** The decision of `save_file_artifact_after_tool_callback`. A response with
      data must say its `type` (a ValueError otherwise); a `csv_table` is stored
      as a table whose length is its record count (a `None` record list is a
      ValueError); any other response goes to the dispatch on the tool's name.
      `timestamp` stands for the local time the CSV file is named after. */
  function Plan(toolName: string, args: Dict, toolResponse: Dict, timestamp: string): (s: Step)
    ensures s.SaveTable? ==> s.fileName == "output_data_" + timestamp + ".csv" && s.sqlQuery == SqlArg(args)
  {
    var data := Get(toolResponse, "data", Null);
    if data == Null then ToolDispatch(toolName, args, toolResponse)
    else if !data.Obj? then Raise(AttributeError("object has no attribute 'get'"))
    else if Get(data.fields, "type", Null) == Null then
      Raise(ValueError("Tool response data must have 'type' property"))
    else if Get(data.fields, "type", Null) == Str("csv_table") then
      var content := Get(data.fields, "content", Null);
      if !content.Obj? then Raise(AttributeError("object has no attribute 'get'"))
      else
        var records := Get(content.fields, "records", Arr([]));
        if records == Null then Raise(ValueError("Tool response data empty"))
        else if !records.Arr? then Raise(TypeError("records must be a list"))
        else SaveTable("output_data_" + timestamp + ".csv", |records.items|, SqlArg(args))
    else ToolDispatch(toolName, args, toolResponse)
  }

  /** The answer after a table is stored. */
  function TableAnswer(n: nat): Dict {
    ToolResponse.ToJson(ToolResponse.Response(
      ToolResponse.SuccessStatus,
      "Query successfully executed. Resulting " + IntToString(n)
        + " records stored in states. Notice user to check the attachment files.",
      ToolResponse.NoData))
  }

  /** A response without data from a tool the dispatch does not know is left
      alone, and data without a `type` raises a ValueError. */
  lemma PlanGuards(toolName: string, args: Dict, toolResponse: Dict, timestamp: string)
    ensures Get(toolResponse, "data", Null) == Null && toolName != CHART_TOOL && toolName != STATISTICS_TOOL ==>
      Plan(toolName, args, toolResponse, timestamp) == Return(None)
    ensures var data := Get(toolResponse, "data", Null);
      data.Obj? && Get(data.fields, "type", Null) == Null ==>
      Plan(toolName, args, toolResponse, timestamp).Raise? && Plan(toolName, args, toolResponse, timestamp).error.ValueError?
  {
  }

  /** A response carrying a `csv_table` of `records` is stored as one table of
      that many rows, named after the timestamp, whatever the tool. */
  lemma CsvTablePlan(toolName: string, args: Dict, toolResponse: Dict, timestamp: string, sql: string, records: seq<Json>)
    requires "data" in toolResponse && toolResponse["data"] == McpServer.CsvTable(sql, records)
    ensures Plan(toolName, args, toolResponse, timestamp) == SaveTable("output_data_" + timestamp + ".csv", |records|, SqlArg(args))
  {
    var data := toolResponse["data"];
    assert Get(data.fields, "type", Null) == Str("csv_table");
    assert Get(data.fields, "content", Null).fields["records"] == Arr(records);
  }

  /** What the SQL reviewer's callback decides for every answer of the database
      tool wrapper: a successful query is stored as exactly one table whose length
      is the number of fetched rows; a failed one is left alone. */
  lemma DbAnswerPlan(generatedSql: string, execute: string -> McpServer.DbOutcome, args: Dict, timestamp: string)
    ensures var answer := SqlGeneratorTools.Reply(McpServer.QueryBgaDatabase(generatedSql, execute));
      var outcome := execute(McpServer.SerializeForCell(generatedSql));
      && answer.Success?
      && (outcome.Fetched? ==>
            Plan("query_bga_database", args, answer.value, timestamp)
            == SaveTable("output_data_" + timestamp + ".csv", |outcome.rows|, SqlArg(args)))
      && (outcome.DbFailed? ==> Plan("query_bga_database", args, answer.value, timestamp) == Return(None))
  {
    SqlGeneratorTools.DbReplyKeepsData(generatedSql, execute);
    var d := McpServer.QueryBgaDatabase(generatedSql, execute);
    var answer := SqlGeneratorTools.Reply(d);
    var sql := McpServer.SerializeForCell(generatedSql);
    match execute(sql) {
      case Fetched(columns, rows) =>
        CsvTablePlan("query_bga_database", args, answer.value, timestamp, sql, McpServer.Records(columns, rows));
      case DbFailed(e) =>
        assert Get(answer.value, "data", Null) == Null;
    }
  }

  /** The `csv_table` branch: the CSV is saved, then recorded as a table in the
      ledger; a failed save or record escapes, and a failed save leaves the
      ledger as it was. */
  method StoreTable(name: string, n: nat, q: Option<string>, ctx: ToolContext, save: Json -> Result<nat, Exc>)
    returns (r: Result<Option<Dict>, Exc>)
    requires ctx.ledger.Valid()
    modifies ctx.ledger
    ensures ctx.ledger.Valid()
    ensures var a := MakeArtifact("table", ctx.invocation, name, "text/csv", None, Some(n), q);
      if save(Str(name)).Failure? then r == Failure(save(Str(name)).error) && ctx.ledger.view == old(ctx.ledger.view)
      else if a.Failure? then
        r == Failure(a.error) && ctx.ledger.view == Touched(old(ctx.ledger.slot).Some?, old(ctx.ledger.view), ctx.invocation.id)
      else r == Success(Some(TableAnswer(n))) && ctx.ledger.view == Appended(old(ctx.ledger.view), ctx.invocation.id, a.value)
  {
    var version := save(Str(name));
    if version.Failure? {
      return Failure(version.error);
    }
    var artifact := ctx.ledger.AddArtifact("table", ctx.invocation, name, "text/csv", None, Some(n), q);
    if artifact.Failure? {
      return Failure(artifact.error);
    }
    return Success(Some(TableAnswer(n)));
  }

  /** The chart branch: the image is saved, then recorded as an image in the
      ledger; every failure is swallowed and the answer is a success status. */
  method StoreChart(name: string, ctx: ToolContext, save: Json -> Result<nat, Exc>)
    returns (r: Result<Option<Dict>, Exc>)
    requires ctx.ledger.Valid()
    modifies ctx.ledger
    ensures ctx.ledger.Valid()
    ensures r == Success(Some(map["status" := Str("success")]))
    ensures var a := MakeArtifact("img", ctx.invocation, name, "image/png", None, None, None);
      && (save(Str(name)).Failure? ==> ctx.ledger.view == old(ctx.ledger.view))
      && (save(Str(name)).Success? && a.Failure? ==>
            ctx.ledger.view == Touched(old(ctx.ledger.slot).Some?, old(ctx.ledger.view), ctx.invocation.id))
      && (save(Str(name)).Success? && a.Success? ==> ctx.ledger.view == Appended(old(ctx.ledger.view), ctx.invocation.id, a.value))
  {
    var version := save(Str(name));
    if version.Success? {
      var artifact := ctx.ledger.AddArtifact("img", ctx.invocation, name, "image/png", None, None, None);
    }
    return Success(Some(map["status" := Str("success")]));
  }

  /** `save_file_artifact_after_tool_callback(tool, args, tool_response,
      tool_context)`. `save` stands for `tool_context.save_artifact` (the version,
      or the exception it raises). The CSV branch lets a failed save or record
      escape; the chart and report branches swallow them. Only the CSV and chart
      branches change the ledger, each by at most one artifact. */
  method SaveFileArtifactAfterToolCallback(
    toolName: string, args: Dict, toolResponse: Dict, ctx: ToolContext,
    timestamp: string, save: Json -> Result<nat, Exc>)
    returns (r: Result<Option<Dict>, Exc>)
    requires ctx.ledger.Valid()
    modifies ctx.ledger
    ensures ctx.ledger.Valid()
    ensures var step := Plan(toolName, args, toolResponse, timestamp);
      && (step.Raise? ==> r == Failure(step.error) && ctx.ledger.view == old(ctx.ledger.view))
      && (step.Return? ==> r == Success(step.answer) && ctx.ledger.view == old(ctx.ledger.view))
      && (step.SaveReport? ==> r == Success(Some(map["status" := Str("success")])) && ctx.ledger.view == old(ctx.ledger.view))
    ensures var step := Plan(toolName, args, toolResponse, timestamp);
      step.SaveTable? ==>
        var a := MakeArtifact("table", ctx.invocation, step.fileName, "text/csv", None, Some(step.dataLength), step.sqlQuery);
        if save(Str(step.fileName)).Failure? then r == Failure(save(Str(step.fileName)).error) && ctx.ledger.view == old(ctx.ledger.view)
        else if a.Failure? then
          r == Failure(a.error) && ctx.ledger.view == Touched(old(ctx.ledger.slot).Some?, old(ctx.ledger.view), ctx.invocation.id)
        else r == Success(Some(TableAnswer(step.dataLength))) && ctx.ledger.view == Appended(old(ctx.ledger.view), ctx.invocation.id, a.value)
    ensures var step := Plan(toolName, args, toolResponse, timestamp);
      step.SaveChart? ==>
        var a := MakeArtifact("img", ctx.invocation, step.fileName, "image/png", None, None, None);
        && r == Success(Some(map["status" := Str("success")]))
        && (save(Str(step.fileName)).Failure? ==> ctx.ledger.view == old(ctx.ledger.view))
        && (save(Str(step.fileName)).Success? && a.Failure? ==>
              ctx.ledger.view == Touched(old(ctx.ledger.slot).Some?, old(ctx.ledger.view), ctx.invocation.id))
        && (save(Str(step.fileName)).Success? && a.Success? ==>
              ctx.ledger.view == Appended(old(ctx.ledger.view), ctx.invocation.id, a.value))
  {
    var step := Plan(toolName, args, toolResponse, timestamp);
    match step {
      case Raise(e) =>
        return Failure(e);
      case Return(answer) =>
        return Success(answer);
      case SaveTable(name, n, q) =>
        r := StoreTable(name, n, q, ctx, save);
      case SaveChart(name) =>
        r := StoreChart(name, ctx, save);
      case SaveReport(name) =>
        var version := save(name);
        return Success(Some(map["status" := Str("success")]));
    }
  }
}
