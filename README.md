# agent-adk-data-search, modelled in Dafny

This project models the deterministic core of `agent-adk-data-search`, an
agent pipeline built on the Google Agent Development Kit (ADK). The pipeline
answers a natural-language data question in two stages:

1. a producer/reviewer loop extracts the column names the question mentions;
2. a second producer/reviewer loop writes SQL and runs it against PostgreSQL.

Each loop runs at most three rounds. Whatever a tool produces (a CSV table,
a chart) is saved as an artifact and recorded in a per-invocation ledger kept
in the session state.

The model covers these parts of the code:
- **Artifact ledger**: `StateManager.Ledger`, with the records it holds (`DataState`).
- **Tools and their ADK wrappers** that drive the loops' escalation: `McpServer`, `ColumnNameExtractionTools`, `SqlGeneratorTools`.
- **Agent tree and loop runs**: `DataSearchAgent`.
- **Tool-result shaping**: `ToolResponse`, `QueryData`, `SearchSimilarColumns`, `StateIndex`.
- **Callbacks** that store tool output and strip inline data from model requests: `FileUtils`.
- **Artifact and resource path and MIME resolution**: `PathResolver`.
- **Small utilities**: reading a fenced JSON answer (`ModelCommunication`), the dotted-tag prompt lookup (`PromptUtils`), and the PostgreSQL connection string and pools (`DbClients`, `DatabaseUtils`).

Python values that tools exchange are `Json.Json`: dictionaries, lists, strings,
numbers, `None`. Python exceptions are the `Failure` side of a `Result`.

Things outside the code are parameters of the operations that use them:
- the language model's outputs;
- the database and the vector store;
- the embedding service;
- artifact storage;
- the clock;
- JSON and YAML parsing;
- pandas' CSV rendering.

Module-level globals and objects that the code updates in place are classes:
- the ledger (`StateManager.Ledger`);
- the tool context (`Adk.ToolContext`);
- the model request (`Adk.LlmRequest`);
- the pools (`DbClients.Clients`, `DatabaseUtils.Database`).

The ADK `LoopAgent` is not part of the repository. It is modelled as a
producer/reviewer iteration with fuel `MAX_ITERATIONS` that stops when the
reviewer escalates (`DataSearchAgent.RunLoop`).

## Source defects and how they are modelled

Several spots in the source cannot run as written. The model follows the
evidently intended behaviour at each of them, and a comment at the
corresponding Dafny declaration marks the divergence.

- `agents/utils/state_manager_utils.py:120` reads `tool_context.State`. The model reads `state`.
- `agents/custom_types/data_state.py:57` constructs `TableArtifact`, which is never defined. The model uses the defined class, `TabularArtifact`.
- `agents/custom_types/data_state.py:45` calls `artifacts.to_json()` inside a loop over `artifact`. The model converts each artifact.
- `agents/custom_types/data_state.py:12` declares `function_call_id` as a required string, yet tables are recorded with `None`. The model makes it optional.
- `toolbox/utils/path_resolver.py:20,31`: `version` is used where the parameter is named `versions`.
- `toolbox/utils/path_resolver.py:128,130`: the URI is bound to `url`, but `uri` is returned.
- `toolbox/utils/path_resolver.py:146` calls `abs_path, parent.mkdir`. The model uses `abs_path.parent.mkdir`.
- `agents/utils/model_communication_utils.py:7,23`: the parameter is named `test`, but the body reads `text`.
- `agents/utils/prompt_utils.py:26` opens the prompt file with the encoding `'utr-8'`.
- `toolbox/data_toolbox/query_data.py:11` imports `POOL`, which `toolbox/data_toolbox/utils/db_clients.py:26` does not define. The database is a parameter in the model.
- `agents/utils/file_utils.py:191` reads the argument `"sql_queery"`. The model reads `"sql_query"`.
- `agents/custom_types/tool_response.py:31` wraps the MCP text parts in a genai `Content`. The model returns a list of two text parts.
- `agents/sub_agents/data_search_agent/data_search_agent.py:11` imports the reference-document callback but attaches it to no agent. The SQL loop is modelled both ways (`SqlPair`'s `withReferences`). As written, the generator never receives the documents (`SqlLoopWithoutReferences`). As intended, the callback is the SQL generator's, whose prompt reads the state key it fills.
- `agents/sub_agents/data_search_agent/data_search_agent.py:70` and `agents/utils/file_utils.py:208`: see "## Findings".

Reference retrieval (`agents/mcp_server.py:184-214`) sends only the raw user text, with
`n_results=15`, and keeps the first query's documents.

## Model

| member | source | states |
|---|---|---|
| DataState.ArtifactToJson | agents/custom_types/data_state.py:15-16 | `to_json` writes the type tag, file name, MIME type and user query, and writes each optional field (call id, image size, SQL text, data length) exactly when it is set; no entry is `None` (`exclude_none`) |
| DataState.ArtifactFromJson | agents/custom_types/data_state.py:5-35 | Building an artifact from a dict succeeds only with the required string fields present; the decoded kind is Img exactly for tag "img" and Table exactly for "table", and file name and user query are the dict's; the `int` fields are read in pydantic's lax mode (`OptionalInt`, `OptionalSize`) |
| DataState.LaxInt | agents/custom_types/data_state.py:27-35 | pydantic's lax `int`: a float validates exactly when it has no fractional part and then gives its value; a string only when it is not blank; `None`, lists and dicts never |
| DataState.LaxIntReadsBack | agents/custom_types/data_state.py:27-35 | An integer validates back to itself from an int, from the equal float and from its decimal text `str(n)`, with or without surrounding whitespace |
| DataState.IntTextReadsBack | agents/custom_types/data_state.py:35 | `int(str(n)) == n` for every integer, negative ones included |
| DataState.OptionalInt | agents/custom_types/data_state.py:35 | `data_length` validates exactly when it is absent, `None` or a lax `int`, and then holds that integer |
| DataState.OptionalSize | agents/custom_types/data_state.py:27 | `img_size`, when given, is a two-element list whose items are lax `int`s, held in order |
| DataState.DecodeItems | agents/custom_types/data_state.py:51-59 | Decoding a list of entries succeeds exactly when every entry decodes, and then gives one artifact per entry, in order |
| DataState.DecodeItem | agents/custom_types/data_state.py:52-57 | One list entry: a dict is decoded as an artifact, anything else has no `.get` (AttributeError) |
| DataState.DecodeItemsFirstFailure | agents/custom_types/data_state.py:52-59 | The loop stops at the first entry that does not decode, with that entry's error |
| DataState.DecodeAppState | agents/custom_types/data_state.py:48-60 | A dict without "artifacts" decodes to the empty state; a decoded list keeps the number of entries |
| DataState.AppStateFromJson | agents/custom_types/data_state.py:48-60 | The `from_json` loop appends the decoded artifacts in order and computes exactly the decoding function |
| DataState.AppStateToJson | agents/custom_types/data_state.py:43-46 | `to_json` has the single key "artifacts", a list with one dict per artifact |
| DataState.ArtifactRoundTrip | agents/custom_types/data_state.py:15-20 | An img or table artifact decodes from its own `to_json` back to itself |
| DataState.AppStateRoundTrip | agents/custom_types/data_state.py:43-60 | `from_json(to_json(s)) == s` for every state whose artifacts are img or table |
| StateManager.MakeArtifact | agents/utils/state_manager_utils.py:72-97 | A missing user message is an IndexError; a type other than "img"/"table" is a ValueError; an img gets the context's call id when it is set and non-empty, and `user_input_from_invocation_<id>` otherwise; a table keeps the given call id, SQL text and data length; file name, MIME type and user query are the given ones |
| StateManager.Appended | agents/utils/state_manager_utils.py:99-101 | Appending adds the artifact at the end of that invocation's list (starting from an empty state when the id is new) and leaves every other invocation's entry as it was |
| StateManager.AppendAll | agents/utils/state_manager_utils.py:99-101 | Several artifacts recorded one after the other for one invocation; what it gives is stated by `AppendAllAccumulates` |
| StateManager.AppendAllAccumulates | agents/utils/state_manager_utils.py:99-101 | Repeated appends under one id leave that entry's list as the old list followed by the new artifacts in order, and no other entry changes |
| StateManager.Initialized | agents/utils/state_manager_utils.py:27-31 | Initialising adds the id when it is missing and keeps every existing entry unchanged |
| StateManager.Touched | agents/utils/state_manager_utils.py:27-31 | The decoded ledger after `_initialize_state`: the id gains an empty state only when the ledger is stored (used in `Ledger.InitializeState`) |
| StateManager.MirrorsStore | agents/utils/state_manager_utils.py:100-101 | Storing one state's `to_json` keeps the stored dicts in step with the decoded ledger |
| StateManager.ReadBack | agents/utils/state_manager_utils.py:68 | Reading back a stored entry with `from_json` gives exactly the state that was written |
| StateManager.Ledger.constructor | agents/utils/state_manager_utils.py:27 | A session state without the ledger key holds no invocations |
| StateManager.Ledger.InitializeState | agents/utils/state_manager_utils.py:17-34 | `_initialize_state` returns the stored map with the id added, changes the stored ledger in place only when it exists, and the id's entry is the to_json of its current state (empty when new) |
| StateManager.Ledger.AddArtifact | agents/utils/state_manager_utils.py:36-105 | The result is the artifact `MakeArtifact` describes; on success exactly that artifact is appended at the end of that invocation's list and every other entry is unchanged; on failure only the empty entry `_initialize_state` inserted can remain |
| StateManager.Ledger.Append | agents/utils/state_manager_utils.py:99-101 | Writing back the list with the new artifact stores the ledger and leaves it equal to the appended view |
| StateManager.Ledger.Store | agents/utils/state_manager_utils.py:100-101 | The ledger key ends up holding the copied map with that id's `to_json`, and the view changes at that id only |
| StateManager.Ledger.GetState | agents/utils/state_manager_utils.py:107-125 | `None` when the ledger or the id is absent, otherwise the decoded state of that id |
| StateManager.Ledger.DeleteState | agents/utils/state_manager_utils.py:128-146 | True exactly when the id was present; only that id is removed, and nothing changes otherwise |
| StateManager.Ledger.GetAllStates | agents/utils/state_manager_utils.py:148-164 | Returns every invocation's decoded state, and nothing else |
| StateManager.Ledger.ClearAllStates | agents/utils/state_manager_utils.py:166-170 | The ledger key holds `{}` and no invocation remains |
| StateIndex.Upserted | toolbox/data_toolbox/search_similar_columns.py:129-134 | The index under the tool's key gets the file name mapped to the profile; a non-dict index is replaced by `{}` first; other file names and other state keys are preserved |
| StateIndex.UpsertLastWins | toolbox/data_toolbox/search_similar_columns.py:133 | Upserting the same file name twice is the same as upserting only the second profile |
| StateIndex.UpsertCommutes | toolbox/data_toolbox/search_similar_columns.py:129-134 | Upserts of two different file names commute |
| StateIndex.Upsert | toolbox/data_toolbox/query_data.py:123-128 | The in-place update leaves the context's state equal to the upserted state and does not escalate |
| McpServer.SerializeForCell | agents/mcp_server.py:41-51 | Every U+00A0 becomes a space, every other character is kept, and no U+00A0 remains |
| McpServer.SerializeForCellIdempotent | agents/mcp_server.py:51 | Sanitising is idempotent and leaves text without U+00A0 unchanged |
| McpServer.ExitColumnExtractionLoop | agents/mcp_server.py:80-104 | Escalation happens exactly when `items` is a non-empty list; status is "success" then and "error" otherwise; a falsy input or one without `items` never escalates; only a truthy non-dict or an `items` without `len` raises |
| McpServer.HasItems | agents/mcp_server.py:94 | The input is a dict whose `items` (default `[]`) has a non-zero `len` |
| McpServer.RecordOf | agents/mcp_server.py:130 | The record's keys are the zipped column names, and each distinct column maps to its positional value |
| McpServer.Record | agents/mcp_server.py:130 | `dict(zip(columns, row))` for one row; stated by `RecordOf` and `RecordPositional` |
| McpServer.RecordPositional | agents/mcp_server.py:130 | With distinct column names and a full row, each column maps to the value at its position |
| McpServer.Records | agents/mcp_server.py:128-130 | One record per fetched row, in order |
| McpServer.QueryBgaDatabase | agents/mcp_server.py:108-150 | The SQL is sanitised before it runs; a database failure gives status "error" with the message and no escalation; success gives a `csv_table` whose content holds the sanitised SQL and one record per row, and escalates |
| McpServer.GetSqlQueryReferences | agents/mcp_server.py:184-214 | Success exactly when the search succeeds with a first query; then the documents are that query's, `reference_docs` is their JSON dump, and the message counts them |
| ColumnNameExtractionTools.Reply | agents/sub_agents/data_search_agent/tools/column_name_extraction_tools.py:41-44 | The reply has only status and message, copied from the tool's result with defaults "success" and ""; it is rejected only when the copied status or message fails validation |
| ColumnNameExtractionTools.CurrentColumnNames | agents/sub_agents/data_search_agent/tools/column_name_extraction_tools.py:31 | The names the exit tool reads: the state's `COLUMN_NAMES_STATES` entry, or `{"items": []}` when there is none |
| ColumnNameExtractionTools.ReplyAccepted | agents/sub_agents/data_search_agent/tools/column_name_extraction_tools.py:31-44 | Every result of the exit tool passes validation; the wrapper escalates exactly when the names in state have items, and never when the key is missing (`{"items": []}`) |
| ColumnNameExtractionTools.ExitColumnExtractionLoop | agents/sub_agents/data_search_agent/tools/column_name_extraction_tools.py:19-44 | The state is untouched; `escalate` becomes true exactly when the delegate escalates and is never cleared; the reply is the delegate's status and message |
| SqlGeneratorTools.ErrorReplyHasNoData | agents/sub_agents/data_search_agent/tools/sql_generator_tools.py:48-49 | An error result is answered with status and message only |
| SqlGeneratorTools.Reply | agents/sub_agents/data_search_agent/tools/sql_generator_tools.py:43-58 | The reply keeps the tool's status (default "success"); an error reply has no data; a non-error result without truthy data is rejected, because the response model refuses an explicit `None` |
| SqlGeneratorTools.SuccessReplyKeepsData | agents/sub_agents/data_search_agent/tools/sql_generator_tools.py:51-58 | A success result keeps the data's type and content unchanged |
| SqlGeneratorTools.DbReplyKeepsData | agents/sub_agents/data_search_agent/tools/sql_generator_tools.py:36-58 | Every database tool result passes validation; the reply has data exactly when the query ran, and then the data is the tool's; its status is the tool's |
| SqlGeneratorTools.QueryBgaDatabase | agents/sub_agents/data_search_agent/tools/sql_generator_tools.py:23-58 | The state is untouched, `escalate` is set exactly when the tool escalated and never cleared, and the reply is the rewrapped tool result |
| SqlGeneratorTools.References | agents/sub_agents/data_search_agent/tools/sql_generator_tools.py:75-81 | A successful retrieval has status "success" and a string `reference_docs` |
| SqlGeneratorTools.GetSqlQueryReferencesBeforeModelCallback | agents/sub_agents/data_search_agent/tools/sql_generator_tools.py:61-99 | On success the reference documents are stored under their state key and exactly one user content with them is appended after the existing contents; on failure neither state nor request changes; escalation is untouched |
| FileUtils.KeptColumns | agents/utils/file_utils.py:61 | The kept columns are exactly those with a value in some row, in their order |
| FileUtils.DropEmptyColumns | agents/utils/file_utils.py:61 | Dropping all-missing columns keeps every row and no more columns |
| FileUtils.SliceEnd | agents/utils/file_utils.py:62-63 | A Python slice end is clipped to the length |
| FileUtils.MakeSubsetData | agents/utils/file_utils.py:42-66 | Returns the dropped frame, and a preview of its first `min(NUM_OF_DISPLAYED_DATA, total_count)` rows and first at most 7 columns, each preview row a prefix of its row |
| FileUtils.SubsetBounds | agents/utils/file_utils.py:57-64 | For a real row count the preview has `min(NUM_OF_DISPLAYED_DATA, total_count)` rows and at most 7 columns, and the dropped frame has exactly the non-empty columns |
| FileUtils.WithoutInlineData | agents/utils/file_utils.py:353-357 | The kept parts are exactly the parts without inline data |
| FileUtils.WithoutInlineDataAppend | agents/utils/file_utils.py:349-361 | The filter distributes over concatenation, so order is kept, and filtering twice is filtering once |
| FileUtils.RemoveNonTextPartFromLlmRequest | agents/utils/file_utils.py:326-367 | The request keeps the same number of contents, in order, each with exactly its parts that have no inline data |
| FileUtils.ChartFileName | agents/utils/file_utils.py:208 | The intended chart name has exactly one dot: the original stem, then "png" |
| FileUtils.ListReprTwo | agents/utils/file_utils.py:208 | `str` of a two-item list is the two reprs in brackets separated by ", " |
| FileUtils.PyRepr | agents/utils/file_utils.py:208 | Python's `repr` of a string is quoted at both ends with the same quote, a double quote exactly when the text has a single quote and no double quote; what it escapes is fixed by `PyReprRoundTrip` |
| FileUtils.PyReprRoundTrip | agents/utils/file_utils.py:208 | Reading a `repr` back as a Python string literal (`\\`, the quote, `\n`, `\r`, `\t`, `\xNN`) gives the original text |
| FileUtils.ReprBodyRoundTrip | agents/utils/file_utils.py:208 | The escaped body of a `repr`, in either quote, reads back as the text |
| FileUtils.UnescapeReprChar | agents/utils/file_utils.py:208 | Each character's escape reads back as that character, whatever follows |
| FileUtils.HexValue | agents/utils/file_utils.py:208 | A lower-case hexadecimal digit's value is below 16 and names that digit |
| FileUtils.Hex2 | agents/utils/file_utils.py:208 | The two lower-case hexadecimal digits of a `\xNN` escape, whose values give the byte: `16 * first + second == n` |
| FileUtils.PyListRepr | agents/utils/file_utils.py:208 | `str` of a list of strings is bracketed |
| FileUtils.ChartFileNameAsWritten | agents/utils/file_utils.py:208 | The chart name as written starts with `[` (a rendered list) and ends with ".png" |
| FileUtils.PyReprPlain | agents/utils/file_utils.py:208 | `repr` of printable ASCII text without a backslash or quote is the text in single quotes |
| FileUtils.ReprBodyPlain | agents/utils/file_utils.py:208 | Printable ASCII text without a backslash or the quote needs no escapes inside a repr |
| FileUtils.SplitAtDot | agents/utils/file_utils.py:208 | A name with one dot splits into its two sides |
| FileUtils.ChartFileNameMismatch | agents/utils/file_utils.py:208 | As written, "stem.ext" is named "['stem', 'ext'].png" (see Findings) |
| FileUtils.ChartFileNameIntended | agents/utils/file_utils.py:208 | As intended, "stem.ext" is named "stem.png" |
| FileUtils.Plan | agents/utils/file_utils.py:161-232 | A table is saved under `output_data_<timestamp>.csv` and records the string argument `sql_query` when the tool was given one, and no SQL text otherwise |
| FileUtils.ToolDispatch | agents/utils/file_utils.py:199-232 | A response that is not a table goes by tool name: only the chart tool saves a chart, named `ChartFileName` of its `filename` argument; only the statistics tool with a `report_xlsx` saves a report; any other tool is left alone |
| FileUtils.SqlArg | agents/utils/file_utils.py:191 | The SQL text is the `sql_query` argument exactly when that is a string |
| FileUtils.RecordedSql | agents/utils/file_utils.py:191 | A tool called with `sql_query` has its SQL recorded; the pipeline's `query_bga_database`, called with `generated_sql`, has none recorded |
| FileUtils.PlanGuards | agents/utils/file_utils.py:165-232 | A response without data from a tool the callback does not handle is left alone (None); data without a `type` raises ValueError |
| FileUtils.CsvTablePlan | agents/utils/file_utils.py:170-192 | A `csv_table` response of n records is stored as exactly one table with data length n |
| FileUtils.DbAnswerPlan | agents/utils/file_utils.py:165-197 | Every answer of the database wrapper is accepted: a query that ran is stored as one table of its row count, and a failed one is left alone |
| FileUtils.StoreTable | agents/utils/file_utils.py:170-197 | Saves the CSV; if that fails nothing is recorded; otherwise exactly one table artifact is appended to the invocation's list and the success summary with the record count is returned |
| FileUtils.StoreChart | agents/utils/file_utils.py:234-263 | Saves the image and then appends exactly one img artifact; save errors are swallowed and the answer is always `{"status": "success"}` |
| FileUtils.SaveFileArtifactAfterToolCallback | agents/utils/file_utils.py:128-263 | The callback does what the plan says: a raise or a plain answer changes no ledger entry, a table or chart appends exactly one artifact of that kind, and a statistics report records nothing |
| ToolResponse.ParseStatus | agents/custom_types/tool_response.py:23 | The status is accepted exactly when it is "success" or "error" |
| ToolResponse.ParseKind | agents/custom_types/tool_response.py:10 | The data type is accepted exactly when it is image, markdown_table, csv_table or excel_table |
| ToolResponse.MakeResponseData | agents/custom_types/tool_response.py:9-11 | `ToolResponseData` validates exactly a known type and a str, list[str], list[dict] or dict content, and keeps both |
| ToolResponse.ResponseDataRoundTrip | agents/custom_types/tool_response.py:9-14 | Validating the `to_json` of response data gives the same data back |
| ToolResponse.ParsePayload | agents/custom_types/tool_response.py:25 | The data field accepts exactly a dict or a list of dicts, unchanged |
| ToolResponse.MakeToolResponse | agents/custom_types/tool_response.py:16-25 | `ToolResponse` validates exactly a known status, a string message and acceptable data; it has no data exactly when none was given |
| ToolResponse.ToJson | agents/custom_types/tool_response.py:27-28 | `to_json` has status and message, plus data exactly when it is not `None` |
| ToolResponse.ToJsonRoundTrip | agents/custom_types/tool_response.py:16-28 | Validating the `to_json` of a response gives the same response back |
| ToolResponse.ToMcpResult | agents/custom_types/tool_response.py:30-37 | `isError` exactly when the status is "error"; the content is the message then the JSON dump of the data; the structured content is the data |
| ToolResponse.McpAgreesWithJson | agents/custom_types/tool_response.py:27-37 | The MCP result's error flag and structured content agree with `to_json`'s status and data |
| PathResolver.FirstBlank | toolbox/utils/path_resolver.py:54-59 | Finds the first required key whose value is missing, `None` or whitespace-only, and finds none exactly when all are set |
| PathResolver.ResolveArtifactPath | toolbox/utils/path_resolver.py:39-78 | A missing or blank required entry is a ValueError; otherwise the path is `root/user/sessions/session/artifacts/name/versions/str(version)/name` |
| PathResolver.AllPresent | toolbox/utils/path_resolver.py:56-63 | After validation all four keys are present |
| PathResolver.NoBlankEntry | toolbox/utils/path_resolver.py:56-59 | Version 0, or any non-blank value, passes validation |
| PathResolver.ResolveAgreesWithGet | toolbox/utils/path_resolver.py:16-78 | A valid locator resolves to the path `get_artifact_path` builds from the same values |
| PathResolver.ArtifactPathSegments | toolbox/utils/path_resolver.py:66-78 | With non-empty, slash-free parts other than ".", the path is rooted exactly when the root is, and its segments are the root's kept segments, then user, "sessions", session, "artifacts", name, "versions", version, name |
| PathResolver.KeptSegments | toolbox/utils/path_resolver.py:66-78 | pathlib keeps no empty and no "." segment |
| PathResolver.ParsePlainPart | toolbox/utils/path_resolver.py:66-78 | A non-empty, slash-free part other than "." is one relative segment |
| PathResolver.JoinPlainParts | toolbox/utils/path_resolver.py:66-78 | Joining such parts appends them as segments and keeps whether the path is rooted |
| PathResolver.KeptSegmentsAppend | toolbox/utils/path_resolver.py:66-78 | The kept segments of a concatenation are those of each part |
| PathResolver.RootTrailingSlash | toolbox/utils/path_resolver.py:66-78 | A trailing slash on a non-empty root does not change the path |
| PathResolver.RootedUserDiscardsRoot | toolbox/utils/path_resolver.py:66-78 | A user id starting with a slash discards the root, as pathlib's `/` does |
| PathResolver.GetArtifactPath | toolbox/utils/path_resolver.py:16-33 | `get_artifact_path`: the artifact path with the version rendered in decimal; stated by `ResolveAgreesWithGet` |
| PathResolver.Blank | toolbox/utils/path_resolver.py:57-58 | An entry is missing when absent, `None` or whitespace only |
| PathResolver.Within | toolbox/utils/path_resolver.py:125 | The resolved path is the root or lies under it |
| PathResolver.NormalizeExt | toolbox/utils/path_resolver.py:92 | A normalised extension never starts with a dot |
| PathResolver.NormalizeExtProperties | toolbox/utils/path_resolver.py:92 | Normalising is idempotent, ignores leading dots and case, and treats None as "" |
| PathResolver.NoLeadingDot | toolbox/utils/path_resolver.py:92 | Text without a leading dot is unchanged by `lstrip(".")` |
| PathResolver.LowerIdempotent | toolbox/utils/path_resolver.py:92 | Lower-casing twice is lower-casing once |
| PathResolver.StripDots | toolbox/utils/path_resolver.py:92 | Extra leading dots make no difference to `lstrip(".")` |
| PathResolver.LowerStripCommute | toolbox/utils/path_resolver.py:92 | Lower-casing and stripping leading dots commute |
| PathResolver.MimeType | toolbox/utils/path_resolver.py:80-93 | csv/json/png/html/htm/txt map through the table; every other extension is application/octet-stream |
| PathResolver.MimeTypeProperties | toolbox/utils/path_resolver.py:90-93 | The MIME type ignores leading dots and case, and is stable under normalising |
| PathResolver.EmptyExtIsOctetStream | toolbox/utils/path_resolver.py:92-93 | No extension gives application/octet-stream |
| PathResolver.NormalizeOptional | toolbox/utils/path_resolver.py:119-129 | Normalising before the lookup, as `get_mcp_resource_path` does, changes nothing |
| PathResolver.Basename | toolbox/utils/path_resolver.py:128 | A path's name has no slash |
| PathResolver.GetMcpResourcePath | toolbox/utils/path_resolver.py:95-130 | Fails (ValueError) exactly when the normalised extension is empty or the resolved pathlib join `root / f"{job_id}.{ext}"` is neither the root nor under it; otherwise the path is that resolved join, inside the root, the URI is `mcp://resources/<name>` and the MIME type is the extension's |
| PathResolver.RootedJobIdDiscardsRoot | toolbox/utils/path_resolver.py:123 | A job id starting with a slash discards the root: the file is the job id's own absolute path, whatever the root |
| PathResolver.PlainJobIdStaysInside | toolbox/utils/path_resolver.py:123-126 | Under a resolved absolute root, a job id that makes a plain file name gives `<root>/<job_id>.<ext>`, which passes the containment check |
| PathResolver.PlainChildPath | toolbox/utils/path_resolver.py:123 | A plain name joined to a rooted path is written after exactly one slash |
| PathResolver.RootedJobIdOutsideRejected | toolbox/utils/path_resolver.py:123-126 | A job id starting with a slash is checked as its own absolute path, and is rejected (ValueError) when that path resolves outside the root |
| PathResolver.AbsoluteJobIdRejected | toolbox/utils/path_resolver.py:123-126 | The job id "/x" under the root "/r" names "/x.csv", outside the root, and is rejected by any resolver that leaves both paths as they are |
| PathResolver.SaveResource | toolbox/utils/path_resolver.py:158-199 | A csv is written as CSV and not registered, and only a DataFrame may be saved as csv; json is written as JSON; every other extension is registered |
| PathResolver.SaveResourceBytes | toolbox/utils/path_resolver.py:133-155 | Succeeds exactly when the resource path does, and then writes the bytes and registers the resource with the extension's MIME type |
| SearchSimilarColumns.FirstQuery | toolbox/data_toolbox/search_similar_columns.py:73-76 | A missing key gives the first query's `[]`; otherwise the result is the first list of the field |
| SearchSimilarColumns.ResultItem | toolbox/data_toolbox/search_similar_columns.py:80-86 | An item holds the document, the same-index distance and id or None, and a metadata entry only when a truthy metadata exists at that index |
| SearchSimilarColumns.FormatResults | toolbox/data_toolbox/search_similar_columns.py:78-87 | One item per document of the first query, in document order |
| SearchSimilarColumns.TopResults | toolbox/data_toolbox/search_similar_columns.py:144 | `top_results` is the first min(3, n) results |
| SearchSimilarColumns.SearchAnswer | toolbox/data_toolbox/search_similar_columns.py:137-145 | The summary has status "success", `results_count` equal to the number of results, the top three results, and the file name |
| SearchSimilarColumns.Fetch | toolbox/data_toolbox/search_similar_columns.py:40-70 | The connection, embedding and query stages run in order; the first failure answers with status "error"; a result is reached exactly when all three succeed |
| SearchSimilarColumns.SaveAndProfile | toolbox/data_toolbox/search_similar_columns.py:72-145 | Meets `SaveOutcome`: a malformed query result escapes and a failed save is answered with its error, both with the state untouched; otherwise the answer is `SearchAnswer` of the formatted results and the index maps the file name to the profile of the saved text (its version, UTF-8 size, timestamp, query and result count) |
| SearchSimilarColumns.Results | toolbox/data_toolbox/search_similar_columns.py:73-87 | The formatted results: one per document of the first query, or the exception a malformed field raises |
| SearchSimilarColumns.SearchProfile | toolbox/data_toolbox/search_similar_columns.py:118-126 | The profile recorded for a saved search |
| SearchSimilarColumns.SearchAnswerCounts | toolbox/data_toolbox/search_similar_columns.py:78-145 | A successful save reports as many results as the first query has documents, previews the first three items exactly as `ResultItem` builds them, and profiles that many results under the file name |
| SearchSimilarColumns.Search | toolbox/data_toolbox/search_similar_columns.py:15-145 | A stage failure answers with that error and leaves the state alone; after a successful query the answer and the new state are those `SaveOutcome` gives under the given or default file name |
| QueryData.SampleRows | toolbox/data_toolbox/query_data.py:116 | `head(10)`: the first min(10, n) records |
| QueryData.QueryProfile | toolbox/data_toolbox/query_data.py:101-120 | The profile's `row_count` is the record count; `sample_rows` is present, holding the first ten records, exactly when the metadata step succeeds, and `metadata_error` exactly when it fails |
| QueryData.SavedAnswer | toolbox/data_toolbox/query_data.py:131-139 | The summary has status "success", the row count, and the profile's sample rows or `[]` |
| QueryData.EmptyAnswer | toolbox/data_toolbox/query_data.py:68-75 | An empty result is a success with `row_count` 0 and no sample rows |
| QueryData.Query | toolbox/data_toolbox/query_data.py:26-139 | The SQL is sanitised before it runs; a database or save failure returns "error" and leaves the state untouched; an empty result short-circuits without saving or touching state; otherwise the profile is upserted under the file name |
| QueryData.SavedAnswerCounts | toolbox/data_toolbox/query_data.py:78-138 | The reported `row_count` equals the number of records, and `sample_rows` is the first at most ten records |
| QueryData.Utf8SigLength | toolbox/data_toolbox/query_data.py:81-82 | The size of the CSV encoded as `utf-8-sig`: the three-byte mark plus one to four bytes per character |
| ModelCommunication.IndexOf | agents/utils/model_communication_utils.py:21-23 | Finds the first occurrence at or after the start, or reports that there is none |
| ModelCommunication.FindBlock | agents/utils/model_communication_utils.py:21-23 | The search finds the leftmost opening fence that has a closing fence after it, and the nearest such closing fence; no result means no match exists |
| ModelCommunication.ParseJsonCodeBlock | agents/utils/model_communication_utils.py:7-41 | No block, or a block whose stripped body is empty, gives None; a found block with a non-empty stripped body gives exactly the parser's result on that body (None for invalid JSON) |
| ModelCommunication.NoCloseFenceWithin | agents/utils/model_communication_utils.py:21 | No closing fence starts within backtick-free text |
| ModelCommunication.FencedBlockFound | agents/utils/model_communication_utils.py:21-26 | In a reply that is one `json` block with a backtick-free body, the group found is that body |
| ModelCommunication.FencedBlockParses | agents/utils/model_communication_utils.py:21-34 | Such a reply is parsed from its stripped body |
| ModelCommunication.NoOpenFenceNoAnswer | agents/utils/model_communication_utils.py:23-41 | A reply without an opening fence gives None |
| PromptUtils.Step | agents/utils/prompt_utils.py:32 | `current.get(key, {})` gives the key's value or `{}`, and fails only on a non-dict |
| PromptUtils.Walk | agents/utils/prompt_utils.py:31-32 | The key-by-key descent; stated by `WalkFromEmpty`, `WalkMissingKey` and `WalkAppend` |
| PromptUtils.GetPromptYaml | agents/utils/prompt_utils.py:29-33 | The loop splits the tag on "." and walks the keys left to right |
| PromptUtils.WalkFromEmpty | agents/utils/prompt_utils.py:32 | Once the walk is at `{}` it stays there |
| PromptUtils.WalkMissingKey | agents/utils/prompt_utils.py:31-32 | A missing key at any level makes the result `{}` |
| PromptUtils.WalkAppend | agents/utils/prompt_utils.py:29-32 | Walking two key lists in a row is walking their concatenation |
| PromptUtils.SingleSegmentTag | agents/utils/prompt_utils.py:29-33 | A tag without a dot returns the top-level value, or `{}` |
| PromptUtils.DottedTag | agents/utils/prompt_utils.py:29-33 | The tag "outer.inner" walks the keys of inner from where outer ended |
| DbClients.Present | toolbox/data_toolbox/utils/db_clients.py:42-52 | At most one `key=value` per setting, empty exactly when all are None; without spaces in keys and values, no entry has a space (which entries, in which order: `PresentAppend`, `PresentOne`) |
| DbClients.PresentAppend | toolbox/data_toolbox/utils/db_clients.py:42-52 | The entries kept from a concatenation are those kept from each part, in order |
| DbClients.PresentOne | toolbox/data_toolbox/utils/db_clients.py:42-52 | One setting is kept as `key=value` when set and dropped when `None` |
| DbClients.ConninfoWithoutHost | toolbox/data_toolbox/utils/db_clients.py:42-52 | With host and port unset, the connection string is `user=… password=… dbname=…` |
| DbClients.Conninfo | toolbox/data_toolbox/utils/db_clients.py:42-52 | The kept entries joined by single spaces; stated by the `Conninfo…` lemmas |
| DbClients.PresentAllSet | toolbox/data_toolbox/utils/db_clients.py:42-52 | With every setting given, the entries come in the order user, password, dbname, host, port |
| DbClients.ConninfoAllSet | toolbox/data_toolbox/utils/db_clients.py:42-52 | With every setting given, the connection string is the five entries in that order, separated by single spaces |
| DbClients.ConninfoUnsetAndEmpty | toolbox/data_toolbox/utils/db_clients.py:51 | No settings give ""; an empty value is still written as `key=` |
| DbClients.ConninfoSplits | toolbox/data_toolbox/utils/db_clients.py:42-52 | Splitting the connection string on spaces gives back the entries when no value has a space |
| DbClients.Pool.constructor | toolbox/data_toolbox/utils/db_clients.py:54-58 | A pool keeps its connection string and size bounds |
| DbClients.Clients.constructor | toolbox/data_toolbox/utils/db_clients.py:26 | `_POOL` starts as None |
| DbClients.Clients.GetPool | toolbox/data_toolbox/utils/db_clients.py:29-61 | The first call creates a pool from the connection string with sizes 5 and 20; every later call returns that same pool |
| DatabaseUtils.Database.constructor | agents/utils/database_utils.py:20-37 | At import, a pool is created from the connection string with sizes 5 and 20 |
| DatabaseUtils.Database.GetDbPool | agents/utils/database_utils.py:41-46 | RuntimeError exactly when there is no pool, otherwise the pool |
| DataSearchAgent.ColumnNamesJson | agents/sub_agents/data_search_agent/data_search_agent.py:56-64 | The extractor's output has items exactly when it names at least one column |
| DataSearchAgent.ItemsJson | agents/sub_agents/data_search_agent/data_search_agent.py:61-64 | One JSON item per extracted name |
| DataSearchAgent.ParseItem | agents/sub_agents/data_search_agent/data_search_agent.py:56-59 | An item validates exactly when it is a dict with a string `extracted_column_name` |
| DataSearchAgent.ParseItems | agents/sub_agents/data_search_agent/data_search_agent.py:61-64 | Validated items keep their number |
| DataSearchAgent.ParseColumnNames | agents/sub_agents/data_search_agent/data_search_agent.py:61-64 | Validated output is a dict whose `items` list gives one name per entry |
| DataSearchAgent.ItemsRoundTrip | agents/sub_agents/data_search_agent/data_search_agent.py:56-64 | Items read back from their JSON are the same items |
| DataSearchAgent.SchemaRoundTrip | agents/sub_agents/data_search_agent/data_search_agent.py:56-64 | The output schema reads back its own JSON |
| DataSearchAgent.DataSearchAgentTree | agents/sub_agents/data_search_agent/data_search_agent.py:66-119 | A sequential agent of two loops, each of two sub-agents with at most three iterations |
| DataSearchAgent.OnlyReviewersHoldTools | agents/sub_agents/data_search_agent/data_search_agent.py:66-105 | In both loops the producer has no tools and the reviewer has exactly one; the SQL reviewer's tool results pass through `save_file_artifact_after_tool_callback` |
| DataSearchAgent.RunLoop | agents/sub_agents/data_search_agent/data_search_agent.py:85-89 | A loop run has at most `max_iterations` rounds; in each the producer runs before the reviewer; the first reviewer sees the producer's output; only the last review can escalate; a run shorter than the cap ends on an escalation |
| DataSearchAgent.RunLoopThreadsState | agents/sub_agents/data_search_agent/data_search_agent.py:85-89 | Each later reviewer sees the producer's output on the state the previous reviewer saw, and the loop leaves the state the last reviewer saw |
| DataSearchAgent.RunLoopPreserves | agents/sub_agents/data_search_agent/data_search_agent.py:85-89 | Any state property every producer step keeps holds after the loop and at every review |
| DataSearchAgent.RunDataSearchAgent | agents/sub_agents/data_search_agent/data_search_agent.py:113-119 | The extraction loop runs to completion before the SQL loop starts; each runs one to three rounds of its own two agents |
| DataSearchAgent.ExtractionLoopAsWritten | agents/sub_agents/data_search_agent/data_search_agent.py:66-89 | With any output key other than the one the reviewer reads, as `BGA_COLUMN_NAMES_STATES` is when its value differs from `COLUMN_NAMES_STATES`, the reviewer never escalates and the loop always runs three rounds (see Findings) |
| DataSearchAgent.ExtractionLoopIntended | agents/sub_agents/data_search_agent/data_search_agent.py:66-89 | With the intended key, a first round that extracts names and calls the exit tool ends the loop after one round |
| DataSearchAgent.EscalationSavesTable | agents/sub_agents/data_search_agent/data_search_agent.py:98-105 | The SQL reviewer escalates only on a query the database answered, and the after-tool callback then stores that answer as one table |
| DataSearchAgent.SqlLoopStopsOnTable | agents/sub_agents/data_search_agent/data_search_agent.py:98-111 | A SQL loop that stops before its cap, with or without the reference callback, stopped on a query whose result is stored as a table |
| DataSearchAgent.SqlLoopWithoutReferences | agents/sub_agents/data_search_agent/data_search_agent.py:91-111 | As written (no agent carries the reference callback), every SQL reviewer sees the state the loop started from, and the loop leaves it unchanged |
| DataSearchAgent.LastReviewEscalated | agents/sub_agents/data_search_agent/data_search_agent.py:107-111 | A loop that stops before its cap stopped on a reviewer that escalated |
| Py.Strip | agents/utils/model_communication_utils.py:28 | `strip()` is empty exactly for all-whitespace text and otherwise starts and ends with a non-space |
| Py.LStrip | agents/utils/model_communication_utils.py:28 | `lstrip()` drops exactly the leading whitespace |
| Py.RStrip | agents/utils/model_communication_utils.py:28 | `rstrip()` drops exactly the trailing whitespace |
| Py.LStripChar | toolbox/utils/path_resolver.py:92 | `lstrip(".")` drops exactly the leading dots |
| Py.Lower | toolbox/utils/path_resolver.py:92 | `lower()` maps each character, keeping the length |
| Py.Split | agents/utils/prompt_utils.py:29 | `split(".")` gives at least one piece, none containing the separator |
| Py.SplitConcat | agents/utils/prompt_utils.py:29 | Splitting at a separator between two strings splits each side on its own |
| Py.SplitJoin | toolbox/data_toolbox/utils/db_clients.py:42 | Splitting a join of separator-free pieces gives back the pieces |
| Py.Utf8Length | toolbox/data_toolbox/search_similar_columns.py:99 | The UTF-8 length is between one and four bytes per character |
| Py.NatToString | agents/mcp_server.py:206 | `str(n)` is a non-empty run of decimal digits |
| Py.NatToStringValue | agents/mcp_server.py:206 | Reading the digits of `str(n)` gives `n` back |
| Json.Subscript | agents/utils/file_utils.py:200-201 | `x[key]` succeeds exactly on a dict holding the key, with its value |
| Json.Get | agents/utils/file_utils.py:165 | `d.get(key, default)` |
| Json.Truthy | toolbox/data_toolbox/search_similar_columns.py:85 | Python truthiness: `None`, `False`, zero, and empty strings, lists and dicts are false |
| Json.DumpStrings | agents/mcp_server.py:201-202 | `json.dumps` of a list of optional strings |
| Json.StringsValue | agents/mcp_server.py:201-208 | The documents value is a list with one entry per document |

## Left out

- HTTP, the vector store, the database connection and artifact storage are left out. Their results are parameters: `McpServer.DbOutcome`, `SearchSimilarColumns.VectorStore`, the `save` functions and `QueryData.Effects`. `_get_embedding`, `get_embedding`, `get_sim_search`, `get_chromadb_client` and the cursor handling are not modelled.
- `post_single_url_async` and `post_parallel_async` are not modelled. They do network I/O with `asyncio` concurrency.
- `get_content_from_rag_server` and `save_imgfile_artifact_before_agent_callback` are not modelled. They are the other file-utility callbacks, and they read from an SSE server or save user uploads.
- The ADK `LoopAgent` and `SequentialAgent` internals and the language model are left out. Each round's output and the reviewer's tool call are parameters of `DataSearchAgent.Pair`.
- YAML loading and locating the prompt file next to the caller are left out. `PromptUtils.GetPromptYaml` takes the parsed document.
- Python's `json.dumps` is modelled only for lists of strings (`Json.DumpStrings`). The profile JSON of the similar-columns artifact is a parameter.
- pandas is left out: `DataFrame.from_records`, `to_csv`, `dtype` inference and NaN detection. Records are counted, CSV text is a parameter, and a missing cell is `Null`.
- Timestamps come from the clock, and the default file names are derived from them. Both are parameters.
- Resolving a resource path (`Path.resolve`, which follows symbolic links) is a parameter. The join of artifact paths is modelled as pathlib's. `mkdir` and the file writes are recorded as which write happens, not performed.
- The ledger's read-copy-write has no lock, and concurrent writers are not modelled. The model is sequential.
- ResolveArtifactPath: pathlib keeps a root that starts with exactly two slashes as `//`; the model gives `/`.
- PyRepr: characters above U+00FF are shown as they are. Python escapes those its Unicode tables call non-printable, which are not modelled.
- Plan: the table record takes its SQL text from the argument `sql_query`. That is the intended spelling of the misspelt key and the argument of `query_data`. The pipeline's `query_bga_database` takes `generated_sql`, so its tables are recorded without SQL text, as in the code (`FileUtils.RecordedSql`).
- `Py.Lower` lowers ASCII letters only. Python's `str.lower` also folds non-ASCII letters. File extensions in practice are ASCII.
- `SearchSimilarColumns.FirstQuery` treats any non-list `documents`/`distances`/`metadatas`/`ids` value as a `TypeError`. Python would index strings and some other types.
- Source lines that cannot run (listed above under "Source defects") are modelled as intended. The `NameError`, `AttributeError` and `LookupError` they raise are not modelled.
- `agents/constants` is not part of this model. The state-key names are the source's, but their values are stand-ins. One result depends on them: the stalled extraction loop (`ExtractionLoopAsWritten`, see Findings) happens as written only if `BGA_COLUMN_NAMES_STATES` and `COLUMN_NAMES_STATES` have different values.
- DataState.OptionalInt: pydantic's lax `int` is modelled for ints, bools, floats without a fractional part and signed decimal text with surrounding whitespace. Other text pydantic may accept, such as digits with underscores or a zero fraction ("3.0"), is rejected by the model.
- `NUM_OF_DISPLAYED_DATA` is a parameter of `FileUtils.MakeSubsetData`.

## Findings

| source | as written | input that shows it | evidently intended | confidence | as-written member | corrected member |
|---|---|---|---|---|---|---|
| agents/utils/file_utils.py:208 | `f"{temp_file_name.split('.'[0])}.png"`: `'.'[0]` is `'.'`, so the name is split on dots and the list itself is rendered into the file name | `args["filename"] == "chart.png"` gives `"['chart', 'png'].png"` | `temp_file_name.split('.')[0] + ".png"`, i.e. `"chart.png"` | high (not executed) | FileUtils.ChartFileNameMismatch | FileUtils.ChartFileNameIntended |
| agents/sub_agents/data_search_agent/data_search_agent.py:70 | the extractor writes its output under `BGA_COLUMN_NAMES_STATES`, while the reviewer's exit tool reads `COLUMN_NAMES_STATES` (`column_name_extraction_tools.py:31`) | assuming `BGA_COLUMN_NAMES_STATES` and `COLUMN_NAMES_STATES` have different values in `agents/constants` (not part of this model): any session without `COLUMN_NAMES_STATES`, where however good the extraction the reviewer sees `{"items": []}`, never escalates, and the loop always runs all three rounds | the extractor's `output_key` is `COLUMN_NAMES_STATES`, so a successful extraction ends the loop | medium: depends on the two constants differing, whose values are not in the source (not executed) | DataSearchAgent.ExtractionLoopAsWritten | DataSearchAgent.ExtractionLoopIntended |
