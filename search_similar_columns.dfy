/** The similar-column search tool (`toolbox/data_toolbox/search_similar_columns.py`):
    the vector-store result is reshaped into one item per document of the first
    query, saved as a JSON artifact, and profiled in the workspace index. The
    vector store, the embedding service, artifact storage, `json.dumps` and the
    clock are parameters. */
module SearchSimilarColumns {
  import opened Wrappers
  import opened Py
  import opened Json
  import opened Adk
  import opened StateIndex

  const STATE_SIMILAR_COLUMNS: string := "workspace:similar_columns"

  /** `query_res.get(key, [[]])[0]`: the first query's values of one field. A
      missing field gives no values; an empty list of queries has no first one;
      a value that is not a list of lists is reported as a TypeError. */
  function FirstQuery(queryRes: Dict, key: string): (r: Result<seq<Json>, Exc>)
    ensures key !in queryRes ==> r == Success([])
    ensures r.Success? && key in queryRes ==>
      queryRes[key].Arr? && queryRes[key].items != [] && queryRes[key].items[0] == Arr(r.value)
  {
    var outer := Get(queryRes, key, Arr([Arr([])]));
    if !outer.Arr? then Failure(TypeError("query result field is not a list"))
    else if outer.items == [] then Failure(IndexError("list index out of range"))
    else if !outer.items[0].Arr? then Failure(TypeError("query result entry is not a list"))
    else Success(outer.items[0].items)
  }

  /** The item for the `i`-th document: the document, the distance and id at the
      same index (`None` past the end of their lists), and the metadata at that
      index only when there is one and it is truthy. */
  function ResultItem(i: nat, doc: Json, distances: seq<Json>, metadatas: seq<Json>, ids: seq<Json>): (item: Dict)
    ensures item.Keys == {"document", "distance", "id"} + (if i < |metadatas| && Truthy(metadatas[i]) then {"metadata"} else {})
    ensures item["document"] == doc
    ensures item["distance"] == (if i < |distances| then distances[i] else Null)
    ensures item["id"] == (if i < |ids| then ids[i] else Null)
    ensures "metadata" in item ==> item["metadata"] == metadatas[i]
  {
    var base := map[
      "document" := doc,
      "distance" := if i < |distances| then distances[i] else Null,
      "id" := if i < |ids| then ids[i] else Null];
    if i < |metadatas| && Truthy(metadatas[i]) then base["metadata" := metadatas[i]] else base
  }

  /** The `for i, doc in enumerate(documents)` loop: one item per document, in
      document order. */
  method FormatResults(documents: seq<Json>, distances: seq<Json>, metadatas: seq<Json>, ids: seq<Json>)
    returns (results: seq<Json>)
    ensures |results| == |documents|
    ensures forall i :: 0 <= i < |documents| ==> results[i] == Obj(ResultItem(i, documents[i], distances, metadatas, ids))
  {
    results := [];
    var i := 0;
    while i < |documents|
      invariant 0 <= i <= |documents|
      invariant |results| == i
      invariant forall k :: 0 <= k < i ==> results[k] == Obj(ResultItem(k, documents[k], distances, metadatas, ids))
    {
      var doc := documents[i];
      var resultItem := map[
        "document" := doc,
        "distance" := if i < |distances| then distances[i] else Null,
        "id" := if i < |ids| then ids[i] else Null];
      if i < |metadatas| && Truthy(metadatas[i]) {
        resultItem := resultItem["metadata" := metadatas[i]];
      }
      results := results + [Obj(resultItem)];
      i := i + 1;
    }
  }

  /** `results[:3]`: the first three results, or all of them when fewer. */
  function TopResults(results: seq<Json>): (top: seq<Json>)
    ensures |top| == if |results| < 3 then |results| else 3
    ensures top == results[..|top|]
  {
    if |results| < 3 then results else results[..3]
  }

  /** The vector store as the tool sees it: whether connecting to the
      collection failed (with the exception's text), the embedding of a list of
      texts, and the query by embeddings for `n_results` matches. */
  datatype VectorStore = VectorStore(
    connectError: Option<string>,
    embed: seq<string> -> Result<Json, string>,
    query: (Json, int) -> Result<Dict, string>)

  /** Artifact storage and the other outside effects: `save` stores a named
      artifact (its text) and gives its version or the exception's text;
      `dumps` stands for `json.dumps(..., ensure_ascii=False, indent=2)`; `now`
      is the local time in ISO form. */
  datatype Storage = Storage(
    save: (string, string) -> Result<Option<int>, string>,
    dumps: Json -> string,
    now: string)

  /** The profile recorded for the saved search. */
  function SearchProfile(filename: string, version: Option<int>, bytes: nat, now: string, queryText: string, n: nat): Json {
    Obj(map[
      "filename" := Str(filename),
      "version" := VersionJson(version),
      "mime_type" := Str("application/json"),
      "bytes" := Num(bytes),
      "timestamp" := Str(now),
      "query" := Str(queryText),
      "n_results" := Num(n)])
  }

  /** The success answer: the result count and a preview of the first three
      results, with the file name and version of the saved search. */
  function SearchAnswer(filename: string, version: Option<int>, queryText: string, results: seq<Json>): (d: Dict)
    ensures "status" in d && d["status"] == Str("success")
    ensures "results_count" in d && d["results_count"] == Num(|results|)
    ensures "top_results" in d && d["top_results"] == Arr(TopResults(results))
    ensures "filename" in d && d["filename"] == Str(filename)
  {
    map[
      "status" := Str("success"),
      "message" := Str("Found " + IntToString(|results|) + " similar columns."),
      "filename" := Str(filename),
      "version" := VersionJson(version),
      "query" := Str(queryText),
      "results_count" := Num(|results|),
      "top_results" := Arr(TopResults(results))]
  }

  /** What the three outside calls give: the query result, or the error
      answer naming the first stage that failed. */
  datatype Stage = Queried(queryRes: Dict) | Answered(reply: Dict)

  /** Connecting, embedding the query text and querying the collection, in that
      order; each failure is answered with its stage and the exception's text. */
  function Fetch(queryText: string, nResults: int, store: VectorStore): (s: Stage)
    ensures s.Answered? ==> "status" in s.reply && s.reply["status"] == Str("error")
    ensures s.Queried? <==>
      store.connectError.None? && store.embed([queryText]).Success? &&
      store.query(store.embed([queryText]).value, nResults).Success?
  {
    if store.connectError.Some? then Answered(ErrorReply("Error connecting to ChromaDB: " + store.connectError.value))
    else
      var embeddings := store.embed([queryText]);
      if embeddings.Failure? then Answered(ErrorReply("Error getting embeddings: " + embeddings.error))
      else
        var queried := store.query(embeddings.value, nResults);
        if queried.Failure? then Answered(ErrorReply("Error querying ChromaDB: " + queried.error))
        else Queried(queried.value)
  }

  /** The formatted results of a query result: one item per document of the
      first query; a malformed field is the exception reading it raises. */
  function Results(queryRes: Dict): (r: Result<seq<Json>, Exc>)
    ensures r.Success? ==>
      FirstQuery(queryRes, "documents").Success? && |r.value| == |FirstQuery(queryRes, "documents").value|
  {
    var documents :- FirstQuery(queryRes, "documents");
    var distances :- FirstQuery(queryRes, "distances");
    var metadatas :- FirstQuery(queryRes, "metadatas");
    var ids :- FirstQuery(queryRes, "ids");
    Success(seq(|documents|, i requires 0 <= i < |documents| => Obj(ResultItem(i, documents[i], distances, metadatas, ids))))
  }

  /** The JSON text saved for a search. */
  function SavedText(queryText: string, nResults: int, results: seq<Json>, storage: Storage): string {
    storage.dumps(Obj(map["query" := Str(queryText), "n_results" := Num(nResults), "results" := Arr(results)]))
  }

  /** What formatting, saving and profiling a query result gives, from the state
      `before` to the state `after`: a malformed query result escapes with the
      state untouched; a failed save is answered with its error and the state
      untouched; otherwise the answer counts the results and previews the first
      three, and the index maps the file name to the profile of the saved text. */
  predicate SaveOutcome(before: Dict, after: Dict, r: Result<Dict, Exc>,
                        queryText: string, nResults: int, filename: string, queryRes: Dict, storage: Storage) {
    match Results(queryRes)
    case Failure(e) => r == Failure(e) && after == before
    case Success(results) =>
      var text := SavedText(queryText, nResults, results, storage);
      match storage.save(filename, text)
      case Failure(e) => r == Success(ErrorReply("Error saving artifact: " + e)) && after == before
      case Success(version) =>
        && r == Success(SearchAnswer(filename, version, queryText, results))
        && after == Upserted(before, STATE_SIMILAR_COLUMNS, filename,
             SearchProfile(filename, version, Utf8Length(text), storage.now, queryText, |results|))
  }

  /** A successful save reports as many results as the first query has
      documents, previews the first three of them as `ResultItem` builds them,
      and profiles that many results under the file name. */
  lemma SearchAnswerCounts(before: Dict, after: Dict, r: Result<Dict, Exc>,
                          queryText: string, nResults: int, filename: string, queryRes: Dict, storage: Storage)
    requires SaveOutcome(before, after, r, queryText, nResults, filename, queryRes, storage)
    requires r.Success? && r.value["status"] == Str("success")
    ensures FirstQuery(queryRes, "documents").Success?
    ensures var n := |FirstQuery(queryRes, "documents").value|;
      && r.value["results_count"] == Num(n)
      && r.value["top_results"].Arr? && |r.value["top_results"].items| == (if n < 3 then n else 3)
      && r.value["filename"] == Str(filename)
    ensures forall i :: 0 <= i < |r.value["top_results"].items| ==>
      r.value["top_results"].items[i] == Obj(ResultItem(i, FirstQuery(queryRes, "documents").value[i],
        FirstQuery(queryRes, "distances").value, FirstQuery(queryRes, "metadatas").value, FirstQuery(queryRes, "ids").value))
    ensures STATE_SIMILAR_COLUMNS in after && after[STATE_SIMILAR_COLUMNS].Obj?
      && filename in after[STATE_SIMILAR_COLUMNS].fields
      && after[STATE_SIMILAR_COLUMNS].fields[filename].Obj?
      && after[STATE_SIMILAR_COLUMNS].fields[filename].fields["n_results"] == Num(|FirstQuery(queryRes, "documents").value|)
  {
    var results := Results(queryRes).value;
    var text := SavedText(queryText, nResults, results, storage);
    assert storage.save(filename, text).Success?;
  }

  /** The part after a successful query: format, save, profile, answer, as
      `SaveOutcome` describes. */
  method SaveAndProfile(ctx: ToolContext, queryText: string, nResults: int, filename: string, queryRes: Dict, storage: Storage)
    returns (r: Result<Dict, Exc>)
    modifies ctx
    ensures ctx.escalate == old(ctx.escalate)
    ensures SaveOutcome(old(ctx.state), ctx.state, r, queryText, nResults, filename, queryRes, storage)
  {
    var documents :- FirstQuery(queryRes, "documents");
    var distances :- FirstQuery(queryRes, "distances");
    var metadatas :- FirstQuery(queryRes, "metadatas");
    var ids :- FirstQuery(queryRes, "ids");
    var results := FormatResults(documents, distances, metadatas, ids);
    assert results == Results(queryRes).value;
    var jsonText := storage.dumps(Obj(map["query" := Str(queryText), "n_results" := Num(nResults), "results" := Arr(results)]));
    var saved := storage.save(filename, jsonText);
    if saved.Failure? {
      return Success(ErrorReply("Error saving artifact: " + saved.error));
    }
    var version := saved.value;
    var profile := SearchProfile(filename, version, Utf8Length(jsonText), storage.now, queryText, |results|);
    Upsert(ctx, STATE_SIMILAR_COLUMNS, filename, profile);
    r := Success(SearchAnswer(filename, version, queryText, results));
  }

  /** `search_similar_columns(tool_context, query_text, n_results,
      artifact_filename)`; `defaultName` is the timestamped name used when no
      file name is given. A failing outside call is answered with an error
      naming its stage and leaves the state alone; after a successful query the
      result is saved and profiled under the file name as `SaveOutcome` says. */
  method Search(
    ctx: ToolContext, queryText: string, nResults: int, artifactFilename: Option<string>, defaultName: string,
    store: VectorStore, storage: Storage)
    returns (r: Result<Dict, Exc>)
    modifies ctx
    ensures ctx.escalate == old(ctx.escalate)
    ensures Fetch(queryText, nResults, store).Answered? ==>
      r == Success(Fetch(queryText, nResults, store).reply) && ctx.state == old(ctx.state)
    ensures Fetch(queryText, nResults, store).Queried? ==>
      SaveOutcome(old(ctx.state), ctx.state, r, queryText, nResults, artifactFilename.GetOr(defaultName),
                  Fetch(queryText, nResults, store).queryRes, storage)
  {
    var filename := artifactFilename.GetOr(defaultName);
    match Fetch(queryText, nResults, store) {
      case Answered(reply) =>
        return Success(reply);
      case Queried(queryRes) =>
        r := SaveAndProfile(ctx, queryText, nResults, filename, queryRes, storage);
    }
  }
}
