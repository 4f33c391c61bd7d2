/** The workspace index both data tools keep in the session state
    (`toolbox/data_toolbox/search_similar_columns.py:129-134` and
    `toolbox/data_toolbox/query_data.py:123-128`): a dictionary from artifact
    file name to that artifact's profile, under one state key per tool. */
module StateIndex {
  import opened Wrappers
  import opened Json
  import opened Adk

  /** The state after recording `profile` under `filename` in the index kept at
      `key`. An index that is missing or is not a dictionary starts afresh; the
      file name is set or overwritten, the index's other file names keep their
      profiles, and every other state key keeps its value. */
  function Upserted(state: Dict, key: string, filename: string, profile: Json): (s: Dict)
    ensures s.Keys == state.Keys + {key}
    ensures forall k :: k in state && k != key ==> s[k] == state[k]
    ensures s[key].Obj? && filename in s[key].fields && s[key].fields[filename] == profile
    ensures key in state && state[key].Obj? ==>
      s[key].fields.Keys == state[key].fields.Keys + {filename} &&
      forall f :: f in state[key].fields && f != filename ==> s[key].fields[f] == state[key].fields[f]
    ensures !(key in state && state[key].Obj?) ==> s[key].fields.Keys == {filename}
  {
    var current := Get(state, key, Obj(map[]));
    var index := if current.Obj? then current.fields else map[];
    state[key := Obj(index[filename := profile])]
  }

  /** Recording a file name again replaces its profile: only the last one
      stays, and recording the same profile twice is recording it once. */
  lemma UpsertLastWins(state: Dict, key: string, filename: string, first: Json, second: Json)
    ensures Upserted(Upserted(state, key, filename, first), key, filename, second) == Upserted(state, key, filename, second)
  {
    var once := Upserted(state, key, filename, first);
    var current := Get(state, key, Obj(map[]));
    var index := if current.Obj? then current.fields else map[];
    assert once[key].fields == index[filename := first];
    assert index[filename := first][filename := second] == index[filename := second];
  }

  /** Records under two different file names are both kept, whichever comes first. */
  lemma UpsertCommutes(state: Dict, key: string, f1: string, p1: Json, f2: string, p2: Json)
    requires f1 != f2
    ensures Upserted(Upserted(state, key, f1, p1), key, f2, p2) == Upserted(Upserted(state, key, f2, p2), key, f1, p1)
  {
    var current := Get(state, key, Obj(map[]));
    var index := if current.Obj? then current.fields else map[];
    assert index[f1 := p1][f2 := p2] == index[f2 := p2][f1 := p1];
  }

  /** `state_index = state.get(key, {})`, reset to `{}` when it is not a
      dictionary, then `state_index[filename] = profile` and
      `state[key] = state_index`. */
  method Upsert(ctx: ToolContext, key: string, filename: string, profile: Json)
    modifies ctx
    ensures ctx.state == Upserted(old(ctx.state), key, filename, profile)
    ensures ctx.escalate == old(ctx.escalate)
  {
    var stateIndex := Get(ctx.state, key, Obj(map[]));
    if !stateIndex.Obj? {
      stateIndex := Obj(map[]);
    }
    stateIndex := Obj(stateIndex.fields[filename := profile]);
    ctx.state := ctx.state[key := stateIndex];
  }

  /** An artifact version as stored in a profile: `int(version)`, or `None`. */
  function VersionJson(version: Option<int>): Json {
    match version
    case Some(v) => Num(v)
    case None => Null
  }

  /** The error answer of a data tool. */
  function ErrorReply(message: string): Dict {
    map["status" := Str("error"), "message" := Str(message)]
  }
}
