/** The artifact ledger in session state (`agents/utils/state_manager_utils.py`):
    the `ARTIFACT_STATES` entry of a session's state maps each invocation id to the
    `to_json()` form of that invocation's `AppState`. */
module StateManager {
  import opened Wrappers
  import opened Py
  import opened Json
  import opened DataState

  /** What the state manager reads from the context it is handed: the invocation
      id, the text of each part of the user's message, and the id of the tool
      call being answered (`None` for a callback context, which has none). */
  datatype Invocation = Invocation(
    id: string,
    userTexts: seq<Option<string>>,
    functionCallId: Option<string>)

  /** The artifact record `add_artifact_to_state` builds. The user query is the
      text of the first part of the user's message (an IndexError when there is
      no part, a validation error when that part has no text). An image takes the
      tool call id, or `user_input_from_invocation_<id>` when there is none or it
      is empty, and never records the size it was given; a table records the tool
      call id as it is, with the SQL text and row count. Any other type is a
      ValueError. */
  function MakeArtifact(
    artifactType: string, inv: Invocation, filename: string, mimeType: string,
    imgSize: Option<(int, int)>, dataLength: Option<int>, sqlQuery: Option<string>): (r: Result<Artifact, Exc>)
    ensures inv.userTexts == [] ==> r.Failure? && r.error.IndexError?
    ensures inv.userTexts != [] && artifactType != "img" && artifactType != "table" ==>
      r.Failure? && r.error.ValueError?
    ensures r.Success? ==> WellTagged(r.value) && r.value.filename == filename && r.value.mimeType == mimeType
    ensures r.Success? ==> inv.userTexts != [] && inv.userTexts[0] == Some(r.value.userQuery)
    ensures r.Success? && artifactType == "img" ==>
      r.value.kind == Img(None)
      && r.value.functionCallId == Some(
           if inv.functionCallId.Some? && inv.functionCallId.value != "" then inv.functionCallId.value
           else "user_input_from_invocation_" + inv.id)
    ensures r.Success? && artifactType == "table" ==>
      r.value.kind == Table(sqlQuery, dataLength) && r.value.functionCallId == inv.functionCallId
    ensures inv.userTexts != [] && inv.userTexts[0].Some? ==>
      (r.Success? <==> artifactType == "img" || artifactType == "table")
  {
    if inv.userTexts == [] then Failure(IndexError("list index out of range"))
    else
      var userQuery := inv.userTexts[0];
      if artifactType == "img" then
        if userQuery.None? then Failure(ValueError("validation error: field 'user_query' must be a string"))
        else
          var callId :=
            if inv.functionCallId.Some? && inv.functionCallId.value != "" then inv.functionCallId.value
            else "user_input_from_invocation_" + inv.id;
          Success(Artifact(Img(None), filename, mimeType, Some(callId), userQuery.value))
      else if artifactType == "table" then
        if userQuery.None? then Failure(ValueError("validation error: field 'user_query' must be a string"))
        else Success(Artifact(Table(sqlQuery, dataLength), filename, mimeType, inv.functionCallId, userQuery.value))
      else Failure(ValueError("[STATE] 지원하지 않는 artifact_type: " + artifactType))
  }

  /** The state of invocation `id`: an empty one when none was recorded. */
  function Entry(v: map<string, AppState>, id: string): AppState {
    if id in v then v[id] else EmptyState
  }

  /** The ledger after `a` is recorded for invocation `id`: that invocation's
      artifacts gain `a` at the end and no other invocation changes. */
  function Appended(v: map<string, AppState>, id: string, a: Artifact): (w: map<string, AppState>)
    ensures w.Keys == v.Keys + {id}
    ensures w[id].artifacts == Entry(v, id).artifacts + [a]
    ensures forall k :: k in v && k != id ==> w[k] == v[k]
  {
    v[id := AppState(Entry(v, id).artifacts + [a])]
  }

  /** The ledger after the artifacts `items` are recorded for `id`, one after the other. */
  function AppendAll(v: map<string, AppState>, id: string, items: seq<Artifact>): map<string, AppState>
    decreases |items|
  {
    if items == [] then v else AppendAll(Appended(v, id, items[0]), id, items[1..])
  }

  /** Recording several artifacts for one invocation keeps all of them, in the
      order recorded, and leaves every other invocation's state as it was. */
  lemma {:induction false} AppendAllAccumulates(v: map<string, AppState>, id: string, items: seq<Artifact>)
    ensures Entry(AppendAll(v, id, items), id).artifacts == Entry(v, id).artifacts + items
    ensures forall k :: k != id ==> (k in AppendAll(v, id, items) <==> k in v)
    ensures forall k :: k != id && k in v ==> AppendAll(v, id, items)[k] == v[k]
    decreases |items|
  {
    if items != [] {
      var w := Appended(v, id, items[0]);
      AppendAllAccumulates(w, id, items[1..]);
      assert Entry(w, id).artifacts + items[1..] == Entry(v, id).artifacts + items;
    }
  }

  /** The ledger after `_initialize_state` for `id`: a stored dictionary gains an
      empty entry for `id` if it had none; an absent one stays absent. */
  function Touched(present: bool, v: map<string, AppState>, id: string): map<string, AppState> {
    if present then v[id := Entry(v, id)] else v
  }

  /** The dictionary `_initialize_state` returns: the stored one (or a fresh one
      when none is stored) with an empty state added for `id` if it had none. */
  function Initialized(stored: map<string, Dict>, id: string): (r: map<string, Dict>)
    ensures id in r && r.Keys == stored.Keys + {id}
    ensures forall k :: k in stored ==> r[k] == stored[k]
  {
    if id in stored then stored else stored[id := AppStateToJson(EmptyState)]
  }

  /** `stored` holds, for each invocation of `v`, the `to_json()` form of its state. */
  ghost predicate Mirrors(stored: map<string, Dict>, v: map<string, AppState>) {
    && stored.Keys == v.Keys
    && (forall id :: id in v ==> stored[id] == AppStateToJson(v[id]))
    && (forall id :: id in v ==> WellFormed(v[id]))
  }

  /** Storing the `to_json()` form of a state keeps a stored dictionary faithful. */
  lemma MirrorsStore(stored: map<string, Dict>, v: map<string, AppState>, id: string, s: AppState)
    requires Mirrors(stored, v) && WellFormed(s)
    ensures Mirrors(stored[id := AppStateToJson(s)], v[id := s])
  {
  }

  /** `AppState.from_json` on an entry the ledger wrote gives back the state written. */
  method ReadBack(data: Dict, ghost written: AppState) returns (s: AppState)
    requires WellFormed(written) && data == AppStateToJson(written)
    ensures s == written
  {
    AppStateRoundTrip(written);
    var decoded := AppStateFromJson(data);
    s := decoded.value;
  }

  lemma OverwriteTwice<V>(m: map<string, V>, k: string, a: V, b: V)
    ensures m[k := a][k := b] == m[k := b]
  {
  }

  /** The `ARTIFACT_STATES` entry of one session's state. `slot` is `None` while
      the key is absent; `view` is the decoded meaning of each stored entry. */
  class Ledger {
    var slot: Option<map<string, Dict>>
    ghost var view: map<string, AppState>

    /** Every stored entry is the `to_json()` form of the state it stands for. */
    ghost predicate Valid()
      reads this
    {
      && (slot.None? ==> view == map[])
      && (slot.Some? ==> Mirrors(slot.value, view))
    }

    /** A session whose state has no `ARTIFACT_STATES` key yet. */
    constructor ()
      ensures Valid() && slot == None && view == map[]
    {
      slot := None;
      view := map[];
    }

    /** `_initialize_state`: the dictionary of states with an entry for `id`.
        When the key is present, the stored dictionary itself gains the empty
        entry (it is changed in place); when it is absent, a fresh dictionary is
        returned and nothing is stored. */
    method InitializeState(id: string) returns (states: map<string, Dict>)
      requires Valid()
      modifies this
      ensures Valid()
      ensures states == Initialized(if old(slot).Some? then old(slot).value else map[], id)
      ensures slot == (if old(slot).Some? then Some(states) else None)
      ensures view == Touched(old(slot).Some?, old(view), id)
      ensures states[id] == AppStateToJson(Entry(view, id))
    {
      if slot.Some? {
        if id !in slot.value {
          MirrorsStore(slot.value, view, id, EmptyState);
        }
        states := Initialized(slot.value, id);
        slot := Some(states);
        view := view[id := Entry(view, id)];
      } else {
        states := Initialized(map[], id);
      }
    }

    /** `add_artifact_to_state`: builds the record (`DataState.MakeArtifact`), appends
        it to the invocation's state and stores a new copy of the whole dictionary.
        On failure the only trace is the empty entry `_initialize_state` already put
        into a stored dictionary. */
    method AddArtifact(
      artifactType: string, inv: Invocation, filename: string, mimeType: string,
      imgSize: Option<(int, int)>, dataLength: Option<int>, sqlQuery: Option<string>)
      returns (r: Result<Artifact, Exc>)
      requires Valid()
      modifies this
      ensures Valid()
      ensures r == MakeArtifact(artifactType, inv, filename, mimeType, imgSize, dataLength, sqlQuery)
      ensures r.Success? ==> slot.Some? && view == Appended(old(view), inv.id, r.value)
      ensures r.Failure? ==>
        slot == (if old(slot).Some? then Some(Initialized(old(slot).value, inv.id)) else None) &&
        view == Touched(old(slot).Some?, old(view), inv.id)
    {
      var states := InitializeState(inv.id);
      var current := ReadBack(states[inv.id], Entry(view, inv.id));
      r := MakeArtifact(artifactType, inv, filename, mimeType, imgSize, dataLength, sqlQuery);
      if r.Failure? {
        return;
      }
      Append(states, inv.id, current, r.value, old(view));
    }

    /** The success path of `add_artifact_to_state`: `a` is appended to the
        state `current` read back for `id`, and the whole dictionary stored. */
    method Append(states: map<string, Dict>, id: string, current: AppState, a: Artifact, ghost before: map<string, AppState>)
      requires Valid() && WellTagged(a)
      requires view == before || view == before[id := Entry(before, id)]
      requires current == Entry(view, id)
      requires slot.Some? ==> slot.value == states
      requires slot.None? ==> states.Keys == {id}
      modifies this
      ensures Valid() && slot.Some?
      ensures view == Appended(before, id, a)
    {
      assert WellFormed(current) by {
        if id !in view {
          assert current == EmptyState;
        }
      }
      var updated := AppState(current.artifacts + [a]);
      Store(states, id, updated);
      OverwriteTwice(before, id, Entry(before, id), updated);
    }

    /** Stores the `to_json()` form of `s` as the entry for `id` in a copy of `states`. */
    method Store(states: map<string, Dict>, id: string, s: AppState)
      requires Valid() && WellFormed(s)
      requires slot.Some? ==> slot.value == states
      requires slot.None? ==> states.Keys == {id}
      modifies this
      ensures Valid()
      ensures slot == Some(states[id := AppStateToJson(s)])
      ensures view == old(view)[id := s]
    {
      var base := if slot.Some? then states else map[];
      MirrorsStore(base, view, id, s);
      assert states[id := AppStateToJson(s)] == base[id := AppStateToJson(s)];
      slot := Some(states[id := AppStateToJson(s)]);
      view := view[id := s];
    }

    /** `get_state`: the state recorded for `id`, or `None`.
        Source defect: `state_manager_utils.py:120` reads `tool_context.State`,
        an AttributeError on every call; the intended `state` is modelled. */
    method GetState(id: string) returns (r: Option<AppState>)
      requires Valid()
      ensures r == (if id in view then Some(view[id]) else None)
    {
      if slot.None? || id !in slot.value {
        return None;
      }
      var decoded := ReadBack(slot.value[id], view[id]);
      return Some(decoded);
    }

    /** `delete_state`: removes the entry for `id`, reporting whether there was one. */
    method DeleteState(id: string) returns (deleted: bool)
      requires Valid()
      modifies this
      ensures Valid()
      ensures deleted <==> id in old(view)
      ensures view == old(view) - {id}
      ensures slot == (if deleted then Some(old(slot).value - {id}) else old(slot))
    {
      if slot.None? || id !in slot.value {
        return false;
      }
      slot := Some(slot.value - {id});
      view := view - {id};
      return true;
    }

    /** `get_all_states`: every recorded state, decoded, by invocation id. */
    method GetAllStates() returns (all: map<string, AppState>)
      requires Valid()
      ensures all == view
    {
      if slot.None? {
        return map[];
      }
      var stored := slot.value;
      forall id | id in view
        ensures DecodeAppState(stored[id]) == Success(view[id])
      {
        AppStateRoundTrip(view[id]);
      }
      all := map id | id in stored :: DecodeAppState(stored[id]).value;
    }

    /** `clear_all_states`: stores an empty dictionary. */
    method ClearAllStates()
      modifies this
      ensures Valid()
      ensures slot == Some(map[]) && view == map[]
    {
      slot := Some(map[]);
      view := map[];
    }
  }
}
