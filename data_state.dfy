/** The artifact records kept in session state (`agents/custom_types/data_state.py`):
    one record per file an agent produced, grouped per invocation in an `AppState`,
    and their `to_json` / `from_json` conversions to plain dictionaries. */
module DataState {
  import opened Wrappers
  import opened Py
  import opened Json

  /** What distinguishes the three artifact classes: an image carries its size,
      a table its SQL text and row count, and a plain `BaseArtifact` keeps
      whatever `type` string it was built with. */
  datatype Kind =
    | Img(imgSize: Option<(int, int)>)
    | Table(sqlQuery: Option<string>, dataLength: Option<int>)
    | Base(tag: string)

  /** The fields every artifact has. `function_call_id` is optional here: the code
      that records artifacts passes `None` for it (see `DataState.ArtifactFromJson`). */
  datatype Artifact = Artifact(
    kind: Kind,
    filename: string,
    mimeType: string,
    functionCallId: Option<string>,
    userQuery: string)

  /** The artifacts one invocation produced, in the order they were recorded. */
  datatype AppState = AppState(artifacts: seq<Artifact>)

  /** `AppState()`: no artifacts. */
  const EmptyState := AppState([])

  /** The value of the `type` field. */
  function TypeTag(k: Kind): string {
    match k
    case Img(_) => "img"
    case Table(_, _) => "table"
    case Base(t) => t
  }

  /** A plain artifact whose tag is "img" or "table" would be read back as the
      subclass, so only the other tags can round-trip as `Base`. */
  predicate WellTagged(a: Artifact) {
    a.kind.Base? ==> a.kind.tag != "img" && a.kind.tag != "table"
  }

  predicate WellFormed(s: AppState) {
    forall i :: 0 <= i < |s.artifacts| ==> WellTagged(s.artifacts[i])
  }

  /** `d` with `key` set to `v` when `v` is present: `exclude_none=True`. */
  function PutOpt(d: Dict, key: string, v: Option<Json>): Dict {
    if v.Some? then d[key := v.value] else d
  }

  function OptStrJson(v: Option<string>): Option<Json> {
    if v.Some? then Some(Str(v.value)) else None
  }

  /** `artifact.to_json()`: `model_dump(mode='json', exclude_none=True)`. The four
      required fields are always present, each optional field exactly when it is
      set, and the image size becomes a two-element list. */
  function ArtifactToJson(a: Artifact): (d: Dict)
    ensures "type" in d && d["type"] == Str(TypeTag(a.kind))
    ensures "filename" in d && d["filename"] == Str(a.filename)
    ensures "mime_type" in d && d["mime_type"] == Str(a.mimeType)
    ensures "user_query" in d && d["user_query"] == Str(a.userQuery)
    ensures "function_call_id" in d <==> a.functionCallId.Some?
    ensures "img_size" in d <==> a.kind.Img? && a.kind.imgSize.Some?
    ensures "sql_query" in d <==> a.kind.Table? && a.kind.sqlQuery.Some?
    ensures "data_length" in d <==> a.kind.Table? && a.kind.dataLength.Some?
    ensures forall k :: k in d ==> d[k] != Null
  {
    var common := map[
      "type" := Str(TypeTag(a.kind)),
      "filename" := Str(a.filename),
      "mime_type" := Str(a.mimeType),
      "user_query" := Str(a.userQuery)];
    var withId := PutOpt(common, "function_call_id", OptStrJson(a.functionCallId));
    match a.kind
    case Img(size) =>
      PutOpt(withId, "img_size", if size.Some? then Some(Arr([Num(size.value.0), Num(size.value.1)])) else None)
    case Table(q, n) =>
      var withQuery := PutOpt(withId, "sql_query", OptStrJson(q));
      PutOpt(withQuery, "data_length", if n.Some? then Some(Num(n.value)) else None)
    case Base(_) => withId
  }

  /** A required `str` field: missing or of another type is a validation error. */
  function RequiredStr(d: Dict, key: string): Result<string, Exc> {
    if key in d && d[key].Str? then Success(d[key].s)
    else Failure(ValueError("validation error: field '" + key + "' must be a string"))
  }

  /** An `Optional[str]` field: missing or `None` reads as `None`. */
  function OptionalStr(d: Dict, key: string): Result<Option<string>, Exc> {
    if key !in d || d[key] == Null then Success(None)
    else if d[key].Str? then Success(Some(d[key].s))
    else Failure(ValueError("validation error: field '" + key + "' must be a string"))
  }

  predicate AllDigits(s: string) {
    forall i :: 0 <= i < |s| ==> IsDigit(s[i])
  }

  /** `int(t)` for text without surrounding whitespace: an optional sign
      followed by at least one decimal digit. */
  function IntText(t: string): Option<int> {
    var signed := t != [] && (t[0] == '+' || t[0] == '-');
    var digits := if signed then t[1..] else t;
    if digits == [] || !AllDigits(digits) then None
    else if signed && t[0] == '-' then Some(-(DigitsValue(digits) as int))
    else Some(DigitsValue(digits))
  }

  /** pydantic's lax reading of a value into an `int` field: an int as it is, a
      bool as 0 or 1, a float without a fractional part, and a string that
      holds a decimal integer once surrounding whitespace is stripped. Anything
      else does not validate. */
  function LaxInt(j: Json): (r: Option<int>)
    ensures j.Float? ==> (r.Some? <==> j.x.Floor as real == j.x) && (r.Some? ==> r.value as real == j.x)
    ensures j.Str? && r.Some? ==> Strip(j.s) != []
    ensures j.Null? || j.Arr? || j.Obj? ==> r.None?
  {
    match j
    case Num(n) => Some(n)
    case Bool(b) => Some(if b then 1 else 0)
    case Float(x) => if x.Floor as real == x then Some(x.Floor) else None
    case Str(s) => IntText(Strip(s))
    case _ => None
  }

  /** An integer is read back from itself, from the float with its value and
      from its decimal text `str(n)`, with or without surrounding whitespace. */
  lemma LaxIntReadsBack(n: int)
    ensures LaxInt(Num(n)) == Some(n)
    ensures LaxInt(Float(n as real)) == Some(n)
    ensures LaxInt(Str(IntToString(n))) == Some(n)
    ensures LaxInt(Str(" " + IntToString(n) + "\n")) == Some(n)
  {
    var t := IntToString(n);
    IntTextReadsBack(n);
    IntToStringUnpadded(n);
    StripPadded(t);
  }

  /** `int(str(n)) == n`. */
  lemma IntTextReadsBack(n: int)
    ensures IntText(IntToString(n)) == Some(n)
  {
    var m: nat := if n < 0 then -n else n;
    NatToStringValue(m);
    DigitsText(NatToString(m));
  }

  /** `str(n)` has no whitespace at its ends. */
  lemma IntToStringUnpadded(n: int)
    ensures var t := IntToString(n); t != [] && !IsSpace(t[0]) && !IsSpace(t[|t| - 1])
  {
    var t := IntToString(n);
    if n < 0 {
      var d := NatToString(-n);
      assert t == "-" + d;
      assert t[|t| - 1] == d[|d| - 1];
      SignOrDigitNotSpace(t[0]);
      SignOrDigitNotSpace(t[|t| - 1]);
    } else {
      var d := NatToString(n);
      assert t == d;
      SignOrDigitNotSpace(t[0]);
      SignOrDigitNotSpace(t[|t| - 1]);
    }
  }

  lemma SignOrDigitNotSpace(c: char)
    requires c == '-' || '0' <= c <= '9'
    ensures !IsSpace(c)
  {
  }

  /** A run of digits, with or without a minus sign, reads as its value. */
  lemma DigitsText(digits: string)
    requires digits != [] && forall i :: 0 <= i < |digits| ==> '0' <= digits[i] <= '9'
    ensures IntText(digits) == Some(DigitsValue(digits))
    ensures IntText("-" + digits) == Some(-(DigitsValue(digits) as int))
  {
    assert AllDigits(digits);
    assert digits[0] != '+' && digits[0] != '-';
    var t := "-" + digits;
    assert t[0] == '-' && t[1..] == digits;
  }

  /** Text without whitespace at its ends is its own `strip()`, also once a
      space is put before it and a newline after it. */
  lemma StripPadded(t: string)
    requires t != [] && !IsSpace(t[0]) && !IsSpace(t[|t| - 1])
    ensures Strip(t) == t
    ensures Strip(" " + t + "\n") == t
  {
    assert LStrip(t) == t;
    assert RStrip(t) == t;
    var padded := " " + t + "\n";
    assert padded[1..] == t + "\n";
    assert LStrip(padded) == LStrip(t + "\n");
    assert LStrip(t + "\n") == t + "\n";
    assert (t + "\n")[..|t|] == t;
    assert RStrip(t + "\n") == RStrip(t);
  }

  /** An `Optional[int]` field, read in pydantic's lax mode. */
  function OptionalInt(d: Dict, key: string): (r: Result<Option<int>, Exc>)
    ensures r.Success? <==> key !in d || d[key] == Null || LaxInt(d[key]).Some?
    ensures r.Success? && r.value.Some? ==> key in d && LaxInt(d[key]) == r.value
  {
    if key !in d || d[key] == Null then Success(None)
    else if LaxInt(d[key]).Some? then Success(LaxInt(d[key]))
    else Failure(ValueError("validation error: field '" + key + "' must be an integer"))
  }

  /** An `Optional[Tuple[int, int]]` field, given as a two-element list whose
      items are read in pydantic's lax mode. */
  function OptionalSize(d: Dict, key: string): (r: Result<Option<(int, int)>, Exc>)
    ensures r.Success? && r.value.Some? ==>
      key in d && d[key].Arr? && |d[key].items| == 2
      && LaxInt(d[key].items[0]) == Some(r.value.value.0) && LaxInt(d[key].items[1]) == Some(r.value.value.1)
  {
    if key !in d || d[key] == Null then Success(None)
    else if d[key].Arr? && |d[key].items| == 2 && LaxInt(d[key].items[0]).Some? && LaxInt(d[key].items[1]).Some? then
      Success(Some((LaxInt(d[key].items[0]).value, LaxInt(d[key].items[1]).value)))
    else Failure(ValueError("validation error: field '" + key + "' must be a pair of integers"))
  }

  /** The class-specific part of `from_json`: `ImgArtifact` for tag "img",
      `TabularArtifact` for "table" and `BaseArtifact` for anything else (which
      then needs a string `type`). Keys a class does not declare are ignored. */
  function KindFromJson(d: Dict): Result<Kind, Exc> {
    var tag := Get(d, "type", Null);
    if tag == Str("img") then
      var size :- OptionalSize(d, "img_size");
      Success(Img(size))
    else if tag == Str("table") then
      var q :- OptionalStr(d, "sql_query");
      var n :- OptionalInt(d, "data_length");
      Success(Table(q, n))
    else
      var t :- RequiredStr(d, "type");
      Success(Base(t))
  }

  /** One step of `AppState.from_json`: dispatch on `artifact_data.get('type')` and
      build the matching class. A decoded artifact's tag is the `type` value it
      was read from, and it is an image or a table exactly when that value says so.
      Source defect: `data_state.py:57` names `TableArtifact`, which is not defined,
      so a "table" record raises NameError there; the intended class
      `TabularArtifact` is modelled. `function_call_id` is declared as a required
      `str` at `data_state.py:12`, yet the recording code passes `None` for it;
      it is modelled as optional, which is what that code needs. */
  function ArtifactFromJson(d: Dict): (r: Result<Artifact, Exc>)
    ensures r.Success? ==> Get(d, "type", Null) == Str(TypeTag(r.value.kind))
    ensures r.Success? ==> (r.value.kind.Img? <==> Get(d, "type", Null) == Str("img"))
    ensures r.Success? ==> (r.value.kind.Table? <==> Get(d, "type", Null) == Str("table"))
    ensures r.Success? ==> "filename" in d && d["filename"] == Str(r.value.filename)
    ensures r.Success? ==> "user_query" in d && d["user_query"] == Str(r.value.userQuery)
    ensures "filename" !in d || "mime_type" !in d || "user_query" !in d ==> r.Failure?
  {
    var filename :- RequiredStr(d, "filename");
    var mimeType :- RequiredStr(d, "mime_type");
    var callId :- OptionalStr(d, "function_call_id");
    var userQuery :- RequiredStr(d, "user_query");
    var kind :- KindFromJson(d);
    Success(Artifact(kind, filename, mimeType, callId, userQuery))
  }

  /** One item of the `artifacts` list: it must be a dictionary, since the loop
      calls `.get` on it. */
  function DecodeItem(j: Json): Result<Artifact, Exc> {
    match j
    case Obj(d) => ArtifactFromJson(d)
    case _ => Failure(AttributeError("object has no attribute 'get'"))
  }

  /** Decoding a list of records: it succeeds exactly when every record decodes,
      and then yields one artifact per record, in order. */
  function DecodeItems(items: seq<Json>): (r: Result<seq<Artifact>, Exc>)
    ensures r.Success? <==> forall i :: 0 <= i < |items| ==> DecodeItem(items[i]).Success?
    ensures r.Success? ==> |r.value| == |items|
    ensures r.Success? ==> forall i :: 0 <= i < |items| ==> r.value[i] == DecodeItem(items[i]).value
  {
    if items == [] then Success([])
    else
      var a :- DecodeItem(items[0]);
      var rest :- DecodeItems(items[1..]);
      Success([a] + rest)
  }

  /** The first record that does not decode decides the exception raised. */
  lemma {:induction false} DecodeItemsFirstFailure(items: seq<Json>, i: nat)
    requires i < |items| && DecodeItem(items[i]).Failure?
    requires forall k :: 0 <= k < i ==> DecodeItem(items[k]).Success?
    ensures DecodeItems(items) == Failure(DecodeItem(items[i]).error)
    decreases i
  {
    if i > 0 {
      DecodeItemsFirstFailure(items[1..], i - 1);
    }
  }

  /** `AppState.from_json(data)`. `artifacts` defaults to the empty list. The loop
      iterates whatever value is stored there: iterating an empty dict or string
      yields nothing, a non-empty one yields strings (which have no `.get`), and
      iterating a number, a boolean or `None` is a TypeError. */
  function DecodeAppState(data: Dict): (r: Result<AppState, Exc>)
    ensures "artifacts" !in data ==> r == Success(EmptyState)
    ensures r.Success? && "artifacts" in data && data["artifacts"].Arr? ==>
      |r.value.artifacts| == |data["artifacts"].items|
  {
    match Get(data, "artifacts", Arr([]))
    case Arr(items) =>
      var artifacts :- DecodeItems(items);
      Success(AppState(artifacts))
    case Obj(m) =>
      if m == map[] then Success(EmptyState) else Failure(AttributeError("'str' object has no attribute 'get'"))
    case Str(s) =>
      if s == [] then Success(EmptyState) else Failure(AttributeError("'str' object has no attribute 'get'"))
    case _ => Failure(TypeError("object is not iterable"))
  }

  /** `AppState.from_json(data)` as the source writes it: a loop appending one
      decoded artifact per record. */
  method AppStateFromJson(data: Dict) returns (r: Result<AppState, Exc>)
    ensures r == DecodeAppState(data)
  {
    var artifactsData := Get(data, "artifacts", Arr([]));
    match artifactsData {
      case Arr(items) =>
        var artifacts: seq<Artifact> := [];
        var i := 0;
        while i < |items|
          invariant 0 <= i <= |items|
          invariant |artifacts| == i
          invariant forall k :: 0 <= k < i ==> DecodeItem(items[k]).Success?
          invariant forall k :: 0 <= k < i ==> artifacts[k] == DecodeItem(items[k]).value
        {
          var item := DecodeItem(items[i]);
          if item.Failure? {
            DecodeItemsFirstFailure(items, i);
            return Failure(item.error);
          }
          artifacts := artifacts + [item.value];
          i := i + 1;
        }
        assert DecodeItems(items).value == artifacts;
        return Success(AppState(artifacts));
      case Obj(m) =>
        if m == map[] {
          return Success(EmptyState);
        }
        return Failure(AttributeError("'str' object has no attribute 'get'"));
      case Str(s) =>
        if s == [] {
          return Success(EmptyState);
        }
        return Failure(AttributeError("'str' object has no attribute 'get'"));
      case _ =>
        return Failure(TypeError("object is not iterable"));
    }
  }

  /** `app_state.to_json()`: a dictionary whose only key, `artifacts`, lists one
      record per artifact, in order.
      Source defect: `data_state.py:45` iterates `artifact` but calls
      `artifacts.to_json()`, a NameError as soon as the list is non-empty;
      the intended per-artifact `to_json` is modelled. */
  function AppStateToJson(s: AppState): (d: Dict)
    ensures d.Keys == {"artifacts"} && d["artifacts"].Arr?
    ensures |d["artifacts"].items| == |s.artifacts|
  {
    map["artifacts" := Arr(seq(|s.artifacts|, i requires 0 <= i < |s.artifacts| => Obj(ArtifactToJson(s.artifacts[i]))))]
  }

  /** Reading back a written artifact gives the same artifact. */
  lemma ArtifactRoundTrip(a: Artifact)
    requires WellTagged(a)
    ensures ArtifactFromJson(ArtifactToJson(a)) == Success(a)
  {
    var d := ArtifactToJson(a);
    match a.kind {
      case Img(size) =>
        assert KindFromJson(d) == Success(a.kind);
      case Table(q, n) =>
        assert KindFromJson(d) == Success(a.kind);
      case Base(t) =>
        assert KindFromJson(d) == Success(a.kind);
    }
  }

  /** `AppState.from_json(s.to_json())` gives back `s`: what the ledger stores is
      what it later reads. */
  lemma {:induction false} AppStateRoundTrip(s: AppState)
    requires WellFormed(s)
    ensures DecodeAppState(AppStateToJson(s)) == Success(s)
  {
    var items := AppStateToJson(s)["artifacts"].items;
    forall i | 0 <= i < |items|
      ensures DecodeItem(items[i]) == Success(s.artifacts[i])
    {
      ArtifactRoundTrip(s.artifacts[i]);
    }
    assert DecodeItems(items).value == s.artifacts;
  }
}
