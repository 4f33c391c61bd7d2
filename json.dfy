/** JSON-shaped Python values (what `dict[str, Any]` tool results, session state
    and parsed YAML hold), with the Python operations the code applies to them. */
module Json {
  import opened Wrappers
  import opened Py

  /** `None`, `bool`, `int`, `float`, `str`, `list` and `dict`. A dict is keyed by
      strings; its insertion order is not kept. */
  datatype Json =
    | Null
    | Bool(b: bool)
    | Num(n: int)
    | Float(x: real)
    | Str(s: string)
    | Arr(items: seq<Json>)
    | Obj(fields: map<string, Json>)

  type Dict = map<string, Json>

  /** Python truthiness (`if x:` / `not x`). */
  predicate Truthy(j: Json) {
    match j
    case Null => false
    case Bool(b) => b
    case Num(n) => n != 0
    case Float(x) => x != 0.0
    case Str(s) => s != ""
    case Arr(a) => a != []
    case Obj(m) => m != map[]
  }

  /** `d.get(key, default)`. */
  function Get(d: Dict, key: string, default: Json): Json {
    if key in d then d[key] else default
  }

  /** `x[key]` for a string key: a KeyError when a dictionary lacks it, a
      TypeError for anything that is not a dictionary. */
  function Subscript(j: Json, key: string): (r: Result<Json, Exc>)
    ensures r.Success? <==> j.Obj? && key in j.fields
    ensures r.Success? ==> r.value == j.fields[key]
  {
    match j
    case Obj(m) => if key in m then Success(m[key]) else Failure(KeyError(key))
    case _ => Failure(TypeError("object is not subscriptable by a string"))
  }

  /** `len(x)`: defined for strings, lists and dicts, a TypeError otherwise. */
  function Len(j: Json): Result<nat, Exc> {
    match j
    case Str(s) => Success(|s|)
    case Arr(a) => Success(|a|)
    case Obj(m) => Success(|m|)
    case _ => Failure(TypeError("object has no len()"))
  }

  /** `x[0]`: the first item of a list or the first character of a string. */
  function First(j: Json): Result<Json, Exc> {
    match j
    case Arr(a) => if a == [] then Failure(IndexError("list index out of range")) else Success(a[0])
    case Str(s) => if s == [] then Failure(IndexError("string index out of range")) else Success(Str([s[0]]))
    case Obj(m) => Failure(KeyError("0"))
    case _ => Failure(TypeError("object is not subscriptable"))
  }

  /** The escape `json.dumps(..., ensure_ascii=False)` writes for one character. */
  function EscapeChar(c: char): string {
    if c == '"' then "\\\""
    else if c == '\\' then "\\\\"
    else if c == '\n' then "\\n"
    else if c == '\r' then "\\r"
    else if c == '\t' then "\\t"
    else if c == '\U{8}' then "\\b"
    else if c == '\U{c}' then "\\f"
    else if c < ' ' then "\\u00" + [HexDigit(c as int / 16), HexDigit(c as int % 16)]
    else [c]
  }

  function HexDigit(d: nat): char
    requires d < 16
  {
    "0123456789abcdef"[d]
  }

  function Escape(s: string): string {
    if s == [] then "" else EscapeChar(s[0]) + Escape(s[1..])
  }

  /** A JSON string literal. */
  function Quote(s: string): string {
    "\"" + Escape(s) + "\""
  }

  function DumpItem(d: Option<string>): string {
    match d
    case None => "null"
    case Some(s) => Quote(s)
  }

  function DumpItems(docs: seq<Option<string>>): seq<string>
    ensures |DumpItems(docs)| == |docs|
  {
    if docs == [] then [] else [DumpItem(docs[0])] + DumpItems(docs[1..])
  }

  /** `json.dumps(docs, ensure_ascii=False)` for a list of optional strings. */
  function DumpStrings(docs: seq<Option<string>>): string {
    "[" + Join(", ", DumpItems(docs)) + "]"
  }

  /** The JSON value of a list of optional strings. */
  function StringsValue(docs: seq<Option<string>>): (r: Json)
    ensures r.Arr? && |r.items| == |docs|
  {
    Arr(seq(|docs|, i requires 0 <= i < |docs| => if docs[i].Some? then Str(docs[i].value) else Null))
  }
}
