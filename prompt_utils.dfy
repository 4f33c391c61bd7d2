/** Looking up a prompt in the agents' prompt file (`agents/utils/prompt_utils.py`):
    a dotted tag such as `"tag1.tag2.tag3"` is walked key by key through the
    parsed YAML. Locating the file next to the caller, opening it and parsing
    the YAML are not part of this model: the parsed document is a parameter.
    Source defect: the file is opened with the encoding `'utr-8'`
    (`prompt_utils.py:26`), which Python does not know, so every call fails
    with a `LookupError` before the walk; the model reads the document as the
    intended UTF-8 text would give it.
    A tag that is missing gives `{}`, although the docstring
    (`prompt_utils.py:12`) promises an empty string; the model follows the
    code. */
module PromptUtils {
  import opened Wrappers
  import opened Py
  import opened Json

  /** `{}`, the default of every lookup. */
  const EMPTY: Json := Obj(map[])

  /** One step of the walk, `current.get(key, {})`: a dictionary gives the
      key's value or `{}`; anything else has no `get`. */
  function Step(current: Json, key: string): (r: Result<Json, Exc>)
    ensures r.Success? <==> current.Obj?
    ensures current.Obj? && key !in current.fields ==> r == Success(EMPTY)
    ensures current.Obj? && key in current.fields ==> r == Success(current.fields[key])
  {
    if current.Obj? then Success(Get(current.fields, key, EMPTY))
    else Failure(AttributeError("object has no attribute 'get'"))
  }

  /** The walk through `keys`, left to right; the first step that meets a value
      that is not a dictionary fails. */
  function Walk(current: Json, keys: seq<string>): Result<Json, Exc>
    decreases |keys|
  {
    if keys == [] then Success(current)
    else
      var next :- Step(current, keys[0]);
      Walk(next, keys[1..])
  }

  /** `get_prompt_yaml(tag)` after the document is loaded: the tag is split on
      `"."` and the keys are looked up in turn. */
  method GetPromptYaml(tag: string, config: Json) returns (r: Result<Json, Exc>)
    ensures r == Walk(config, Split(tag, '.'))
  {
    var keys := Split(tag, '.');
    var current := config;
    var i := 0;
    while i < |keys|
      invariant 0 <= i <= |keys|
      invariant Walk(config, keys) == Walk(current, keys[i..])
    {
      assert keys[i..][1..] == keys[i + 1..];
      var next := Step(current, keys[i]);
      if next.Failure? {
        return Failure(next.error);
      }
      current := next.value;
      i := i + 1;
    }
    return Success(current);
  }

  /** Once a key is missing the walk stays at `{}`: every later key is looked
      up in `{}` and gives `{}`. */
  lemma {:induction false} WalkFromEmpty(keys: seq<string>)
    ensures Walk(EMPTY, keys) == Success(EMPTY)
    decreases |keys|
  {
    if keys != [] {
      WalkFromEmpty(keys[1..]);
    }
  }

  /** A missing key at any level makes the whole lookup `{}`. */
  lemma WalkMissingKey(config: Json, keys: seq<string>, i: nat)
    requires i < |keys|
    requires Walk(config, keys[..i]).Success?
    requires Walk(config, keys[..i]).value.Obj? && keys[i] !in Walk(config, keys[..i]).value.fields
    ensures Walk(config, keys) == Success(EMPTY)
  {
    WalkAppend(config, keys[..i], keys[i..]);
    assert keys[..i] + keys[i..] == keys;
    assert keys[i..][1..] == keys[i + 1..];
    WalkFromEmpty(keys[i + 1..]);
  }

  /** Walking `a + b` is walking `a`, then `b` from where `a` ended. */
  lemma {:induction false} WalkAppend(current: Json, a: seq<string>, b: seq<string>)
    ensures Walk(current, a + b) ==
      (match Walk(current, a)
       case Failure(e) => Failure(e)
       case Success(mid) => Walk(mid, b))
    decreases |a|
  {
    if a == [] {
      assert a + b == b;
    } else {
      assert (a + b)[0] == a[0];
      assert (a + b)[1..] == a[1..] + b;
      var next := Step(current, a[0]);
      if next.Success? {
        WalkAppend(next.value, a[1..], b);
      }
    }
  }

  /** A tag without a dot is a top-level lookup. */
  lemma SingleSegmentTag(tag: string, fields: map<string, Json>)
    requires '.' !in tag
    ensures Walk(Obj(fields), Split(tag, '.')) == Success(Get(fields, tag, EMPTY))
  {
    SplitPrefix(tag, "", '.');
    assert tag + "" == tag;
    assert Split(tag, '.') == [tag];
  }

  /** The tag `"outer.inner"` walks the keys of `outer`, then those of `inner`
      inside what `outer` found. */
  lemma DottedTag(config: Json, outer: string, inner: string)
    ensures Walk(config, Split(outer + "." + inner, '.')) ==
      (match Walk(config, Split(outer, '.'))
       case Failure(e) => Failure(e)
       case Success(mid) => Walk(mid, Split(inner, '.')))
  {
    SplitConcat(outer, inner, '.');
    WalkAppend(config, Split(outer, '.'), Split(inner, '.'));
  }
}
