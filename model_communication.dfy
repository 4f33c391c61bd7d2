/** Reading a JSON answer out of a model's reply
    (`agents/utils/model_communication_utils.py`): the first code block fenced
    by three backticks and `json` is found, its body is stripped and parsed.
    The JSON parser is a parameter (`None` stands for a `JSONDecodeError`); the
    HTTP helpers of the same file are not part of this model.
    Source defect: the parameter is named `test` while the body reads `text`
    (`model_communication_utils.py:7,23`), so every call fails with a
    `NameError`; the model takes the reply text as the parameter, as
    intended. */
module ModelCommunication {
  import opened Wrappers
  import opened Py
  import opened Json

  const OPEN_FENCE: string := "```json"
  const CLOSE_FENCE: string := "```"

  /** `pat` occurs in `s` at index `i`. */
  predicate OccursAt(s: string, pat: string, i: int) {
    0 <= i && i + |pat| <= |s| && s[i..i + |pat|] == pat
  }

  /** The first index at or after `from` where `pat` occurs, if any. */
  function IndexOf(s: string, pat: string, from: nat): (r: Option<nat>)
    ensures r.Some? ==> from <= r.value && OccursAt(s, pat, r.value)
    ensures r.Some? ==> forall j :: from <= j < r.value ==> !OccursAt(s, pat, j)
    ensures r.None? ==> forall j :: from <= j ==> !OccursAt(s, pat, j)
    decreases |s| - from
  {
    if from + |pat| > |s| then None
    else if s[from..from + |pat|] == pat then Some(from)
    else IndexOf(s, pat, from + 1)
  }

  /** The regular expression ```` ```json(.*?)``` ```` with `re.DOTALL` matches at
      `start` with its group ending at `end`: an opening fence at `start`, a
      closing fence at `end`, the group in between (which may hold newlines). */
  predicate MatchAt(text: string, start: int, end: int) {
    OccursAt(text, OPEN_FENCE, start) && start + |OPEN_FENCE| <= end && OccursAt(text, CLOSE_FENCE, end)
  }

  /** `pattern.search(text)`: the leftmost match, and for it the shortest group
      (the lazy `.*?`), as the index of the opening fence and the end of the
      group. */
  function FindBlock(text: string): (r: Option<(nat, nat)>)
    ensures r.None? ==> forall i, k :: !MatchAt(text, i, k)
    ensures r.Some? ==> r.value.0 + |OPEN_FENCE| <= r.value.1 <= |text| && MatchAt(text, r.value.0, r.value.1)
    ensures r.Some? ==> forall i, k :: MatchAt(text, i, k) ==> r.value.0 <= i
    ensures r.Some? ==> forall k :: MatchAt(text, r.value.0, k) ==> r.value.1 <= k
  {
    match IndexOf(text, OPEN_FENCE, 0)
    case None => None
    case Some(open) =>
      match IndexOf(text, CLOSE_FENCE, open + |OPEN_FENCE|)
      case None => None
      case Some(close) => Some((open, close))
  }

  /** The group of the match found. */
  function Group(text: string, m: (nat, nat)): string
    requires m.0 + |OPEN_FENCE| <= m.1 <= |text|
  {
    text[m.0 + |OPEN_FENCE|..m.1]
  }

  /** `parse_json_code_block(text)`: the parsed body of the first `json` code
      block; `None` when there is no such block, when its stripped body is
      empty, or when the body is not valid JSON. */
  function ParseJsonCodeBlock(text: string, loads: string -> Option<Json>): (r: Option<Json>)
    ensures FindBlock(text).None? ==> r.None?
    ensures r.Some? ==> FindBlock(text).Some? && Strip(Group(text, FindBlock(text).value)) != ""
    ensures FindBlock(text).Some? && Strip(Group(text, FindBlock(text).value)) != "" ==>
      r == loads(Strip(Group(text, FindBlock(text).value)))
    ensures FindBlock(text).Some? && Strip(Group(text, FindBlock(text).value)) == "" ==> r.None?
  {
    match FindBlock(text)
    case None => None
    case Some(m) =>
      var jsonString := Strip(Group(text, m));
      if jsonString == "" then None else loads(jsonString)
  }

  /** No closing fence starts inside a backtick-free stretch of text. */
  lemma NoCloseFenceWithin(text: string, lo: nat, hi: nat)
    requires lo <= hi <= |text|
    requires forall i :: lo <= i < hi ==> text[i] != '`'
    ensures forall j :: lo <= j < hi ==> !OccursAt(text, CLOSE_FENCE, j)
  {
    forall j | lo <= j < hi
      ensures !OccursAt(text, CLOSE_FENCE, j)
    {
      if j + |CLOSE_FENCE| <= |text| {
        assert text[j..j + |CLOSE_FENCE|][0] == text[j] != CLOSE_FENCE[0];
      }
    }
  }

  /** In a reply that is exactly one `json` block whose body holds no
      backtick, the block found is that body. */
  lemma FencedBlockFound(text: string, body: string)
    requires text == OPEN_FENCE + body + CLOSE_FENCE
    requires forall i :: 0 <= i < |body| ==> body[i] != '`'
    ensures FindBlock(text) == Some((0, |OPEN_FENCE| + |body|))
    ensures Group(text, (0, |OPEN_FENCE| + |body|)) == body
  {
    var n := |OPEN_FENCE|;
    assert OccursAt(text, OPEN_FENCE, 0) by { assert text[0..n] == OPEN_FENCE; }
    assert OccursAt(text, CLOSE_FENCE, n + |body|) by { assert text[n + |body|..] == CLOSE_FENCE; }
    assert MatchAt(text, 0, n + |body|);
    forall i | n <= i < n + |body|
      ensures text[i] != '`'
    {
      assert text[i] == body[i - n];
    }
    NoCloseFenceWithin(text, n, n + |body|);
    assert text[n..n + |body|] == body;
  }

  /** A reply that is exactly one `json` block whose body holds no backtick is
      parsed from its stripped body. */
  lemma FencedBlockParses(body: string, loads: string -> Option<Json>)
    requires forall i :: 0 <= i < |body| ==> body[i] != '`'
    requires Strip(body) != ""
    ensures ParseJsonCodeBlock(OPEN_FENCE + body + CLOSE_FENCE, loads) == loads(Strip(body))
  {
    FencedBlockFound(OPEN_FENCE + body + CLOSE_FENCE, body);
  }

  /** A reply with no opening fence has no answer. */
  lemma NoOpenFenceNoAnswer(text: string, loads: string -> Option<Json>)
    requires forall i :: !OccursAt(text, OPEN_FENCE, i)
    ensures ParseJsonCodeBlock(text, loads) == None
  {
  }
}
