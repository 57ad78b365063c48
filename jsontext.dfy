/**
 * `_clean_json_string`, which the three LLM agents share word for word: cut
 * the text from its first `{` to its last `}`, drop a leading or trailing
 * code fence and a leading `json` word, strip, and hand the rest to
 * `json.loads`. The parser itself is a parameter: a partial function whose
 * `None` stands for the ValueError it raises.
 */
module JsonText {
  import opened Wrappers
  import opened Text

  /** A parsed JSON value; `JNull` is Python's None. */
  datatype Json =
    | JNull
    | JBool(b: bool)
    | JNumber(n: int)
    | JString(s: string)
    | JArray(items: seq<Json>)
    | JObject(fields: map<string, Json>)

  /** `json.loads`: the value the text denotes, or None when it raises. */
  type Parser = string -> Option<Json>

  const Fence: string := "```"

  /** `re.sub(r"^```", "", s)`: the pattern is anchored at the start, so at most one fence goes. */
  function DropLeadingFence(s: string): string {
    if StartsWith(s, Fence) then s[|Fence|..] else s
  }

  /**
   * `re.sub(r"```$", "", s)`: `$` matches at the very end and just before a
   * final newline, and only one of the two can be preceded by a fence.
   */
  function DropTrailingFence(s: string): string {
    if EndsWith(s, Fence) then s[..|s| - |Fence|]
    else if EndsWith(s, Fence + "\n") then s[..|s| - |Fence| - 1] + "\n"
    else s
  }

  /** `re.sub(r"^json\s*", "", s, flags=re.IGNORECASE)`: a leading `json` in any case, and the whitespace after it. */
  function DropJsonWord(s: string): string {
    if |s| >= 4 && Lower(s[..4]) == "json" then StripLeft(s[4..]) else s
  }

  /** Lines 180-188 of the aggregation agent: the clean-up applied to the cut-out text. */
  function Tidy(s: string): string {
    Strip(DropJsonWord(DropTrailingFence(DropLeadingFence(s))))
  }

  /**
   * Lines 170-178: nothing when a brace is missing, otherwise the slice
   * `text[start:end + 1]` (empty when the last `}` comes before the first `{`).
   */
  function Extract(text: string): (r: Option<string>)
    ensures r.None? <==> !Contains(text, '{') || !Contains(text, '}')
  {
    var start, end := Find(text, '{'), RFind(text, '}');
    if start == -1 || end == -1 then None
    else if start <= end then Some(text[start..end + 1])
    else Some([])
  }

  /** Lines 191-196: a dict parse is returned, anything else gives `{}`. */
  function ObjectOf(parsed: Option<Json>): map<string, Json> {
    match parsed
    case Some(JObject(m)) => m
    case _ => map[]
  }

  /** `_clean_json_string`. */
  function CleanJson(text: string, parse: Parser): map<string, Json> {
    match Extract(text)
    case None => map[]
    case Some(body) => ObjectOf(parse(Tidy(body)))
  }

  /** A text that starts with `{` and ends with `}` passes the clean-up unchanged. */
  lemma TidyBraced(s: string)
    requires |s| >= 1 && s[0] == '{' && s[|s| - 1] == '}'
    ensures Tidy(s) == s
  {
    assert !StartsWith(s, Fence) by {
      if |Fence| <= |s| {
        assert s[..|Fence|][0] == s[0];
      }
    }
    assert !EndsWith(s, Fence) by {
      if |Fence| <= |s| {
        assert s[|s| - |Fence|..][|Fence| - 1] == s[|s| - 1];
      }
    }
    assert !EndsWith(s, Fence + "\n") by {
      if |Fence| + 1 <= |s| {
        assert s[|s| - |Fence| - 1..][|Fence|] == s[|s| - 1];
      }
    }
    assert !(|s| >= 4 && Lower(s[..4]) == "json") by {
      if |s| >= 4 {
        assert Lower(s[..4])[0] == LowerChar(s[0]);
      }
    }
    assert DropJsonWord(DropTrailingFence(DropLeadingFence(s))) == s;
    StripTrimmed(s);
  }

  lemma TidyEmpty()
    ensures Tidy([]) == []
  {
    assert DropJsonWord(DropTrailingFence(DropLeadingFence([]))) == [];
    StripTrimmed([]);
  }

  /**
   * What `_clean_json_string` parses: without both braces it parses nothing
   * and answers `{}`; otherwise it parses exactly the text from the first `{`
   * to the last `}` (the fence, `json` and strip steps change nothing there),
   * or the empty text when the last `}` precedes the first `{`.
   */
  lemma CleanJsonSpec(text: string, parse: Parser)
    ensures !Contains(text, '{') || !Contains(text, '}') ==> CleanJson(text, parse) == map[]
    ensures Contains(text, '{') && Contains(text, '}') ==>
      var start, end := Find(text, '{'), RFind(text, '}');
      0 <= start < |text| && 0 <= end < |text|
      && (start <= end ==>
            text[start] == '{' && text[end] == '}'
            && (forall k :: 0 <= k < start ==> text[k] != '{')
            && (forall k :: end < k < |text| ==> text[k] != '}')
            && CleanJson(text, parse) == ObjectOf(parse(text[start..end + 1])))
      && (end < start ==> CleanJson(text, parse) == ObjectOf(parse([])))
  {
    if Contains(text, '{') && Contains(text, '}') {
      if Find(text, '{') <= RFind(text, '}') {
        ParsesBracedSlice(text, parse);
      } else {
        assert Extract(text) == Some([]);
        TidyEmpty();
      }
    }
  }

  lemma ParsesBracedSlice(text: string, parse: Parser)
    requires Contains(text, '{') && Contains(text, '}') && Find(text, '{') <= RFind(text, '}')
    ensures CleanJson(text, parse) == ObjectOf(parse(text[Find(text, '{')..RFind(text, '}') + 1]))
  {
    var body := text[Find(text, '{')..RFind(text, '}') + 1];
    ExtractBraced(text);
    TidyBraced(body);
    var t := Tidy(body);
    assert CleanJson(text, parse) == ObjectOf(parse(t));
  }

  lemma ExtractBraced(text: string)
    requires Contains(text, '{') && Contains(text, '}') && Find(text, '{') <= RFind(text, '}')
    ensures var body := text[Find(text, '{')..RFind(text, '}') + 1];
      Extract(text) == Some(body) && |body| >= 1 && body[0] == '{' && body[|body| - 1] == '}'
  {
  }
}
