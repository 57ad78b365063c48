/**
 * The column-mapping advisor of agents/aggregation_column_mapping_agent.py:
 * it asks the LLM which columns hold the customer id, the date and the
 * product id, and shapes the reply into a dict with exactly those three keys.
 */
module ColumnMappingAgent {
  import opened Wrappers
  import opened Text
  import opened Tables
  import opened JsonText

  const Roles: set<string> := {"customer_id", "date", "product_id"}

  /** `{'customer_id': None, 'date': None, 'product_id': None}`. */
  function AllNone(): map<string, Json> {
    map["customer_id" := JNull, "date" := JNull, "product_id" := JNull]
  }

  /** Lines 84-88: each role's entry of the parsed dict (`.get`, so None when absent). */
  function Shape(d: map<string, Json>): (r: map<string, Json>)
    ensures r.Keys == Roles
    ensures forall role :: role in Roles ==> r[role] == if role in d then d[role] else JNull
  {
    map role | role in Roles :: if role in d then d[role] else JNull
  }

  /**
   * `execute_task`: a None table answers all None without asking; a None
   * message content makes `_clean_json_string` fail on `find`, which the
   * handler at lines 89-91 turns into all None; otherwise the cleaned reply
   * is shaped.
   */
  function ExecuteTask(table: Option<Table>, content: Option<string>, parse: Parser): (r: map<string, Json>)
    ensures r.Keys == Roles
    ensures table.None? || content.None? ==> r == AllNone()
    ensures table.Some? && content.Some? ==>
      forall role :: role in Roles ==>
        r[role] == (var d := CleanJson(content.value, parse); if role in d then d[role] else JNull)
  {
    if table.None? || content.None? then AllNone()
    else Shape(CleanJson(content.value, parse))
  }

  /** A reply without both braces parses to `{}`, so every role is None. */
  lemma NoBracesAllNone(t: Table, text: string, parse: Parser)
    requires !Contains(text, '{') || !Contains(text, '}')
    ensures ExecuteTask(Some(t), Some(text), parse) == AllNone()
  {
    CleanJsonSpec(text, parse);
    assert Shape(map[]) == AllNone();
  }

  /**
   * With both braces in order, each role's value is that role's entry of the
   * object parsed from the text between the first `{` and the last `}`, or
   * None when that parse gives no object or lacks the role.
   */
  lemma ParsedFromBracedSlice(t: Table, text: string, parse: Parser)
    requires Contains(text, '{') && Contains(text, '}') && Find(text, '{') <= RFind(text, '}')
    ensures var d := ObjectOf(parse(text[Find(text, '{')..RFind(text, '}') + 1]));
      var r := ExecuteTask(Some(t), Some(text), parse);
      forall role :: role in Roles ==> r[role] == if role in d then d[role] else JNull
  {
    ParsesBracedSlice(text, parse);
  }
}
