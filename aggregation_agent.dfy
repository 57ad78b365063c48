/**
 * The aggregation advisor of agents/aggregation_agent.py: which columns a
 * category's table is grouped by, whether grouping finds repeated keys, the
 * prompt material with the group-by columns taken out, and what the agent
 * answers. The LLM's reply is an input (`content`) and `json.loads` is the
 * parser parameter of JsonText.
 */
module AggregationAgent {
  import opened Wrappers
  import opened Text
  import opened Tables
  import opened JsonText
  import DataJoining

  /** The two group-by lists of one category. */
  datatype GroupbyChoice = GroupbyChoice(baseColumns: seq<string>, productLevel: seq<string>)

  /** `category_groupby_mapping`. */
  const CategoryGroupbyMapping: map<string, GroupbyChoice> := map[
    "billing" := GroupbyChoice(["CustomerID", "BillingDate"], ["CustomerID", "BillingDate", "ProductID"]),
    "usage" := GroupbyChoice(["CustomerID", "UsageDate"], ["CustomerID", "UsageDate", "ProductID"]),
    "support" := GroupbyChoice(["CustomerID", "TicketOpenDate"], ["CustomerID", "TicketOpenDate", "ProductID"])
  ]

  /**
   * `_get_groupby_columns`: an unknown (lower-cased) category is a
   * ValueError; otherwise the customer and date columns of the category, and
   * at product level the product column after them. The date column is the
   * one the joining engine uses for the same category.
   */
  function GroupbyColumns(category: string, granularity: string): (r: Result<seq<string>>)
    ensures var c := Lower(category);
      (r.Failure? <==> c !in DataJoining.DateColumns)
      && (r.Failure? ==> r.error == ValueError("Unknown category: " + c))
      && (r.Success? ==> r.value == ["CustomerID", DataJoining.DateColumns[c]]
                                    + (if granularity == DataJoining.ProductLevel then ["ProductID"] else []))
  {
    var c := Lower(category);
    if c !in CategoryGroupbyMapping then Failure(ValueError("Unknown category: " + c))
    else if granularity == "Product Level" then Success(CategoryGroupbyMapping[c].productLevel)
    else Success(CategoryGroupbyMapping[c].baseColumns)
  }

  /**
   * The aggregation group-by keys are the intra-category join keys of the
   * joining engine, in another order (the product column comes last here).
   */
  lemma GroupbyMatchesJoinKeys(category: string, granularity: string)
    requires Lower(category) in DataJoining.DateColumns
    ensures var r := GroupbyColumns(category, granularity);
      var keys := DataJoining.JoinKeys(Lower(category), granularity);
      r.Success? && |r.value| == |keys| && forall k :: k in r.value <==> k in keys
  {
  }

  /**
   * `_check_aggregation_needed`: a missing group-by column raises inside the
   * try and the handler answers True; otherwise True exactly when two rows
   * share all group-by values.
   */
  function CheckAggregationNeeded(t: Table, cols: seq<string>): (r: bool)
    ensures r <==> !HasColumns(t, cols) || !UniqueKeys(cols, t.rows)
  {
    HasDuplicateKeyIff(t.rows, cols);
    !HasColumns(t, cols) || HasDuplicateKey(t.rows, cols)
  }

  /** What `execute_task` returns: `False`, or the suggestion dict. */
  datatype AgentAnswer = NoAggregation | Suggestions(suggestions: map<string, Json>)

  /**
   * Lines 159-164: the message content goes through `_clean_json_string`; a
   * None content makes `find` raise an AttributeError, which the outer
   * handler turns into `{}`.
   */
  function ReplyDict(content: Option<string>, parse: Parser): map<string, Json> {
    match content
    case None => map[]
    case Some(text) => CleanJson(text, parse)
  }

  /**
   * `execute_task`. `table`, `category` and `granularity` are the entries of
   * `task.data` (None when absent; the category defaults to "" and the
   * granularity to "Customer Level"). A None table fails on `df.columns`.
   */
  function ExecuteTask(table: Option<Table>, category: Option<string>, granularity: Option<string>,
                       content: Option<string>, parse: Parser): (r: Result<AgentAnswer>)
    ensures table.None? ==> r == Failure(AttributeError("columns"))
    ensures table.Some? ==>
      var cols := GroupbyColumns(Lower(category.GetOr("")), granularity.GetOr("Customer Level"));
      (cols.Failure? ==> r == Failure(cols.error))
      && (cols.Success? ==>
            r.Success?
            && (r.value == NoAggregation <==> HasColumns(table.value, cols.value) && UniqueKeys(cols.value, table.value.rows))
            && (r.value.Suggestions? ==> r.value.suggestions == ReplyDict(content, parse)))
  {
    if table.None? then Failure(AttributeError("columns"))
    else
      var c := Lower(category.GetOr(""));
      match GroupbyColumns(c, granularity.GetOr("Customer Level"))
      case Failure(e) => Failure(e)
      case Success(cols) =>
        if !CheckAggregationNeeded(table.value, cols) then Success(NoAggregation)
        else Success(Suggestions(ReplyDict(content, parse)))
  }

  /** Lower-casing twice (lines 39 and 72) is lower-casing once. */
  lemma ExecuteTaskCategory(category: string, granularity: string)
    ensures GroupbyColumns(Lower(category), granularity) == GroupbyColumns(category, granularity)
  {
    LowerIdempotent(category);
  }

  // ---------------------------------------------------------------------------
  // Prompt material (lines 103-132)
  // ---------------------------------------------------------------------------

  /**
   * The four per-column dicts handed to the prompt: the dtype names, the
   * `describe` statistics and the sample values (kept abstract as JSON), and
   * the text descriptions.
   */
  datatype PromptDicts = PromptDicts(
    featureDtypes: map<string, string>,
    describe: map<string, Json>,
    sample: map<string, Json>,
    textDescribe: map<string, string>)
  {
    /** The dicts with the columns of `drop` removed. */
    function Without(drop: set<string>): PromptDicts {
      PromptDicts(featureDtypes - drop, describe - drop, sample - drop, textDescribe - drop)
    }

    /** No column of `cols` is a key of any of the four dicts. */
    predicate FreeOf(cols: set<string>) {
      forall c :: c in cols ==> c !in featureDtypes && c !in describe && c !in sample && c !in textDescribe
    }
  }

  /** Lines 113-116: one description per dtype entry. */
  function TextDescriptions(dtypes: map<string, string>): (r: map<string, string>)
    ensures r.Keys == dtypes.Keys
    ensures forall c :: c in r ==> r[c] == "Column containing " + dtypes[c] + " type data"
  {
    map c | c in dtypes :: "Column containing " + dtypes[c] + " type data"
  }

  function BuildDicts(dtypes: map<string, string>, describe: map<string, Json>, sample: map<string, Json>): PromptDicts {
    PromptDicts(dtypes, describe, sample, TextDescriptions(dtypes))
  }

  /**
   * Lines 119-127: every group-by column is deleted from the four dicts where
   * present. Afterwards no group-by column is a key of any of them and every
   * other entry is still there, unchanged.
   */
  method RemoveGroupbyColumns(p: PromptDicts, cols: seq<string>) returns (q: PromptDicts)
    ensures q == p.Without(set c | c in cols)
    ensures q.FreeOf(set c | c in cols)
  {
    q := p;
    var i := 0;
    while i < |cols|
      invariant 0 <= i <= |cols|
      invariant q == p.Without(Elements(cols[..i]))
    {
      ElementsSnoc(cols, i);
      WithoutTwice(p, Elements(cols[..i]), cols[i]);
      q := DropColumn(q, cols[i]);
      i := i + 1;
    }
    assert cols[..i] == cols;
    ElementsSet(cols);
  }

  /** One iteration of the loop: the four conditional deletions of one column. */
  method DropColumn(p: PromptDicts, col: string) returns (q: PromptDicts)
    ensures q == p.Without({col})
  {
    var dtypes, describe, sample, text := p.featureDtypes, p.describe, p.sample, p.textDescribe;
    if col in dtypes {
      dtypes := dtypes - {col};
    }
    if col in describe {
      describe := describe - {col};
    }
    if col in sample {
      sample := sample - {col};
    }
    if col in text {
      text := text - {col};
    }
    q := PromptDicts(dtypes, describe, sample, text);
  }

  /** The columns of a list, built up from its front. */
  function Elements(cols: seq<string>): set<string> {
    if cols == [] then {} else Elements(cols[..|cols| - 1]) + {cols[|cols| - 1]}
  }

  lemma ElementsSnoc(cols: seq<string>, i: nat)
    requires i < |cols|
    ensures Elements(cols[..i + 1]) == Elements(cols[..i]) + {cols[i]}
  {
    assert cols[..i + 1][..i] == cols[..i];
  }

  lemma {:induction false} ElementsSet(cols: seq<string>)
    ensures Elements(cols) == set c | c in cols
  {
    if cols != [] {
      var init := cols[..|cols| - 1];
      ElementsSet(init);
      assert cols == init + [cols[|cols| - 1]];
    }
  }

  lemma WithoutTwice(p: PromptDicts, a: set<string>, c: string)
    ensures p.Without(a).Without({c}) == p.Without(a + {c})
  {
  }

  const MessageHeader: string := "Aggregation will be on fields:"

  /** The bullet line of one column. */
  function Bullet(col: string): string {
    "- " + col
  }

  /** One bullet per column, in order. */
  function Bullets(cols: seq<string>): (r: seq<string>)
    ensures |r| == |cols| && forall i :: 0 <= i < |cols| ==> r[i] == Bullet(cols[i])
  {
    if cols == [] then [] else Bullets(cols[..|cols| - 1]) + [Bullet(cols[|cols| - 1])]
  }

  /** The message lines: the header, one bullet per column in order, and the empty text after the final newline. */
  function MessageLines(cols: seq<string>): seq<string> {
    [MessageHeader] + Bullets(cols) + [[]]
  }

  /** Lines 130-132 build the message by appending `"- <col>\n"` for each column. */
  method GroupbyMessage(cols: seq<string>) returns (msg: string)
    ensures msg == Join(MessageLines(cols), '\n')
  {
    msg := MessageHeader + "\n";
    var i := 0;
    while i < |cols|
      invariant 0 <= i <= |cols|
      invariant msg == MessageSoFar(cols, i)
    {
      MessageStep(cols, i);
      msg := msg + "- " + cols[i] + "\n";
      i := i + 1;
    }
    MessageDone(cols);
  }

  /** The message after the header and the bullets of the first `i` columns. */
  function MessageSoFar(cols: seq<string>, i: nat): string
    requires i <= |cols|
  {
    Join([MessageHeader] + Bullets(cols[..i]), '\n') + "\n"
  }

  lemma MessageStep(cols: seq<string>, i: nat)
    requires i < |cols|
    ensures MessageSoFar(cols, i + 1) == MessageSoFar(cols, i) + "- " + cols[i] + "\n"
  {
    var head := [MessageHeader] + Bullets(cols[..i]);
    assert cols[..i + 1][..i] == cols[..i];
    assert [MessageHeader] + Bullets(cols[..i + 1]) == head + [Bullet(cols[i])];
    JoinSnoc(head, Bullet(cols[i]), '\n');
  }

  lemma MessageDone(cols: seq<string>)
    ensures MessageSoFar(cols, |cols|) == Join(MessageLines(cols), '\n')
  {
    assert cols[..|cols|] == cols;
    JoinSnoc([MessageHeader] + Bullets(cols), [], '\n');
  }

  /**
   * When no column name holds a newline, the message's lines are exactly the
   * header, `- <col>` for each group-by column in order, and the empty text
   * after the final newline.
   */
  lemma GroupbyMessageLines(cols: seq<string>, msg: string)
    requires forall c :: c in cols ==> !Contains(c, '\n')
    requires msg == Join(MessageLines(cols), '\n')
    ensures var lines := Split(msg, '\n');
      |lines| == |cols| + 2 && lines[0] == MessageHeader && lines[|cols| + 1] == []
      && forall i :: 0 <= i < |cols| ==> lines[i + 1] == Bullet(cols[i])
  {
    MessageLinesPlain(cols);
    SplitJoin(MessageLines(cols), '\n');
  }

  lemma MessageLinesPlain(cols: seq<string>)
    requires forall c :: c in cols ==> !Contains(c, '\n')
    ensures forall p :: p in MessageLines(cols) ==> !Contains(p, '\n')
  {
    var lines := MessageLines(cols);
    forall i | 0 <= i < |lines|
      ensures !Contains(lines[i], '\n')
    {
      if i == 0 {
        assert !Contains(MessageHeader, '\n');
      } else if i < |lines| - 1 {
        assert cols[i - 1] in cols;
        BulletPlain(cols[i - 1]);
      }
    }
  }

  lemma BulletPlain(c: string)
    requires !Contains(c, '\n')
    ensures !Contains(Bullet(c), '\n')
  {
    assert forall k :: 2 <= k < |Bullet(c)| ==> Bullet(c)[k] == c[k - 2];
  }
}
