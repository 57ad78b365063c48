/**
 * The mapping-driven aggregation advisor of
 * agents/aggregation_aggregation_agent.py: the group-by columns are those the
 * column mapping names, not fixed per category.
 */
module MappingAggregationAgent {
  import opened Wrappers
  import opened Text
  import opened Tables
  import opened JsonText
  import DataJoining
  import AggregationAgent

  /** `mapping_columns`: a role (`customer_id`, `date`, `product_id`, ...) to a column name or None. */
  type Mapping = map<string, Option<string>>

  /** `mapping_columns.get(role)` is truthy: present, not None and not the empty name. */
  predicate Truthy(m: Mapping, role: string) {
    role in m && m[role].Some? && m[role].value != ""
  }

  /** The column a role contributes to the group-by list: its name when truthy, nothing otherwise. */
  function Picked(m: Mapping, role: string): (r: seq<string>)
    ensures |r| <= 1
    ensures r != [] <==> Truthy(m, role)
  {
    if Truthy(m, role) then [m[role].value] else []
  }

  function GroupbyList(m: Mapping): seq<string> {
    Picked(m, "customer_id") + Picked(m, "date") + Picked(m, "product_id")
  }

  /**
   * The group-by list holds the customer, date and product columns in that
   * order, each only when truthy: it is empty exactly when none is, never
   * holds an empty name, and every entry is the column of one of the three
   * roles.
   */
  lemma GroupbyListSpec(m: Mapping)
    ensures var cols := GroupbyList(m);
      |cols| <= 3
      && (cols == [] <==> !Truthy(m, "customer_id") && !Truthy(m, "date") && !Truthy(m, "product_id"))
      && (Truthy(m, "customer_id") ==> cols[0] == m["customer_id"].value)
      && (Truthy(m, "product_id") ==> cols[|cols| - 1] == m["product_id"].value)
      && (Truthy(m, "customer_id") && Truthy(m, "date") && Truthy(m, "product_id") ==>
            cols == [m["customer_id"].value, m["date"].value, m["product_id"].value])
      && forall c :: c in cols ==> c != [] && exists role :: role in ["customer_id", "date", "product_id"] && Truthy(m, role) && m[role].value == c
  {
    var cols := GroupbyList(m);
    forall c | c in cols
      ensures exists role :: role in ["customer_id", "date", "product_id"] && Truthy(m, role) && m[role].value == c
    {
      if c in Picked(m, "customer_id") {
        assert "customer_id" in ["customer_id", "date", "product_id"];
      } else if c in Picked(m, "date") {
        assert "date" in ["customer_id", "date", "product_id"];
      } else {
        assert "product_id" in ["customer_id", "date", "product_id"];
      }
    }
  }

  /** Lines 69-79: the list is built by three conditional appends. */
  method GroupbyCols(m: Mapping) returns (cols: seq<string>)
    ensures cols == GroupbyList(m)
  {
    cols := [];
    if "customer_id" in m && m["customer_id"].Some? && m["customer_id"].value != "" {
      cols := cols + [m["customer_id"].value];
    }
    if "date" in m && m["date"].Some? && m["date"].value != "" {
      cols := cols + [m["date"].value];
    }
    if "product_id" in m && m["product_id"].Some? && m["product_id"].value != "" {
      cols := cols + [m["product_id"].value];
    }
  }

  /**
   * `_check_aggregation_needed`: False without any group-by column (the
   * table is then not looked at); otherwise `groupby` on a None table fails,
   * a group-by name that is no column raises KeyError, and the answer is
   * whether two rows share all group-by values. Nothing is caught here.
   */
  function CheckAggregationNeeded(table: Option<Table>, m: Mapping): (r: Result<bool>)
    ensures GroupbyList(m) == [] ==> r == Success(false)
    ensures r == Success(true) <==>
      GroupbyList(m) != [] && table.Some? && HasColumns(table.value, GroupbyList(m))
      && !UniqueKeys(GroupbyList(m), table.value.rows)
    ensures r.Failure? <==> GroupbyList(m) != [] && (table.None? || !HasColumns(table.value, GroupbyList(m)))
    ensures r.Failure? && table.Some? ==>
      r.error.KeyError? && r.error.key in GroupbyList(m) && r.error.key !in table.value.columns
  {
    var cols := GroupbyList(m);
    if cols == [] then Success(false)
    else if table.None? then Failure(AttributeError("groupby"))
    else if !HasColumns(table.value, cols) then Failure(KeyError(DataJoining.FirstMissing(table.value, cols)))
    else
      HasDuplicateKeyIff(table.value.rows, cols);
      Success(HasDuplicateKey(table.value.rows, cols))
  }

  /** An f-string renders None as `None`. */
  function Show(v: Option<string>): string {
    match v
    case None => "None"
    case Some(s) => s
  }

  const ThreeFields: string := "Aggregation will be on three fields:"
  const TwoFields: string := "Aggregation will be on two fields:"

  /** The message lines: the header, then one `- <name>` per named role. */
  function MessageLines(m: Mapping): seq<string>
    requires "customer_id" in m && "date" in m
  {
    var cid, date := AggregationAgent.Bullet(Show(m["customer_id"])), AggregationAgent.Bullet(Show(m["date"]));
    if Truthy(m, "product_id") then [ThreeFields, cid, date, AggregationAgent.Bullet(Show(m["product_id"]))]
    else [TwoFields, cid, date]
  }

  /**
   * Lines 117-129: three fields when `product_id` is truthy, two otherwise;
   * `mapping_columns['customer_id']` and `['date']` raise KeyError when absent.
   */
  function GroupbyMessage(m: Mapping): (r: Result<string>)
    ensures "customer_id" !in m ==> r == Failure(KeyError("customer_id"))
    ensures "customer_id" in m && "date" !in m ==> r == Failure(KeyError("date"))
    ensures "customer_id" in m && "date" in m ==> r == Success(Join(MessageLines(m), '\n'))
  {
    if "customer_id" !in m then Failure(KeyError("customer_id"))
    else if "date" !in m then Failure(KeyError("date"))
    else if Truthy(m, "product_id") then
      JoinLines(MessageLines(m), '\n');
      BulletsText(ThreeFields, Show(m["customer_id"]), Show(m["date"]), m["product_id"].value);
      Success(ThreeFields + "\n- " + Show(m["customer_id"]) + "\n- " + Show(m["date"]) + "\n- " + m["product_id"].value)
    else
      JoinLines(MessageLines(m), '\n');
      BulletsText2(TwoFields, Show(m["customer_id"]), Show(m["date"]));
      Success(TwoFields + "\n- " + Show(m["customer_id"]) + "\n- " + Show(m["date"]))
  }

  /** When no named column holds a newline, the message names three fields with `product_id` and two without. */
  lemma GroupbyMessageLines(m: Mapping)
    requires "customer_id" in m && "date" in m
    requires !Contains(Show(m["customer_id"]), '\n') && !Contains(Show(m["date"]), '\n')
    requires "product_id" in m ==> !Contains(Show(m["product_id"]), '\n')
    ensures Split(GroupbyMessage(m).value, '\n') == MessageLines(m)
    ensures |MessageLines(m)| == if Truthy(m, "product_id") then 4 else 3
  {
    AggregationAgent.BulletPlain(Show(m["customer_id"]));
    AggregationAgent.BulletPlain(Show(m["date"]));
    if Truthy(m, "product_id") {
      AggregationAgent.BulletPlain(Show(m["product_id"]));
    }
    assert !Contains(ThreeFields, '\n') && !Contains(TwoFields, '\n');
    SplitJoin(MessageLines(m), '\n');
  }

  lemma BulletsText(h: string, a: string, b: string, c: string)
    ensures h + "\n- " + a + "\n- " + b + "\n- " + c
      == h + ['\n'] + AggregationAgent.Bullet(a) + ['\n'] + AggregationAgent.Bullet(b) + ['\n'] + AggregationAgent.Bullet(c)
  {
  }

  lemma BulletsText2(h: string, a: string, b: string)
    ensures h + "\n- " + a + "\n- " + b == h + ['\n'] + AggregationAgent.Bullet(a) + ['\n'] + AggregationAgent.Bullet(b)
  {
  }

  /** Joining three or four lines, written out. */
  lemma JoinLines(lines: seq<string>, sep: char)
    requires 3 <= |lines| <= 4
    ensures |lines| == 3 ==> Join(lines, sep) == lines[0] + [sep] + lines[1] + [sep] + lines[2]
    ensures |lines| == 4 ==> Join(lines, sep) == lines[0] + [sep] + lines[1] + [sep] + lines[2] + [sep] + lines[3]
  {
    var t := lines[1..];
    assert Join(lines, sep) == lines[0] + [sep] + Join(t, sep);
    assert Join(t, sep) == t[0] + [sep] + Join(t[1..], sep);
    if |lines| == 3 {
      assert Join(t[1..], sep) == lines[2];
    } else {
      var u := t[1..];
      assert Join(u, sep) == u[0] + [sep] + Join(u[1..], sep);
      assert Join(u[1..], sep) == lines[3];
    }
  }

  /** Line 105: the mapped column names, every value that is not None (whatever its role). */
  method RemovedColumns(m: Mapping) returns (cols: seq<string>)
    ensures forall c :: c in cols <==> exists role :: role in m && m[role] == Some(c)
  {
    cols := [];
    var todo := m.Keys;
    while todo != {}
      invariant todo <= m.Keys
      invariant forall c :: c in cols <==> exists role :: role in m.Keys - todo && m[role] == Some(c)
      decreases |todo|
    {
      var role :| role in todo;
      if m[role].Some? {
        cols := cols + [m[role].value];
      }
      todo := todo - {role};
    }
  }

  /**
   * Lines 104-114: exactly the non-None mapping values are deleted from the
   * four prompt dicts; every other entry stays.
   */
  method PreparePrompt(p: AggregationAgent.PromptDicts, m: Mapping) returns (q: AggregationAgent.PromptDicts)
    ensures var mapped := set role | role in m && m[role].Some? :: m[role].value;
      q == p.Without(mapped) && q.FreeOf(mapped)
  {
    var cols := RemovedColumns(m);
    q := AggregationAgent.RemoveGroupbyColumns(p, cols);
    var mapped := set role | role in m && m[role].Some? :: m[role].value;
    assert (set c | c in cols) == mapped;
  }

  /**
   * `execute_task` with `task.data['mapping_columns']` (`{}` when absent): the
   * check's error propagates; no aggregation gives `False`; otherwise the
   * group-by message's KeyError propagates, or the answer is the cleaned reply.
   */
  function ExecuteTask(table: Option<Table>, mapping: Option<Mapping>, content: Option<string>, parse: Parser): (r: Result<AggregationAgent.AgentAnswer>)
    ensures var m := mapping.GetOr(map[]);
      (r == Success(AggregationAgent.NoAggregation) <==> CheckAggregationNeeded(table, m) == Success(false))
      && (CheckAggregationNeeded(table, m).Failure? ==> r == Failure(CheckAggregationNeeded(table, m).error))
      && (r.Success? && r.value.Suggestions? ==>
            CheckAggregationNeeded(table, m) == Success(true) && GroupbyMessage(m).Success?
            && r.value.suggestions == AggregationAgent.ReplyDict(content, parse))
      && (CheckAggregationNeeded(table, m) == Success(true) ==>
            (GroupbyMessage(m).Failure? ==> r == Failure(GroupbyMessage(m).error))
            && (GroupbyMessage(m).Success? ==> r == Success(AggregationAgent.Suggestions(AggregationAgent.ReplyDict(content, parse)))))
  {
    var m := mapping.GetOr(map[]);
    match CheckAggregationNeeded(table, m)
    case Failure(e) => Failure(e)
    case Success(needed) =>
      if !needed then Success(AggregationAgent.NoAggregation)
      else
        match GroupbyMessage(m)
        case Failure(e) => Failure(e)
        case Success(_) => Success(AggregationAgent.Suggestions(AggregationAgent.ReplyDict(content, parse)))
  }

  /** Without a mapping nothing is grouped, so the agent answers `False`. */
  lemma NoMappingNoAggregation(table: Option<Table>, content: Option<string>, parse: Parser)
    ensures ExecuteTask(table, None, content, parse) == Success(AggregationAgent.NoAggregation)
  {
    assert GroupbyList(map[]) == [];
  }

  /** The mapping that names a category's own group-by columns: the product column only at product level. */
  function CategoryMapping(category: string, productLevel: bool): Mapping
    requires category in DataJoining.DateColumns
  {
    map["customer_id" := Some("CustomerID"), "date" := Some(DataJoining.DateColumns[category]),
        "product_id" := if productLevel then Some("ProductID") else None]
  }

  /**
   * With the mapping naming a category's own columns, this agent answers as
   * the category-driven advisor of agents/aggregation_agent.py does when the
   * table has those columns; when it lacks one, this agent raises KeyError
   * where the other answers with suggestions.
   */
  lemma AgreesWithCategoryAgent(table: Table, category: string, productLevel: bool, content: Option<string>, parse: Parser)
    requires category in DataJoining.DateColumns
    ensures var m := CategoryMapping(category, productLevel);
      var mine := ExecuteTask(Some(table), Some(m), content, parse);
      var theirs := AggregationAgent.ExecuteTask(Some(table), Some(category),
                      Some(if productLevel then DataJoining.ProductLevel else "Customer Level"), content, parse);
      (HasColumns(table, GroupbyList(m)) ==> mine == theirs)
      && (!HasColumns(table, GroupbyList(m)) ==>
            mine.Failure? && mine.error.KeyError? && theirs == Success(AggregationAgent.Suggestions(AggregationAgent.ReplyDict(content, parse))))
  {
    var m := CategoryMapping(category, productLevel);
    var level := if productLevel then DataJoining.ProductLevel else "Customer Level";
    CategoryLower(category);
    assert GroupbyList(m) == AggregationAgent.GroupbyColumns(category, level).value;
  }

  /** The three category names are already lower-case. */
  lemma CategoryLower(category: string)
    requires category in DataJoining.DateColumns
    ensures Lower(category) == category
  {
    assert forall i :: 0 <= i < |category| ==> 'a' <= category[i] <= 'z';
    LowerFixed(category);
  }
}
