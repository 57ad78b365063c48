/**
 * The table-consolidation and join engine of step 5, as pure functions over
 * an explicit session value. One call of `ProcessJoining` is one run of the
 * interactive page: it reads the persisted session, the uploaded tables and
 * the button the operator clicked during the previous run, and returns the
 * new session, the (standardised) tables and the reply.
 *
 * The class in joining_engine.dfy performs the same steps imperatively and is
 * proved to agree with these functions.
 */
module DataJoining {
  import opened Wrappers
  import opened Tables

  // ---------------------------------------------------------------------------
  // Constants of the engine
  // ---------------------------------------------------------------------------

  /** The categories in the order the engine scans them. */
  const Categories: seq<string> := ["billing", "usage", "support"]

  /** The native date column of each category. */
  const DateColumns: map<string, string> :=
    map["billing" := "BillingDate", "usage" := "UsageDate", "support" := "TicketOpenDate"]

  const ProductLevel: string := "Product Level"

  /** The five trailing-underscore variants and their canonical names, in rename order. */
  const ColumnMapping: seq<(string, string)> := [
    ("CustomerID_", "CustomerID"),
    ("ProductID_", "ProductID"),
    ("BillingDate_", "BillingDate"),
    ("UsageDate_", "UsageDate"),
    ("TicketOpenDate_", "TicketOpenDate")
  ]

  // ---------------------------------------------------------------------------
  // Key standardiser
  // ---------------------------------------------------------------------------

  /** The rename the mapping prescribes for one column name. */
  function Canonical(c: string): string {
    if c in VariantNames() then c[..|c| - 1] else c
  }

  function VariantNames(): set<string> {
    set p | p in ColumnMapping :: p.0
  }

  function TargetNames(): set<string> {
    set p | p in ColumnMapping :: p.1
  }

  /** One loop iteration of the standardiser: rename `from` if the table has such a column. */
  function RenameIfPresent(t: Table, from: string, to: string): Table {
    if from in t.columns then RenameColumn(t, from, to) else t
  }

  /** Applies the renames of `ms` in order. */
  function ApplyRenames(t: Table, ms: seq<(string, string)>): Table
    decreases |ms|
  {
    if ms == [] then t else ApplyRenames(RenameIfPresent(t, ms[0].0, ms[0].1), ms[1..])
  }

  /** `_standardize_columns`: the five renames applied to a copy of the table. */
  function StandardizeColumns(t: Table): Table {
    ApplyRenames(t, ColumnMapping)
  }

  /** Standardises every file of a category, keeping their order. */
  function StandardizeAll(files: seq<Table>): (r: seq<Table>)
    ensures |r| == |files|
    ensures forall i :: 0 <= i < |files| ==> r[i] == StandardizeColumns(files[i])
  {
    if files == [] then [] else [StandardizeColumns(files[0])] + StandardizeAll(files[1..])
  }

  /** The mapping's variants are distinct, every target is the variant minus its underscore, and no target is a variant. */
  lemma MappingShape()
    ensures forall p :: p in ColumnMapping ==> |p.0| > 0 && p.1 + "_" == p.0 && Canonical(p.0) == p.1
    ensures forall p :: p in ColumnMapping ==> p.1 !in VariantNames()
    ensures forall c :: c in TargetNames() ==> Canonical(c) == c
  {
    assert forall p :: p in ColumnMapping ==> p.1 + "_" == p.0 && p.0[..|p.0| - 1] == p.1;
    assert forall p :: p in ColumnMapping ==>
      |p.1| > 0 && p.1[|p.1| - 1] != '_' && |p.0| > 0 && p.0[|p.0| - 1] == '_';
  }

  /** Column names after a sequence of renames whose targets are never sources. */
  lemma {:induction false} ApplyRenamesColumns(t: Table, ms: seq<(string, string)>)
    requires forall p, q :: p in ms && q in ms ==> p.1 != q.0
    ensures |ApplyRenames(t, ms).columns| == |t.columns|
    ensures |ApplyRenames(t, ms).rows| == |t.rows|
    ensures forall i :: 0 <= i < |t.columns| ==>
      ApplyRenames(t, ms).columns[i] == Lookup(ms, t.columns[i])
    decreases |ms|
  {
    if ms != [] {
      var t1 := RenameIfPresent(t, ms[0].0, ms[0].1);
      ApplyRenamesColumns(t1, ms[1..]);
      forall i | 0 <= i < |t.columns|
        ensures ApplyRenames(t, ms).columns[i] == Lookup(ms, t.columns[i])
      {
        var c := t.columns[i];
        if c == ms[0].0 {
          assert t1.columns[i] == ms[0].1;
          LookupMissing(ms[1..], ms[0].1);
        }
      }
    }
  }

  /** The target of the first pair whose source is `c`, or `c` when there is none. */
  function Lookup(ms: seq<(string, string)>, c: string): string {
    if ms == [] then c else if ms[0].0 == c then ms[0].1 else Lookup(ms[1..], c)
  }

  lemma {:induction false} LookupMissing(ms: seq<(string, string)>, c: string)
    requires forall p :: p in ms ==> p.0 != c
    ensures Lookup(ms, c) == c
  {
    if ms != [] {
      LookupMissing(ms[1..], c);
    }
  }

  lemma {:induction false} LookupMapping(c: string)
    ensures Lookup(ColumnMapping, c) == Canonical(c)
  {
    MappingShape();
    if c !in VariantNames() {
      LookupMissing(ColumnMapping, c);
    }
  }

  /** The standardiser renames exactly the five variants, keeps every other name and the column order, and keeps the row count. */
  lemma StandardizeColumnsSpec(t: Table)
    ensures |StandardizeColumns(t).columns| == |t.columns|
    ensures |StandardizeColumns(t).rows| == |t.rows|
    ensures forall i :: 0 <= i < |t.columns| ==> StandardizeColumns(t).columns[i] == Canonical(t.columns[i])
    ensures forall i :: 0 <= i < |t.columns| && t.columns[i] !in VariantNames() ==>
      StandardizeColumns(t).columns[i] == t.columns[i]
    ensures forall c :: c in StandardizeColumns(t).columns ==> c !in VariantNames()
  {
    MappingShape();
    ApplyRenamesColumns(t, ColumnMapping);
    forall i | 0 <= i < |t.columns|
      ensures StandardizeColumns(t).columns[i] == Canonical(t.columns[i])
    {
      LookupMapping(t.columns[i]);
    }
    forall c | c in StandardizeColumns(t).columns
      ensures c !in VariantNames()
    {
      var i :| 0 <= i < |StandardizeColumns(t).columns| && StandardizeColumns(t).columns[i] == c;
      assert c == Canonical(t.columns[i]);
    }
  }

  lemma {:induction false} ApplyRenamesAbsent(t: Table, ms: seq<(string, string)>)
    requires forall p :: p in ms ==> p.0 !in t.columns
    ensures ApplyRenames(t, ms) == t
    decreases |ms|
  {
    if ms != [] {
      ApplyRenamesAbsent(t, ms[1..]);
    }
  }

  /** Standardising twice is standardising once: the first pass leaves no variant for the second to find. */
  lemma StandardizeIdempotent(t: Table)
    ensures StandardizeColumns(StandardizeColumns(t)) == StandardizeColumns(t)
  {
    StandardizeColumnsSpec(t);
    ApplyRenamesAbsent(StandardizeColumns(t), ColumnMapping);
  }

  lemma StandardizeAllIdempotent(files: seq<Table>)
    ensures StandardizeAll(StandardizeAll(files)) == StandardizeAll(files)
  {
    forall i | 0 <= i < |files|
      ensures StandardizeAll(StandardizeAll(files))[i] == StandardizeAll(files)[i]
    {
      StandardizeIdempotent(files[i]);
    }
  }

  // ---------------------------------------------------------------------------
  // Join keys
  // ---------------------------------------------------------------------------

  /** `CustomerID`, then `ProductID` at product level, then the category's date column. */
  function JoinKeys(category: string, problemLevel: string): seq<string>
    requires category in DateColumns
  {
    ["CustomerID"] + (if problemLevel == ProductLevel then ["ProductID"] else []) + [DateColumns[category]]
  }

  /**
   * Every intra join key is a canonical name, so a file that carries each key
   * either plainly or with a trailing underscore passes the key check once
   * standardised.
   */
  lemma JoinKeysSurviveStandardize(t: Table, category: string, problemLevel: string)
    requires category in DateColumns
    requires forall k :: k in JoinKeys(category, problemLevel) ==> k in t.columns || k + "_" in t.columns
    ensures HasColumns(StandardizeColumns(t), JoinKeys(category, problemLevel))
  {
    forall k | k in JoinKeys(category, problemLevel)
      ensures k in StandardizeColumns(t).columns
    {
      assert k in TargetNames();
      KeySurvives(t, k);
    }
  }

  /** A canonical name present plainly or as its variant is present after standardising. */
  lemma KeySurvives(t: Table, k: string)
    requires k in TargetNames() && (k in t.columns || k + "_" in t.columns)
    ensures k in StandardizeColumns(t).columns
  {
    StandardizeColumnsSpec(t);
    MappingShape();
    if k in t.columns {
      var i :| 0 <= i < |t.columns| && t.columns[i] == k;
      assert StandardizeColumns(t).columns[i] == Canonical(k);
    } else {
      var i :| 0 <= i < |t.columns| && t.columns[i] == k + "_";
      var p :| p in ColumnMapping && p.1 == k;
      assert Canonical(k + "_") == k;
      assert StandardizeColumns(t).columns[i] == k;
    }
  }

  /** The first key of the list missing from the table. */
  function FirstMissing(t: Table, keys: seq<string>): (k: string)
    requires !HasColumns(t, keys)
    ensures k in keys && k !in t.columns
  {
    if keys[0] !in t.columns then keys[0] else FirstMissing(t, keys[1..])
  }

  // ---------------------------------------------------------------------------
  // Category order
  // ---------------------------------------------------------------------------

  /** Python's `<` on strings: lexicographic by code point, a proper prefix first. */
  predicate StrLess(a: string, b: string)
    decreases |a|
  {
    if a == [] then b != []
    else if b == [] then false
    else if a[0] != b[0] then a[0] < b[0]
    else StrLess(a[1..], b[1..])
  }

  lemma {:induction false} StrLessIrreflexive(a: string)
    ensures !StrLess(a, a)
    decreases |a|
  {
    if a != [] {
      StrLessIrreflexive(a[1..]);
    }
  }

  lemma {:induction false} StrLessTransitive(a: string, b: string, c: string)
    requires StrLess(a, b) && StrLess(b, c)
    ensures StrLess(a, c)
    decreases |a|
  {
    if a != [] && b != [] && c != [] && a[0] == b[0] && b[0] == c[0] {
      StrLessTransitive(a[1..], b[1..], c[1..]);
    }
  }

  lemma StrLessAsymmetric(a: string, b: string)
    requires StrLess(a, b)
    ensures !StrLess(b, a)
  {
    if StrLess(b, a) {
      StrLessTransitive(a, b, a);
      StrLessIrreflexive(a);
    }
  }

  /** `tables.get(cat)` is truthy: the key exists and its list is not empty. */
  predicate HasFiles(tables: map<string, seq<Table>>, c: string) {
    c in tables && |tables[c]| > 0
  }

  /** `next((cat for cat in categories if cat > current and tables.get(cat)), None)`. */
  function NextIn(cs: seq<string>, current: string, tables: map<string, seq<Table>>): Option<string>
  {
    if cs == [] then None
    else if StrLess(current, cs[0]) && HasFiles(tables, cs[0]) then Some(cs[0])
    else NextIn(cs[1..], current, tables)
  }

  function NextCategory(current: string, tables: map<string, seq<Table>>): Option<string> {
    NextIn(Categories, current, tables)
  }

  /**
   * The next category is the first listed category greater than the current
   * one that has files, and there is one exactly when some such category exists.
   */
  lemma {:induction false} NextInSpec(cs: seq<string>, current: string, tables: map<string, seq<Table>>)
    ensures NextIn(cs, current, tables).Some? ==>
      NextIn(cs, current, tables).value in cs && StrLess(current, NextIn(cs, current, tables).value)
      && HasFiles(tables, NextIn(cs, current, tables).value)
    ensures NextIn(cs, current, tables).Some? <==> exists c :: c in cs && StrLess(current, c) && HasFiles(tables, c)
  {
    if cs != [] {
      NextInSpec(cs[1..], current, tables);
      assert forall c :: c in cs <==> c == cs[0] || c in cs[1..];
    }
  }

  /** How many categories are greater than `c`: it strictly drops at every move to the next category. */
  function CountGreater(c: string, cs: seq<string>): (n: nat)
    ensures n <= |cs|
  {
    if cs == [] then 0 else (if StrLess(c, cs[0]) then 1 else 0) + CountGreater(c, cs[1..])
  }

  lemma {:induction false} CountGreaterDrops(c: string, n: string, cs: seq<string>)
    requires StrLess(c, n)
    ensures CountGreater(n, cs) <= CountGreater(c, cs)
    ensures n in cs ==> CountGreater(n, cs) < CountGreater(c, cs)
  {
    if cs != [] {
      CountGreaterDrops(c, n, cs[1..]);
      if StrLess(n, cs[0]) {
        StrLessTransitive(c, n, cs[0]);
      }
      if cs[0] == n {
        StrLessIrreflexive(n);
      }
    }
  }

  /** The category order is strictly increasing, so the engine's recursion over categories terminates. */
  lemma NextCategoryAdvances(current: string, tables: map<string, seq<Table>>)
    ensures NextCategory(current, tables).Some? ==>
      NextCategory(current, tables).value in Categories
      && StrLess(current, NextCategory(current, tables).value)
      && HasFiles(tables, NextCategory(current, tables).value)
      && CountGreater(NextCategory(current, tables).value, Categories) < CountGreater(current, Categories)
  {
    NextInSpec(Categories, current, tables);
    if NextCategory(current, tables).Some? {
      CountGreaterDrops(current, NextCategory(current, tables).value, Categories);
    }
  }

  /** `support` sorts before `usage`, so it is never chosen after `usage`, nor chosen at all while `usage` has files. */
  lemma SupportNeverAfterUsage(current: string, tables: map<string, seq<Table>>)
    ensures NextCategory("usage", tables) == None
    ensures HasFiles(tables, "usage") ==> NextCategory(current, tables) != Some("support")
  {
    NextInSpec(Categories, "usage", tables);
    assert StrLess("support", "usage") && !StrLess("usage", "billing");
    StrLessAsymmetric("support", "usage");
    StrLessIrreflexive("usage");
    NextInSpec(Categories, current, tables);
    if StrLess(current, "support") {
      StrLessTransitive(current, "support", "usage");
    }
  }

  // ---------------------------------------------------------------------------
  // Session state
  // ---------------------------------------------------------------------------

  /** The buttons of the joining page; Streamlit reports at most one click per run. */
  datatype Button =
    | ConfirmJoin(category: string, index: nat)   // "Confirm Join for <Cat> Tables i and i+1"
    | ProceedToInterCategory                       // "Intra-Category Joins Complete - Proceed ..."
    | ProceedToPostProcessing                      // "Proceed to Post-Processing"
    | ConfirmFinish                                // "Confirm Finish"

  datatype PostChoice = ViewData | DownloadData | Finish

  /** The session keys the engine reads and writes. */
  datatype Session = Session(
    consolidated: map<string, Table>,        // consolidated_tables
    currentCategory: Option<string>,         // current_joining_category
    confirmedJoins: set<(string, nat)>,      // join_confirmed_<cat>_<i> == True
    intraCompleted: bool,                    // intra_category_joins_completed
    interCompleted: bool,                    // inter_category_joins_completed
    postProcessingStarted: bool,             // post_processing_started
    joinHealthReviewed: bool,                // join_health_reviewed
    proceedToPostProcessing: bool,           // proceed_to_post_processing
    problemLevel: string,                    // problem_level ("" when unset)
    finalJoined: Option<Table>)              // final_joined_table

  /** The session after `session.clear()`. */
  function ClearedSession(): Session {
    Session(map[], None, {}, false, false, false, false, false, "", None)
  }

  /** What `process_joining` returns: None, or `{'final_table': df}`. */
  datatype Reply = NoReply | FinalTable(table: Option<Table>)

  // ---------------------------------------------------------------------------
  // Intra-category consolidation
  // ---------------------------------------------------------------------------

  /** What the scan over tables 2..n of a multi-file category finds first. */
  datatype Pending =
    | MissingKey(index: nat, key: string)   // keys checked on table index+1 failed
    | Unconfirmed(index: nat)               // join index (tables index and index+1) awaits confirmation
    | AllConfirmed                          // every join flag is already set

  /** The `for i in range(1, n)` scan of the source from position `i` on. */
  function PendingJoin(files: seq<Table>, keys: seq<string>, cat: string, confirmed: set<(string, nat)>, i: nat): Pending
    requires 1 <= i <= |files|
    decreases |files| - i
  {
    if i == |files| then AllConfirmed
    else if !HasColumns(files[i], keys) then MissingKey(i, FirstMissing(files[i], keys))
    else if (cat, i) !in confirmed then Unconfirmed(i)
    else PendingJoin(files, keys, cat, confirmed, i + 1)
  }

  /** The scan stops at the first table lacking a key or the first unconfirmed join; every join before it is confirmed. */
  lemma {:induction false} PendingJoinSpec(files: seq<Table>, keys: seq<string>, cat: string, confirmed: set<(string, nat)>, i: nat)
    requires 1 <= i <= |files|
    ensures PendingJoin(files, keys, cat, confirmed, i).Unconfirmed? ==>
      var k := PendingJoin(files, keys, cat, confirmed, i).index;
      i <= k < |files| && (cat, k) !in confirmed && HasColumns(files[k], keys)
      && forall j :: i <= j < k ==> (cat, j) in confirmed && HasColumns(files[j], keys)
    ensures PendingJoin(files, keys, cat, confirmed, i).MissingKey? ==>
      var k := PendingJoin(files, keys, cat, confirmed, i).index;
      i <= k < |files| && !HasColumns(files[k], keys)
      && PendingJoin(files, keys, cat, confirmed, i).key in keys
      && PendingJoin(files, keys, cat, confirmed, i).key !in files[k].columns
      && forall j :: i <= j < k ==> (cat, j) in confirmed && HasColumns(files[j], keys)
    ensures PendingJoin(files, keys, cat, confirmed, i).AllConfirmed? ==>
      forall j :: i <= j < |files| ==> (cat, j) in confirmed && HasColumns(files[j], keys)
    decreases |files| - i
  {
    if i < |files| && HasColumns(files[i], keys) && (cat, i) in confirmed {
      PendingJoinSpec(files, keys, cat, confirmed, i + 1);
    }
  }

  /** The result of one intra-phase call: new session, the caller's tables after line 157, the return value and the error shown. */
  datatype IntraOutcome = IntraOutcome(
    session: Session,
    tables: map<string, seq<Table>>,
    result: Option<map<string, Table>>,
    error: Option<Error>)

  /** The category the call works on: the session's, or `billing` when the session has none (line 139-142). */
  function WorkingCategory(s: Session, tables: map<string, seq<Table>>): Option<string> {
    if s.currentCategory.Some? && s.currentCategory.value != "" then s.currentCategory
    else if "billing" in tables then Some("billing")
    else None
  }

  /** `Join key '<key>' not found in first <cat> table`. */
  function FirstTableKeyError(key: string, cat: string): Error {
    ValueError("Join key '" + key + "' not found in first " + cat + " table")
  }

  /** `Join key '<key>' not found in <cat> table <i+1>`. */
  function TableKeyError(key: string, cat: string, i: nat): Error {
    ValueError("Join key '" + key + "' not found in " + cat + " table " + NatToText(i + 1))
  }

  function StepMeasure(s: Session): nat {
    if s.currentCategory.Some? && s.currentCategory.value != "" then CountGreater(s.currentCategory.value, Categories)
    else |Categories| + 1
  }

  /** The non-recursive part of one call: it finishes, or moves on to the next category. */
  datatype Step = Done(outcome: IntraOutcome) | Continue(session: Session, tables: map<string, seq<Table>>)

  function SessionOf(r: Step): Session {
    if r.Done? then r.outcome.session else r.session
  }

  function TablesOf(r: Step): map<string, seq<Table>> {
    if r.Done? then r.outcome.tables else r.tables
  }

  /** The work on one category that exists in `tables` and has a date column (lines 150-262). */
  function CategoryStep(s1: Session, cat: string, tables: map<string, seq<Table>>, clicked: Option<Button>): (r: Step)
    requires cat in tables && cat in DateColumns
    ensures TablesOf(r) == tables[cat := StandardizeAll(tables[cat])]
    ensures r.Continue? ==>
      r.session.currentCategory == NextCategory(cat, r.tables) && r.session.currentCategory.Some?
      && r.session.currentCategory.value in Categories && StrLess(cat, r.session.currentCategory.value)
      && CountGreater(r.session.currentCategory.value, Categories) < CountGreater(cat, Categories)
  {
    var t1 := tables[cat := StandardizeAll(tables[cat])];
    NextCategoryAdvances(cat, t1);
    FilesStep(s1, cat, StandardizeAll(tables[cat]), t1, clicked)
  }

  /** Lines 168-265 on the standardised files: one file, several files, or none (the last unbound, line 265). */
  function FilesStep(s1: Session, cat: string, files: seq<Table>, t1: map<string, seq<Table>>, clicked: Option<Button>): (r: Step)
    requires cat in DateColumns
    ensures TablesOf(r) == t1
    ensures r.Continue? ==> r.session.currentCategory == NextCategory(cat, t1)
  {
    var next := NextCategory(cat, t1);
    if |files| == 1 then SingleFileStep(s1, cat, files[0], t1, next, clicked)
    else if |files| > 1 then MultiFileStep(s1, cat, files, t1, JoinKeys(cat, s1.problemLevel), next, clicked)
    else Done(IntraOutcome(s1, t1, None, Some(UnboundLocal("next_category"))))
  }

  /** Lines 169-193: a single file is stored as is, without confirmation. */
  function SingleFileStep(s1: Session, cat: string, file: Table, t1: map<string, seq<Table>>,
                          next: Option<string>, clicked: Option<Button>): (r: Step)
    ensures TablesOf(r) == t1
    ensures r.Continue? ==> r.session.currentCategory == next && next.Some?
  {
    var s2 := s1.(consolidated := s1.consolidated[cat := file]);
    if next.None? then
      Done(IntraOutcome(s2.(currentCategory := None, intraCompleted := true), t1,
                        if clicked == Some(ProceedToInterCategory) then Some(s2.consolidated) else None, None))
    else Continue(s2.(currentCategory := next), t1)
  }

  /** Lines 196-262: check the keys, then offer or commit the first unconfirmed join. */
  function MultiFileStep(s1: Session, cat: string, files: seq<Table>, t1: map<string, seq<Table>>,
                         keys: seq<string>, next: Option<string>, clicked: Option<Button>): (r: Step)
    requires |files| > 1
    ensures TablesOf(r) == t1
    ensures r.Continue? ==> r.session.currentCategory == next && next.Some?
  {
    if !HasColumns(files[0], keys) then
      Done(IntraOutcome(s1, t1, None, Some(FirstTableKeyError(FirstMissing(files[0], keys), cat))))
    else
      PendingJoinIndex(files, keys, cat, s1.confirmedJoins, 1);
      match PendingJoin(files, keys, cat, s1.confirmedJoins, 1)
      case MissingKey(i, key) => Done(IntraOutcome(s1, t1, None, Some(TableKeyError(key, cat, i))))
      case AllConfirmed =>
        // the source reaches line 265 with `next_category` unbound
        Done(IntraOutcome(s1, t1, None, Some(UnboundLocal("next_category"))))
      case Unconfirmed(i) =>
        if clicked != Some(ConfirmJoin(cat, i)) then Done(IntraOutcome(s1, t1, None, None))
        else CommitJoin(s1, cat, files, t1, keys, next, i)
  }

  /** Lines 241-262: the confirmed join `i` is stored and flagged; the step finishes, or moves on after the last join. */
  function CommitJoin(s1: Session, cat: string, files: seq<Table>, t1: map<string, seq<Table>>,
                      keys: seq<string>, next: Option<string>, i: nat): (r: Step)
    requires 1 <= i < |files|
    ensures TablesOf(r) == t1
    ensures r.Continue? ==> r.session.currentCategory == next && next.Some?
    ensures SessionOf(r).consolidated == s1.consolidated[cat := InnerJoin(files[0], files[i], keys)]
    ensures SessionOf(r).confirmedJoins == s1.confirmedJoins + {(cat, i)} && SamePhaseFields(s1, SessionOf(r))
  {
    // the accumulator is table 0 again: earlier joins are not re-applied
    var s2 := s1.(confirmedJoins := s1.confirmedJoins + {(cat, i)},
                  consolidated := s1.consolidated[cat := InnerJoin(files[0], files[i], keys)]);
    if i < |files| - 1 then Done(IntraOutcome(s2, t1, None, None))
    else if next.Some? then Continue(s2.(currentCategory := next), t1)
    else Done(IntraOutcome(s2.(currentCategory := None, intraCompleted := true), t1, Some(s2.consolidated), None))
  }

  /** Lines 135-164: pick the working category, standardise its files, look up its date column. */
  function LocalStep(s: Session, tables: map<string, seq<Table>>, clicked: Option<Button>): (r: Step)
    ensures r.Continue? ==> StepMeasure(r.session) < StepMeasure(s)
  {
    var cur := WorkingCategory(s, tables);
    var s1 := s.(currentCategory := cur);
    if cur.None? then Done(IntraOutcome(s1, tables, None, None))
    else if cur.value !in tables then Done(IntraOutcome(s1, tables, None, Some(KeyError(cur.value))))
    else if cur.value !in DateColumns then
      Done(IntraOutcome(s1, tables[cur.value := StandardizeAll(tables[cur.value])], None, Some(KeyError(cur.value))))
    else CategoryStep(s1, cur.value, tables, clicked)
  }

  /** `_handle_intra_category_joins`, one call: the local step, repeated while it moves on to a next category. */
  function IntraStep(s: Session, tables: map<string, seq<Table>>, clicked: Option<Button>): IntraOutcome
    decreases StepMeasure(s)
  {
    match LocalStep(s, tables, clicked)
    case Done(o) => o
    case Continue(s2, t2) => IntraStep(s2, t2, clicked)
  }

  // ---------------------------------------------------------------------------
  // Properties of the intra-category phase
  // ---------------------------------------------------------------------------

  /** The join flag the clicked button can set, if it is a join confirmation. */
  function ClickedFlag(clicked: Option<Button>): set<(string, nat)> {
    if clicked.Some? && clicked.value.ConfirmJoin? then {(clicked.value.category, clicked.value.index)} else {}
  }

  /** The session fields the joining phases leave alone. */
  predicate SamePhaseFields(s: Session, s': Session) {
    s'.interCompleted == s.interCompleted && s'.postProcessingStarted == s.postProcessingStarted
    && s'.joinHealthReviewed == s.joinHealthReviewed && s'.proceedToPostProcessing == s.proceedToPostProcessing
    && s'.problemLevel == s.problemLevel && s'.finalJoined == s.finalJoined
  }

  /** Category `c` has the same consolidated table and the same join flags in both sessions. */
  ghost predicate SameCategory(s: Session, s': Session, c: string) {
    (c in s'.consolidated <==> c in s.consolidated)
    && (c in s.consolidated ==> s'.consolidated[c] == s.consolidated[c])
    && (forall i :: (c, i) in s'.confirmedJoins <==> (c, i) in s.confirmedJoins)
  }

  /** Only category `cur` may differ, no flag is dropped, and the later phases' fields are untouched. */
  ghost predicate StepFrame(s: Session, cur: Option<string>, s': Session) {
    SamePhaseFields(s, s') && s.confirmedJoins <= s'.confirmedJoins
    && forall c :: Some(c) != cur ==> SameCategory(s, s', c)
  }

  /** The two ways a consolidated table comes about: the lone (standardised) file, or the clicked join of the first file with file i+1. */
  ghost predicate WrittenAs(files: seq<Table>, keys: seq<string>, clicked: Option<Button>, c: string, v: Table) {
    (|files| == 1 && v == files[0])
    || (clicked.Some? && clicked.value.ConfirmJoin? && clicked.value.category == c
        && 1 <= clicked.value.index < |files| && v == InnerJoin(files[0], files[clicked.value.index], keys))
  }

  /** A newly set flag `(c, i)` comes with the first file joined to file i+1 stored for `c`. */
  ghost predicate JoinRecorded(files: seq<Table>, keys: seq<string>, s': Session, c: string, i: nat) {
    1 <= i < |files| && c in s'.consolidated && s'.consolidated[c] == InnerJoin(files[0], files[i], keys)
  }

  /** What a step on category `cat` with these (standardised) files may write into the session. */
  ghost predicate WritesWell(s: Session, s': Session, files: seq<Table>, keys: seq<string>, clicked: Option<Button>, cat: string) {
    (cat in s.consolidated ==> cat in s'.consolidated)
    && (cat in s'.consolidated && !(cat in s.consolidated && s'.consolidated[cat] == s.consolidated[cat]) ==>
          WrittenAs(files, keys, clicked, cat, s'.consolidated[cat]))
    && s'.confirmedJoins <= s.confirmedJoins + ClickedFlag(clicked)
    && forall c, i :: (c, i) in s'.confirmedJoins && (c, i) !in s.confirmedJoins ==>
         c == cat && JoinRecorded(files, keys, s', c, i)
  }

  /** The facts about one step's outcome that the phase-level lemmas build on. */
  ghost predicate StepOutcome(s1: Session, r: Step, clicked: Option<Button>) {
    (r.Done? && r.outcome.error.Some? ==> r.outcome.result.None? && r.outcome.session.intraCompleted == s1.intraCompleted)
    && (r.Done? && r.outcome.result.Some? ==>
          r.outcome.session.intraCompleted && r.outcome.result.value == r.outcome.session.consolidated)
    && (r.Continue? ==> r.session.intraCompleted == s1.intraCompleted)
    && (r.Done? && clicked.None? && !r.outcome.session.intraCompleted ==>
          r.outcome.session == s1 && r.outcome.result.None?)
  }

  lemma SingleFileStepSpec(s1: Session, cat: string, file: Table, t1: map<string, seq<Table>>,
                           next: Option<string>, clicked: Option<Button>, keys: seq<string>)
    ensures var r := SingleFileStep(s1, cat, file, t1, next, clicked);
      StepFrame(s1, Some(cat), SessionOf(r)) && WritesWell(s1, SessionOf(r), [file], keys, clicked, cat)
      && StepOutcome(s1, r, clicked)
      && cat in SessionOf(r).consolidated && SessionOf(r).consolidated[cat] == file
      && (r.Done? ==> r.outcome.session.intraCompleted && r.outcome.session.currentCategory.None? && next.None?)
  {
  }

  /** The scan's stopping position lies between its start and the last file. */
  lemma {:induction false} PendingJoinIndex(files: seq<Table>, keys: seq<string>, cat: string, confirmed: set<(string, nat)>, i: nat)
    requires 1 <= i <= |files|
    ensures !PendingJoin(files, keys, cat, confirmed, i).AllConfirmed? ==>
      i <= PendingJoin(files, keys, cat, confirmed, i).index < |files|
    decreases |files| - i
  {
    if i < |files| && HasColumns(files[i], keys) && (cat, i) in confirmed {
      PendingJoinIndex(files, keys, cat, confirmed, i + 1);
    }
  }

  lemma MultiFileStepSpec(s1: Session, cat: string, files: seq<Table>, t1: map<string, seq<Table>>,
                          keys: seq<string>, next: Option<string>, clicked: Option<Button>)
    requires |files| > 1
    ensures var r := MultiFileStep(s1, cat, files, t1, keys, next, clicked);
      StepFrame(s1, Some(cat), SessionOf(r)) && WritesWell(s1, SessionOf(r), files, keys, clicked, cat)
  {
    if Commits(s1, cat, files, keys, clicked) {
      MultiFileCommitted(s1, cat, files, t1, keys, next, clicked);
    } else {
      MultiFileUnchanged(s1, cat, files, t1, keys, next, clicked);
    }
  }

  /** The step commits a join: the keys are there and the clicked button confirms the first unconfirmed join. */
  predicate Commits(s1: Session, cat: string, files: seq<Table>, keys: seq<string>, clicked: Option<Button>)
    requires |files| > 1
  {
    HasColumns(files[0], keys)
    && var p := PendingJoin(files, keys, cat, s1.confirmedJoins, 1);
    p.Unconfirmed? && clicked == Some(ConfirmJoin(cat, p.index))
  }

  lemma MultiFileCommitted(s1: Session, cat: string, files: seq<Table>, t1: map<string, seq<Table>>,
                           keys: seq<string>, next: Option<string>, clicked: Option<Button>)
    requires |files| > 1 && Commits(s1, cat, files, keys, clicked)
    ensures var r := MultiFileStep(s1, cat, files, t1, keys, next, clicked);
      StepFrame(s1, Some(cat), SessionOf(r)) && WritesWell(s1, SessionOf(r), files, keys, clicked, cat)
  {
    PendingJoinIndex(files, keys, cat, s1.confirmedJoins, 1);
    var i := PendingJoin(files, keys, cat, s1.confirmedJoins, 1).index;
    var r := CommitJoin(s1, cat, files, t1, keys, next, i);
    assert MultiFileStep(s1, cat, files, t1, keys, next, clicked) == r;
    CommitSpec(s1, SessionOf(r), cat, files, keys, i, clicked);
  }

  lemma MultiFileUnchanged(s1: Session, cat: string, files: seq<Table>, t1: map<string, seq<Table>>,
                           keys: seq<string>, next: Option<string>, clicked: Option<Button>)
    requires |files| > 1 && !Commits(s1, cat, files, keys, clicked)
    ensures var r := MultiFileStep(s1, cat, files, t1, keys, next, clicked);
      StepFrame(s1, Some(cat), SessionOf(r)) && WritesWell(s1, SessionOf(r), files, keys, clicked, cat)
  {
    UnchangedSpec(s1, SessionOf(MultiFileStep(s1, cat, files, t1, keys, next, clicked)), cat, files, keys, clicked);
  }

  lemma MultiFileStepOutcome(s1: Session, cat: string, files: seq<Table>, t1: map<string, seq<Table>>,
                             keys: seq<string>, next: Option<string>, clicked: Option<Button>)
    requires |files| > 1
    ensures var r := MultiFileStep(s1, cat, files, t1, keys, next, clicked);
      StepOutcome(s1, r, clicked)
      && (r.Done? && r.outcome.session.intraCompleted && !s1.intraCompleted ==>
            r.outcome.session.currentCategory.None? && next.None?)
  {
    if Commits(s1, cat, files, keys, clicked) {
      PendingJoinIndex(files, keys, cat, s1.confirmedJoins, 1);
      var i := PendingJoin(files, keys, cat, s1.confirmedJoins, 1).index;
      assert MultiFileStep(s1, cat, files, t1, keys, next, clicked) == CommitJoin(s1, cat, files, t1, keys, next, i);
      CommitJoinOutcome(s1, cat, files, t1, keys, next, i, clicked);
    } else if HasColumns(files[0], keys) {
      PendingJoinIndex(files, keys, cat, s1.confirmedJoins, 1);
    }
  }

  /** A committed join finishes without error, and hands back the consolidated tables only after the last category. */
  lemma CommitJoinOutcome(s1: Session, cat: string, files: seq<Table>, t1: map<string, seq<Table>>,
                          keys: seq<string>, next: Option<string>, i: nat, clicked: Option<Button>)
    requires 1 <= i < |files| && clicked.Some?
    ensures var r := CommitJoin(s1, cat, files, t1, keys, next, i);
      StepOutcome(s1, r, clicked)
      && (r.Done? && r.outcome.session.intraCompleted && !s1.intraCompleted ==>
            r.outcome.session.currentCategory.None? && next.None?)
  {
  }

  lemma UnchangedSpec(s1: Session, s': Session, cat: string, files: seq<Table>, keys: seq<string>, clicked: Option<Button>)
    requires s'.consolidated == s1.consolidated && s'.confirmedJoins == s1.confirmedJoins && SamePhaseFields(s1, s')
    ensures StepFrame(s1, Some(cat), s') && WritesWell(s1, s', files, keys, clicked, cat)
  {
  }

  /** Committing the clicked join `i` of category `cat`. */
  lemma CommitSpec(s1: Session, s': Session, cat: string, files: seq<Table>, keys: seq<string>, i: nat, clicked: Option<Button>)
    requires 1 <= i < |files| && clicked == Some(ConfirmJoin(cat, i))
    requires s'.consolidated == s1.consolidated[cat := InnerJoin(files[0], files[i], keys)]
    requires s'.confirmedJoins == s1.confirmedJoins + {(cat, i)} && SamePhaseFields(s1, s')
    ensures StepFrame(s1, Some(cat), s') && WritesWell(s1, s', files, keys, clicked, cat)
  {
    assert ClickedFlag(clicked) == {(cat, i)};
  }

  lemma CategoryStepSpec(s1: Session, cat: string, tables: map<string, seq<Table>>, clicked: Option<Button>)
    requires cat in tables && cat in DateColumns
    ensures var r := CategoryStep(s1, cat, tables, clicked);
      var files := StandardizeAll(tables[cat]);
      StepFrame(s1, Some(cat), SessionOf(r))
      && WritesWell(s1, SessionOf(r), files, JoinKeys(cat, s1.problemLevel), clicked, cat)
      && StepOutcome(s1, r, clicked)
      && (|tables[cat]| == 1 ==> cat in SessionOf(r).consolidated && SessionOf(r).consolidated[cat] == files[0])
      && (r.Done? && r.outcome.session.intraCompleted && !s1.intraCompleted ==>
            r.outcome.session.currentCategory.None? && NextCategory(cat, r.outcome.tables).None?)
  {
    var files := StandardizeAll(tables[cat]);
    var t1 := tables[cat := files];
    var next := NextCategory(cat, t1);
    var keys := JoinKeys(cat, s1.problemLevel);
    if |files| == 1 {
      assert [files[0]] == files;
      SingleFileStepSpec(s1, cat, files[0], t1, next, clicked, keys);
    } else if |files| > 1 {
      MultiFileStepSpec(s1, cat, files, t1, keys, next, clicked);
      MultiFileStepOutcome(s1, cat, files, t1, keys, next, clicked);
    } else {
      UnchangedSpec(s1, s1, cat, files, keys, clicked);
    }
  }

  /** A local step writes only the working category, as the category step allows. */
  lemma LocalStepFrame(s: Session, tables: map<string, seq<Table>>, clicked: Option<Button>)
    ensures var cur := WorkingCategory(s, tables);
      var r := LocalStep(s, tables, clicked);
      StepFrame(s, cur, SessionOf(r))
      && (cur.Some? && cur.value in tables && cur.value in DateColumns ==>
            WritesWell(s, SessionOf(r), StandardizeAll(tables[cur.value]), JoinKeys(cur.value, s.problemLevel), clicked, cur.value))
      && (!(cur.Some? && cur.value in tables && cur.value in DateColumns) ==>
            r.Done? && r.outcome.session == s.(currentCategory := cur))
  {
    var cur := WorkingCategory(s, tables);
    var s1 := s.(currentCategory := cur);
    var r := LocalStep(s, tables, clicked);
    if cur.Some? && cur.value in tables && cur.value in DateColumns {
      var cat := cur.value;
      assert r == CategoryStep(s1, cat, tables, clicked);
      CategoryStepSpec(s1, cat, tables, clicked);
      ShiftSpec(s, s1, cur, SessionOf(r), StandardizeAll(tables[cat]), JoinKeys(cat, s.problemLevel), clicked, cat);
    } else {
      assert SessionOf(r) == s1;
      var c := if cur.Some? then cur.value else "";
      UnchangedSpec(s, s1, c, [], [], clicked);
    }
  }

  /** How a local step ends: its outcome facts, the tables it leaves, and where it goes on. */
  lemma LocalStepOutcome(s: Session, tables: map<string, seq<Table>>, clicked: Option<Button>)
    ensures var cur := WorkingCategory(s, tables);
      var r := LocalStep(s, tables, clicked);
      StepOutcome(s.(currentCategory := cur), r, clicked)
      && (cur.Some? && cur.value in tables && cur.value in DateColumns && |tables[cur.value]| == 1 ==>
            cur.value in SessionOf(r).consolidated
            && SessionOf(r).consolidated[cur.value] == StandardizeColumns(tables[cur.value][0]))
      && (r.Done? && r.outcome.session.intraCompleted && !s.intraCompleted ==>
            r.outcome.session.currentCategory.None?)
  {
    var cur := WorkingCategory(s, tables);
    var s1 := s.(currentCategory := cur);
    if cur.Some? && cur.value in tables && cur.value in DateColumns {
      var cat := cur.value;
      assert LocalStep(s, tables, clicked) == CategoryStep(s1, cat, tables, clicked);
      CategoryStepSpec(s1, cat, tables, clicked);
    }
  }

  /** The tables a local step leaves, and where it goes on. */
  lemma LocalStepContinue(s: Session, tables: map<string, seq<Table>>, clicked: Option<Button>)
    ensures var cur := WorkingCategory(s, tables);
      var r := LocalStep(s, tables, clicked);
      TablesOf(r) == (if cur.Some? && cur.value in tables then tables[cur.value := StandardizeAll(tables[cur.value])] else tables)
      && (r.Continue? ==>
            cur.Some? && cur.value in tables && cur.value in DateColumns
            && r.session.currentCategory.Some? && r.session.currentCategory.value in Categories
            && StrLess(cur.value, r.session.currentCategory.value)
            && WorkingCategory(r.session, r.tables) == r.session.currentCategory)
  {
  }

  /** Facts about a step from the session with the working category set, restated from the session before it. */
  lemma ShiftSpec(s: Session, s1: Session, cur: Option<string>, s': Session, files: seq<Table>, keys: seq<string>,
                  clicked: Option<Button>, cat: string)
    requires s1 == s.(currentCategory := cur)
    requires StepFrame(s1, cur, s') && WritesWell(s1, s', files, keys, clicked, cat)
    ensures StepFrame(s, cur, s') && WritesWell(s, s', files, keys, clicked, cat)
  {
    forall c | Some(c) != cur
      ensures SameCategory(s, s', c)
    {
      assert SameCategory(s1, s', c);
    }
  }

  // ---------------------------------------------------------------------------
  // The intra-category phase, over the whole recursion
  // ---------------------------------------------------------------------------

  /** Whether a call working on `cur` may write category `c`: `cur` itself or a category after it. */
  predicate Reaches(cur: Option<string>, c: string) {
    cur.Some? && (c == cur.value || StrLess(cur.value, c))
  }

  lemma ReachesNext(cat: string, n: string, c: string)
    requires StrLess(cat, n) && !Reaches(Some(cat), c)
    ensures !Reaches(Some(n), c) && c != cat
  {
    if StrLess(n, c) {
      StrLessTransitive(cat, n, c);
    }
  }

  /** A call never drops a join flag or a table list, and never touches the fields of the later phases. */
  lemma {:induction false} IntraKeepsFields(s: Session, tables: map<string, seq<Table>>, clicked: Option<Button>)
    ensures SamePhaseFields(s, IntraStep(s, tables, clicked).session)
    ensures s.confirmedJoins <= IntraStep(s, tables, clicked).session.confirmedJoins
    ensures IntraStep(s, tables, clicked).tables.Keys == tables.Keys
    decreases StepMeasure(s)
  {
    LocalStepKeeps(s, tables, clicked);
    match LocalStep(s, tables, clicked)
    case Done(o) =>
    case Continue(s2, t2) =>
      IntraKeepsFields(s2, t2, clicked);
  }

  /** One local step keeps the later phases' fields, every join flag and the categories of the tables. */
  lemma LocalStepKeeps(s: Session, tables: map<string, seq<Table>>, clicked: Option<Button>)
    ensures var r := LocalStep(s, tables, clicked);
      SamePhaseFields(s, SessionOf(r)) && s.confirmedJoins <= SessionOf(r).confirmedJoins
      && TablesOf(r).Keys == tables.Keys
  {
    LocalStepFrame(s, tables, clicked);
    LocalStepContinue(s, tables, clicked);
  }

  /** A call writes only its working category and the categories after it. */
  lemma {:induction false} IntraFrame(s: Session, tables: map<string, seq<Table>>, clicked: Option<Button>)
    ensures forall c :: !Reaches(WorkingCategory(s, tables), c) ==> SameCategory(s, IntraStep(s, tables, clicked).session, c)
    decreases StepMeasure(s)
  {
    LocalStepFrame(s, tables, clicked);
    LocalStepContinue(s, tables, clicked);
    var cur := WorkingCategory(s, tables);
    match LocalStep(s, tables, clicked)
    case Done(o) =>
    case Continue(s2, t2) =>
      IntraFrame(s2, t2, clicked);
      forall c | !Reaches(cur, c)
        ensures SameCategory(s, IntraStep(s2, t2, clicked).session, c)
      {
        ReachesNext(cur.value, s2.currentCategory.value, c);
        assert SameCategory(s, s2, c);
      }
  }

  /** A call standardises the file lists of its working category and the categories after it, and no others. */
  lemma {:induction false} IntraTablesFrame(s: Session, tables: map<string, seq<Table>>, clicked: Option<Button>)
    ensures forall c :: c in tables && !Reaches(WorkingCategory(s, tables), c) ==>
      c in IntraStep(s, tables, clicked).tables && IntraStep(s, tables, clicked).tables[c] == tables[c]
    decreases StepMeasure(s)
  {
    LocalStepContinue(s, tables, clicked);
    var cur := WorkingCategory(s, tables);
    match LocalStep(s, tables, clicked)
    case Done(o) =>
    case Continue(s2, t2) =>
      IntraTablesFrame(s2, t2, clicked);
      forall c | c in tables && !Reaches(cur, c)
        ensures c in IntraStep(s2, t2, clicked).tables && IntraStep(s2, t2, clicked).tables[c] == tables[c]
      {
        ReachesNext(cur.value, s2.currentCategory.value, c);
      }
  }

  /** Every session write the whole phase may make, with respect to the tables it was given. */
  ghost predicate PhaseWrites(s: Session, s': Session, tables: map<string, seq<Table>>, clicked: Option<Button>) {
    s'.confirmedJoins <= s.confirmedJoins + ClickedFlag(clicked)
    && (forall c, i :: (c, i) in s'.confirmedJoins && (c, i) !in s.confirmedJoins ==>
          c in tables && c in DateColumns
          && JoinRecorded(StandardizeAll(tables[c]), JoinKeys(c, s.problemLevel), s', c, i))
    && (forall c :: c in s'.consolidated && !(c in s.consolidated && s'.consolidated[c] == s.consolidated[c]) ==>
          c in tables && c in DateColumns
          && WrittenAs(StandardizeAll(tables[c]), JoinKeys(c, s.problemLevel), clicked, c, s'.consolidated[c]))
    && (forall c :: c in s.consolidated ==> c in s'.consolidated)
  }

  /**
   * Only the clicked join is ever committed, so one call sets at most one join
   * flag; a newly set flag `(c, i)` comes with the first standardised file of
   * `c` inner-joined to file i+1 stored as `c`'s consolidated table (earlier
   * joins of the category are not folded in); and every other consolidated
   * table written is a category's lone standardised file.
   */
  lemma {:induction false} IntraWrites(s: Session, tables: map<string, seq<Table>>, clicked: Option<Button>)
    ensures PhaseWrites(s, IntraStep(s, tables, clicked).session, tables, clicked)
    decreases StepMeasure(s)
  {
    LocalStepFrame(s, tables, clicked);
    LocalStepContinue(s, tables, clicked);
    var cur := WorkingCategory(s, tables);
    match LocalStep(s, tables, clicked)
    case Done(o) =>
      if cur.Some? && cur.value in tables && cur.value in DateColumns {
        WritesToPhase(s, o.session, tables, clicked, cur.value);
      }
    case Continue(s2, t2) =>
      var cat := cur.value;
      WritesToPhase(s, s2, tables, clicked, cat);
      IntraWrites(s2, t2, clicked);
      IntraFrame(s2, t2, clicked);
      NotReachedBack(cat, s2.currentCategory.value);
      PhaseWritesCompose(s, s2, IntraStep(s2, t2, clicked).session, tables, t2, clicked, cat);
  }

  /** A category is not reached again from a later one. */
  lemma NotReachedBack(cat: string, n: string)
    requires StrLess(cat, n)
    ensures !Reaches(Some(n), cat)
  {
    StrLessIrreflexive(cat);
    StrLessAsymmetric(cat, n);
  }

  lemma WritesToPhase(s: Session, s': Session, tables: map<string, seq<Table>>, clicked: Option<Button>, cat: string)
    requires cat in tables && cat in DateColumns
    requires StepFrame(s, Some(cat), s')
    requires WritesWell(s, s', StandardizeAll(tables[cat]), JoinKeys(cat, s.problemLevel), clicked, cat)
    ensures PhaseWrites(s, s', tables, clicked)
  {
    forall c | c != cat
      ensures (c in s'.consolidated <==> c in s.consolidated)
      ensures c in s.consolidated ==> s'.consolidated[c] == s.consolidated[c]
    {
      assert SameCategory(s, s', c);
    }
  }

  /** A step on `cat` followed by a phase that leaves `cat` alone writes what the step and the phase write. */
  lemma PhaseWritesCompose(s: Session, s2: Session, out: Session, tables: map<string, seq<Table>>, t2: map<string, seq<Table>>,
                           clicked: Option<Button>, cat: string)
    requires PhaseWrites(s, s2, tables, clicked) && PhaseWrites(s2, out, t2, clicked)
    requires StepFrame(s, Some(cat), s2)
    requires forall c :: !Reaches(s2.currentCategory, c) ==> SameCategory(s2, out, c)
    requires !Reaches(s2.currentCategory, cat)
    requires cat in tables && t2 == tables[cat := StandardizeAll(tables[cat])]
    ensures PhaseWrites(s, out, tables, clicked)
  {
    assert SameCategory(s2, out, cat);
    forall c | c != cat
      ensures (c in t2 <==> c in tables) && (c in tables ==> t2[c] == tables[c])
      ensures SameCategory(s, s2, c)
    {
    }
    assert out.confirmedJoins <= s.confirmedJoins + ClickedFlag(clicked) by {
      forall f | f in out.confirmedJoins
        ensures f in s.confirmedJoins + ClickedFlag(clicked)
      {
        if f !in s2.confirmedJoins {
          assert f in s2.confirmedJoins + ClickedFlag(clicked);
        }
      }
    }
    forall c, i | (c, i) in out.confirmedJoins && (c, i) !in s.confirmedJoins
      ensures c in tables && c in DateColumns && JoinRecorded(StandardizeAll(tables[c]), JoinKeys(c, s.problemLevel), out, c, i)
    {
      if c == cat {
        assert (c, i) in s2.confirmedJoins;
      } else {
        assert (c, i) !in s2.confirmedJoins;
      }
    }
    forall c | c in out.consolidated && !(c in s.consolidated && out.consolidated[c] == s.consolidated[c])
      ensures c in tables && c in DateColumns
        && WrittenAs(StandardizeAll(tables[c]), JoinKeys(c, s.problemLevel), clicked, c, out.consolidated[c])
    {
      if c != cat {
        assert !(c in s2.consolidated && out.consolidated[c] == s2.consolidated[c]);
      }
    }
  }

  /** A lone file of the working category is stored, standardised, as its consolidated table, without any confirmation. */
  lemma IntraStoresSingleFile(s: Session, tables: map<string, seq<Table>>, clicked: Option<Button>, cat: string)
    requires WorkingCategory(s, tables) == Some(cat) && cat in tables && cat in DateColumns && |tables[cat]| == 1
    ensures cat in IntraStep(s, tables, clicked).session.consolidated
    ensures IntraStep(s, tables, clicked).session.consolidated[cat] == StandardizeColumns(tables[cat][0])
  {
    LocalStepOutcome(s, tables, clicked);
    LocalStepContinue(s, tables, clicked);
    match LocalStep(s, tables, clicked)
    case Done(o) =>
    case Continue(s2, t2) =>
      IntraFrame(s2, t2, clicked);
      NotReachedBack(cat, s2.currentCategory.value);
      assert SameCategory(s2, IntraStep(s2, t2, clicked).session, cat);
  }

  /**
   * The phase hands back the consolidated tables only once it is complete, and
   * a call that shows an error hands back nothing and leaves the phase open.
   */
  lemma {:induction false} IntraResult(s: Session, tables: map<string, seq<Table>>, clicked: Option<Button>)
    ensures IntraStep(s, tables, clicked).error.Some? ==>
      IntraStep(s, tables, clicked).result.None?
      && IntraStep(s, tables, clicked).session.intraCompleted == s.intraCompleted
    ensures IntraStep(s, tables, clicked).result.Some? ==>
      IntraStep(s, tables, clicked).session.intraCompleted
      && IntraStep(s, tables, clicked).result.value == IntraStep(s, tables, clicked).session.consolidated
    ensures IntraStep(s, tables, clicked).session.intraCompleted && !s.intraCompleted ==>
      IntraStep(s, tables, clicked).session.currentCategory.None?
    decreases StepMeasure(s)
  {
    LocalStepOutcome(s, tables, clicked);
    match LocalStep(s, tables, clicked)
    case Done(o) =>
    case Continue(s2, t2) =>
      IntraResult(s2, t2, clicked);
  }

  /** Standardising a category's files before the step changes nothing, since standardising is idempotent. */
  lemma CategoryStepStandardized(s1: Session, cat: string, tables: map<string, seq<Table>>, clicked: Option<Button>)
    requires cat in tables && cat in DateColumns
    ensures CategoryStep(s1, cat, tables[cat := StandardizeAll(tables[cat])], clicked) == CategoryStep(s1, cat, tables, clicked)
  {
    var files := StandardizeAll(tables[cat]);
    var t1 := tables[cat := files];
    StandardizeAllIdempotent(tables[cat]);
    assert StandardizeAll(t1[cat]) == files;
    assert t1[cat := StandardizeAll(t1[cat])] == t1;
  }

  lemma LocalStepResumable(s: Session, tables: map<string, seq<Table>>)
    requires LocalStep(s, tables, None).Done? && !LocalStep(s, tables, None).outcome.session.intraCompleted
    ensures LocalStep(LocalStep(s, tables, None).outcome.session, LocalStep(s, tables, None).outcome.tables, None)
         == LocalStep(s, tables, None)
  {
    LocalStepFrame(s, tables, None);
    LocalStepOutcome(s, tables, None);
    LocalStepContinue(s, tables, None);
    var cur := WorkingCategory(s, tables);
    var s1 := s.(currentCategory := cur);
    var o := LocalStep(s, tables, None).outcome;
    assert o.session == s1;
    if cur.Some? && cur.value in tables {
      var cat := cur.value;
      assert WorkingCategory(s1, o.tables) == cur;
      if cat in DateColumns {
        CategoryStepStandardized(s1, cat, tables, None);
      } else {
        StandardizeAllIdempotent(tables[cat]);
        assert o.tables[cat := StandardizeAll(o.tables[cat])] == o.tables;
      }
    }
  }

  /**
   * Resumability: when a call without a click leaves the phase open, running
   * the page again without a click reproduces the same session, tables and
   * reply.
   */
  lemma {:induction false} IntraResumable(s: Session, tables: map<string, seq<Table>>)
    requires !IntraStep(s, tables, None).session.intraCompleted
    ensures IntraStep(IntraStep(s, tables, None).session, IntraStep(s, tables, None).tables, None) == IntraStep(s, tables, None)
    decreases StepMeasure(s)
  {
    match LocalStep(s, tables, None)
    case Done(o) =>
      LocalStepResumable(s, tables);
    case Continue(s2, t2) =>
      IntraResumable(s2, t2);
  }

  // ---------------------------------------------------------------------------
  // Inter-category join (lines 279-389)
  // ---------------------------------------------------------------------------

  /** The secondary categories present, in the order usage, support. */
  function AvailableSecondaries(consolidated: map<string, Table>): (r: seq<string>)
    ensures |r| <= 2
    ensures forall c :: c in r <==> (c == "usage" || c == "support") && c in consolidated
    ensures |r| == 2 ==> r == ["usage", "support"]
  {
    (if "usage" in consolidated then ["usage"] else []) + (if "support" in consolidated then ["support"] else [])
  }

  /** The keys of the merge onto billing; the secondary's date column is renamed to BillingDate first. */
  function InterKeys(problemLevel: string): seq<string> {
    ["CustomerID"] + (if problemLevel == ProductLevel then ["ProductID"] else []) + ["BillingDate"]
  }

  /** At product level, with ProductID on both sides, both sides' ProductID is cast to text. */
  predicate CastsProductId(base: Table, join: Table, problemLevel: string) {
    problemLevel == ProductLevel && "ProductID" in base.columns && "ProductID" in join.columns
  }

  function CastIf(b: bool, t: Table): Table {
    if b then CastColumnToText(t, "ProductID") else t
  }

  /** The billing table as it enters the merge. */
  function CastBase(base: Table, join: Table, problemLevel: string): Table {
    CastIf(CastsProductId(base, join, problemLevel), base)
  }

  /** The secondary table as it enters the merge: cast, then its date column renamed. */
  function PreparedJoin(base: Table, join: Table, category: string, problemLevel: string): Table
    requires category in DateColumns
  {
    RenameColumn(CastIf(CastsProductId(base, join, problemLevel), join), DateColumns[category], "BillingDate")
  }

  /**
   * `_perform_category_join`. The cast of the secondary is made on the
   * session's own table, so the secondary as the cast leaves it is returned
   * beside the merge (or the error the merge raises).
   */
  datatype JoinAttempt = JoinAttempt(castJoin: Table, result: Result<Table>)

  function PerformCategoryJoin(base: Table, join: Table, category: string, problemLevel: string): (r: JoinAttempt)
    ensures r.castJoin.columns == join.columns && |r.castJoin.rows| == |join.rows|
    ensures category !in DateColumns ==> r.result == Failure(KeyError(category))
    ensures r.result.Success? <==>
      category in DateColumns && KeysOnce(CastBase(base, join, problemLevel), InterKeys(problemLevel))
      && KeysOnce(PreparedJoin(base, join, category, problemLevel), InterKeys(problemLevel))
    ensures r.result.Failure? && category in DateColumns ==>
      exists k :: k in InterKeys(problemLevel)
        && (Some(r.result.error) == LabelError(PreparedJoin(base, join, category, problemLevel), k)
            || Some(r.result.error) == LabelError(CastBase(base, join, problemLevel), k))
  {
    var cast := CastsProductId(base, join, problemLevel);
    var join1 := CastIf(cast, join);
    var keys := InterKeys(problemLevel);
    if category !in DateColumns then JoinAttempt(join1, Failure(KeyError(category)))
    else
      var base1 := CastBase(base, join, problemLevel);
      var join2 := PreparedJoin(base, join, category, problemLevel);
      match MergeKeysError(base1, join2, keys)
      case Some(e) => JoinAttempt(join1, Failure(e))
      case None => JoinAttempt(join1, Success(LeftJoin(base1, join2, keys)))
  }

  /**
   * Line 364 renames the secondary's date column to BillingDate. A secondary
   * that already has a BillingDate column then has two, so the merge fails;
   * when every other key is found once on both sides and BillingDate once in
   * billing, it fails with pandas' ValueError for the repeated label.
   */
  lemma SecondaryBillingDateFails(base: Table, join: Table, category: string, problemLevel: string)
    requires category in DateColumns && category != "billing"
    requires DateColumns[category] in join.columns && "BillingDate" in join.columns
    ensures PerformCategoryJoin(base, join, category, problemLevel).result.Failure?
    ensures var keys := InterKeys(problemLevel);
      KeysOnce(CastBase(base, join, problemLevel), keys) && KeysOnce(PreparedJoin(base, join, category, problemLevel), keys[..|keys| - 1]) ==>
        PerformCategoryJoin(base, join, category, problemLevel).result == Failure(ValueError(NotUniqueMessage("BillingDate")))
  {
    var keys := InterKeys(problemLevel);
    var join1 := CastIf(CastsProductId(base, join, problemLevel), join);
    var join2 := PreparedJoin(base, join, category, problemLevel);
    assert join1.columns == join.columns;
    RenameOccurrences(join1.columns, DateColumns[category], "BillingDate");
    assert Occurrences(join2.columns, "BillingDate") >= 2;
    assert "BillingDate" in keys;
    var base1 := CastBase(base, join, problemLevel);
    if KeysOnce(base1, keys) && KeysOnce(join2, keys[..|keys| - 1]) {
      assert keys == keys[..|keys| - 1] + ["BillingDate"];
      MergeKeysErrorLast(base1, join2, keys[..|keys| - 1], "BillingDate");
    }
  }

  /**
   * The merge keeps every billing record: it has at least as many rows, each
   * billing row (with ProductID cast when the cast applies) lies inside some
   * result row, and with secondary keys unique there is exactly one result
   * row per billing row.
   */
  lemma PerformCategoryJoinKeepsBilling(base: Table, join: Table, category: string, problemLevel: string)
    requires PerformCategoryJoin(base, join, category, problemLevel).result.Success?
    ensures var out := PerformCategoryJoin(base, join, category, problemLevel).result.value;
      |out.rows| >= |base.rows|
      && out.columns[..|base.columns|] == base.columns
      && RowsContained(CastBase(base, join, problemLevel), out)
      && (UniqueKeys(InterKeys(problemLevel), PreparedJoin(base, join, category, problemLevel).rows) ==>
            |out.rows| == |base.rows|
            && forall i :: 0 <= i < |base.rows| ==> SubRow(CastBase(base, join, problemLevel).rows[i], out.rows[i]))
    ensures !CastsProductId(base, join, problemLevel) ==> CastBase(base, join, problemLevel) == base
  {
    var b1 := CastBase(base, join, problemLevel);
    var j2 := PreparedJoin(base, join, category, problemLevel);
    var keys := InterKeys(problemLevel);
    assert PerformCategoryJoin(base, join, category, problemLevel).result.value == LeftJoin(b1, j2, keys);
    assert b1.columns == base.columns && |b1.rows| == |base.rows|;
    LeftJoinKeepsBase(b1, j2, keys);
  }

  /** The flag columns written after the merge. */
  function FlagName(category: string): string {
    "has_" + category + "_data"
  }

  /** Lines 303-305: both flags False, then the joined category's flag True, on every row alike. */
  function AddPresenceFlags(t: Table, category: string): Table {
    FlagsOn(t, FlagName("usage"), FlagName("support"), FlagName(category))
  }

  /** Three column assignments, the last of them `x := True` over `a := False` and `b := False`. */
  lemma FlagAssignments(t: Table, a: string, b: string, x: string, y: string)
    requires a != b && ((x == a && y == b) || (x == b && y == a))
    ensures |FlagsOn(t, a, b, x).rows| == |t.rows|
    ensures FlagsOn(t, a, b, x).columns[..|t.columns|] == t.columns
    ensures forall n :: 0 <= n < |t.rows| ==>
      x in FlagsOn(t, a, b, x).rows[n] && FlagsOn(t, a, b, x).rows[n][x] == Bool(true)
      && y in FlagsOn(t, a, b, x).rows[n] && FlagsOn(t, a, b, x).rows[n][y] == Bool(false)
    ensures forall n, c :: 0 <= n < |t.rows| && c in t.rows[n] && c != a && c != b ==>
      c in FlagsOn(t, a, b, x).rows[n] && FlagsOn(t, a, b, x).rows[n][c] == t.rows[n][c]
  {
    FlagColumns(t, a, b, x);
    forall n | 0 <= n < |t.rows|
      ensures FlagsOn(t, a, b, x).rows[n] == t.rows[n][a := Bool(false)][b := Bool(false)][x := Bool(true)]
    {
      var t1 := AssignColumn(t, a, Bool(false));
      assert AssignColumn(t1, b, Bool(false)).rows[n] == t1.rows[n][b := Bool(false)];
    }
  }

  lemma FlagColumns(t: Table, a: string, b: string, x: string)
    ensures FlagsOn(t, a, b, x).columns[..|t.columns|] == t.columns
  {
    var t1 := AssignColumn(t, a, Bool(false));
    var t2 := AssignColumn(t1, b, Bool(false));
    var r := AssignColumn(t2, x, Bool(true));
    assert t1.columns[..|t.columns|] == t.columns;
    assert t2.columns[..|t1.columns|] == t1.columns;
    assert r.columns[..|t2.columns|] == t2.columns;
  }

  function FlagsOn(t: Table, a: string, b: string, x: string): Table {
    AssignColumn(AssignColumn(AssignColumn(t, a, Bool(false)), b, Bool(false)), x, Bool(true))
  }

  /**
   * The flags say which category was joined, not which rows found a match:
   * every row, matched or not, has the joined category's flag True and the
   * other False; no other value changes and no row is added or lost.
   */
  lemma PresenceFlagsSpec(t: Table, category: string)
    requires category == "usage" || category == "support"
    ensures var r := AddPresenceFlags(t, category);
      var other := if category == "usage" then "support" else "usage";
      |r.rows| == |t.rows| && r.columns[..|t.columns|] == t.columns
      && (forall n :: 0 <= n < |r.rows| ==>
            FlagName(category) in r.rows[n] && r.rows[n][FlagName(category)] == Bool(true)
            && FlagName(other) in r.rows[n] && r.rows[n][FlagName(other)] == Bool(false))
      && (forall n, c :: 0 <= n < |t.rows| && c in t.rows[n] && c != FlagName("usage") && c != FlagName("support") ==>
            c in r.rows[n] && r.rows[n][c] == t.rows[n][c])
  {
    var u, sp := FlagName("usage"), FlagName("support");
    assert u != sp by {
      assert u[4] == 'u' && sp[4] == 's';
    }
    FlagAssignments(t, u, sp, FlagName(category), FlagName(if category == "usage" then "support" else "usage"));
  }

  /** The outcome of a page handler: the new session, the reply and the error shown, if any. */
  datatype PageOutcome = PageOutcome(session: Session, reply: Reply, error: Option<Error>)

  /** Line 291: shown when neither usage nor support was consolidated; the handler returns None without raising. */
  const NoSecondaryMessage: string := "At least one usage or support table is required for joining"

  /** `_handle_inter_category_joins`: left-join billing with the single secondary present. */
  function InterStep(s: Session, clicked: Option<Button>): PageOutcome
  {
    var avail := AvailableSecondaries(s.consolidated);
    if avail == [] then PageOutcome(s, NoReply, Some(Shown(NoSecondaryMessage)))
    else if |avail| == 2 then
      // both secondaries: the branch is not written, the handler falls through to None
      PageOutcome(s, NoReply, None)
    else if "billing" !in s.consolidated then PageOutcome(s, NoReply, Some(KeyError("billing")))
    else JoinSecondary(s, avail[0], clicked)
  }

  /** Lines 296-335: merge, flag, store, and offer the proceed button. */
  function JoinSecondary(s: Session, cat: string, clicked: Option<Button>): PageOutcome
    requires "billing" in s.consolidated && cat in s.consolidated
  {
    var attempt := PerformCategoryJoin(s.consolidated["billing"], s.consolidated[cat], cat, s.problemLevel);
    var s1 := s.(consolidated := s.consolidated[cat := attempt.castJoin]);
    match attempt.result
    case Failure(e) => PageOutcome(s1, NoReply, Some(e))
    case Success(joined) =>
      var final := AddPresenceFlags(joined, cat);
      var s2 := s1.(finalJoined := Some(final));
      if !s2.proceedToPostProcessing && clicked == Some(ProceedToPostProcessing) then
        PageOutcome(s2.(proceedToPostProcessing := true), FinalTable(Some(final)), None)
      else PageOutcome(s2, FinalTable(Some(final)), None)
  }

  /** The merge's attempt as the single-secondary branch makes it. */
  function AttemptFor(s: Session, cat: string): JoinAttempt
    requires "billing" in s.consolidated && cat in s.consolidated
  {
    PerformCategoryJoin(s.consolidated["billing"], s.consolidated[cat], cat, s.problemLevel)
  }

  /**
   * The branch stores the secondary as the cast leaves it, answers with the
   * flagged merge exactly when the merge succeeds, and then keeps that table
   * as the final one; a failed merge shows its error and keeps the old final
   * table. The proceed flag is set by its button, once there is a table.
   */
  lemma JoinSecondarySpec(s: Session, cat: string, clicked: Option<Button>)
    requires "billing" in s.consolidated && cat in s.consolidated
    ensures var o := JoinSecondary(s, cat, clicked);
      var a := AttemptFor(s, cat);
      o.session.consolidated == s.consolidated[cat := a.castJoin]
      && (o.reply.FinalTable? <==> a.result.Success?)
      && (a.result.Success? ==>
            o.reply.table == Some(AddPresenceFlags(a.result.value, cat)) && o.session.finalJoined == o.reply.table
            && o.error.None?)
      && (a.result.Failure? ==> o.session.finalJoined == s.finalJoined && o.error == Some(a.result.error))
      && o.session.currentCategory == s.currentCategory && o.session.confirmedJoins == s.confirmedJoins
      && o.session.intraCompleted == s.intraCompleted && o.session.interCompleted == s.interCompleted
      && o.session.postProcessingStarted == s.postProcessingStarted
      && o.session.joinHealthReviewed == s.joinHealthReviewed && o.session.problemLevel == s.problemLevel
      && o.session.proceedToPostProcessing ==
           (s.proceedToPostProcessing || (clicked == Some(ProceedToPostProcessing) && a.result.Success?))
  {
  }

  /** The one secondary category the inter step joins, when there is exactly one. */
  function SoleSecondary(consolidated: map<string, Table>): (r: Option<string>)
    ensures r.Some? ==> (r.value == "usage" || r.value == "support") && r.value in consolidated
  {
    var avail := AvailableSecondaries(consolidated);
    if |avail| == 1 then Some(avail[0]) else None
  }

  /**
   * The inter step answers with a table exactly when billing and exactly one
   * secondary are present and the merge succeeds; the table answered is the
   * merge with the presence flags, and it is stored as the final table. On
   * every other path the final table is left as it was.
   */
  lemma InterStepReplies(s: Session, clicked: Option<Button>)
    ensures var o := InterStep(s, clicked);
      var sole := SoleSecondary(s.consolidated);
      (o.reply.FinalTable? <==>
         sole.Some? && "billing" in s.consolidated && AttemptFor(s, sole.value).result.Success?)
      && (o.reply.FinalTable? ==>
            o.reply.table == o.session.finalJoined
            && o.reply.table == Some(AddPresenceFlags(AttemptFor(s, sole.value).result.value, sole.value)))
      && (o.reply.NoReply? ==> o.session.finalJoined == s.finalJoined)
  {
    var avail := AvailableSecondaries(s.consolidated);
    if |avail| == 1 && "billing" in s.consolidated {
      JoinSecondarySpec(s, avail[0], clicked);
    }
  }

  /**
   * The inter step writes only the final table, the proceed flag and the
   * secondary's table (the in-place cast); billing is never changed, nor is
   * anything of the intra phase.
   */
  lemma InterStepFrame(s: Session, clicked: Option<Button>)
    ensures var o := InterStep(s, clicked);
      o.session.currentCategory == s.currentCategory && o.session.confirmedJoins == s.confirmedJoins
      && o.session.intraCompleted == s.intraCompleted && o.session.interCompleted == s.interCompleted
      && o.session.postProcessingStarted == s.postProcessingStarted
      && o.session.joinHealthReviewed == s.joinHealthReviewed && o.session.problemLevel == s.problemLevel
      && o.session.consolidated.Keys == s.consolidated.Keys
      && (forall c :: c in s.consolidated && SoleSecondary(s.consolidated) != Some(c) ==>
            o.session.consolidated[c] == s.consolidated[c])
      && o.session.proceedToPostProcessing ==
           (s.proceedToPostProcessing || (clicked == Some(ProceedToPostProcessing) && o.reply.FinalTable?))
  {
    var avail := AvailableSecondaries(s.consolidated);
    if |avail| == 1 && "billing" in s.consolidated {
      var cat := avail[0];
      JoinSecondarySpec(s, cat, clicked);
      assert s.consolidated[cat := AttemptFor(s, cat).castJoin].Keys == s.consolidated.Keys;
    }
  }

  /** With exactly one secondary and billing present, the inter step is the single-secondary branch. */
  lemma InterStepIsJoin(s: Session, clicked: Option<Button>)
    requires SoleSecondary(s.consolidated).Some? && "billing" in s.consolidated
    ensures InterStep(s, clicked) == JoinSecondary(s, SoleSecondary(s.consolidated).value, clicked)
  {
  }

  /** The cast leaves the billing rows' columns and every value but ProductID alone. */
  lemma CastBaseRows(base: Table, join: Table, problemLevel: string)
    ensures CastBase(base, join, problemLevel).columns == base.columns && CastKeeps(base, CastBase(base, join, problemLevel))
  {
  }

  /** The flagged merge keeps every billing record, each with the joined category's flag True. */
  lemma FlaggedJoinKeepsBilling(base: Table, join: Table, cat: string, problemLevel: string)
    requires cat == "usage" || cat == "support"
    requires PerformCategoryJoin(base, join, cat, problemLevel).result.Success?
    ensures var final := AddPresenceFlags(PerformCategoryJoin(base, join, cat, problemLevel).result.value, cat);
      |final.rows| >= |base.rows|
      && forall i :: 0 <= i < |base.rows| ==> KeptWithFlag(base.rows[i], final, cat)
  {
    var joined := PerformCategoryJoin(base, join, cat, problemLevel).result.value;
    PerformCategoryJoinKeepsBilling(base, join, cat, problemLevel);
    PresenceFlagsRows(joined, cat);
    CastBaseRows(base, join, problemLevel);
    KeptAll(base, CastBase(base, join, problemLevel), joined, AddPresenceFlags(joined, cat), cat);
  }

  lemma PresenceFlagsRows(t: Table, cat: string)
    requires cat == "usage" || cat == "support"
    ensures FlaggedRows(t, AddPresenceFlags(t, cat), cat)
  {
    PresenceFlagsSpec(t, cat);
  }

  /** Row for row, `t1` has the columns of `t` and every value but ProductID. */
  ghost predicate CastKeeps(t: Table, t1: Table) {
    |t1.rows| == |t.rows|
    && (forall i :: 0 <= i < |t.rows| ==> t1.rows[i].Keys == t.rows[i].Keys)
    && (forall i, c :: 0 <= i < |t.rows| && c in t.rows[i] && c != "ProductID" ==> t1.rows[i][c] == t.rows[i][c])
  }

  /** Every row of `t` is contained in some row of `out`. */
  ghost predicate RowsContained(t: Table, out: Table) {
    forall i :: 0 <= i < |t.rows| ==> exists n :: 0 <= n < |out.rows| && SubRow(t.rows[i], out.rows[n])
  }

  /** `r` has the rows of `t`, each with the flag of `cat` True and every other value kept. */
  ghost predicate FlaggedRows(t: Table, r: Table, cat: string) {
    |r.rows| == |t.rows|
    && (forall n :: 0 <= n < |r.rows| ==> FlagName(cat) in r.rows[n] && r.rows[n][FlagName(cat)] == Bool(true))
    && (forall n, c :: 0 <= n < |t.rows| && c in t.rows[n] && c != FlagName("usage") && c != FlagName("support") ==>
          c in r.rows[n] && r.rows[n][c] == t.rows[n][c])
  }

  /** Row by row: the cast keeps the values, the merge contains the cast row, the flags keep the merged values. */
  lemma KeptAll(base: Table, base1: Table, joined: Table, final: Table, cat: string)
    requires CastKeeps(base, base1) && RowsContained(base1, joined) && FlaggedRows(joined, final, cat)
    ensures forall i :: 0 <= i < |base.rows| ==> KeptWithFlag(base.rows[i], final, cat)
  {
    forall i | 0 <= i < |base.rows|
      ensures KeptWithFlag(base.rows[i], final, cat)
    {
      var n :| 0 <= n < |joined.rows| && SubRow(base1.rows[i], joined.rows[n]);
      RowKept(base.rows[i], base1.rows[i], joined.rows[n], final.rows[n]);
    }
  }

  /** The answered table keeps every billing record, each with the joined category's flag True. */
  lemma InterStepKeepsBilling(s: Session, clicked: Option<Button>)
    requires InterStep(s, clicked).reply.FinalTable?
    ensures SoleSecondary(s.consolidated).Some? && "billing" in s.consolidated
    ensures var cat := SoleSecondary(s.consolidated).value;
      var base := s.consolidated["billing"];
      var final := InterStep(s, clicked).reply.table.value;
      |final.rows| >= |base.rows|
      && forall i :: 0 <= i < |base.rows| ==> KeptWithFlag(base.rows[i], final, cat)
  {
    InterStepReplies(s, clicked);
    InterStepIsJoin(s, clicked);
    var cat := SoleSecondary(s.consolidated).value;
    FlaggedJoinKeepsBilling(s.consolidated["billing"], s.consolidated[cat], cat, s.problemLevel);
  }

  /** A billing row's values (except ProductID and the flags) pass through the cast, the merge and the flags. */
  lemma RowKept(row: Row, castRow: Row, joinedRow: Row, finalRow: Row)
    requires castRow.Keys == row.Keys
    requires forall c :: c in row && c != "ProductID" ==> castRow[c] == row[c]
    requires SubRow(castRow, joinedRow)
    requires forall c :: c in joinedRow && c != FlagName("usage") && c != FlagName("support") ==>
      c in finalRow && finalRow[c] == joinedRow[c]
    ensures forall c :: c in row && c != "ProductID" && c != FlagName("usage") && c != FlagName("support") ==>
      c in finalRow && finalRow[c] == row[c]
  {
  }

  /** Some row of `final` carries every value of `row` except ProductID (which may be cast) and the flags, and has `cat`'s flag True. */
  ghost predicate KeptWithFlag(row: Row, final: Table, cat: string) {
    exists n :: 0 <= n < |final.rows| && FlagName(cat) in final.rows[n] && final.rows[n][FlagName(cat)] == Bool(true)
      && (forall c :: c in row && c != "ProductID" && c != FlagName("usage") && c != FlagName("support") ==>
            c in final.rows[n] && final.rows[n][c] == row[c])
  }

  /** Merging again with the secondary as the cast left it makes the same attempt. */
  lemma PerformCategoryJoinRepeatable(base: Table, join: Table, cat: string, problemLevel: string)
    ensures var a := PerformCategoryJoin(base, join, cat, problemLevel);
      PerformCategoryJoin(base, a.castJoin, cat, problemLevel) == a
  {
    var a := PerformCategoryJoin(base, join, cat, problemLevel);
    var cast := CastsProductId(base, join, problemLevel);
    assert CastsProductId(base, a.castJoin, problemLevel) == cast;
    if cast {
      CastIdempotent(join, "ProductID");
    }
    assert CastIf(cast, a.castJoin) == a.castJoin;
  }

  /** The single-secondary branch, rerun on the session it leaves, answers the same and stores the same. */
  lemma JoinSecondaryRepeatable(s: Session, cat: string, clicked: Option<Button>, clicked': Option<Button>)
    requires "billing" in s.consolidated && cat in s.consolidated && cat != "billing"
    ensures var o := JoinSecondary(s, cat, clicked);
      "billing" in o.session.consolidated && cat in o.session.consolidated
      && o.session.consolidated.Keys == s.consolidated.Keys
      && var o' := JoinSecondary(o.session, cat, clicked');
      o'.reply == o.reply && o'.error == o.error
      && o'.session.consolidated == o.session.consolidated && o'.session.finalJoined == o.session.finalJoined
  {
    var a := AttemptFor(s, cat);
    JoinSecondarySpec(s, cat, clicked);
    var s1 := JoinSecondary(s, cat, clicked).session;
    assert s1.consolidated.Keys == s.consolidated.Keys;
    assert s1.consolidated["billing"] == s.consolidated["billing"] && s1.consolidated[cat] == a.castJoin;
    PerformCategoryJoinRepeatable(s.consolidated["billing"], s.consolidated[cat], cat, s.problemLevel);
    assert AttemptFor(s1, cat) == a;
    JoinSecondarySpec(s1, cat, clicked');
    assert s1.consolidated[cat := a.castJoin] == s1.consolidated;
  }

  /**
   * Rerunning the inter step on the session it leaves gives the same answer,
   * the same error and the same tables: the in-place ProductID cast is
   * idempotent.
   */
  lemma InterStepRepeatable(s: Session, clicked: Option<Button>, clicked': Option<Button>)
    ensures var o := InterStep(s, clicked);
      var o' := InterStep(o.session, clicked');
      o'.reply == o.reply && o'.error == o.error
      && o'.session.consolidated == o.session.consolidated && o'.session.finalJoined == o.session.finalJoined
  {
    if SoleSecondary(s.consolidated).Some? && "billing" in s.consolidated {
      var cat := SoleSecondary(s.consolidated).value;
      InterStepIsJoin(s, clicked);
      JoinSecondaryRepeatable(s, cat, clicked, clicked');
      var s1 := InterStep(s, clicked).session;
      assert AvailableSecondaries(s1.consolidated) == AvailableSecondaries(s.consolidated);
      InterStepIsJoin(s1, clicked');
    }
  }

  // ---------------------------------------------------------------------------
  // Post-processing and the page as a whole
  // ---------------------------------------------------------------------------

  /**
   * `_handle_post_processing` (lines 452-484), and the same options in
   * lines 65-100: view, download (which fails on a missing final table) or
   * finish (which clears the session once confirmed).
   */
  function PostProcessing(s: Session, choice: PostChoice, clicked: Option<Button>): PageOutcome
  {
    match choice
    case ViewData => PageOutcome(s, FinalTable(s.finalJoined), None)
    case DownloadData =>
      if s.finalJoined.None? then PageOutcome(s, NoReply, Some(AttributeError("to_csv")))
      else PageOutcome(s, FinalTable(s.finalJoined), None)
    case Finish =>
      if clicked == Some(ConfirmFinish) then PageOutcome(ClearedSession(), NoReply, None)
      else PageOutcome(s, FinalTable(s.finalJoined), None)
  }

  /**
   * Post-processing changes the session only by the confirmed finish, which
   * clears it; every other choice answers with the stored final table, except
   * a download with no table, which shows the error and answers nothing.
   */
  lemma PostProcessingSpec(s: Session, choice: PostChoice, clicked: Option<Button>)
    ensures var o := PostProcessing(s, choice, clicked);
      (o.session == ClearedSession() && o.reply.NoReply? && o.error.None? <==>
         choice == Finish && clicked == Some(ConfirmFinish))
      && (o.session != s ==> o.session == ClearedSession())
      && (o.reply.FinalTable? ==> o.reply.table == s.finalJoined && o.session == s && o.error.None?)
      && (o.error.Some? <==> choice == DownloadData && s.finalJoined.None?)
      && (!(choice == Finish && clicked == Some(ConfirmFinish)) && o.error.None? ==> o.reply == FinalTable(s.finalJoined))
  {
  }

  /** The outcome of one run of `process_joining`: the session, the step-2 tables, the reply and the error shown. */
  datatype RunOutcome = RunOutcome(session: Session, tables: map<string, seq<Table>>, reply: Reply, error: Option<Error>)

  /**
   * Lines 42-49: the debug listing of the consolidated tables reads each
   * table's CustomerID column, which raises KeyError('CustomerID') for a
   * table without one (a lone file is stored without any key check).
   */
  predicate LacksCustomerId(consolidated: map<string, Table>) {
    exists c :: c in consolidated && "CustomerID" !in consolidated[c].columns
  }

  /**
   * `process_joining` (lines 19-106). The phase is picked from the session:
   * post-processing, else the intra phase until it is complete, else the
   * inter phase, else (once join health is reviewed) the post-processing
   * options. When the intra phase hands back its tables the page lists them,
   * stores them and reruns, which ends this run without a reply; the listing
   * fails on a table without CustomerID, after the intra call has already
   * closed the phase.
   */
  function ProcessJoining(s: Session, tables: map<string, seq<Table>>, clicked: Option<Button>, choice: PostChoice): RunOutcome
  {
    if s.postProcessingStarted then
      var o := PostProcessing(s, choice, clicked);
      RunOutcome(o.session, tables, o.reply, o.error)
    else if !s.intraCompleted then
      var o := IntraStep(s, tables, clicked);
      match o.result
      case None => RunOutcome(o.session, o.tables, NoReply, o.error)
      case Some(consolidated) =>
        if LacksCustomerId(consolidated) then RunOutcome(o.session, o.tables, NoReply, Some(KeyError("CustomerID")))
        else RunOutcome(o.session.(consolidated := consolidated, intraCompleted := true), o.tables, NoReply, None)
    else if !s.interCompleted then
      var o := InterStep(s, clicked);
      RunOutcome(o.session, tables, o.reply, o.error)
    else if s.joinHealthReviewed then
      var o := PostProcessing(s, choice, clicked);
      RunOutcome(o.session, tables, o.reply, o.error)
    else RunOutcome(s, tables, NoReply, None)
  }

  /** The flags that open the later phases. */
  predicate LaterPhasesClosed(s: Session) {
    !s.interCompleted && !s.postProcessingStarted && !s.joinHealthReviewed
  }

  /**
   * A run never sets the flags of the later phases (nothing in the page
   * writes them) and never reopens a completed intra phase, unless it clears
   * the session. While the intra phase is open, no run replies with a table.
   */
  lemma ProcessJoiningPhases(s: Session, tables: map<string, seq<Table>>, clicked: Option<Button>, choice: PostChoice)
    ensures var out := ProcessJoining(s, tables, clicked, choice);
      out.session == ClearedSession()
      || (out.session.interCompleted == s.interCompleted
          && out.session.postProcessingStarted == s.postProcessingStarted
          && out.session.joinHealthReviewed == s.joinHealthReviewed
          && (s.intraCompleted ==> out.session.intraCompleted))
    ensures !s.postProcessingStarted && !s.intraCompleted ==> ProcessJoining(s, tables, clicked, choice).reply.NoReply?
  {
    if !s.postProcessingStarted && !s.intraCompleted {
      IntraKeepsFields(s, tables, clicked);
    } else if !s.postProcessingStarted && !s.interCompleted {
      InterStepFrame(s, clicked);
    } else {
      PostProcessingSpec(s, choice, clicked);
    }
  }

  /**
   * The intra phase closes only by handing back its tables or by storing the
   * last single file. An error leaves it open, except the debug listing's
   * KeyError, which comes exactly when the handed-back tables hold one
   * without CustomerID; a completed phase has no category pending.
   */
  lemma ProcessJoiningIntraResult(s: Session, tables: map<string, seq<Table>>, clicked: Option<Button>, choice: PostChoice)
    requires !s.postProcessingStarted && !s.intraCompleted
    ensures var out := ProcessJoining(s, tables, clicked, choice);
      var o := IntraStep(s, tables, clicked);
      out.session == o.session && out.tables == o.tables
      && (out.error.Some? && o.result.None? ==> !out.session.intraCompleted)
      && (o.result.Some? ==>
            out.session.intraCompleted
            && (out.error.Some? <==> LacksCustomerId(o.result.value))
            && (out.error.Some? ==> out.error == Some(KeyError("CustomerID"))))
      && (out.session.intraCompleted ==> out.session.currentCategory.None?)
  {
    IntraResult(s, tables, clicked);
  }

  /**
   * A lone billing file without CustomerID is stored without a key check and
   * the intra phase completes, but the run then fails on the debug listing.
   */
  lemma LoneFileWithoutCustomerId()
    ensures var t := Table(["BillingDate", "Amount"], []);
      var out := ProcessJoining(ClearedSession(), map["billing" := [t]], Some(ProceedToInterCategory), ViewData);
      out.error == Some(KeyError("CustomerID")) && out.session.intraCompleted
  {
    var t := Table(["BillingDate", "Amount"], []);
    assert forall k :: 0 <= k < |ColumnMapping| ==> ColumnMapping[k].0 !in t.columns;
    LoneFileStep(t);
    assert "CustomerID" !in t.columns;
  }

  /**
   * A fresh call on a lone billing file without underscored names stores it
   * and hands it back on the proceed click; the run then fails on the debug
   * listing exactly when the file has no CustomerID column.
   */
  lemma LoneFileStep(t: Table)
    requires forall k :: 0 <= k < |ColumnMapping| ==> ColumnMapping[k].0 !in t.columns
    ensures var out := ProcessJoining(ClearedSession(), map["billing" := [t]], Some(ProceedToInterCategory), ViewData);
      out.session.intraCompleted && out.session.consolidated == map["billing" := t]
      && (out.error.Some? <==> "CustomerID" !in t.columns)
      && (out.error.Some? ==> out.error == Some(KeyError("CustomerID")))
  {
    var tables := map["billing" := [t]];
    RenamesAbsent(t, ColumnMapping);
    assert StandardizeAll([t]) == [t];
    assert tables["billing" := StandardizeAll(tables["billing"])] == tables;
    LoneBillingLast(tables);
    var s2 := ClearedSession().(currentCategory := Some("billing"), consolidated := map["billing" := t]);
    var o := IntraOutcome(s2.(currentCategory := None, intraCompleted := true), tables, Some(map["billing" := t]), None);
    assert LocalStep(ClearedSession(), tables, Some(ProceedToInterCategory)) == Done(o);
    assert IntraStep(ClearedSession(), tables, Some(ProceedToInterCategory)) == o;
    assert LacksCustomerId(map["billing" := t]) <==> "CustomerID" !in t.columns by {
      assert forall c :: c in map["billing" := t] ==> c == "billing";
    }
  }

  /** No category follows billing when it is the only one with files. */
  lemma LoneBillingLast(tables: map<string, seq<Table>>)
    requires tables.Keys == {"billing"}
    ensures NextCategory("billing", tables) == None
  {
    StrLessIrreflexive("billing");
    assert !HasFiles(tables, "usage") && !HasFiles(tables, "support");
    assert NextIn(Categories[2..], "billing", tables) == None;
    assert NextIn(Categories[1..], "billing", tables) == None;
  }

  /** Renames of names the table does not have change nothing. */
  lemma RenamesAbsent(t: Table, ms: seq<(string, string)>)
    requires forall k :: 0 <= k < |ms| ==> ms[k].0 !in t.columns
    ensures ApplyRenames(t, ms) == t
  {
  }

  /** The page run over a sequence of (click, radio choice) inputs, each run starting from the last one's session and tables. */
  function RunAll(s: Session, tables: map<string, seq<Table>>, inputs: seq<(Option<Button>, PostChoice)>): Session
    decreases |inputs|
  {
    if inputs == [] then s
    else
      var out := ProcessJoining(s, tables, inputs[0].0, inputs[0].1);
      RunAll(out.session, out.tables, inputs[1..])
  }

  /**
   * The post-processing phase is unreachable: from a session with the later
   * phases' flags unset (a fresh or cleared one), no sequence of runs sets
   * them, so neither post-processing branch ever runs.
   */
  lemma {:induction false} PostProcessingUnreachable(s: Session, tables: map<string, seq<Table>>, inputs: seq<(Option<Button>, PostChoice)>)
    requires LaterPhasesClosed(s)
    ensures LaterPhasesClosed(RunAll(s, tables, inputs))
    decreases |inputs|
  {
    if inputs != [] {
      ProcessJoiningPhases(s, tables, inputs[0].0, inputs[0].1);
      var out := ProcessJoining(s, tables, inputs[0].0, inputs[0].1);
      PostProcessingUnreachable(out.session, out.tables, inputs[1..]);
    }
  }

  // ---------------------------------------------------------------------------
  // Join statistics (lines 431-450)
  // ---------------------------------------------------------------------------

  /** The figures `_display_join_stats` shows; ProductID's count only when the column is there. */
  datatype JoinStats =
    | NoStats
    | SingleStats(records: nat, uniqueCustomers: nat, uniqueProducts: Option<nat>)
    | PairStats(file1: nat, file2: nat, final: nat, uniqueCustomers: nat, uniqueProducts: Option<nat>)

  function UniqueCount(t: Table, col: string): nat {
    |DistinctValues(t.rows, col)|
  }

  function JoinStatsOf(table1: Table, table2: Option<Table>, result: Option<Table>): Result<JoinStats>
  {
    match result
    case None => Success(NoStats)
    case Some(r) =>
      if "CustomerID" !in r.columns then Failure(KeyError("CustomerID"))
      else
        var products := if "ProductID" in r.columns then Some(UniqueCount(r, "ProductID")) else None;
        match table2
        case None => Success(SingleStats(|r.rows|, UniqueCount(r, "CustomerID"), products))
        case Some(t2) => Success(PairStats(|table1.rows|, |t2.rows|, |r.rows|, UniqueCount(r, "CustomerID"), products))
  }

  /** Unique customer and product counts never exceed the records of the result. */
  lemma JoinStatsBounded(table1: Table, table2: Option<Table>, result: Option<Table>)
    ensures var st := JoinStatsOf(table1, table2, result);
      (st.Success? && st.value.SingleStats? ==>
         st.value.uniqueCustomers <= st.value.records
         && (st.value.uniqueProducts.Some? ==> st.value.uniqueProducts.value <= st.value.records))
      && (st.Success? && st.value.PairStats? ==>
         st.value.uniqueCustomers <= st.value.final
         && (st.value.uniqueProducts.Some? ==> st.value.uniqueProducts.value <= st.value.final))
    ensures result.None? <==> JoinStatsOf(table1, table2, result) == Success(NoStats)
  {
    if result.Some? {
      DistinctValuesBound(result.value.rows, "CustomerID");
      DistinctValuesBound(result.value.rows, "ProductID");
    }
  }

  /**
   * After a confirmed intra join the page passes the merged table as both
   * the first table and the result, so "File1" reports the merged count,
   * not the first file's; the stats never fail, since the merge keeps the
   * CustomerID key.
   */
  lemma IntraCommitStats(files: seq<Table>, keys: seq<string>, i: nat)
    requires 1 <= i < |files| && |keys| > 0 && keys[0] == "CustomerID" && HasColumns(files[0], keys)
    ensures var merged := InnerJoin(files[0], files[i], keys);
      var st := JoinStatsOf(merged, Some(files[i]), Some(merged));
      st.Success? && st.value.PairStats?
      && st.value.file1 == st.value.final == |merged.rows| && st.value.file2 == |files[i].rows|
  {
    var merged := InnerJoin(files[0], files[i], keys);
    assert merged.columns[..|files[0].columns|] == files[0].columns;
    assert "CustomerID" in files[0].columns;
  }
}
