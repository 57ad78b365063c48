/**
 * `Step5DataJoining` as an object over the session store: its fields are the
 * session keys the page reads and writes, plus the caller's `tables` dict,
 * which the intra phase overwrites with standardised files (line 157). Each
 * method performs the source's steps in place and is proved to leave the
 * object in the state the functions of DataJoining compute.
 */
module JoiningEngine {
  import opened Wrappers
  import opened Tables
  import opened DataJoining

  class Engine {
    var consolidated: map<string, Table>
    var currentCategory: Option<string>
    var confirmedJoins: set<(string, nat)>
    var intraCompleted: bool
    var interCompleted: bool
    var postProcessingStarted: bool
    var joinHealthReviewed: bool
    var proceedToPostProcessing: bool
    var problemLevel: string
    var finalJoined: Option<Table>
    var tables: map<string, seq<Table>>

    /** The session store as a value. */
    function Snapshot(): Session
      reads this
    {
      Session(consolidated, currentCategory, confirmedJoins, intraCompleted, interCompleted,
              postProcessingStarted, joinHealthReviewed, proceedToPostProcessing, problemLevel, finalJoined)
    }

    /** A fresh session at the chosen analysis level, over the step-2 tables. */
    constructor (tables0: map<string, seq<Table>>, level: string)
      ensures Snapshot() == ClearedSession().(problemLevel := level) && tables == tables0
    {
      consolidated := map[];
      currentCategory := None;
      confirmedJoins := {};
      intraCompleted := false;
      interCompleted := false;
      postProcessingStarted := false;
      joinHealthReviewed := false;
      proceedToPostProcessing := false;
      problemLevel := level;
      finalJoined := None;
      tables := tables0;
    }

    /** `_standardize_columns`: the loop over the five renames, on a copy. */
    static method Standardize(t: Table) returns (r: Table)
      ensures r == StandardizeColumns(t)
    {
      r := t;
      var i := 0;
      while i < |ColumnMapping|
        invariant 0 <= i <= |ColumnMapping|
        invariant ApplyRenames(r, ColumnMapping[i..]) == ApplyRenames(t, ColumnMapping)
      {
        var from, to := ColumnMapping[i].0, ColumnMapping[i].1;
        assert ColumnMapping[i..][0] == ColumnMapping[i] && ColumnMapping[i..][1..] == ColumnMapping[i + 1..];
        if from in r.columns {
          r := RenameColumn(r, from, to);
        }
        i := i + 1;
      }
    }

    /** Lines 151-154: every file of a category standardised, in order. */
    static method StandardizeFiles(files: seq<Table>) returns (r: seq<Table>)
      ensures r == StandardizeAll(files)
    {
      r := [];
      for i := 0 to |files|
        invariant |r| == i
        invariant forall j :: 0 <= j < i ==> r[j] == StandardizeColumns(files[j])
      {
        var std := Standardize(files[i]);
        r := r + [std];
      }
    }

    /** The `for key in join_keys` checks: the first key the table lacks, if any. */
    static method MissingKeyOf(t: Table, keys: seq<string>) returns (k: Option<string>)
      ensures k.None? <==> HasColumns(t, keys)
      ensures k.Some? ==> !HasColumns(t, keys) && k.value == FirstMissing(t, keys)
    {
      var i := 0;
      while i < |keys|
        invariant 0 <= i <= |keys|
        invariant forall j :: 0 <= j < i ==> keys[j] in t.columns
        invariant !HasColumns(t, keys) ==> !HasColumns(t, keys[i..]) && FirstMissing(t, keys) == FirstMissing(t, keys[i..])
      {
        if keys[i] !in t.columns {
          return Some(keys[i]);
        }
        assert keys[i..][0] == keys[i] && keys[i..][1..] == keys[i + 1..];
        i := i + 1;
      }
      assert HasColumns(t, keys) by {
        forall k | k in keys
          ensures k in t.columns
        {
          var j :| 0 <= j < |keys| && keys[j] == k;
        }
      }
      k := None;
    }

    /** Lines 211-262 without the commit: the first table lacking a key or the first unconfirmed join. */
    method FindPending(files: seq<Table>, keys: seq<string>, cat: string) returns (p: Pending)
      requires |files| >= 1
      ensures p == PendingJoin(files, keys, cat, confirmedJoins, 1)
    {
      var i := 1;
      while i < |files|
        invariant 1 <= i <= |files|
        invariant PendingJoin(files, keys, cat, confirmedJoins, i) == PendingJoin(files, keys, cat, confirmedJoins, 1)
        decreases |files| - i
      {
        var missing := MissingKeyOf(files[i], keys);
        if missing.Some? {
          return MissingKey(i, missing.value);
        }
        if (cat, i) !in confirmedJoins {
          return Unconfirmed(i);
        }
        i := i + 1;
      }
      return AllConfirmed;
    }

    /**
     * One pass of `_handle_intra_category_joins` up to the point where it
     * returns or calls itself for the next category (lines 135-164).
     */
    method IntraPass(clicked: Option<Button>) returns (step: Step)
      modifies this
      ensures step == LocalStep(old(Snapshot()), old(tables), clicked)
      ensures step.Done? ==> Snapshot() == step.outcome.session && tables == step.outcome.tables
      ensures step.Continue? ==> Snapshot() == step.session && tables == step.tables
    {
      PickCategory();
      if currentCategory.None? {
        return Done(IntraOutcome(Snapshot(), tables, None, None));
      }
      var cat := currentCategory.value;
      if cat !in tables {
        return Done(IntraOutcome(Snapshot(), tables, None, Some(KeyError(cat))));
      }
      step := CategoryPass(cat, clicked);
    }

    /** Lines 139-142: keep the session's category, or start from billing when there is one. */
    method PickCategory()
      modifies this
      ensures Snapshot() == old(Snapshot()).(currentCategory := WorkingCategory(old(Snapshot()), old(tables)))
      ensures tables == old(tables)
    {
      if !(currentCategory.Some? && currentCategory.value != "") {
        currentCategory := if "billing" in tables then Some("billing") else None;
      }
    }

    /** Lines 151-168: standardise the category's files, look up its date column, and handle one or several files. */
    method CategoryPass(cat: string, clicked: Option<Button>) returns (step: Step)
      requires cat in tables
      modifies this
      ensures step == if cat in DateColumns then CategoryStep(old(Snapshot()), cat, old(tables), clicked)
                      else Done(IntraOutcome(old(Snapshot()), old(tables)[cat := StandardizeAll(old(tables)[cat])], None, Some(KeyError(cat))))
      ensures step.Done? ==> Snapshot() == step.outcome.session && tables == step.outcome.tables
      ensures step.Continue? ==> Snapshot() == step.session && tables == step.tables
    {
      ghost var s1, t0 := Snapshot(), tables;
      var files := StandardizeFiles(tables[cat]);
      tables := tables[cat := files];
      if cat !in DateColumns {
        return Done(IntraOutcome(Snapshot(), tables, None, Some(KeyError(cat))));
      }
      step := FilesPass(cat, files, clicked);
    }

    /** Lines 168-265: one file, several files, or none. */
    method FilesPass(cat: string, files: seq<Table>, clicked: Option<Button>) returns (step: Step)
      requires cat in DateColumns
      modifies this
      ensures step == FilesStep(old(Snapshot()), cat, files, old(tables), clicked)
      ensures step.Done? ==> Snapshot() == step.outcome.session && tables == step.outcome.tables
      ensures step.Continue? ==> Snapshot() == step.session && tables == step.tables
    {
      var next := NextCategory(cat, tables);
      if |files| == 1 {
        step := SingleFilePass(cat, files[0], next, clicked);
      } else if |files| > 1 {
        step := MultiFilePass(cat, files, JoinKeys(cat, problemLevel), next, clicked);
      } else {
        step := Done(IntraOutcome(Snapshot(), tables, None, Some(UnboundLocal("next_category"))));
      }
    }

    /** Lines 169-193: store the lone file and move on. */
    method SingleFilePass(cat: string, file: Table, next: Option<string>, clicked: Option<Button>) returns (step: Step)
      modifies this
      ensures step == SingleFileStep(old(Snapshot()), cat, file, old(tables), next, clicked)
      ensures tables == old(tables)
      ensures step.Done? ==> Snapshot() == step.outcome.session
      ensures step.Continue? ==> Snapshot() == step.session && tables == step.tables
    {
      consolidated := consolidated[cat := file];
      currentCategory := next;
      if next.None? {
        intraCompleted := true;
        var result := if clicked == Some(ProceedToInterCategory) then Some(consolidated) else None;
        return Done(IntraOutcome(Snapshot(), tables, result, None));
      }
      return Continue(Snapshot(), tables);
    }

    /** Lines 196-262: check the keys, find the pending join, commit it when its button was clicked. */
    method MultiFilePass(cat: string, files: seq<Table>, keys: seq<string>, next: Option<string>, clicked: Option<Button>)
      returns (step: Step)
      requires |files| > 1
      modifies this
      ensures step == MultiFileStep(old(Snapshot()), cat, files, old(tables), keys, next, clicked)
      ensures tables == old(tables)
      ensures step.Done? ==> Snapshot() == step.outcome.session
      ensures step.Continue? ==> Snapshot() == step.session && tables == step.tables
    {
      var missing := MissingKeyOf(files[0], keys);
      if missing.Some? {
        return Done(IntraOutcome(Snapshot(), tables, None, Some(FirstTableKeyError(missing.value, cat))));
      }
      var p := FindPending(files, keys, cat);
      PendingJoinSpec(files, keys, cat, confirmedJoins, 1);
      match p
      case MissingKey(i, key) =>
        return Done(IntraOutcome(Snapshot(), tables, None, Some(TableKeyError(key, cat, i))));
      case AllConfirmed =>
        return Done(IntraOutcome(Snapshot(), tables, None, Some(UnboundLocal("next_category"))));
      case Unconfirmed(i) =>
        if clicked != Some(ConfirmJoin(cat, i)) {
          return Done(IntraOutcome(Snapshot(), tables, None, None));
        }
        step := CommitJoin(cat, files, keys, i, next);
    }

    /** Lines 236-262: the confirmed join is recorded and stored; the last one moves on. */
    method CommitJoin(cat: string, files: seq<Table>, keys: seq<string>, i: nat, next: Option<string>) returns (step: Step)
      requires 0 < i < |files|
      modifies this
      ensures var s1 := old(Snapshot());
        var s2 := s1.(confirmedJoins := s1.confirmedJoins + {(cat, i)},
                      consolidated := s1.consolidated[cat := InnerJoin(files[0], files[i], keys)]);
        step == if i < |files| - 1 then Done(IntraOutcome(s2, old(tables), None, None))
                else if next.Some? then Continue(s2.(currentCategory := next), old(tables))
                else Done(IntraOutcome(s2.(currentCategory := None, intraCompleted := true), old(tables), Some(s2.consolidated), None))
      ensures tables == old(tables)
      ensures step.Done? ==> Snapshot() == step.outcome.session
      ensures step.Continue? ==> Snapshot() == step.session && tables == step.tables
    {
      confirmedJoins := confirmedJoins + {(cat, i)};
      consolidated := consolidated[cat := InnerJoin(files[0], files[i], keys)];
      if i < |files| - 1 {
        return Done(IntraOutcome(Snapshot(), tables, None, None));
      }
      if next.Some? {
        currentCategory := next;
        return Continue(Snapshot(), tables);
      }
      currentCategory := None;
      intraCompleted := true;
      return Done(IntraOutcome(Snapshot(), tables, Some(consolidated), None));
    }

    /** `_handle_intra_category_joins`: passes, recursing while a next category is taken up. */
    method HandleIntra(clicked: Option<Button>) returns (result: Option<map<string, Table>>, error: Option<Error>)
      modifies this
      ensures IntraStep(old(Snapshot()), old(tables), clicked) == IntraOutcome(Snapshot(), tables, result, error)
      decreases StepMeasure(Snapshot())
    {
      var step := IntraPass(clicked);
      match step
      case Done(o) =>
        result, error := o.result, o.error;
      case Continue(s2, t2) =>
        result, error := HandleIntra(clicked);
    }

    /** Lines 352-354: the ProductID casts, when both tables have the column at product level. */
    static method CastForMerge(base: Table, join: Table, level: string) returns (base1: Table, join1: Table)
      ensures base1 == CastBase(base, join, level)
      ensures join1 == CastIf(CastsProductId(base, join, level), join)
    {
      base1, join1 := base, join;
      if level == ProductLevel && "ProductID" in base.columns && "ProductID" in join.columns {
        base1 := CastColumnToText(base, "ProductID");
        join1 := CastColumnToText(join, "ProductID");
      }
    }

    /** Lines 356-375: rename the date column, look the keys up on both sides, merge left. */
    static method MergeCast(base: Table, join: Table, base1: Table, join1: Table, cat: string, level: string)
      returns (joined: Result<Table>)
      requires base1 == CastBase(base, join, level)
      requires join1 == CastIf(CastsProductId(base, join, level), join)
      ensures joined == PerformCategoryJoin(base, join, cat, level).result
    {
      if cat !in DateColumns {
        return Failure(KeyError(cat));
      }
      var join2 := RenameColumn(join1, DateColumns[cat], "BillingDate");
      assert join2 == PreparedJoin(base, join, cat, level);
      var keys := InterKeys(level);
      var e := MergeKeysError(base1, join2, keys);
      if e.Some? {
        return Failure(e.value);
      }
      return Success(LeftJoin(base1, join2, keys));
    }

    /** `_perform_category_join`: the in-place cast (which reaches the stored secondary), the renamed copy, the left merge. */
    method PerformJoin(cat: string) returns (joined: Result<Table>)
      requires "billing" in consolidated && cat in consolidated
      modifies this
      ensures var a := AttemptFor(old(Snapshot()), cat);
        joined == a.result && Snapshot() == old(Snapshot()).(consolidated := old(consolidated)[cat := a.castJoin])
      ensures tables == old(tables)
    {
      var base, join := consolidated["billing"], consolidated[cat];
      var base1, join1 := CastForMerge(base, join, problemLevel);
      consolidated := consolidated[cat := join1];
      joined := MergeCast(base, join, base1, join1, cat, problemLevel);
    }

    /** `_handle_inter_category_joins`. */
    method HandleInter(clicked: Option<Button>) returns (reply: Reply, error: Option<Error>)
      modifies this
      ensures InterStep(old(Snapshot()), clicked) == PageOutcome(Snapshot(), reply, error)
      ensures tables == old(tables)
    {
      var avail := AvailableSecondaries(consolidated);
      if avail == [] {
        return NoReply, Some(Shown(NoSecondaryMessage));
      }
      if |avail| == 2 {
        return NoReply, None;
      }
      if "billing" !in consolidated {
        return NoReply, Some(KeyError("billing"));
      }
      var cat := avail[0];
      var joined := PerformJoin(cat);
      if joined.Failure? {
        return NoReply, Some(joined.error);
      }
      reply := StoreFlagged(joined.value, cat, clicked);
      error := None;
    }

    /** Lines 305-335: the presence flags, the stored final table, the proceed button. */
    method StoreFlagged(joined: Table, cat: string, clicked: Option<Button>) returns (reply: Reply)
      modifies this
      ensures reply == FinalTable(Some(AddPresenceFlags(joined, cat)))
      ensures Snapshot() == old(Snapshot()).(finalJoined := Some(AddPresenceFlags(joined, cat)),
                                             proceedToPostProcessing := old(proceedToPostProcessing) || clicked == Some(ProceedToPostProcessing))
      ensures tables == old(tables)
    {
      var final := AssignColumn(joined, FlagName("usage"), Bool(false));
      final := AssignColumn(final, FlagName("support"), Bool(false));
      final := AssignColumn(final, FlagName(cat), Bool(true));
      finalJoined := Some(final);
      if !proceedToPostProcessing && clicked == Some(ProceedToPostProcessing) {
        proceedToPostProcessing := true;
      }
      return FinalTable(Some(final));
    }

    /** `session.clear()`. */
    method Clear()
      modifies this
      ensures Snapshot() == ClearedSession() && tables == old(tables)
    {
      consolidated := map[];
      currentCategory := None;
      confirmedJoins := {};
      intraCompleted := false;
      interCompleted := false;
      postProcessingStarted := false;
      joinHealthReviewed := false;
      proceedToPostProcessing := false;
      problemLevel := "";
      finalJoined := None;
    }

    /** `_handle_post_processing`, and the identical options of lines 65-100. */
    method HandlePostProcessing(choice: PostChoice, clicked: Option<Button>) returns (reply: Reply, error: Option<Error>)
      modifies this
      ensures PostProcessing(old(Snapshot()), choice, clicked) == PageOutcome(Snapshot(), reply, error)
      ensures tables == old(tables)
    {
      var final := finalJoined;
      match choice
      case ViewData =>
        return FinalTable(final), None;
      case DownloadData =>
        if final.None? {
          return NoReply, Some(AttributeError("to_csv"));
        }
        return FinalTable(final), None;
      case Finish =>
        if clicked == Some(ConfirmFinish) {
          Clear();
          return NoReply, None;
        }
        return FinalTable(final), None;
    }

    /** Lines 42-49: the debug listing of the consolidated tables, which reads each one's CustomerID column. */
    static method ListConsolidated(consolidated: map<string, Table>) returns (error: Option<Error>)
      ensures error.None? <==> !LacksCustomerId(consolidated)
      ensures error.Some? ==> error == Some(KeyError("CustomerID"))
    {
      var rest := consolidated.Keys;
      while rest != {}
        invariant rest <= consolidated.Keys
        invariant forall c :: c in consolidated && c !in rest ==> "CustomerID" in consolidated[c].columns
        decreases rest
      {
        var c :| c in rest;
        if "CustomerID" !in consolidated[c].columns {
          return Some(KeyError("CustomerID"));
        }
        rest := rest - {c};
      }
      return None;
    }

    /** `process_joining`: one run of the page. */
    method ProcessJoiningRun(clicked: Option<Button>, choice: PostChoice) returns (reply: Reply, error: Option<Error>)
      modifies this
      ensures ProcessJoining(old(Snapshot()), old(tables), clicked, choice) == RunOutcome(Snapshot(), tables, reply, error)
    {
      if postProcessingStarted {
        reply, error := HandlePostProcessing(choice, clicked);
      } else if !intraCompleted {
        var result;
        result, error := HandleIntra(clicked);
        reply := NoReply;
        if result.Some? {
          error := ListConsolidated(result.value);
          if error.None? {
            consolidated := result.value;
            intraCompleted := true;
          }
        }
      } else if !interCompleted {
        reply, error := HandleInter(clicked);
      } else if joinHealthReviewed {
        reply, error := HandlePostProcessing(choice, clicked);
      } else {
        reply, error := NoReply, None;
      }
    }
  }
}
