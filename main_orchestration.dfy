/**
 * The upload bookkeeping of orchestration/main_orchestration.py: uploaded
 * files are kept per category, a table is stored once its category is
 * confirmed, the granularity is chosen, and the step-1 output and the
 * step-2 tables are assembled from the uploads.
 *
 * Loading a file and identifying its category, and validating the uploads,
 * are parameters. The class object stands for the session and lives
 * across reruns of the script; its constructor is the first run.
 */
module MainOrchestration {
  import opened Wrappers
  import opened Text
  import opened Tables

  /** `{'filename': ..., 'data': ...}`, copied from the session's temporary values. */
  datatype Upload = Upload(filename: Option<string>, data: Option<Table>)

  /** `uploaded_tables`: the files of each category, in upload order. */
  type Uploads = map<string, seq<Upload>>

  /** Lines 16-21. */
  const InitialUploads: Uploads := map["billing" := [], "usage" := [], "support" := []]

  /** Line 47: some category has a file. */
  predicate HasUploadedFiles(uploads: Uploads) {
    exists c :: c in uploads && uploads[c] != []
  }

  /** The initial uploads have the three categories, each with no file, so nothing counts as uploaded. */
  lemma InitialUploadsSpec()
    ensures InitialUploads.Keys == {"billing", "usage", "support"}
    ensures forall c :: c in InitialUploads ==> InitialUploads[c] == []
    ensures !HasUploadedFiles(InitialUploads)
  {
  }

  /** Line 253: appending to an unknown category raises KeyError. */
  function Store(uploads: Uploads, category: string, upload: Upload): (r: Result<Uploads>)
    ensures r.Success? <==> category in uploads
    ensures r.Failure? ==> r.error == KeyError(category)
  {
    if category !in uploads then Failure(KeyError(category))
    else Success(uploads[category := uploads[category] + [upload]])
  }

  /**
   * Storing keeps the categories, puts the upload at the end of the chosen
   * category's list behind the files already there, leaves every other
   * category alone, and afterwards some file is uploaded.
   */
  lemma StoreSpec(uploads: Uploads, category: string, upload: Upload)
    requires category in uploads
    ensures var after := Store(uploads, category, upload).value;
      after.Keys == uploads.Keys
      && |after[category]| == |uploads[category]| + 1
      && after[category][..|uploads[category]|] == uploads[category]
      && after[category][|uploads[category]|] == upload
      && (forall c :: c in uploads && c != category ==> after[c] == uploads[c])
      && HasUploadedFiles(after)
  {
    var after := Store(uploads, category, upload).value;
    assert after[category] != [];
  }

  /** Line 299: `<Category>_File<k>` (1-based) when the category has several files, the title-cased category otherwise. */
  function FileLabel(category: string, idx: nat, count: nat): string {
    Title(category) + (if count > 1 then "_File" + NatToText(idx + 1) else "")
  }

  /** Different files of one category get different labels, and a lone file is labelled by its category. */
  lemma FileLabelSpec(category: string, i: nat, j: nat, count: nat)
    ensures count > 1 && i != j ==> FileLabel(category, i, count) != FileLabel(category, j, count)
    ensures count <= 1 ==> FileLabel(category, i, count) == Title(category)
  {
    if count > 1 && i != j && FileLabel(category, i, count) == FileLabel(category, j, count) {
      var p := Title(category) + "_File";
      assert FileLabel(category, i, count) == p + NatToText(i + 1);
      assert FileLabel(category, j, count) == p + NatToText(j + 1);
      assert NatToText(i + 1) == (p + NatToText(i + 1))[|p|..];
      assert NatToText(j + 1) == (p + NatToText(j + 1))[|p|..];
      NatToTextInjective(i + 1, j + 1);
    }
  }

  /** Distinct numbers have distinct decimal texts. */
  lemma {:induction false} NatToTextInjective(a: nat, b: nat)
    requires NatToText(a) == NatToText(b)
    ensures a == b
    decreases a
  {
    if a < 10 && b < 10 {
      assert NatToText(a)[0] == NatToText(b)[0];
    } else if a >= 10 && b >= 10 {
      var s, t := NatToText(a), NatToText(b);
      assert s[..|s| - 1] == NatToText(a / 10) && t[..|t| - 1] == NatToText(b / 10);
      assert s[|s| - 1] == t[|t| - 1];
      NatToTextInjective(a / 10, b / 10);
    }
  }

  /** The `data` of each file of a category, in upload order. */
  function DataOf(files: seq<Upload>): (r: seq<Option<Table>>)
    ensures |r| == |files| && forall i :: 0 <= i < |files| ==> r[i] == files[i].data
  {
    if files == [] then [] else [files[0].data] + DataOf(files[1..])
  }

  /** `step1_output`. */
  datatype Step1Output = Step1Output(billing: seq<Option<Table>>, usage: seq<Option<Table>>, support: seq<Option<Table>>,
                                     problemLevel: Option<string>, validation: bool)

  /** Lines 225-229: an empty category becomes None; a non-empty one keeps its list. */
  function Step2Tables(out: Step1Output): (r: map<string, Option<seq<Option<Table>>>>)
    ensures r.Keys == {"billing", "usage", "support"}
    ensures r["billing"] == (if out.billing == [] then None else Some(out.billing))
    ensures r["usage"] == (if out.usage == [] then None else Some(out.usage))
    ensures r["support"] == (if out.support == [] then None else Some(out.support))
  {
    map["billing" := if out.billing == [] then None else Some(out.billing),
        "usage" := if out.usage == [] then None else Some(out.usage),
        "support" := if out.support == [] then None else Some(out.support)]
  }

  class Orchestrator {
    var uploads: Uploads
    var processingFile: bool
    var categoryIdentified: bool
    var categoryConfirmed: bool
    var tempDf: Option<Table>
    var tempFilename: Option<string>
    var identifiedCategory: Option<string>
    var dataUploadComplete: bool
    var problemLevel: Option<string>
    var granularitySelected: bool
    var step1Output: Option<Step1Output>
    var currentStep: nat

    /**
     * The three categories are always there, and an identified file has
     * its table, name and suggested category held until it is stored.
     */
    predicate Valid()
      reads this
    {
      uploads.Keys == {"billing", "usage", "support"}
      && (categoryIdentified ==> tempDf.Some? && tempFilename.Some? && identifiedCategory.Some?)
    }

    /** Lines 16-21 on the first run: the three empty category lists, at step 1. */
    constructor ()
      ensures uploads == InitialUploads && currentStep == 1
      ensures !processingFile && !categoryIdentified && !categoryConfirmed && !dataUploadComplete && !granularitySelected
      ensures tempDf.None? && tempFilename.None? && identifiedCategory.None? && problemLevel.None? && step1Output.None?
      ensures Valid()
    {
      uploads := InitialUploads;
      processingFile, categoryIdentified, categoryConfirmed := false, false, false;
      tempDf, tempFilename, identifiedCategory := None, None, None;
      dataUploadComplete, granularitySelected := false, false;
      problemLevel, step1Output := None, None;
      currentStep := 1;
    }

    /**
     * Lines 94-114: a file was picked while no other is being processed.
     * Loading it either yields the table and its suggested category, which
     * are held for confirmation, or raises, which clears the processing flag.
     */
    method LoadFile(filename: string, loaded: Result<(Table, string)>)
      requires Valid() && currentStep == 1 && !dataUploadComplete && !processingFile && !categoryIdentified
      modifies this
      ensures loaded.Success? ==>
        processingFile && categoryIdentified
        && tempDf == Some(loaded.value.0) && tempFilename == Some(filename) && identifiedCategory == Some(loaded.value.1)
      ensures loaded.Failure? ==>
        !processingFile && !categoryIdentified
        && tempDf == old(tempDf) && tempFilename == old(tempFilename) && identifiedCategory == old(identifiedCategory)
      ensures uploads == old(uploads) && categoryConfirmed == old(categoryConfirmed) && dataUploadComplete == old(dataUploadComplete)
      ensures problemLevel == old(problemLevel) && granularitySelected == old(granularitySelected)
      ensures step1Output == old(step1Output) && currentStep == old(currentStep)
      ensures Valid()
    {
      processingFile := true;
      if loaded.Failure? {
        processingFile := false;
        return;
      }
      tempDf := Some(loaded.value.0);
      tempFilename := Some(filename);
      identifiedCategory := Some(loaded.value.1);
      categoryIdentified := true;
    }

    /** The state of the file being processed: the three flags and the three held values. */
    function Pending(): (bool, bool, bool, Option<Table>, Option<string>, Option<string>)
      reads this
    {
      (processingFile, categoryIdentified, categoryConfirmed, tempDf, tempFilename, identifiedCategory)
    }

    /** Lines 261-266: no file is being processed. */
    predicate Cleared()
      reads this
    {
      Pending() == (false, false, false, None, None, None)
    }

    /** What the later stages of step 1 have recorded. */
    function Later(): (bool, Option<string>, bool, Option<Step1Output>, nat)
      reads this
    {
      (dataUploadComplete, problemLevel, granularitySelected, step1Output, currentStep)
    }

    /**
     * Lines 244-266: the held file is appended to the category's list and
     * the processing state is cleared; an unknown category raises KeyError
     * before anything changes.
     */
    method StoreConfirmedTable(category: string) returns (err: Option<Error>)
      requires Valid()
      modifies this
      ensures err.None? <==> category in old(uploads)
      ensures err.Some? ==> err == Some(KeyError(category)) && uploads == old(uploads) && Pending() == old(Pending())
      ensures err.None? ==> uploads == Store(old(uploads), category, Upload(old(tempFilename), old(tempDf))).value && Cleared()
      ensures Later() == old(Later())
      ensures Valid()
    {
      if category !in uploads {
        return Some(KeyError(category));
      }
      Append(category, Upload(tempFilename, tempDf));
      ClearPending();
      err := None;
    }

    /** Line 253: the upload goes at the end of the category's list. */
    method Append(category: string, upload: Upload)
      requires category in uploads
      modifies this
      ensures uploads == Store(old(uploads), category, upload).value && uploads.Keys == old(uploads).Keys
      ensures Pending() == old(Pending()) && Later() == old(Later())
    {
      uploads := uploads[category := uploads[category] + [upload]];
    }

    /** Lines 261-266. */
    method ClearPending()
      modifies this
      ensures Cleared()
      ensures uploads == old(uploads) && Later() == old(Later())
    {
      processingFile, categoryIdentified, categoryConfirmed := false, false, false;
      tempDf, tempFilename, identifiedCategory := None, None, None;
    }

    /** Lines 135-139: confirming the suggested category, which raises KeyError when it is not one of the three. */
    method ConfirmSuggestion() returns (err: Option<Error>)
      requires Valid() && categoryIdentified && !categoryConfirmed
      modifies this
      ensures err.None? <==> old(identifiedCategory).value in {"billing", "usage", "support"}
      ensures err.None? ==> uploads == old(uploads)[old(identifiedCategory).value :=
                              old(uploads)[old(identifiedCategory).value] + [Upload(old(tempFilename), old(tempDf))]]
      ensures err.Some? ==> err == Some(KeyError(old(identifiedCategory).value)) && uploads == old(uploads) && Pending() == old(Pending())
      ensures err.None? ==> Cleared()
      ensures Later() == old(Later())
      ensures Valid()
    {
      err := StoreConfirmedTable(identifiedCategory.value);
    }

    /** Lines 141-150: the user's choice is one of the three categories, so storing always succeeds. */
    method ConfirmChoice(choice: string) returns (err: Option<Error>)
      requires Valid() && categoryIdentified && !categoryConfirmed && choice in ["billing", "support", "usage"]
      modifies this
      ensures err.None?
      ensures uploads == old(uploads)[choice := old(uploads)[choice] + [Upload(old(tempFilename), old(tempDf))]]
      ensures Cleared() && HasUploadedFiles(uploads)
      ensures Later() == old(Later())
      ensures Valid()
    {
      err := StoreConfirmedTable(choice);
      StoreSpec(old(uploads), choice, Upload(old(tempFilename), old(tempDf)));
    }

    /** Lines 153-164: with some file uploaded, the upload is complete once validation accepts it. */
    method CompleteUpload(validated: bool)
      requires Valid() && currentStep == 1 && !dataUploadComplete && HasUploadedFiles(uploads) && !processingFile
      modifies this
      ensures dataUploadComplete == validated
      ensures uploads == old(uploads) && currentStep == old(currentStep) && granularitySelected == old(granularitySelected)
      ensures Pending() == old(Pending()) && problemLevel == old(problemLevel) && step1Output == old(step1Output)
      ensures Valid()
    {
      if validated {
        dataUploadComplete := true;
      }
    }

    /** Lines 178-186: the problem level is Product Level or Customer Level as chosen. */
    method SelectGranularity(productLevel: bool)
      requires Valid() && currentStep == 1 && dataUploadComplete
      modifies this
      ensures problemLevel == Some(if productLevel then "Product Level" else "Customer Level") && granularitySelected
      ensures uploads == old(uploads) && currentStep == old(currentStep) && dataUploadComplete == old(dataUploadComplete)
      ensures Pending() == old(Pending()) && step1Output == old(step1Output)
      ensures Valid()
    {
      if productLevel {
        problemLevel := Some("Product Level");
      } else {
        problemLevel := Some("Customer Level");
      }
      granularitySelected := true;
    }

    /**
     * Lines 189-200: the step-1 output lists each category's data in
     * upload order, copies the problem level and marks step 1 validated;
     * the pipeline moves to step 2.
     */
    method Proceed()
      requires Valid() && currentStep == 1 && dataUploadComplete && granularitySelected
      modifies this
      ensures Valid()
      ensures step1Output == Some(Step1Output(DataOf(uploads["billing"]), DataOf(uploads["usage"]), DataOf(uploads["support"]), problemLevel, true))
      ensures currentStep == 2
      ensures uploads == old(uploads) && problemLevel == old(problemLevel)
      ensures Pending() == old(Pending()) && dataUploadComplete == old(dataUploadComplete) && granularitySelected == old(granularitySelected)
    {
      step1Output := Some(Step1Output(DataOf(uploads["billing"]), DataOf(uploads["usage"]), DataOf(uploads["support"]), problemLevel, true));
      currentStep := 2;
    }
  }

  /**
   * After the step-1 output is assembled, step 2 sees no table for exactly
   * the categories without a file, and otherwise the data of each file in
   * upload order.
   */
  lemma Step2TablesFromUploads(uploads: Uploads, level: Option<string>, c: string)
    requires uploads.Keys == {"billing", "usage", "support"} && c in uploads
    ensures var out := Step1Output(DataOf(uploads["billing"]), DataOf(uploads["usage"]), DataOf(uploads["support"]), level, true);
      var tables := Step2Tables(out);
      (tables[c].None? <==> uploads[c] == [])
      && (tables[c].Some? ==>
            |tables[c].value| == |uploads[c]| && forall i :: 0 <= i < |uploads[c]| ==> tables[c].value[i] == uploads[c][i].data)
  {
  }

  /** From the first run, confirming a chosen category for a loaded file stores it as that category's first file. */
  method FirstUpload(filename: string, table: Table, suggested: string, choice: string) returns (o: Orchestrator)
    requires choice in ["billing", "support", "usage"]
    ensures o.uploads == InitialUploads[choice := [Upload(Some(filename), Some(table))]]
    ensures HasUploadedFiles(o.uploads) && o.Valid()
  {
    o := new Orchestrator();
    o.LoadFile(filename, Success((table, suggested)));
    assert o.uploads == InitialUploads && o.uploads[choice] == [];
    assert o.tempFilename == Some(filename) && o.tempDf == Some(table);
    ghost var u := Upload(Some(filename), Some(table));
    var err := o.ConfirmChoice(choice);
    assert o.uploads == InitialUploads[choice := InitialUploads[choice] + [u]];
    assert InitialUploads[choice] + [u] == [u];
  }
}
