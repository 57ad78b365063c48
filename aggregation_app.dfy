/**
 * The stand-alone aggregation page of
 * individual_agent_files_for_ref/aggregation_app.py: checking the suggested
 * column mapping, filtering the advisor's suggestions against each column's
 * allowed methods, the method grid, the translation of the operator's
 * choices with per-type defaults, and how confirmed methods are shown.
 *
 * Widgets are inputs: the select boxes' strings, the set of ticked grid
 * cells and the clicked button. The column renaming after `agg` is the same
 * loop as `AggregationSteps.CleanColumnNames`.
 */
module AggregationApp {
  import opened Wrappers
  import opened Text
  import opened JsonText
  import opened AggregationSteps
  import MappingAggregationAgent

  // ---------------------------------------------------------------------------
  // Column mapping (lines 62-66 and 107-133)
  // ---------------------------------------------------------------------------

  /** `suggested.get(role) is not None`: a JSON null counts as None. */
  predicate Suggests(suggested: map<string, Json>, role: string) {
    role in suggested && suggested[role] != JNull
  }

  /** Lines 65-66: the advisor found both required columns. */
  predicate HasRequiredMappings(suggested: map<string, Json>) {
    Suggests(suggested, "customer_id") && Suggests(suggested, "date")
  }

  /**
   * Lines 129-133: the modified mapping is saved only when both required
   * select boxes hold a column and the save button is clicked; the product
   * choice `'None'` becomes None.
   */
  function ModifiedMapping(customerId: string, date: string, productId: string, saveClicked: bool): (r: Option<MappingAggregationAgent.Mapping>)
    ensures r.Some? <==> customerId != "" && date != "" && saveClicked
    ensures r.Some? ==>
      r.value.Keys == {"customer_id", "date", "product_id"}
      && r.value["customer_id"] == Some(customerId) && r.value["date"] == Some(date)
      && (r.value["product_id"] == None <==> productId == "None")
  {
    if customerId != "" && date != "" && saveClicked then
      Some(map["customer_id" := Some(customerId), "date" := Some(date),
               "product_id" := if productId == "None" then None else Some(productId)])
    else None
  }

  /**
   * A saved mapping always groups by the two required columns, and by the
   * product column exactly when one was chosen.
   */
  lemma ModifiedMappingGroupby(customerId: string, date: string, productId: string)
    requires customerId != "" && date != ""
    ensures var m := ModifiedMapping(customerId, date, productId, true).value;
      MappingAggregationAgent.GroupbyList(m)
      == [customerId, date] + (if productId != "None" && productId != "" then [productId] else [])
  {
    var m := ModifiedMapping(customerId, date, productId, true).value;
    assert MappingAggregationAgent.Picked(m, "customer_id") == [customerId];
    assert MappingAggregationAgent.Picked(m, "date") == [date];
  }

  // ---------------------------------------------------------------------------
  // Suggestion filtering (lines 213-237)
  // ---------------------------------------------------------------------------

  /** `llm_suggestions.get(feature, [])`. */
  function EntryOf(llm: map<string, Json>, f: string): Json {
    if f in llm then llm[f] else JArray([])
  }

  /** The allowed suggestions of one column-information feature. */
  function KeptOf(llm: map<string, Json>, info: map<string, ColumnInfo>, f: string): Result<seq<Suggestion>>
    requires f in info
  {
    ValidFor(EntryOf(llm, f), info[f].allowedMethods)
  }

  function AsJson(ss: seq<Suggestion>): (r: seq<Json>)
    ensures |r| == |ss| && forall i :: 0 <= i < |ss| ==> r[i] == JObject(ss[i])
  {
    if ss == [] then [] else [JObject(ss[0])] + AsJson(ss[1..])
  }

  /**
   * `out` is `llm` with the features of `done` processed: each is
   * well-formed, keeps its allowed suggestions as a list, or is popped when
   * none remain; every other entry is untouched.
   */
  predicate Edited(llm: map<string, Json>, info: map<string, ColumnInfo>, done: set<string>, out: map<string, Json>)
    requires done <= info.Keys
  {
    DoneEdited(llm, info, done, out) && RestKept(llm, done, out)
  }

  /** The edited suggestions and the two counters of the loop. */
  datatype Filtering = Filtering(suggestions: map<string, Json>, validCount: nat, totalFeatures: nat)

  /**
   * Lines 216-237: each column-information feature is processed once; the
   * loop fails (at the first one in dict order) when an entry is not a list
   * of dicts with a `method`. Otherwise the suggestions are edited as
   * `Edited` says, `total_features` is the number of features and
   * `valid_suggestions_count` the number that kept a suggestion.
   */
  method FilterSuggestions(llm: map<string, Json>, info: map<string, ColumnInfo>) returns (r: Result<Filtering>)
    ensures r.Success? <==> forall f :: f in info ==> KeptOf(llm, info, f).Success?
    ensures r.Success? ==>
      Edited(llm, info, info.Keys, r.value.suggestions)
      && r.value.totalFeatures == |info|
      && r.value.validCount == |r.value.suggestions.Keys * info.Keys|
      && r.value.validCount <= r.value.totalFeatures
    ensures r.Failure? ==> exists f :: f in info && KeptOf(llm, info, f) == Failure(r.error)
  {
    var state := Filtering(llm, 0, 0);
    var done: set<string>, todo := {}, info.Keys;
    while todo != {}
      invariant done + todo == info.Keys && done !! todo
      invariant Progress(llm, info, done, state)
      decreases |todo|
    {
      var feature :| feature in todo;
      var next := FilterFeature(llm, info, done, feature, state);
      if next.Failure? {
        return Failure(next.error);
      }
      state := next.value;
      MoveFeature(done, todo, info.Keys, feature);
      done, todo := done + {feature}, todo - {feature};
    }
    assert done == info.Keys;
    r := Success(state);
  }

  /** The loop's state after the features of `done`. */
  predicate Progress(llm: map<string, Json>, info: map<string, ColumnInfo>, done: set<string>, state: Filtering)
    requires done <= info.Keys
  {
    Edited(llm, info, done, state.suggestions)
    && state.totalFeatures == |done| && state.validCount == |state.suggestions.Keys * done|
    && state.validCount <= state.totalFeatures
  }

  /**
   * One iteration of lines 216-237: the feature's allowed suggestions
   * replace its entry, or the entry is popped when none remain, and the
   * counters move on.
   */
  method FilterFeature(llm: map<string, Json>, info: map<string, ColumnInfo>, done: set<string>, feature: string,
                       state: Filtering) returns (r: Result<Filtering>)
    requires done <= info.Keys && feature in info && feature !in done
    requires Progress(llm, info, done, state)
    ensures r.Success? <==> KeptOf(llm, info, feature).Success?
    ensures r.Failure? ==> KeptOf(llm, info, feature) == Failure(r.error)
    ensures r.Success? ==> Progress(llm, info, done + {feature}, r.value)
  {
    var suggestions, validCount, totalFeatures := state.suggestions, state.validCount, state.totalFeatures;
    var featureSuggestions := if feature in suggestions then suggestions[feature] else JArray([]);
    assert featureSuggestions == EntryOf(llm, feature);
    var valid := ValidFor(featureSuggestions, info[feature].allowedMethods);
    if valid.Failure? {
      return Failure(valid.error);
    }
    EditedStep(llm, info, done, feature, suggestions);
    if valid.value != [] {
      validCount := validCount + 1;
    }
    totalFeatures := totalFeatures + 1;
    if valid.value != [] {
      suggestions := suggestions[feature := JArray(AsJson(valid.value))];
    } else {
      suggestions := suggestions - {feature};
    }
    r := Success(Filtering(suggestions, validCount, totalFeatures));
  }

  /** What one loop iteration makes of the dict. */
  function StepDict(out: map<string, Json>, f: string, kept: seq<Suggestion>): map<string, Json> {
    if kept != [] then out[f := JArray(AsJson(kept))] else out - {f}
  }

  /** The processed features of `done`, as `Edited` describes them. */
  predicate DoneEdited(llm: map<string, Json>, info: map<string, ColumnInfo>, done: set<string>, out: map<string, Json>)
    requires done <= info.Keys
  {
    forall f :: f in done ==>
      KeptOf(llm, info, f).Success?
      && (f in out <==> KeptOf(llm, info, f).value != [])
      && (f in out ==> out[f] == JArray(AsJson(KeptOf(llm, info, f).value)))
  }

  /** The untouched entries, as `Edited` describes them. */
  predicate RestKept(llm: map<string, Json>, done: set<string>, out: map<string, Json>) {
    (forall f :: f in llm && f !in done ==> f in out && out[f] == llm[f])
    && (forall f :: f in out && f !in done ==> f in llm)
  }

  /** One loop iteration: processing one more feature keeps the dict and the counter as specified. */
  lemma EditedStep(llm: map<string, Json>, info: map<string, ColumnInfo>, done: set<string>, f: string,
                   out: map<string, Json>)
    requires done <= info.Keys && f in info && f !in done
    requires Edited(llm, info, done, out)
    requires KeptOf(llm, info, f).Success?
    ensures var kept := KeptOf(llm, info, f).value;
      Edited(llm, info, done + {f}, StepDict(out, f, kept))
      && |StepDict(out, f, kept).Keys * (done + {f})| == |out.Keys * done| + (if kept != [] then 1 else 0)
  {
    var kept := KeptOf(llm, info, f).value;
    var next := StepDict(out, f, kept);
    assert DoneEdited(llm, info, done, out) && RestKept(llm, done, out);
    DoneStep(llm, info, done, f, out);
    RestStep(llm, done, f, out, kept);
    CountStep(done, f, out, kept);
  }

  lemma DoneStep(llm: map<string, Json>, info: map<string, ColumnInfo>, done: set<string>, f: string, out: map<string, Json>)
    requires done <= info.Keys && f in info && f !in done
    requires DoneEdited(llm, info, done, out)
    requires KeptOf(llm, info, f).Success?
    ensures DoneEdited(llm, info, done + {f}, StepDict(out, f, KeptOf(llm, info, f).value))
  {
  }

  lemma RestStep(llm: map<string, Json>, done: set<string>, f: string, out: map<string, Json>, kept: seq<Suggestion>)
    requires RestKept(llm, done, out)
    ensures RestKept(llm, done + {f}, StepDict(out, f, kept))
  {
  }

  lemma CountStep(done: set<string>, f: string, out: map<string, Json>, kept: seq<Suggestion>)
    requires f !in done
    ensures |StepDict(out, f, kept).Keys * (done + {f})| == |out.Keys * done| + (if kept != [] then 1 else 0)
  {
    var next := StepDict(out, f, kept);
    assert next.Keys == if kept != [] then out.Keys + {f} else out.Keys - {f};
    CardStep(out.Keys, done, f, kept != []);
  }

  /** Adding `f` to one side of an intersection, and to the other side or not. */
  lemma CardStep(a: set<string>, done: set<string>, f: string, add: bool)
    requires f !in done
    ensures |(if add then a + {f} else a - {f}) * (done + {f})| == |a * done| + (if add then 1 else 0)
  {
    var b := if add then a + {f} else a - {f};
    if add {
      assert b * (done + {f}) == (a * done) + {f};
    } else {
      assert b * (done + {f}) == a * done;
    }
  }

  lemma MoveFeature(done: set<string>, todo: set<string>, all: set<string>, f: string)
    requires done + todo == all && done !! todo && f in todo
    ensures (done + {f}) + (todo - {f}) == all && (done + {f}) !! (todo - {f})
  {
  }

  /** The specification determines the edited dict. */
  lemma EditedUnique(llm: map<string, Json>, info: map<string, ColumnInfo>, done: set<string>, a: map<string, Json>, b: map<string, Json>)
    requires done <= info.Keys && Edited(llm, info, done, a) && Edited(llm, info, done, b)
    ensures a == b
  {
    assert a.Keys == b.Keys;
  }

  /** Allowed suggestions pass the filter unchanged. */
  lemma {:induction false} FilterAllowedFixed(ss: seq<Suggestion>, allowed: seq<string>)
    requires forall s :: s in ss ==> "method" in s && Allowed(s, allowed)
    ensures FilterAllowed(AsJson(ss), allowed) == Success(ss)
  {
    if ss != [] {
      var items := AsJson(ss);
      assert ss[0] in ss;
      assert forall s :: s in ss[1..] ==> s in ss;
      FilterAllowedFixed(ss[1..], allowed);
      assert items[0] == JObject(ss[0]);
      assert items[1..] == AsJson(ss[1..]);
      assert "method" in ss[0] && Allowed(ss[0], allowed);
      assert FilterAllowed(items, allowed) == Success([ss[0]] + ss[1..]);
      assert [ss[0]] + ss[1..] == ss;
    }
  }

  /** The kept suggestions of one feature pass the filter again unchanged. */
  lemma KeptFixed(llm: map<string, Json>, info: map<string, ColumnInfo>, f: string)
    requires f in info && KeptOf(llm, info, f).Success?
    ensures var kept := KeptOf(llm, info, f).value;
      ValidFor(JArray(AsJson(kept)), info[f].allowedMethods) == Success(kept)
  {
    var kept := KeptOf(llm, info, f).value;
    match EntryOf(llm, f)
    case JArray(items) =>
      FilterAllowedSpec(items, info[f].allowedMethods);
      FilterAllowedFixed(kept, info[f].allowedMethods);
    case _ =>
  }

  /**
   * Filtering is idempotent: the edited suggestions are their own filtering
   * (so by `EditedUnique` a second pass returns them unchanged), with the
   * same suggestions kept for every feature.
   */
  lemma FilteredIdempotent(llm: map<string, Json>, info: map<string, ColumnInfo>, once: map<string, Json>)
    requires Edited(llm, info, info.Keys, once)
    ensures forall f :: f in info ==> KeptOf(once, info, f) == KeptOf(llm, info, f)
    ensures Edited(once, info, info.Keys, once)
  {
    forall f | f in info
      ensures KeptOf(once, info, f) == KeptOf(llm, info, f)
    {
      KeptFixed(llm, info, f);
    }
  }

  // ---------------------------------------------------------------------------
  // Method grid (lines 258-326)
  // ---------------------------------------------------------------------------

  const MethodNames: seq<string> := ["Min", "Max", "Sum", "Unique Count", "Mean", "Median", "Mode", "Last Value"]

  /** One grid cell: whether its checkbox can be ticked and whether it starts ticked. */
  datatype Cell = Cell(enabled: bool, checked: bool)

  /**
   * Lines 279-283 for one feature row: a cell is enabled iff its method is
   * allowed for the column, and pre-ticked iff the advisor suggested it.
   */
  method GridRow(allowed: seq<string>, suggested: seq<Json>) returns (row: map<string, Cell>)
    ensures row.Keys == set m | m in MethodNames
    ensures forall m :: m in row ==> row[m] == Cell(m in allowed, JString(m) in suggested)
  {
    row := map[];
    var i := 0;
    while i < |MethodNames|
      invariant 0 <= i <= |MethodNames|
      invariant row.Keys == set m | m in MethodNames[..i]
      invariant forall m :: m in row ==> row[m] == Cell(m in allowed, JString(m) in suggested)
    {
      var method_ := MethodNames[i];
      row := row[method_ := Cell(method_ in allowed, JString(method_) in suggested)];
      assert MethodNames[..i + 1] == MethodNames[..i] + [method_];
      i := i + 1;
    }
    assert MethodNames[..i] == MethodNames;
  }

  /** The methods selected in one row: the enabled, ticked cells, in grid order. */
  function Selected(names: seq<string>, row: map<string, Cell>, ticked: set<string>): seq<string>
    requires forall m :: m in names ==> m in row
  {
    if names == [] then []
    else
      var m := names[|names| - 1];
      Selected(names[..|names| - 1], row, ticked) + (if row[m].enabled && m in ticked then [m] else [])
  }

  /** A method is selected exactly when it is in the grid, enabled and ticked. */
  lemma {:induction false} SelectedSpec(names: seq<string>, row: map<string, Cell>, ticked: set<string>)
    requires forall m :: m in names ==> m in row
    ensures forall m :: m in Selected(names, row, ticked) <==> m in names && row[m].enabled && m in ticked
  {
    if names != [] {
      var init := names[..|names| - 1];
      SelectedSpec(init, row, ticked);
      assert names == init + [names[|names| - 1]];
    }
  }

  /** Lines 305-317: only an enabled checkbox can add its method. */
  method SelectedMethods(row: map<string, Cell>, ticked: set<string>) returns (selected: seq<string>)
    requires forall m :: m in MethodNames ==> m in row
    ensures selected == Selected(MethodNames, row, ticked)
  {
    selected := [];
    var i := 0;
    while i < |MethodNames|
      invariant 0 <= i <= |MethodNames|
      invariant selected == Selected(MethodNames[..i], row, ticked)
    {
      var method_ := MethodNames[i];
      if row[method_].enabled && method_ in ticked {
        selected := selected + [method_];
      }
      assert MethodNames[..i + 1][..i] == MethodNames[..i];
      i := i + 1;
    }
    assert MethodNames[..i] == MethodNames;
  }

  /**
   * Left as it starts (every pre-ticked box ticked, nothing else), a row
   * selects exactly the grid methods that are both allowed and suggested.
   */
  lemma UntouchedRowSelects(allowed: seq<string>, suggested: seq<Json>, row: map<string, Cell>)
    requires row.Keys == set m | m in MethodNames
    requires forall m :: m in row ==> row[m] == Cell(m in allowed, JString(m) in suggested)
    ensures var ticked := set m | m in row && row[m].checked;
      forall m :: m in Selected(MethodNames, row, ticked) <==> m in MethodNames && m in allowed && JString(m) in suggested
  {
    var ticked := set m | m in row && row[m].checked;
    SelectedSpec(MethodNames, row, ticked);
  }

  // ---------------------------------------------------------------------------
  // Method translation and defaults (lines 342-382)
  // ---------------------------------------------------------------------------

  /**
   * One selected method, lower-cased: a date column keeps only `min` and
   * `max`; otherwise `unique count` is `nunique`, `last value` is `last`,
   * `mode` the mode function, and the rest pass through.
   */
  function AppTranslated(method_: string, isDatetime: bool): (r: seq<AggFn>)
    ensures isDatetime ==> r == (if Lower(method_) == "min" || Lower(method_) == "max" then [Named(Lower(method_))] else [])
    ensures !isDatetime ==> |r| == 1
  {
    var m := Lower(method_);
    if isDatetime then (if m == "min" then [Named("min")] else if m == "max" then [Named("max")] else [])
    else if m == "unique count" then [Named("nunique")]
    else if m == "last value" then [Named("last")]
    else if m == "mode" then [ModeFn]
    else [Named(m)]
  }

  /** The functions of one column, built by appending. */
  function AppTranslateAll(methods: seq<string>, isDatetime: bool): (r: seq<AggFn>)
    ensures !isDatetime ==> |r| == |methods|
    ensures |r| <= |methods|
  {
    if methods == [] then []
    else AppTranslateAll(methods[..|methods| - 1], isDatetime) + AppTranslated(methods[|methods| - 1], isDatetime)
  }

  /** Lines 348-371. */
  method AppTranslateMethods(methods: seq<string>, isDatetime: bool) returns (out: seq<AggFn>)
    ensures out == AppTranslateAll(methods, isDatetime)
  {
    out := [];
    var i := 0;
    while i < |methods|
      invariant 0 <= i <= |methods|
      invariant out == AppTranslateAll(methods[..i], isDatetime)
    {
      var m := Lower(methods[i]);
      if isDatetime {
        if m == "min" {
          out := out + [Named("min")];
        } else if m == "max" {
          out := out + [Named("max")];
        }
      } else {
        if m == "unique count" {
          out := out + [Named("nunique")];
        } else if m == "last value" {
          out := out + [Named("last")];
        } else if m == "mode" {
          out := out + [ModeFn];
        } else {
          out := out + [Named(m)];
        }
      }
      assert methods[..i + 1][..i] == methods[..i];
      i := i + 1;
    }
    assert methods[..i] == methods;
  }

  /** Lines 375-382: exactly one default function per type class. */
  function DefaultMethods(dtypeCategory: string): (r: seq<AggFn>)
    ensures |r| == 1
    ensures r[0] == (if dtypeCategory == "DATETIME" then Named("max") else if dtypeCategory == "TEXT" then Named("last") else Named("mean"))
  {
    if dtypeCategory == "DATETIME" then [Named("max")]
    else if dtypeCategory == "TEXT" then [Named("last")]
    else [Named("mean")]
  }

  /** The final list of one feature: its translated selection, or the default when nothing is selected. */
  function FeatureMethods(selected: seq<string>, dtypeCategory: string): seq<AggFn> {
    if selected != [] then AppTranslateAll(selected, dtypeCategory == "DATETIME") else DefaultMethods(dtypeCategory)
  }

  function AppTranslations(selected: map<string, seq<string>>, dtypeCategory: map<string, string>, cs: set<string>): map<string, seq<AggFn>>
    requires cs <= selected.Keys && cs <= dtypeCategory.Keys
  {
    map c | c in cs :: FeatureMethods(selected[c], dtypeCategory[c])
  }

  /**
   * The loop of lines 342-382: every feature of the grid gets an entry, the
   * translation of its selection or its single default; a feature the
   * table lacks fails on `df[k]` with KeyError.
   */
  method AppFinalMethods(selected: map<string, seq<string>>, dtypeCategory: map<string, string>)
    returns (r: Result<map<string, seq<AggFn>>>)
    ensures r.Success? <==> selected.Keys <= dtypeCategory.Keys
    ensures r.Failure? ==> r.error.KeyError? && r.error.key in selected && r.error.key !in dtypeCategory
    ensures r.Success? ==>
      r.value.Keys == selected.Keys
      && forall c :: c in selected ==> r.value[c] == FeatureMethods(selected[c], dtypeCategory[c])
  {
    var final: map<string, seq<AggFn>> := map[];
    var done: set<string> := {};
    while done != selected.Keys
      invariant done <= selected.Keys && done <= dtypeCategory.Keys
      invariant final == AppTranslations(selected, dtypeCategory, done)
      decreases |selected.Keys - done|
    {
      var k :| k in selected.Keys - done;
      if k !in dtypeCategory {
        return Failure(KeyError(k));
      }
      var methods: seq<AggFn>;
      if selected[k] != [] {
        methods := AppTranslateMethods(selected[k], dtypeCategory[k] == "DATETIME");
      } else {
        methods := DefaultMethods(dtypeCategory[k]);
      }
      AppTranslationsAdd(selected, dtypeCategory, done, k);
      final := final[k := methods];
      done := done + {k};
    }
    r := Success(final);
  }

  lemma AppTranslationsAdd(selected: map<string, seq<string>>, dtypeCategory: map<string, string>, cs: set<string>, c: string)
    requires cs <= selected.Keys && cs <= dtypeCategory.Keys && c in selected && c in dtypeCategory
    ensures AppTranslations(selected, dtypeCategory, cs + {c})
      == AppTranslations(selected, dtypeCategory, cs)[c := FeatureMethods(selected[c], dtypeCategory[c])]
  {
  }

  /**
   * A feature always aggregates with something unless it is a date column
   * whose selection holds neither min nor max; a non-date feature has one
   * function per selected method, or its one default.
   */
  lemma FeatureMethodsCount(selected: seq<string>, dtypeCategory: string)
    ensures dtypeCategory != "DATETIME" ==>
      |FeatureMethods(selected, dtypeCategory)| == if selected == [] then 1 else |selected|
    ensures selected == [] ==> FeatureMethods(selected, dtypeCategory) == DefaultMethods(dtypeCategory)
  {
  }

  /**
   * On a method name that is already lower-case, the page's translation of
   * a non-date column agrees with the step-4 orchestrator's except for
   * `last value`, which only the page turns into `last`.
   */
  lemma AgreesWithOrchestrator(m: string)
    requires Lower(m) == m
    ensures AppTranslated(m, false) == (if m == "last value" then [Named("last")] else [Translated(m)])
  {
  }

  /** On a date column both keep only `min` and `max`. */
  lemma AgreesWithOrchestratorOnDates(m: string)
    requires Lower(m) == m
    ensures AppTranslated(m, true) == TranslateAll([m], true)
  {
    assert [m][..0] == [];
  }

  // ---------------------------------------------------------------------------
  // Confirmed-method display (lines 183-196)
  // ---------------------------------------------------------------------------

  /** How a confirmed function is shown: the mode function as `mode`, `nunique` as `unique count`. */
  function DisplayName(fn: AggFn): string {
    match fn
    case ModeFn => "mode"
    case Named(m) => if m == "nunique" then "unique count" else m
  }

  /**
   * The display undoes the translation of a non-date method (its lower-case
   * form is shown again) exactly when that method is neither `last value`
   * (shown as `last`) nor `nunique` (shown as `unique count`).
   */
  lemma DisplayInvertsTranslation(method_: string)
    ensures DisplayName(AppTranslated(method_, false)[0]) == Lower(method_)
      <==> Lower(method_) != "last value" && Lower(method_) != "nunique"
  {
  }
}
