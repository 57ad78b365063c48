/**
 * The aggregation step of orchestration/step4_data_aggregation.py: the
 * advisor's suggestions are checked against each column's allowed methods,
 * the operator's chosen method names are translated into what `agg` takes,
 * and the column labels `agg` produces are flattened into names.
 *
 * Column information (`DataTypeUtils.get_column_info`) and the dtype class of
 * each column (`DataTypeUtils.classify_dtype`) are inputs.
 */
module AggregationSteps {
  import opened Wrappers
  import opened JsonText
  import DataJoining

  /** What `get_column_info` reports for one feature; only the allowed methods are read. */
  datatype ColumnInfo = ColumnInfo(allowedMethods: seq<string>)

  /** One suggestion of the advisor: a JSON object such as `{"method": ..., "explanation": ...}`. */
  type Suggestion = map<string, Json>

  /** `s['method'] in allowed_methods`: the method is one of the allowed names. */
  predicate Allowed(s: Suggestion, allowed: seq<string>)
    requires "method" in s
  {
    s["method"].JString? && s["method"].s in allowed
  }

  /**
   * Lines 38-41 over a list of suggestions: the allowed ones in order; a
   * suggestion that is no object cannot be indexed (TypeError) and one
   * without a `method` entry raises KeyError, at the first such item.
   */
  function FilterAllowed(items: seq<Json>, allowed: seq<string>): (r: Result<seq<Suggestion>>)
    ensures r.Success? <==> forall i :: 0 <= i < |items| ==> items[i].JObject? && "method" in items[i].fields
    ensures r.Success? ==> |r.value| <= |items|
  {
    if items == [] then Success([])
    else if !items[0].JObject? then Failure(TypeError("indices must be integers"))
    else if "method" !in items[0].fields then Failure(KeyError("method"))
    else
      match FilterAllowed(items[1..], allowed)
      case Failure(e) => Failure(e)
      case Success(rest) =>
        var s := items[0].fields;
        Success((if Allowed(s, allowed) then [s] else []) + rest)
  }

  /**
   * The kept suggestions are exactly the allowed ones, each an item of the
   * list: a suggestion is kept if and only if its method is allowed.
   */
  lemma {:induction false} FilterAllowedSpec(items: seq<Json>, allowed: seq<string>)
    requires FilterAllowed(items, allowed).Success?
    ensures var kept := FilterAllowed(items, allowed).value;
      (forall s :: s in kept ==> JObject(s) in items && "method" in s && Allowed(s, allowed))
      && (forall i :: 0 <= i < |items| && Allowed(items[i].fields, allowed) ==> items[i].fields in kept)
  {
    if items != [] {
      FilterAllowedSpec(items[1..], allowed);
      var kept := FilterAllowed(items, allowed).value;
      forall i | 0 <= i < |items| && Allowed(items[i].fields, allowed)
        ensures items[i].fields in kept
      {
        if i > 0 {
          assert items[1..][i - 1] == items[i];
        }
      }
    }
  }

  /**
   * The suggestions of one feature: a JSON list is filtered; iterating an
   * empty string or empty object yields nothing; any other value is not a
   * list of dicts and raises TypeError.
   */
  function ValidFor(v: Json, allowed: seq<string>): Result<seq<Suggestion>> {
    match v
    case JArray(items) => FilterAllowed(items, allowed)
    case JObject(m) => if m == map[] then Success([]) else Failure(TypeError("indices must be integers"))
    case JString(s) => if s == [] then Success([]) else Failure(TypeError("indices must be integers"))
    case _ => Failure(TypeError("object is not iterable"))
  }

  /** The error one feature's entry raises: KeyError when it has no column information. */
  function FeatureResult(analysis: map<string, Json>, info: map<string, ColumnInfo>, f: string): Result<seq<Suggestion>>
    requires f in analysis
  {
    if f !in info then Failure(KeyError(f)) else ValidFor(analysis[f], info[f].allowedMethods)
  }

  /** The features whose entry is well-formed and keeps at least one suggestion, with what they keep. */
  function Processed(analysis: map<string, Json>, info: map<string, ColumnInfo>, fs: set<string>): map<string, seq<Suggestion>>
    requires fs <= analysis.Keys
  {
    map f | f in fs && FeatureResult(analysis, info, f).Success? && FeatureResult(analysis, info, f).value != []
      :: FeatureResult(analysis, info, f).value
  }

  /**
   * `_process_suggestions`: succeeds exactly when every feature has column
   * information and a well-formed list; then every feature keeping an
   * allowed suggestion maps to exactly those, and the others are dropped.
   * On failure the error is that of some feature (the first in dict order).
   */
  method ProcessSuggestions(analysis: map<string, Json>, info: map<string, ColumnInfo>) returns (r: Result<map<string, seq<Suggestion>>>)
    ensures r.Success? <==> forall f :: f in analysis ==> FeatureResult(analysis, info, f).Success?
    ensures r.Success? ==> r.value == Processed(analysis, info, analysis.Keys)
    ensures r.Failure? ==> exists f :: f in analysis && FeatureResult(analysis, info, f) == Failure(r.error)
  {
    var processed: map<string, seq<Suggestion>> := map[];
    var done: set<string> := {};
    while done != analysis.Keys
      invariant done <= analysis.Keys
      invariant forall f :: f in done ==> FeatureResult(analysis, info, f).Success?
      invariant processed == Processed(analysis, info, done)
      decreases |analysis.Keys - done|
    {
      var feature :| feature in analysis.Keys - done;
      if feature !in info {
        return Failure(KeyError(feature));
      }
      var valid := ValidFor(analysis[feature], info[feature].allowedMethods);
      if valid.Failure? {
        return Failure(valid.error);
      }
      ProcessedAdd(analysis, info, done, feature);
      if valid.value != [] {
        processed := processed[feature := valid.value];
      }
      done := done + {feature};
    }
    r := Success(processed);
  }

  lemma ProcessedAdd(analysis: map<string, Json>, info: map<string, ColumnInfo>, done: set<string>, f: string)
    requires done <= analysis.Keys && f in analysis && f !in done
    requires FeatureResult(analysis, info, f).Success?
    ensures var v := FeatureResult(analysis, info, f).value;
      Processed(analysis, info, done + {f})
      == if v != [] then Processed(analysis, info, done)[f := v] else Processed(analysis, info, done)
  {
  }

  /**
   * What the processed suggestions promise: only features of the analysis
   * appear, each with a non-empty list of allowed suggestions of its entry,
   * and every allowed suggestion of a listed feature is kept.
   */
  lemma ProcessedSpec(analysis: map<string, Json>, info: map<string, ColumnInfo>, f: string)
    requires forall g :: g in analysis ==> FeatureResult(analysis, info, g).Success?
    requires f in Processed(analysis, info, analysis.Keys)
    ensures f in analysis && f in info
    ensures var kept := Processed(analysis, info, analysis.Keys)[f];
      kept != [] && (forall s :: s in kept ==> "method" in s && Allowed(s, info[f].allowedMethods))
  {
    var kept := Processed(analysis, info, analysis.Keys)[f];
    var allowed := info[f].allowedMethods;
    match analysis[f]
    case JArray(items) =>
      FilterAllowedSpec(items, allowed);
    case _ =>
  }

  // ---------------------------------------------------------------------------
  // Method translation (lines 51-70)
  // ---------------------------------------------------------------------------

  /** What `agg` is given for one method: a function name, or the mode function (whose `__name__` is `mode`). */
  datatype AggFn = Named(name: string) | ModeFn

  /** A non-date column: `unique count` is `nunique`, `mode` the mode function, anything else passes through. */
  function Translated(m: string): AggFn {
    if m == "unique count" then Named("nunique")
    else if m == "mode" then ModeFn
    else Named(m)
  }

  /** The functions of one column, built by appending: a date column keeps only `min` and `max`. */
  function TranslateAll(methods: seq<string>, isDatetime: bool): seq<AggFn> {
    if methods == [] then []
    else
      var m := methods[|methods| - 1];
      TranslateAll(methods[..|methods| - 1], isDatetime)
      + (if isDatetime then (if m == "min" || m == "max" then [Named(m)] else []) else [Translated(m)])
  }

  /** The date methods kept, in order. */
  function MinMaxOnly(methods: seq<string>): (r: seq<string>)
    ensures forall m :: m in r <==> m in methods && (m == "min" || m == "max")
  {
    if methods == [] then []
    else
      var m := methods[|methods| - 1];
      MinMaxOnly(methods[..|methods| - 1]) + (if m == "min" || m == "max" then [m] else [])
  }

  /**
   * For a date column the functions are exactly its `min` and `max`
   * selections in order; for any other column there is one function per
   * method, in order, each the translation of that method.
   */
  lemma {:induction false} TranslateAllSpec(methods: seq<string>, isDatetime: bool)
    ensures isDatetime ==>
      var ms := MinMaxOnly(methods);
      var out := TranslateAll(methods, isDatetime);
      |out| == |ms| && forall i :: 0 <= i < |ms| ==> out[i] == Named(ms[i])
    ensures !isDatetime ==>
      var out := TranslateAll(methods, isDatetime);
      |out| == |methods| && forall i :: 0 <= i < |methods| ==> out[i] == Translated(methods[i])
  {
    if methods != [] {
      var init := methods[..|methods| - 1];
      TranslateAllSpec(init, isDatetime);
      assert forall i :: 0 <= i < |init| ==> methods[i] == init[i];
    }
  }

  /** The inner loop of lines 55-68. */
  method TranslateMethods(methods: seq<string>, isDatetime: bool) returns (processed: seq<AggFn>)
    ensures processed == TranslateAll(methods, isDatetime)
  {
    processed := [];
    var i := 0;
    while i < |methods|
      invariant 0 <= i <= |methods|
      invariant processed == TranslateAll(methods[..i], isDatetime)
    {
      var method_ := methods[i];
      if isDatetime {
        if method_ == "min" || method_ == "max" {
          processed := processed + [Named(method_)];
        }
      } else {
        if method_ == "unique count" {
          processed := processed + [Named("nunique")];
        } else if method_ == "mode" {
          processed := processed + [ModeFn];
        } else {
          processed := processed + [Named(method_)];
        }
      }
      assert methods[..i + 1][..i] == methods[..i];
      i := i + 1;
    }
    assert methods[..i] == methods;
  }

  /** The translated lists of the columns in `cs`. */
  function Translations(selected: map<string, seq<string>>, dtypeCategory: map<string, string>, cs: set<string>): map<string, seq<AggFn>>
    requires cs <= selected.Keys && cs <= dtypeCategory.Keys
  {
    map c | c in cs :: TranslateAll(selected[c], dtypeCategory[c] == "DATETIME")
  }

  lemma TranslationsAdd(selected: map<string, seq<string>>, dtypeCategory: map<string, string>, cs: set<string>, c: string)
    requires cs <= selected.Keys && cs <= dtypeCategory.Keys && c in selected && c in dtypeCategory
    ensures Translations(selected, dtypeCategory, cs + {c})
      == Translations(selected, dtypeCategory, cs)[c := TranslateAll(selected[c], dtypeCategory[c] == "DATETIME")]
  {
  }

  /**
   * The outer loop of lines 51-70: `df[col]` raises KeyError for a selected
   * column the table lacks (`dtypeCategory` holds the classification of the
   * table's columns); otherwise every selected column gets its translated
   * list, even an empty one.
   */
  method FinalMethods(selected: map<string, seq<string>>, dtypeCategory: map<string, string>)
    returns (r: Result<map<string, seq<AggFn>>>)
    ensures r.Success? <==> selected.Keys <= dtypeCategory.Keys
    ensures r.Failure? ==> r.error.KeyError? && r.error.key in selected && r.error.key !in dtypeCategory
    ensures r.Success? ==>
      r.value.Keys == selected.Keys
      && forall c :: c in selected ==> r.value[c] == TranslateAll(selected[c], dtypeCategory[c] == "DATETIME")
  {
    var final: map<string, seq<AggFn>> := map[];
    var done: set<string> := {};
    while done != selected.Keys
      invariant done <= selected.Keys && done <= dtypeCategory.Keys
      invariant final == Translations(selected, dtypeCategory, done)
      decreases |selected.Keys - done|
    {
      var col :| col in selected.Keys - done;
      if col !in dtypeCategory {
        return Failure(KeyError(col));
      }
      var processed := TranslateMethods(selected[col], dtypeCategory[col] == "DATETIME");
      TranslationsAdd(selected, dtypeCategory, done, col);
      final := final[col := processed];
      done := done + {col};
    }
    r := Success(final);
  }

  // ---------------------------------------------------------------------------
  // Column names after aggregation (lines 82-97)
  // ---------------------------------------------------------------------------

  /**
   * A column label of the aggregated frame: a plain name, or the pair
   * `(column, function)` of a multi-level label. The group-by keys of
   * `groupby(..., as_index=False).agg({...: [...]})` carry the pair
   * `(key, '')`.
   */
  datatype ColumnLabel = Plain(name: string) | Pair(column: string, fn: AggFn)

  /** The label of a group-by key in the aggregated frame. */
  function KeyLabel(key: string): ColumnLabel {
    Pair(key, Named(""))
  }

  /** The method part of a flattened name. */
  function MethodName(fn: AggFn): string {
    match fn
    case ModeFn => "mode"
    case Named(m) => if m == "nunique" then "unique_count" else m
  }

  /**
   * The flattened name of one label: a pair becomes `column_method` (a pair
   * is never in the list of mapping names, which holds strings); a plain
   * name stays, whether it is a mapping column or not.
   */
  function CleanName(col: ColumnLabel): string {
    match col
    case Plain(n) => n
    case Pair(c, fn) => c + "_" + MethodName(fn)
  }

  /** `_clean_column_names`: one name per label, in place. */
  method CleanColumnNames(columns: seq<ColumnLabel>, mappingColumns: seq<string>) returns (names: seq<string>)
    ensures |names| == |columns|
    ensures forall i :: 0 <= i < |columns| ==> names[i] == CleanName(columns[i])
  {
    names := [];
    var i := 0;
    while i < |columns|
      invariant 0 <= i <= |columns|
      invariant |names| == i
      invariant forall k :: 0 <= k < i ==> names[k] == CleanName(columns[k])
    {
      var col := columns[i];
      if col.Plain? && col.name in mappingColumns {
        names := names + [col.name];
      } else if col.Pair? {
        var methodName := if col.fn.ModeFn? then "mode" else if col.fn.name == "nunique" then "unique_count" else col.fn.name;
        names := names + [col.column + "_" + methodName];
      } else {
        names := names + [col.name];
      }
      i := i + 1;
    }
  }

  /**
   * What the flattening does to the labels `agg` produces: a group-by key
   * comes out with a trailing underscore, `nunique` reads `unique_count`,
   * the mode function `mode`, and any other function its own name.
   */
  lemma FlattenedNames(key: string, column: string, m: string)
    ensures CleanName(KeyLabel(key)) == key + "_"
    ensures CleanName(Pair(column, Named("nunique"))) == column + "_unique_count"
    ensures CleanName(Pair(column, ModeFn)) == column + "_mode"
    ensures m != "nunique" ==> CleanName(Pair(column, Named(m))) == column + "_" + m
  {
  }

  /** The joining engine's standardiser turns a flattened key column back into its canonical name. */
  lemma KeyNameRestored(key: string)
    requires key in DataJoining.TargetNames()
    ensures DataJoining.Canonical(CleanName(KeyLabel(key))) == key
  {
    DataJoining.MappingShape();
    var p :| p in DataJoining.ColumnMapping && p.1 == key;
    var name := CleanName(KeyLabel(key));
    assert name == p.0;
    assert p.0 in DataJoining.VariantNames();
    assert name[..|name| - 1] == key;
  }
}
