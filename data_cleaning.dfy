/**
 * The cleaning step of orchestration/step3_data_cleaning.py: every
 * suggestion of the cleaning advisor is tried once, in order, against the
 * table built so far, and the summary counts and history record what
 * happened. `clean_data` does this for the billing, usage and support
 * tables.
 *
 * The LLM's reply for each category and the code generation and execution
 * of one suggestion are parameters.
 */
module DataCleaning {
  import opened Wrappers
  import opened Tables
  import opened Cleaning
  import CleanSuggestions

  /** `cleaning_summary`. */
  datatype Summary = Summary(totalSuggestions: nat, applied: nat, failed: nat, skipped: nat, history: seq<Entry>)

  /** The cleaned table and the history after trying the suggestions in order. */
  function Run(df: Table, suggestions: seq<string>, apply: Applier): (Table, seq<Entry>) {
    if suggestions == [] then (df, [])
    else
      var (t, h) := Run(df, suggestions[..|suggestions| - 1], apply);
      var s := suggestions[|suggestions| - 1];
      (After(t, apply(t, s)), h + [Attempt(s, apply(t, s))])
  }

  /**
   * One history entry per suggestion, in order, each applied or failed, so
   * no suggestion is skipped and the applied and failed counts add up to the
   * number of suggestions.
   */
  lemma {:induction false} RunHistory(df: Table, suggestions: seq<string>, apply: Applier)
    ensures var h := Run(df, suggestions, apply).1;
      |h| == |suggestions|
      && (forall i :: 0 <= i < |h| ==> h[i].content == suggestions[i] && h[i].status != Skipped)
      && Count(h, Skipped) == 0
      && Count(h, Applied) + Count(h, Failed) == |suggestions|
  {
    var h := Run(df, suggestions, apply).1;
    if suggestions != [] {
      var init := suggestions[..|suggestions| - 1];
      RunHistory(df, init, apply);
      var prev := Run(df, init, apply);
      var e := Attempt(suggestions[|suggestions| - 1], apply(prev.0, suggestions[|suggestions| - 1]));
      assert h == prev.1 + [e];
      CountSnoc(prev.1, e, Skipped);
    }
    CountTotal(h);
  }

  /** The table is replaced only by a successful suggestion: when none succeeds it is the input, unchanged. */
  lemma {:induction false} RunUnchanged(df: Table, suggestions: seq<string>, apply: Applier)
    requires Count(Run(df, suggestions, apply).1, Applied) == 0
    ensures Run(df, suggestions, apply).0 == df
  {
    if suggestions != [] {
      var init := suggestions[..|suggestions| - 1];
      var prev := Run(df, init, apply);
      var s := suggestions[|suggestions| - 1];
      CountSnoc(prev.1, Attempt(s, apply(prev.0, s)), Applied);
      RunUnchanged(df, init, apply);
    }
  }

  /** The summary `process_table` returns for the suggestions. */
  function SummaryOf(df: Table, suggestions: seq<string>, apply: Applier): Summary {
    var h := Run(df, suggestions, apply).1;
    Summary(|suggestions|, Count(h, Applied), Count(h, Failed), 0, h)
  }

  /**
   * Lines 18-57: the summary starts from the suggestion count and zero
   * counters; each suggestion raises `applied` or `failed` by one and
   * appends its entry; the table moves on only when both code generation
   * and execution succeed.
   */
  method ApplySuggestions(df: Table, suggestions: seq<string>, apply: Applier) returns (cleaned: Table, summary: Summary)
    ensures cleaned == Run(df, suggestions, apply).0
    ensures summary == SummaryOf(df, suggestions, apply)
    ensures summary.applied + summary.failed == summary.totalSuggestions == |summary.history| && summary.skipped == 0
  {
    summary := Summary(|suggestions|, 0, 0, 0, []);
    cleaned := df;
    var i := 0;
    while i < |suggestions|
      invariant 0 <= i <= |suggestions|
      invariant (cleaned, summary.history) == Run(df, suggestions[..i], apply)
      invariant summary.totalSuggestions == |suggestions| && summary.skipped == 0
      invariant summary.applied == Count(summary.history, Applied) && summary.failed == Count(summary.history, Failed)
    {
      var suggestion := suggestions[i];
      assert suggestions[..i + 1][..i] == suggestions[..i];
      var history := summary.history;
      match apply(cleaned, suggestion) {
        case Done(t) =>
          cleaned := t;
          CountSnoc(history, Entry(suggestion, Applied, AppliedMessage), Applied);
          CountSnoc(history, Entry(suggestion, Applied, AppliedMessage), Failed);
          summary := summary.(applied := summary.applied + 1, history := history + [Entry(suggestion, Applied, AppliedMessage)]);
        case Raised(m) =>
          CountSnoc(history, Entry(suggestion, Failed, m), Applied);
          CountSnoc(history, Entry(suggestion, Failed, m), Failed);
          summary := summary.(failed := summary.failed + 1, history := history + [Entry(suggestion, Failed, m)]);
      }
      i := i + 1;
    }
    assert suggestions[..i] == suggestions;
    RunHistory(df, suggestions, apply);
  }

  /**
   * `process_table`: the advisor's failure (no table, or no reply)
   * propagates; otherwise its suggestions are tried on a copy of the table.
   */
  function TableOutcome(df: Option<Table>, content: Option<string>, apply: Applier): Result<(Table, Summary)> {
    var data := if df.Some? then CleanSuggestions.Frame(df.value) else CleanSuggestions.NotFrame;
    match CleanSuggestions.ExecuteTask(data, content)
    case Failure(e) => Failure(e)
    case Success(suggestions) =>
      Success((Run(df.value, suggestions, apply).0, SummaryOf(df.value, suggestions, apply)))
  }

  /**
   * A missing table fails with the advisor's ValueError; with a table and a
   * reply the summary is balanced, lists one entry per suggestion of the
   * reply, and the table is kept when nothing applied.
   */
  lemma TableOutcomeSpec(df: Option<Table>, content: Option<string>, apply: Applier)
    ensures df.None? ==> TableOutcome(df, content, apply) == Failure(ValueError("Task data must be a pandas DataFrame"))
    ensures TableOutcome(df, content, apply).Success? <==> df.Some? && content.Some?
    ensures TableOutcome(df, content, apply).Success? ==>
      var (t, s) := TableOutcome(df, content, apply).value;
      var suggestions := CleanSuggestions.Suggestions(content.value);
      s.totalSuggestions == |suggestions| == |s.history|
      && s.applied + s.failed == s.totalSuggestions && s.skipped == 0
      && (forall i :: 0 <= i < |s.history| ==> s.history[i].content == suggestions[i])
      && (s.applied == 0 ==> t == df.value)
  {
    if df.Some? && content.Some? {
      var suggestions := CleanSuggestions.Suggestions(content.value);
      RunHistory(df.value, suggestions, apply);
      if Count(Run(df.value, suggestions, apply).1, Applied) == 0 {
        RunUnchanged(df.value, suggestions, apply);
      }
    }
  }

  /** Lines 12-59. */
  method ProcessTable(df: Option<Table>, content: Option<string>, apply: Applier) returns (r: Result<(Table, Summary)>)
    ensures r == TableOutcome(df, content, apply)
  {
    var data := if df.Some? then CleanSuggestions.Frame(df.value) else CleanSuggestions.NotFrame;
    var suggestions := CleanSuggestions.ExecuteTask(data, content);
    if suggestions.Failure? {
      return Failure(suggestions.error);
    }
    var cleaned, summary := ApplySuggestions(df.value, suggestions.value, apply);
    r := Success((cleaned, summary));
  }

  /** What `clean_data` returns: the three cleaned tables and the summary of each category. */
  datatype Cleaned = Cleaned(billing: Table, usage: Table, support: Table, results: map<string, Summary>)

  const CleaningOrder: seq<string> := ["billing", "usage", "support"]

  /**
   * The outcomes of processing the inputs in order: the first failure
   * propagates, and otherwise there is one outcome per input.
   */
  function Outcomes<A, O>(inputs: seq<A>, step: A -> Result<O>): Result<seq<O>> {
    if inputs == [] then Success([])
    else
      var n := |inputs| - 1;
      match Outcomes(inputs[..n], step)
      case Failure(e) => Failure(e)
      case Success(outs) =>
        match step(inputs[n])
        case Failure(e) => Failure(e)
        case Success(o) => Success(outs + [o])
  }

  /**
   * Processing succeeds exactly when every input does, and then holds each
   * input's outcome at its position; a failure is the failure of some input
   * all of whose predecessors succeeded.
   */
  lemma {:induction false} OutcomesSpec<A, O>(inputs: seq<A>, step: A -> Result<O>)
    ensures var r := Outcomes(inputs, step);
      (r.Success? <==> forall j :: 0 <= j < |inputs| ==> step(inputs[j]).Success?)
      && (r.Success? ==> |r.value| == |inputs| && forall j :: 0 <= j < |inputs| ==> step(inputs[j]) == Success(r.value[j]))
      && (r.Failure? ==> exists j :: 0 <= j < |inputs| && step(inputs[j]) == Failure(r.error) && forall k :: 0 <= k < j ==> step(inputs[k]).Success?)
  {
    if inputs != [] {
      var n := |inputs| - 1;
      OutcomesSpec(inputs[..n], step);
      assert forall j :: 0 <= j < n ==> inputs[..n][j] == inputs[j];
    }
  }

  /** A prefix that fails makes the whole run fail with the same error: later inputs are not processed. */
  lemma {:induction false} OutcomesFailed<A, O>(inputs: seq<A>, step: A -> Result<O>, i: nat)
    requires i <= |inputs| && Outcomes(inputs[..i], step).Failure?
    ensures Outcomes(inputs, step) == Outcomes(inputs[..i], step)
    decreases |inputs|
  {
    if i < |inputs| {
      var n := |inputs| - 1;
      assert inputs[..n][..i] == inputs[..i];
      OutcomesFailed(inputs[..n], step, i);
    } else {
      assert inputs[..i] == inputs;
    }
  }

  /** The tables `clean_data` processes, each with its category. */
  function CleaningInputs(billing: Option<Table>, usage: Option<Table>, support: Option<Table>): seq<(Option<Table>, string)> {
    [(billing, "billing"), (usage, "usage"), (support, "support")]
  }

  /** `process_table` on one table and its category. */
  function CleaningStep(reply: string -> Option<string>, apply: Applier): ((Option<Table>, string)) -> Result<(Table, Summary)> {
    (p: (Option<Table>, string)) => TableOutcome(p.0, reply(p.1), apply)
  }

  /** Lines 75-97: `process_table` on each table in turn, stopping at the first that raises. */
  method ProcessInOrder(inputs: seq<(Option<Table>, string)>, reply: string -> Option<string>, apply: Applier)
    returns (r: Result<seq<(Table, Summary)>>)
    ensures r == Outcomes(inputs, CleaningStep(reply, apply))
    ensures r.Success? ==> |r.value| == |inputs|
  {
    var outs: seq<(Table, Summary)> := [];
    var i := 0;
    while i < |inputs|
      invariant 0 <= i <= |inputs|
      invariant Outcomes(inputs[..i], CleaningStep(reply, apply)) == Success(outs) && |outs| == i
    {
      var (table, category) := inputs[i];
      var outcome := ProcessTable(table, reply(category), apply);
      assert inputs[..i + 1][..i] == inputs[..i];
      if outcome.Failure? {
        OutcomesFailed(inputs, CleaningStep(reply, apply), i + 1);
        return Failure(outcome.error);
      }
      outs := outs + [outcome.value];
      i := i + 1;
    }
    assert inputs[..i] == inputs;
    r := Success(outs);
  }

  /**
   * Lines 61-105: the categories are processed in the order billing, usage,
   * support; the outcome is that of `Outcomes` over the three tables, with
   * the tables and summaries keyed by category.
   */
  method CleanData(billing: Option<Table>, usage: Option<Table>, support: Option<Table>,
                   reply: string -> Option<string>, apply: Applier) returns (r: Result<Cleaned>)
    ensures var o := Outcomes(CleaningInputs(billing, usage, support), CleaningStep(reply, apply));
      (r.Failure? <==> o.Failure?)
      && (r.Failure? ==> r.error == o.error)
      && (r.Success? ==>
            r.value.results.Keys == {"billing", "usage", "support"}
            && |o.value| == 3
            && o.value[0] == (r.value.billing, r.value.results["billing"])
            && o.value[1] == (r.value.usage, r.value.results["usage"])
            && o.value[2] == (r.value.support, r.value.results["support"]))
  {
    var outcomes := ProcessInOrder(CleaningInputs(billing, usage, support), reply, apply);
    if outcomes.Failure? {
      return Failure(outcomes.error);
    }
    var outs := outcomes.value;
    var results := map["billing" := outs[0].1, "usage" := outs[1].1, "support" := outs[2].1];
    r := Success(Cleaned(outs[0].0, outs[1].0, outs[2].0, results));
  }

  /**
   * `clean_data` fails exactly when processing some category fails, and
   * then with the error of the first such category; on success every
   * category's summary is balanced.
   */
  lemma CleanDataSpec(billing: Option<Table>, usage: Option<Table>, support: Option<Table>,
                      reply: string -> Option<string>, apply: Applier)
    ensures var inputs := CleaningInputs(billing, usage, support);
      var o := Outcomes(inputs, CleaningStep(reply, apply));
      (o.Success? <==> billing.Some? && usage.Some? && support.Some?
                       && reply("billing").Some? && reply("usage").Some? && reply("support").Some?)
      && (billing.None? ==> o == Failure(ValueError("Task data must be a pandas DataFrame")))
      && (o.Success? ==> |o.value| == 3 && forall j :: 0 <= j < 3 ==>
            o.value[j].1.applied + o.value[j].1.failed == o.value[j].1.totalSuggestions && o.value[j].1.skipped == 0)
  {
    var inputs := CleaningInputs(billing, usage, support);
    var step := CleaningStep(reply, apply);
    OutcomesSpec(inputs, step);
    forall j | 0 <= j < 3
      ensures step(inputs[j]).Success? <==> inputs[j].0.Some? && reply(inputs[j].1).Some?
      ensures step(inputs[j]).Success? ==> step(inputs[j]).value.1.applied + step(inputs[j]).value.1.failed == step(inputs[j]).value.1.totalSuggestions
      ensures inputs[j].0.None? ==> step(inputs[j]) == Failure(ValueError("Task data must be a pandas DataFrame"))
    {
      TableOutcomeSpec(inputs[j].0, reply(inputs[j].1), apply);
    }
    if billing.None? {
      assert inputs[..1] == [inputs[0]];
      assert Outcomes(inputs[..1], step) == Failure(ValueError("Task data must be a pandas DataFrame")) by {
        assert inputs[..1][..0] == [];
      }
      OutcomesFailed(inputs, step, 1);
    }
  }
}
