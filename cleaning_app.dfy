/**
 * The interactive cleaning review of
 * individual_agent_files_for_ref/cleaning_app.py: the session holds the
 * table, the advisor's suggestions, the set of processed suggestion
 * indices, the history and the current index. The user either reviews
 * the suggestions one by one (apply or skip the current one, or switch to
 * applying the rest) or applies them all in one batch.
 *
 * Each rerun of the script is one method call; what is only displayed
 * (progress bars, the overview, messages) is not modelled.
 */
module CleaningApp {
  import opened Tables
  import opened Cleaning
  import DataCleaning

  /** `application_mode`: None, 'individual' or 'batch'. */
  datatype Mode = NoMode | Individual | Batch

  class Review {
    var df: Table
    const suggestions: seq<string>
    var applied: set<nat>
    var history: seq<Entry>
    var index: nat
    var mode: Mode

    /**
     * Suggestions are processed in order, each exactly once and each with
     * one history entry, so the processed indices are those below the
     * history's length. One by one, the current index is the next
     * unprocessed suggestion; a batch leaves the index where it was.
     */
    predicate Valid()
      reads this
    {
      index <= |history| <= |suggestions|
      && ProcessedBelow(|history|)
      && (forall j :: 0 <= j < |history| ==> history[j].content == suggestions[j])
      && (mode != Batch ==> index == |history|)
    }

    /** The processed indices are exactly those below `n`. */
    predicate ProcessedBelow(n: nat)
      reads this
    {
      (forall i :: i in applied ==> i < n) && (forall i: nat :: i < n ==> i in applied)
    }

    /** Lines 62-66: fresh session state once the suggestions are generated. */
    constructor (table: Table, generated: seq<string>)
      ensures df == table && suggestions == generated
      ensures applied == {} && history == [] && index == 0 && mode == NoMode
      ensures Valid()
    {
      df := table;
      suggestions := generated;
      applied := {};
      history := [];
      index := 0;
      mode := NoMode;
    }

    /** Line 72: the review is shown only when there are suggestions. */
    predicate Active()
      reads this
    {
      suggestions != []
    }

    /** Lines 82-92: the two buttons shown while no mode is chosen. */
    method ChooseMode(chosen: Mode)
      requires Valid() && Active() && mode == NoMode && chosen != NoMode
      modifies this
      ensures mode == chosen
      ensures df == old(df) && applied == old(applied) && history == old(history) && index == old(index)
      ensures Valid()
    {
      mode := chosen;
    }

    /**
     * Lines 124-159: the current suggestion is tried on the table; success
     * replaces the table, and either way the suggestion is processed, its
     * entry appended and the index moved on.
     */
    method ApplyCurrent(apply: Applier)
      requires Valid() && mode == Individual && index < |suggestions|
      modifies this
      ensures var outcome := apply(old(df), suggestions[old(index)]);
        df == After(old(df), outcome)
        && history == old(history) + [Attempt(suggestions[old(index)], outcome)]
        && applied == old(applied) + {old(index)}
        && index == old(index) + 1 && mode == old(mode)
      ensures Valid()
    {
      var current := suggestions[index];
      var outcome := apply(df, current);
      df := After(df, outcome);
      applied := applied + {index};
      history := history + [Attempt(current, outcome)];
      index := index + 1;
    }

    /** Lines 162-171: the current suggestion is recorded as skipped and the table is kept. */
    method Skip()
      requires Valid() && mode == Individual && index < |suggestions|
      modifies this
      ensures history == old(history) + [Entry(suggestions[old(index)], Skipped, SkippedMessage)]
      ensures applied == old(applied) + {old(index)}
      ensures index == old(index) + 1 && df == old(df) && mode == old(mode)
      ensures Valid()
    {
      applied := applied + {index};
      history := history + [Entry(suggestions[index], Skipped, SkippedMessage)];
      index := index + 1;
    }

    /** Line 174: `total_suggestions - (applied_count + 1)`. */
    function Remaining(): int
      reads this
    {
      |suggestions| - (|applied| + 1)
    }

    /** Lines 173-177: the rest is handed to the batch, which leaves what is already processed alone. */
    method ApplyRemaining()
      requires Valid() && mode == Individual && index < |suggestions| && Remaining() > 0
      modifies this
      ensures mode == Batch
      ensures df == old(df) && applied == old(applied) && history == old(history) && index == old(index)
      ensures Valid()
    {
      mode := Batch;
    }

    /**
     * Lines 194-224: every suggestion not yet processed is tried, in order,
     * on the table built so far; the index is not touched. From a valid
     * state the unprocessed suggestions are exactly those from the
     * history's length on, so the batch does what the orchestrated
     * cleaning step does on them, and afterwards every suggestion is
     * processed.
     */
    method RunBatch(apply: Applier)
      requires Valid() && mode == Batch
      modifies this
      ensures var run := DataCleaning.Run(old(df), suggestions[|old(history)|..], apply);
        df == run.0 && history == old(history) + run.1
      ensures ProcessedBelow(|suggestions|) && |history| == |suggestions|
      ensures index == old(index) && mode == old(mode)
      ensures Valid()
    {
      ghost var start := |history|;
      ghost var df0, history0 := df, history;
      var i := 0;
      while i < |suggestions|
        invariant 0 <= i <= |suggestions| && index == old(index) && mode == Batch
        invariant Batched(apply, start, df0, history0, if i < start then start else i)
        invariant Valid()
      {
        if i !in applied {
          BatchStep(i, apply, start, df0, history0);
        }
        i := i + 1;
      }
      assert suggestions[start..] == suggestions[start..|suggestions|];
    }

    /**
     * The batch has processed the suggestions from `start` up to `done`
     * on top of the table `df0` and the history `history0` it began with.
     */
    ghost predicate Batched(apply: Applier, start: nat, df0: Table, history0: seq<Entry>, done: nat)
      reads this
    {
      start <= done <= |suggestions|
      && var run := DataCleaning.Run(df0, suggestions[start..done], apply);
      df == run.0 && history == history0 + run.1
      && ProcessedBelow(done) && |history| == done
    }

    /** One pass of the batch loop over an unprocessed index. */
    method BatchStep(i: nat, apply: Applier, ghost start: nat, ghost df0: Table, ghost history0: seq<Entry>)
      requires Valid() && mode == Batch && start <= i < |suggestions| && i !in applied
      requires Batched(apply, start, df0, history0, i)
      modifies this
      ensures Batched(apply, start, df0, history0, i + 1)
      ensures index == old(index) && mode == old(mode)
      ensures Valid()
    {
      assert suggestions[start..i + 1][..i - start] == suggestions[start..i];
      var outcome := apply(df, suggestions[i]);
      df := After(df, outcome);
      applied := applied + {i};
      history := history + [Attempt(suggestions[i], outcome)];
    }

    /** Line 240: the summary is shown once every suggestion is processed. */
    predicate Complete()
      reads this
    {
      |applied| == |suggestions|
    }

    /** Lines 242-245: the summary counts. */
    function Counts(): (r: (nat, nat, nat))
      reads this
    {
      (Count(history, Applied), Count(history, Failed), Count(history, Skipped))
    }

    /**
     * Under the invariant, the review is complete exactly when the history
     * covers every suggestion, and then the three counts add up to the
     * number of suggestions.
     */
    lemma CompleteSpec()
      requires Valid()
      ensures Complete() <==> |history| == |suggestions|
      ensures Complete() ==> Counts().0 + Counts().1 + Counts().2 == |suggestions|
    {
      CardBelow(applied, |history|);
      CountTotal(history);
    }

    /**
     * One by one, the "Apply Remaining" button is offered exactly when some
     * suggestion comes after the current one, and the review is complete
     * exactly when the index has passed the last suggestion.
     */
    lemma IndividualSpec()
      requires Valid() && mode == Individual
      ensures index < |suggestions| ==> (Remaining() > 0 <==> index + 1 < |suggestions|)
      ensures Complete() <==> index == |suggestions|
    {
      CardBelow(applied, |history|);
    }
  }

  /** The naturals below `n` are `n` many. */
  lemma {:induction false} CardBelow(s: set<nat>, n: nat)
    requires forall i :: i in s ==> i < n
    requires forall i: nat :: i < n ==> i in s
    ensures |s| == n
  {
    if n > 0 {
      CardBelow(s - {n - 1}, n - 1);
    } else {
      assert s == {};
    }
  }

  /** Choosing the batch straight away cleans the table exactly as the orchestrated cleaning step does. */
  method BatchFromStart(table: Table, generated: seq<string>, apply: Applier) returns (review: Review)
    requires generated != []
    ensures var run := DataCleaning.Run(table, generated, apply);
      review.df == run.0 && review.history == run.1 && review.Complete()
  {
    review := new Review(table, generated);
    review.ChooseMode(Batch);
    review.RunBatch(apply);
    assert generated[0..] == generated;
    review.CompleteSpec();
  }

  /** A second batch pass finds nothing left to do. */
  method BatchTwice(review: Review, apply: Applier)
    requires review.Valid() && review.mode == Batch
    modifies review
    ensures review.history == old(review.history) + DataCleaning.Run(old(review.df), review.suggestions[|old(review.history)|..], apply).1
  {
    review.RunBatch(apply);
    ghost var df1, history1 := review.df, review.history;
    review.RunBatch(apply);
    assert review.suggestions[|history1|..] == [];
    assert review.df == df1 && review.history == history1;
  }
}
