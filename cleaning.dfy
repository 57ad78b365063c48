/**
 * What the two cleaning front ends share: the history entry written for
 * each suggestion, the outcome of generating and running the code of one
 * suggestion, and the summary counts over a history.
 *
 * Code generation and execution (`SFNFeatureCodeGeneratorAgent`,
 * `SFNCodeExecutorAgent`) are not part of this model: their combined effect
 * on one suggestion is an `Applier` parameter.
 */
module Cleaning {
  import opened Tables

  /** The `status` of a history entry. */
  datatype Status = Applied | Failed | Skipped

  /** One history entry: `{'type': 'suggestion', 'content': ..., 'status': ..., 'message': ...}`. */
  datatype Entry = Entry(content: string, status: Status, message: string)

  /**
   * Generating and executing the code of one suggestion either yields the
   * new table or raises; `message` is `str(e)` of what was raised.
   */
  datatype Outcome = Done(table: Table) | Raised(message: string)

  /**
   * Code generation followed by execution, on the current table and one
   * suggestion. A function: the same suggestion on the same table always
   * meets the same outcome, which a fresh LLM call need not give.
   */
  type Applier = (Table, string) -> Outcome

  const AppliedMessage: string := "Successfully applied"
  const SkippedMessage: string := "Skipped by user"

  /** The entry written after trying one suggestion: applied on success, failed with the exception text otherwise. */
  function Attempt(suggestion: string, outcome: Outcome): (e: Entry)
    ensures e.content == suggestion
    ensures e.status == Applied <==> outcome.Done?
    ensures e.status != Skipped
  {
    match outcome
    case Done(_) => Entry(suggestion, Applied, AppliedMessage)
    case Raised(m) => Entry(suggestion, Failed, m)
  }

  /** The table after trying one suggestion: replaced on success, unchanged when anything raised. */
  function After(df: Table, outcome: Outcome): Table {
    match outcome
    case Done(t) => t
    case Raised(_) => df
  }

  /** `len([s for s in history if s['status'] == status])`. */
  function Count(history: seq<Entry>, status: Status): nat {
    if history == [] then 0
    else Count(history[..|history| - 1], status) + (if history[|history| - 1].status == status then 1 else 0)
  }

  lemma CountSnoc(history: seq<Entry>, e: Entry, status: Status)
    ensures Count(history + [e], status) == Count(history, status) + (if e.status == status then 1 else 0)
  {
    assert (history + [e])[..|history|] == history;
  }

  /** Every entry has one of the three statuses, so the three counts add up to the history's length. */
  lemma {:induction false} CountTotal(history: seq<Entry>)
    ensures Count(history, Applied) + Count(history, Failed) + Count(history, Skipped) == |history|
  {
    if history != [] {
      CountTotal(history[..|history| - 1]);
    }
  }

  /** A status no entry has is counted zero times, and a count of zero means no entry has it. */
  lemma {:induction false} CountZero(history: seq<Entry>, status: Status)
    ensures Count(history, status) == 0 <==> forall i :: 0 <= i < |history| ==> history[i].status != status
  {
    if history != [] {
      var init := history[..|history| - 1];
      CountZero(init, status);
      assert forall i :: 0 <= i < |init| ==> init[i] == history[i];
    }
  }
}
