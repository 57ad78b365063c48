/**
 * The cleaning-suggestion generator of agents/clean_suggestions_agent.py:
 * the LLM's reply is cut into one suggestion per non-blank line.
 */
module CleanSuggestions {
  import opened Wrappers
  import opened Text
  import opened Tables

  /** `task.data`: a DataFrame, or anything else. */
  datatype TaskData = Frame(table: Table) | NotFrame

  /** Line 83: every line stripped, the blank ones dropped, order kept. */
  function Tidied(lines: seq<string>): (r: seq<string>)
    ensures |r| <= |lines|
  {
    if lines == [] then []
    else (if Strip(lines[0]) != [] then [Strip(lines[0])] else []) + Tidied(lines[1..])
  }

  /** Lines 80-83: the reply stripped, split on newlines, and tidied. */
  function Suggestions(response: string): seq<string> {
    Tidied(Split(Strip(response), '\n'))
  }

  /**
   * `execute_task`: anything but a DataFrame is a ValueError; a None message
   * content fails on `strip`; otherwise the suggestions of the reply.
   */
  function ExecuteTask(data: TaskData, content: Option<string>): (r: Result<seq<string>>)
    ensures data.NotFrame? <==> r == Failure(ValueError("Task data must be a pandas DataFrame"))
    ensures data.Frame? && content.None? ==> r == Failure(AttributeError("strip"))
    ensures data.Frame? && content.Some? ==> r == Success(Suggestions(content.value))
  {
    if data.NotFrame? then Failure(ValueError("Task data must be a pandas DataFrame"))
    else if content.None? then Failure(AttributeError("strip"))
    else Success(Suggestions(content.value))
  }

  /** A suggestion is non-empty, has no newline, and starts and ends with a non-whitespace character. */
  predicate Clean(x: string) {
    x != [] && !Contains(x, '\n') && !IsSpace(x[0]) && !IsSpace(x[|x| - 1])
  }

  /** Tidying newline-free lines yields clean suggestions, each the strip of one of the lines, in order. */
  lemma {:induction false} TidiedClean(lines: seq<string>)
    requires forall l :: l in lines ==> !Contains(l, '\n')
    ensures forall x :: x in Tidied(lines) ==> Clean(x)
    ensures forall x :: x in Tidied(lines) ==> exists l :: l in lines && x == Strip(l)
  {
    if lines != [] {
      TidiedClean(lines[1..]);
      var x := Strip(lines[0]);
      if x != [] {
        StripSpec(lines[0]);
        var i, j :| 0 <= i <= j <= |lines[0]| && x == lines[0][i..j];
        ContainsSlice(lines[0], '\n', i, j);
      }
      forall y | y in Tidied(lines)
        ensures exists l :: l in lines && y == Strip(l)
      {
        if y !in Tidied(lines[1..]) {
          assert y == Strip(lines[0]) && lines[0] in lines;
        } else {
          var l :| l in lines[1..] && y == Strip(l);
          assert l in lines;
        }
      }
    }
  }

  /** No suggestion is empty, contains a newline, or has whitespace at either end. */
  lemma SuggestionsClean(response: string)
    ensures forall x :: x in Suggestions(response) ==> Clean(x)
  {
    TidiedClean(Split(Strip(response), '\n'));
  }

  /** Clean lines are their own tidying. */
  lemma {:induction false} TidiedFixed(xs: seq<string>)
    requires forall x :: x in xs ==> Clean(x)
    ensures Tidied(xs) == xs
  {
    if xs != [] {
      assert xs[0] in xs;
      assert forall x :: x in xs[1..] ==> x in xs;
      StripTrimmed(xs[0]);
      TidiedFixed(xs[1..]);
    }
  }

  /** Re-processing the suggestions joined with newlines gives them back: the clean-up is idempotent. */
  lemma SuggestionsIdempotent(response: string)
    ensures Suggestions(Join(Suggestions(response), '\n')) == Suggestions(response)
  {
    var xs := Suggestions(response);
    SuggestionsClean(response);
    var joined := Join(xs, '\n');
    if xs == [] {
      StripTrimmed([]);
      assert Split([], '\n') == [[]] by {
        assert !Contains([], '\n');
      }
    } else {
      forall i | 0 <= i < |xs|
        ensures xs[i] != []
      {
        assert xs[i] in xs;
      }
      JoinEnds(xs, '\n');
      assert xs[0] in xs && xs[|xs| - 1] in xs;
      StripTrimmed(joined);
      SplitJoin(xs, '\n');
      TidiedFixed(xs);
    }
  }
}
