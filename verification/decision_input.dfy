/**
 * The decision form (src/components/parallel/DecisionInput.tsx:6-31, 33, 69,
 * 109): the typed decision, capped at 500 characters, and the chosen horizon,
 * one of 3, 5, 7 or 10 years. Submitting hands the trimmed decision and the
 * horizon to the page; the `onGenerate` callback becomes the result.
 */
module DecisionInput {
  import opened Wrappers
  import opened Text
  import opened Lists

  const MAX_DECISION_LENGTH := 500
  const DEFAULT_YEARS := 5

  /** The horizon buttons, in display order. */
  const YEARS_OPTIONS: seq<nat> := [3, 5, 7, 10]

  const EXAMPLE_BERLIN := "I almost moved to Berlin in 2021 but stayed in my hometown"
  const EXAMPLE_MUSIC := "I chose computer science over music school in 2018"
  const EXAMPLE_STARTUP := "I stayed at my corporate job instead of joining my friend's startup"
  const EXAMPLE_BREAKUP := "I ended a 4-year relationship to focus on myself"

  /** The example decisions offered under the input, in display order. */
  const EXAMPLE_DECISIONS: seq<string> := [EXAMPLE_BERLIN, EXAMPLE_MUSIC, EXAMPLE_STARTUP, EXAMPLE_BREAKUP]

  /** Every example fits the input's cap. */
  lemma ExamplesFit(k: nat)
    requires k < |EXAMPLE_DECISIONS|
    ensures 0 < |EXAMPLE_DECISIONS[k]| <= MAX_DECISION_LENGTH
  {
  }

  class DecisionInput {
    /** `decision`, the text in the input */
    var decision: string
    /** `yearsToSimulate`, the selected horizon */
    var yearsToSimulate: nat

    /** The text never exceeds the cap and the horizon is one of the buttons. */
    predicate Valid()
      reads this
    {
      |decision| <= MAX_DECISION_LENGTH && yearsToSimulate in YEARS_OPTIONS
    }

    /** The initial state (DecisionInput.tsx:19-20). */
    constructor ()
      ensures Valid() && decision == "" && yearsToSimulate == DEFAULT_YEARS
    {
      decision := "";
      yearsToSimulate := DEFAULT_YEARS;
    }

    /** The textarea's `onChange`: the typed text, cut to its first 500
        characters. */
    method OnChange(text: string)
      requires Valid()
      modifies this
      ensures Valid()
      ensures decision == text[..if |text| < MAX_DECISION_LENGTH then |text| else MAX_DECISION_LENGTH]
      ensures |text| <= MAX_DECISION_LENGTH ==> decision == text
      ensures yearsToSimulate == old(yearsToSimulate)
    {
      decision := Take(text, MAX_DECISION_LENGTH);
    }

    /** `handleExampleClick(example)` for the `k`-th example. */
    method ExampleClick(k: nat)
      requires Valid() && k < |EXAMPLE_DECISIONS|
      modifies this
      ensures Valid()
      ensures decision == EXAMPLE_DECISIONS[k] && yearsToSimulate == old(yearsToSimulate)
    {
      ExamplesFit(k);
      decision := EXAMPLE_DECISIONS[k];
    }

    /** A horizon button's `onClick`. */
    method SelectYears(years: nat)
      requires Valid() && years in YEARS_OPTIONS
      modifies this
      ensures Valid()
      ensures yearsToSimulate == years && decision == old(decision)
    {
      yearsToSimulate := years;
    }

    /** `handleSubmit()` (DecisionInput.tsx:23-27): nothing while loading or
        when only blanks are typed; otherwise the trimmed decision and the
        horizon. What is submitted is never blank, starts and ends with a
        non-blank, fits the cap and names an offered horizon. */
    method HandleSubmit(isLoading: bool) returns (submitted: Option<(string, nat)>)
      requires Valid()
      ensures submitted.None? <==> isLoading || Trim(decision) == ""
      ensures submitted.Some? ==> submitted.value == (Trim(decision), yearsToSimulate)
      ensures submitted.Some? ==>
                var (text, years) := submitted.value;
                && 0 < |text| <= MAX_DECISION_LENGTH
                && !IsWhitespace(text[0]) && !IsWhitespace(text[|text| - 1])
                && years in YEARS_OPTIONS
    {
      var trimmed := Trim(decision);
      TrimSpec(decision);
      if trimmed != "" && !isLoading {
        submitted := Some((trimmed, yearsToSimulate));
      } else {
        submitted := None;
      }
    }
  }
}
