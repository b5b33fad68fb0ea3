/**
 * The reasoning stage: two free-text fields that count toward progress, a
 * third that does not, and a list of selected design-pattern tags.
 */
module Reasoning {
  import opened ProcessContext
  import opened Completion
  import opened Lists
  import StageLayout

  /** `patternTagOptions`: the tags offered for selection. */
  const PatternTagOptions: seq<string> := [
    "Efficiency", "Accessibility", "Sustainability", "User Control",
    "Clarity", "Consistency", "Feedback", "Aesthetics", "Simplicity",
    "Flexibility", "Recovery", "Familiarity", "Progressive Disclosure"
  ]

  lemma OptionsAreDistinct()
    ensures |PatternTagOptions| == 13 && NoDuplicates(PatternTagOptions)
  {
  }

  datatype Field = Synthesis | Insights | Patterns

  /** The `userInput` object. */
  datatype UserInput = UserInput(synthesis: string, insights: string, patterns: string)

  const EmptyInput: UserInput := UserInput("", "", "")

  function Get(input: UserInput, f: Field): string {
    match f
    case Synthesis => input.synthesis
    case Insights => input.insights
    case Patterns => input.patterns
  }

  /** `{...prev, [field]: value}`: the named field replaced, the others kept. */
  function With(input: UserInput, f: Field, value: string): (r: UserInput)
    ensures Get(r, f) == value
    ensures forall g :: g != f ==> Get(r, g) == Get(input, g)
  {
    match f
    case Synthesis => input.(synthesis := value)
    case Insights => input.(insights := value)
    case Patterns => input.(patterns := value)
  }

  /** The length a text must exceed, and the number of tags to select. */
  const MinLength: nat := 10
  const MinPatterns: nat := 3

  /** The three conditions, in the order the source tests them. */
  function Conditions(input: UserInput, selected: seq<string>): (c: seq<bool>)
    ensures |c| == 3
    ensures c[0] <==> |Get(input, Synthesis)| > MinLength
    ensures c[1] <==> |Get(input, Insights)| > MinLength
    ensures c[2] <==> |selected| >= MinPatterns
  {
    [|input.synthesis| > MinLength, |input.insights| > MinLength, |selected| >= MinPatterns]
  }

  function ReasoningPercentage(input: UserInput, selected: seq<string>): (p: nat)
    ensures p == 0 || p == 33 || p == 66 || p == 100
    ensures p == 100 <==> |input.synthesis| > MinLength && |input.insights| > MinLength && |selected| >= MinPatterns
    ensures p == 0 <==> |input.synthesis| <= MinLength && |input.insights| <= MinLength && |selected| < MinPatterns
  {
    Percentage(CountHolding(Conditions(input, selected)))
  }

  /** The percentage unlocks materialization iff at least two of the three conditions hold. */
  lemma UnlocksMaterialization(input: UserInput, selected: seq<string>)
    ensures ReasoningPercentage(input, selected) >= 50 <==>
      AtLeastTwo(|input.synthesis| > MinLength, |input.insights| > MinLength, |selected| >= MinPatterns)
  {
    ThreeConditionsGate(|input.synthesis| > MinLength, |input.insights| > MinLength, |selected| >= MinPatterns);
  }

  /** The free-text `patterns` field plays no part in the percentage. */
  lemma PatternsTextIgnored(input: UserInput, selected: seq<string>, text: string)
    ensures ReasoningPercentage(With(input, Patterns, text), selected) == ReasoningPercentage(input, selected)
  {
    assert Conditions(With(input, Patterns, text), selected) == Conditions(input, selected);
  }

  /** A synthesis of 15 characters, short insights and three tags give 66. */
  lemma TwoOfThreeExample()
    ensures ReasoningPercentage(UserInput("fifteen letters", "short", ""), ["Clarity", "Feedback", "Recovery"]) == 66
  {
    CountThree(true, false, true);
  }

  /**
   * `togglePattern`: a selected tag is dropped, any other appended. As a
   * set, the selection gains or loses exactly the toggled tag.
   */
  function TogglePattern(selected: seq<string>, pattern: string): (r: seq<string>)
    ensures forall q :: q in r <==> (if q == pattern then pattern !in selected else q in selected)
  {
    if pattern in selected then Without(selected, pattern) else selected + [pattern]
  }

  /** The selection never holds a tag twice. */
  lemma TogglePatternKeepsDistinct(selected: seq<string>, pattern: string)
    requires NoDuplicates(selected)
    ensures NoDuplicates(TogglePattern(selected, pattern))
  {
    if pattern in selected {
      WithoutKeepsDistinct(selected, pattern);
    } else {
      var r := selected + [pattern];
      forall i, j | 0 <= i < j < |r|
        ensures r[i] != r[j]
      {
        if j == |selected| {
          assert r[i] == selected[i];
        }
      }
    }
  }

  /**
   * Toggling the same tag twice restores the set of selected tags; when the
   * tag was not selected it restores the list itself.
   */
  lemma ToggleTwice(selected: seq<string>, pattern: string)
    ensures forall q :: q in TogglePattern(TogglePattern(selected, pattern), pattern) <==> q in selected
    ensures pattern !in selected ==> TogglePattern(TogglePattern(selected, pattern), pattern) == selected
  {
    if pattern !in selected {
      assert Without(selected + [pattern], pattern) == selected by {
        WithoutAppend(selected, pattern);
      }
    }
  }

  lemma {:induction false} WithoutAppend(s: seq<string>, x: string)
    requires x !in s
    ensures Without(s + [x], x) == s
  {
    if s != [] {
      WithoutAppend(s[1..], x);
      assert (s + [x])[1..] == s[1..] + [x];
      assert s == [s[0]] + s[1..];
    }
  }

  /** Toggling twice need not restore the order: the tag moves to the end. */
  lemma ToggleTwiceReorders()
    ensures TogglePattern(TogglePattern(["Clarity", "Feedback"], "Clarity"), "Clarity") == ["Feedback", "Clarity"]
  {
    assert Without(["Clarity", "Feedback"], "Clarity") == ["Feedback"] by {
      assert ["Clarity", "Feedback"][1..] == ["Feedback"];
      assert ["Feedback"][1..] == [];
    }
  }

  /** Toggling offered tags keeps the selection within the offered tags. */
  lemma ToggleStaysWithinOptions(selected: seq<string>, pattern: string)
    requires forall q :: q in selected ==> q in PatternTagOptions
    requires pattern in PatternTagOptions
    ensures forall q :: q in TogglePattern(selected, pattern) ==> q in PatternTagOptions
  {
  }

  /** The component state over the shared context. */
  class ReasoningStage {
    const context: ProcessProvider
    var userInput: UserInput
    var selectedPatterns: seq<string>
    var progress: nat

    ghost predicate Valid()
      reads this
    {
      NoDuplicates(selectedPatterns)
    }

    constructor (context: ProcessProvider)
      ensures Valid()
      ensures this.context == context
      ensures userInput == EmptyInput && selectedPatterns == [] && progress == 0
    {
      this.context := context;
      userInput := EmptyInput;
      selectedPatterns := [];
      progress := 0;
    }

    /**
     * `calculateProgress`: counts the conditions, stores the percentage
     * locally and reports it as the reasoning progress.
     */
    method CalculateProgress()
      requires context.Valid()
      modifies this`progress, context
      ensures context.Valid()
      ensures progress == ReasoningPercentage(userInput, selectedPatterns)
      ensures context.current == old(context.current)
      ensures context.progress == old(context.progress).(reasoning := progress)
      ensures context.IsStageAccessible(Key(Materialization)) <==>
        AtLeastTwo(|userInput.synthesis| > MinLength, |userInput.insights| > MinLength, |selectedPatterns| >= MinPatterns)
    {
      var completed := 0;
      if |userInput.synthesis| > MinLength { completed := completed + 1; }
      if |userInput.insights| > MinLength { completed := completed + 1; }
      if |selectedPatterns| >= MinPatterns { completed := completed + 1; }
      CountThree(|userInput.synthesis| > MinLength, |userInput.insights| > MinLength, |selectedPatterns| >= MinPatterns);
      assert completed == CountHolding(Conditions(userInput, selectedPatterns));
      var percentage := completed * 100 / Total;
      progress := percentage;
      context.UpdateProgress("reasoning", percentage);
      UnlocksMaterialization(userInput, selectedPatterns);
    }

    /** `handleInputChange(field)`: the field takes the typed value; no other field changes. */
    method HandleInputChange(field: Field, value: string)
      modifies this`userInput
      ensures userInput == With(old(userInput), field, value)
    {
      userInput := With(userInput, field, value);
    }

    /** A click on a tag: the selection is toggled and stays free of duplicates. */
    method TogglePatternClick(pattern: string)
      requires Valid()
      modifies this`selectedPatterns
      ensures Valid()
      ensures selectedPatterns == TogglePattern(old(selectedPatterns), pattern)
    {
      TogglePatternKeepsDistinct(selectedPatterns, pattern);
      if pattern in selectedPatterns {
        selectedPatterns := Without(selectedPatterns, pattern);
      } else {
        selectedPatterns := selectedPatterns + [pattern];
      }
    }

    /** The layout's Continue button: `onComplete` recomputes progress, then `nextStage`. */
    method Continue()
      requires context.Valid()
      modifies this`progress, context
      ensures context.Valid()
      ensures progress == ReasoningPercentage(userInput, selectedPatterns)
      ensures context.progress == old(context.progress).(reasoning := progress)
      ensures context.current == Next(old(context.current))
    {
      CalculateProgress();
      StageLayout.ContinueClick(context);
    }
  }
}
