/**
 * The empathy stage: three free-text fields (listening, observing,
 * engaging), the percentage derived from them, and its report to the
 * process context.
 */
module Empathy {
  import opened ProcessContext
  import opened Completion
  import StageLayout

  datatype Field = Listening | Observing | Engaging

  const AllFields: set<Field> := {Listening, Observing, Engaging}

  /** The `userInput` object. */
  datatype UserInput = UserInput(listening: string, observing: string, engaging: string)

  const EmptyInput: UserInput := UserInput("", "", "")

  function Get(input: UserInput, f: Field): string {
    match f
    case Listening => input.listening
    case Observing => input.observing
    case Engaging => input.engaging
  }

  /** `{...prev, [field]: value}`: the named field replaced, the others kept. */
  function With(input: UserInput, f: Field, value: string): (r: UserInput)
    ensures Get(r, f) == value
    ensures forall g :: g != f ==> Get(r, g) == Get(input, g)
  {
    match f
    case Listening => input.(listening := value)
    case Observing => input.(observing := value)
    case Engaging => input.(engaging := value)
  }

  /** The length a text must exceed, counted untrimmed. */
  const MinLength: nat := 10

  /** The three conditions, in the order the source tests them. */
  function Conditions(input: UserInput): (c: seq<bool>)
    ensures |c| == 3
    ensures c[0] <==> Listening in LongFields(input)
    ensures c[1] <==> Observing in LongFields(input)
    ensures c[2] <==> Engaging in LongFields(input)
  {
    [|input.listening| > MinLength, |input.observing| > MinLength, |input.engaging| > MinLength]
  }

  /** The fields whose text is longer than ten characters. */
  function LongFields(input: UserInput): set<Field> {
    set f | f in AllFields && |Get(input, f)| > MinLength
  }

  /** The number of long fields, one field at a time. */
  lemma LongFieldsCount(input: UserInput)
    ensures |LongFields(input)| ==
      (if |input.listening| > MinLength then 1 else 0) +
      (if |input.observing| > MinLength then 1 else 0) +
      (if |input.engaging| > MinLength then 1 else 0)
  {
    var l: set<Field> := if |input.listening| > MinLength then {Listening} else {};
    var o: set<Field> := if |input.observing| > MinLength then {Observing} else {};
    var e: set<Field> := if |input.engaging| > MinLength then {Engaging} else {};
    forall f: Field
      ensures f in LongFields(input) <==> f in l + o + e
    {
      match f
      case Listening =>
      case Observing =>
      case Engaging =>
    }
    assert LongFields(input) == l + o + e;
    assert l !! o && (l + o) !! e;
    assert |l + o| == |l| + |o|;
    assert |l + o + e| == |l + o| + |e|;
  }

  /** The count of conditions that hold is the number of fields longer than ten characters. */
  lemma CompletedCountsLongFields(input: UserInput)
    ensures CountHolding(Conditions(input)) == |LongFields(input)|
  {
    LongFieldsCount(input);
    CountThree(|input.listening| > MinLength, |input.observing| > MinLength, |input.engaging| > MinLength);
  }

  /** The empathy percentage of an input. */
  function EmpathyPercentage(input: UserInput): (p: nat)
    ensures p == 0 || p == 33 || p == 66 || p == 100
    ensures p == 100 <==> |LongFields(input)| == |AllFields|
    ensures p == 0 <==> LongFields(input) == {}
  {
    CompletedCountsLongFields(input);
    Percentage(CountHolding(Conditions(input)))
  }

  /** The percentage unlocks reasoning iff at least two fields are longer than ten characters. */
  lemma UnlocksReasoning(input: UserInput)
    ensures EmpathyPercentage(input) >= 50 <==> |LongFields(input)| >= 2
    ensures EmpathyPercentage(input) >= 50 <==>
      AtLeastTwo(|input.listening| > MinLength, |input.observing| > MinLength, |input.engaging| > MinLength)
  {
    CompletedCountsLongFields(input);
    ThreeConditionsGate(|input.listening| > MinLength, |input.observing| > MinLength, |input.engaging| > MinLength);
  }

  /** Text of exactly ten characters does not count: three such fields give 0. */
  lemma TenCharactersIsIncomplete(input: UserInput)
    requires |input.listening| == MinLength && |input.observing| == MinLength && |input.engaging| == MinLength
    ensures EmpathyPercentage(input) == 0
  {
    CountThree(false, false, false);
  }

  /** Lengthening fields never lowers the percentage. */
  lemma LongerTextNeverLowers(a: UserInput, b: UserInput)
    requires forall f :: |Get(a, f)| <= |Get(b, f)|
    ensures EmpathyPercentage(a) <= EmpathyPercentage(b)
  {
    assert |a.listening| <= |b.listening| && |a.observing| <= |b.observing| && |a.engaging| <= |b.engaging| by {
      assert |Get(a, Listening)| <= |Get(b, Listening)|;
      assert |Get(a, Observing)| <= |Get(b, Observing)|;
      assert |Get(a, Engaging)| <= |Get(b, Engaging)|;
    }
    CountThree(|a.listening| > MinLength, |a.observing| > MinLength, |a.engaging| > MinLength);
    CountThree(|b.listening| > MinLength, |b.observing| > MinLength, |b.engaging| > MinLength);
    PercentageMonotone(CountHolding(Conditions(a)), CountHolding(Conditions(b)));
  }

  /** One short and two long answers give 66. */
  lemma TwoOfThreeExample()
    ensures EmpathyPercentage(UserInput("short", "a sufficiently long observation text", "also fairly long text here")) == 66
  {
    CountThree(false, true, true);
  }

  /** The component state over the shared context. */
  class EmpathyStage {
    const context: ProcessProvider
    var userInput: UserInput
    var progress: nat

    constructor (context: ProcessProvider)
      ensures this.context == context
      ensures userInput == EmptyInput && progress == 0
    {
      this.context := context;
      userInput := EmptyInput;
      progress := 0;
    }

    /**
     * `calculateProgress`: counts the long fields, stores the percentage
     * locally and reports it as the empathy progress; whether reasoning
     * opens follows from the fields alone.
     */
    method CalculateProgress()
      requires context.Valid()
      modifies this`progress, context
      ensures context.Valid()
      ensures progress == EmpathyPercentage(userInput)
      ensures context.current == old(context.current)
      ensures context.progress == old(context.progress).(empathy := progress)
      ensures context.IsStageAccessible(Key(Reasoning)) <==> |LongFields(userInput)| >= 2
    {
      var completed := 0;
      if |userInput.listening| > MinLength { completed := completed + 1; }
      if |userInput.observing| > MinLength { completed := completed + 1; }
      if |userInput.engaging| > MinLength { completed := completed + 1; }
      CountThree(|userInput.listening| > MinLength, |userInput.observing| > MinLength, |userInput.engaging| > MinLength);
      assert completed == CountHolding(Conditions(userInput));
      var percentage := completed * 100 / Total;
      assert percentage == EmpathyPercentage(userInput);
      progress := percentage;
      context.UpdateProgress("empathy", percentage);
      assert context.progress.empathy == percentage;
      UnlocksReasoning(userInput);
    }

    /** `handleInputChange(field)`: the field takes the typed value; no other field changes. */
    method HandleInputChange(field: Field, value: string)
      modifies this`userInput
      ensures userInput == With(old(userInput), field, value)
    {
      userInput := With(userInput, field, value);
    }

    /** The layout's Continue button: `onComplete` recomputes progress, then `nextStage`. */
    method Continue()
      requires context.Valid()
      modifies this`progress, context
      ensures context.Valid()
      ensures progress == EmpathyPercentage(userInput)
      ensures context.progress == old(context.progress).(empathy := progress)
      ensures context.current == Next(old(context.current))
    {
      CalculateProgress();
      StageLayout.ContinueClick(context);
    }
  }
}
