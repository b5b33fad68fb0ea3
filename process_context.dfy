/**
 * The process context: the current stage of the design process, the
 * progress reported for each stage, and the operations the views call to
 * move between stages and to report progress.
 */
module ProcessContext {
  import opened Wrappers
  import opened Bounds

  /** The four values `currentStage` ever takes, in the order `nextStage` walks them. */
  datatype Stage = Home | Empathy | Reasoning | Materialization

  /** The string the context uses for a stage: `'home'` or a value of `STAGES`. */
  function Key(s: Stage): (r: string)
    ensures r == HomeKey <==> s == Home
    ensures s != Home ==> r == StageKeys[Index(s) - 1]
  {
    match s
    case Home => "home"
    case Empathy => "empathy"
    case Reasoning => "reasoning"
    case Materialization => "materialization"
  }

  /** The values of `STAGES`, in declaration order. */
  const StageKeys: seq<string> := ["empathy", "reasoning", "materialization"]

  const HomeKey: string := "home"

  /** The stage a string names, if it is `'home'` or one of `STAGES`. */
  function Parse(k: string): (r: Option<Stage>)
    ensures r.Some? <==> k in StageKeys || k == HomeKey
    ensures r.Some? ==> Key(r.value) == k
  {
    if k == "home" then Some(Home)
    else if k == "empathy" then Some(Empathy)
    else if k == "reasoning" then Some(Reasoning)
    else if k == "materialization" then Some(Materialization)
    else None
  }

  /** Parsing the key of a stage gives that stage back, so distinct stages have distinct keys. */
  lemma ParseKey(s: Stage)
    ensures Parse(Key(s)) == Some(s)
    ensures forall t :: Key(t) == Key(s) ==> t == s
  {
  }

  /** `STAGES` holds exactly the keys of the three stages other than home. */
  lemma StageKeysAreNonHomeStages(s: Stage)
    ensures Key(s) in StageKeys <==> s != Home
  {
  }

  /** Position along home, empathy, reasoning, materialization. */
  function Index(s: Stage): (i: nat)
    ensures i <= 3
  {
    match s
    case Home => 0
    case Empathy => 1
    case Reasoning => 2
    case Materialization => 3
  }

  lemma IndexInjective(s: Stage, t: Stage)
    ensures Index(s) == Index(t) ==> s == t
  {
  }

  /** The stage `nextStage` moves to: one step forward, staying at the last stage. */
  function Next(s: Stage): (r: Stage)
    ensures Index(r) == if Index(s) < 3 then Index(s) + 1 else 3
  {
    match s
    case Home => Empathy
    case Empathy => Reasoning
    case Reasoning => Materialization
    case Materialization => Materialization
  }

  /** The stage `prevStage` moves to: one step back, staying at home. */
  function Prev(s: Stage): (r: Stage)
    ensures Index(r) == if Index(s) > 0 then Index(s) - 1 else 0
  {
    match s
    case Materialization => Reasoning
    case Reasoning => Empathy
    case Empathy => Home
    case Home => Home
  }

  /** Going forward and then back is the identity except at the last stage. */
  lemma PrevAfterNext(s: Stage)
    ensures s != Materialization <==> Prev(Next(s)) == s
  {
  }

  /** Going back and then forward is the identity except at home. */
  lemma NextAfterPrev(s: Stage)
    ensures s != Home <==> Next(Prev(s)) == s
  {
  }

  /** The stage after `n` calls of `nextStage`. */
  function NextN(s: Stage, n: nat): Stage
    decreases n
  {
    if n == 0 then s else NextN(Next(s), n - 1)
  }

  /** The stage after `n` calls of `prevStage`. */
  function PrevN(s: Stage, n: nat): Stage
    decreases n
  {
    if n == 0 then s else PrevN(Prev(s), n - 1)
  }

  /** `n` forward steps advance the position by `n`, stopping at the last stage. */
  lemma {:induction false} NextNIndex(s: Stage, n: nat)
    ensures Index(NextN(s, n)) == if Index(s) + n < 3 then Index(s) + n else 3
    decreases n
  {
    if n > 0 {
      NextNIndex(Next(s), n - 1);
    }
  }

  /** `n` backward steps lower the position by `n`, stopping at home. */
  lemma {:induction false} PrevNIndex(s: Stage, n: nat)
    ensures Index(PrevN(s, n)) == if Index(s) - n > 0 then Index(s) - n else 0
    decreases n
  {
    if n > 0 {
      PrevNIndex(Prev(s), n - 1);
    }
  }

  /**
   * From home, three or more forward steps end at materialization, and any
   * further step changes nothing; from materialization, three or more
   * backward steps end at home and any further step changes nothing.
   */
  lemma WalkEnds(n: nat)
    requires n >= 3
    ensures NextN(Home, n) == Materialization && Next(NextN(Home, n)) == NextN(Home, n)
    ensures PrevN(Materialization, n) == Home && Prev(PrevN(Materialization, n)) == PrevN(Materialization, n)
  {
    NextNIndex(Home, n);
    PrevNIndex(Materialization, n);
    IndexInjective(NextN(Home, n), Materialization);
    IndexInjective(PrevN(Materialization, n), Home);
  }

  /** The progress object: a percentage per stage other than home. */
  datatype Progress = Progress(empathy: int, reasoning: int, materialization: int)

  predicate InRange(p: Progress) {
    0 <= p.empathy <= 100 && 0 <= p.reasoning <= 100 && 0 <= p.materialization <= 100
  }

  /** `Math.max(0, Math.min(100, value))`: the value `updateProgress` stores. */
  function Clamp(value: int): (r: int)
    ensures 0 <= r <= 100
    ensures 0 <= value <= 100 ==> r == value
    ensures value < 0 ==> r == 0
    ensures value > 100 ==> r == 100
  {
    Max(0, Min(100, value))
  }

  /**
   * `isStageAccessible` over a progress object: home and empathy always,
   * reasoning once empathy reached 50, materialization once reasoning
   * reached 50, nothing else.
   */
  predicate Accessible(p: Progress, stage: string)
    ensures Parse(stage).None? ==> !Accessible(p, stage)
    ensures Parse(stage) == Some(Home) || Parse(stage) == Some(Empathy) ==> Accessible(p, stage)
    ensures Parse(stage).Some? && Prev(Parse(stage).value) != Home ==>
      (Accessible(p, stage) <==> ProgressOf(p, Prev(Parse(stage).value)) >= 50)
  {
    if stage == "home" then true
    else if stage == "empathy" then true
    else if stage == "reasoning" then p.empathy >= 50
    else if stage == "materialization" then p.reasoning >= 50
    else false
  }

  /** Only the names of stages can be accessible, and home and empathy always are. */
  lemma AccessibleStages(p: Progress, stage: string)
    ensures Accessible(p, stage) ==> Parse(stage).Some?
    ensures stage == Key(Home) || stage == Key(Empathy) ==> Accessible(p, stage)
  {
  }

  /** The gate of each later stage reads only the progress of the stage before it. */
  lemma GateReadsPreviousStage(p: Progress, q: Progress, s: Stage)
    requires s != Home
    requires Prev(s) != Home ==> ProgressOf(p, Prev(s)) == ProgressOf(q, Prev(s))
    ensures Accessible(p, Key(s)) == Accessible(q, Key(s))
  {
  }

  /** Raising progress never locks a stage. */
  lemma AccessibleMonotone(p: Progress, q: Progress, stage: string)
    requires p.empathy <= q.empathy && p.reasoning <= q.reasoning
    requires Accessible(p, stage)
    ensures Accessible(q, stage)
  {
  }

  /** At the initial progress only home and empathy are accessible. */
  lemma InitiallyAccessible(stage: string)
    ensures Accessible(Progress(0, 0, 0), stage) <==> stage == Key(Home) || stage == Key(Empathy)
  {
  }

  /** The percentage stored for a stage other than home. */
  function ProgressOf(p: Progress, s: Stage): int
    requires s != Home
  {
    match s
    case Empathy => p.empathy
    case Reasoning => p.reasoning
    case Materialization => p.materialization
  }

  /** The state held by the process provider: the current stage and the progress object. */
  class ProcessProvider {
    var current: Stage
    var progress: Progress

    ghost predicate Valid()
      reads this
    {
      InRange(progress)
    }

    /** The initial state: at home, no progress anywhere. */
    constructor ()
      ensures Valid()
      ensures current == Home
      ensures progress == Progress(0, 0, 0)
    {
      current := Home;
      progress := Progress(0, 0, 0);
    }

    /**
     * `goToStage`: jumps to any named stage without consulting the gate;
     * any other string changes nothing.
     */
    method GoToStage(stage: string)
      modifies this`current
      ensures stage in StageKeys || stage == HomeKey ==> Key(current) == stage
      ensures !(stage in StageKeys || stage == HomeKey) ==> current == old(current)
      ensures progress == old(progress)
    {
      if stage in StageKeys || stage == HomeKey {
        current := Parse(stage).value;
      }
    }

    /** `nextStage`: one step forward, nothing at the last stage. */
    method NextStage()
      modifies this`current
      ensures current == Next(old(current))
      ensures progress == old(progress)
    {
      match current
      case Home => current := Empathy;
      case Empathy => current := Reasoning;
      case Reasoning => current := Materialization;
      case Materialization =>
    }

    /** `prevStage`: one step back, nothing at home. */
    method PrevStage()
      modifies this`current
      ensures current == Prev(old(current))
      ensures progress == old(progress)
    {
      match current
      case Materialization => current := Reasoning;
      case Reasoning => current := Empathy;
      case Empathy => current := Home;
      case Home =>
    }

    /**
     * `updateProgress`: stores the clamped value under the given key and
     * keeps every other stage's progress. A key that names no stage lands
     * in a slot nothing reads, so the modelled state does not change.
     */
    method UpdateProgress(stage: string, value: int)
      requires Valid()
      modifies this`progress
      ensures Valid()
      ensures current == old(current)
      ensures progress.empathy == if stage == Key(Empathy) then Clamp(value) else old(progress.empathy)
      ensures progress.reasoning == if stage == Key(Reasoning) then Clamp(value) else old(progress.reasoning)
      ensures progress.materialization ==
        if stage == Key(Materialization) then Clamp(value) else old(progress.materialization)
    {
      var v := Max(0, Min(100, value));
      if stage == "empathy" {
        progress := progress.(empathy := v);
      } else if stage == "reasoning" {
        progress := progress.(reasoning := v);
      } else if stage == "materialization" {
        progress := progress.(materialization := v);
      }
    }

    /** `isStageAccessible` over the current progress. */
    predicate IsStageAccessible(stage: string)
      reads this
      ensures IsStageAccessible(stage) <==>
        || stage == HomeKey
        || stage == Key(Empathy)
        || (stage == Key(Reasoning) && progress.empathy >= 50)
        || (stage == Key(Materialization) && progress.reasoning >= 50)
    {
      Accessible(progress, stage)
    }
  }
}
