/**
 * The navigation bar: stage display names, the logo colour, the gated
 * desktop links and the mobile menu with its own gated links.
 */
module Navigation {
  import opened ProcessContext
  import opened Theme

  /** `Object.values(STAGES)`: the stages the desktop list and the mobile list link to. */
  const LinkStages: seq<Stage> := [Empathy, Reasoning, Materialization]

  /** The link lists cover every stage except home, once each, in the order of `STAGES`. */
  lemma LinksCoverStages()
    ensures |LinkStages| == |StageKeys|
    ensures forall i :: 0 <= i < |LinkStages| ==> Key(LinkStages[i]) == StageKeys[i]
    ensures forall s :: s in LinkStages <==> s != Home
  {
  }

  /** `toUpperCase` on one character, for the lower-case ASCII letters stage keys are made of. */
  function UpperChar(c: char): (u: char)
    ensures 'a' <= c <= 'z' ==> 'A' <= u <= 'Z' && u as int == c as int - 32
    ensures !('a' <= c <= 'z') ==> u == c
  {
    if 'a' <= c <= 'z' then (c as int - 32) as char else c
  }

  /** `stage.charAt(0).toUpperCase() + stage.slice(1)`. */
  function StageName(stage: string): (r: string)
    ensures |r| == |stage|
    ensures |stage| > 0 ==> r[0] == UpperChar(stage[0]) && r[1..] == stage[1..]
  {
    if stage == [] then "" else [UpperChar(stage[0])] + stage[1..]
  }

  /** The labels of the three links. */
  lemma LinkLabels()
    ensures StageName(Key(Empathy)) == "Empathy"
    ensures StageName(Key(Reasoning)) == "Reasoning"
    ensures StageName(Key(Materialization)) == "Materialization"
  {
    LabelOf("empathy", "Empathy");
    LabelOf("reasoning", "Reasoning");
    LabelOf("materialization", "Materialization");
  }

  /** A label is its key with the first letter replaced by the capital. */
  lemma LabelOf(key: string, name: string)
    requires |key| > 0 && |name| == |key| && 'a' <= key[0] <= 'z'
    requires name[0] as int == key[0] as int - 32 && name[1..] == key[1..]
    ensures StageName(key) == name
  {
    var r := StageName(key);
    assert r == [r[0]] + r[1..];
    assert name == [name[0]] + name[1..];
  }

  /** `getStageColor`: the colour of the logo's accent for the current stage. */
  function StageColor(current: Stage): (c: Color)
    ensures c == Secondary <==> current == Empathy
    ensures c == Tertiary <==> current == Materialization
    ensures c == Primary <==> current == Reasoning || current == Home
  {
    match current
    case Empathy => Secondary
    case Reasoning => Primary
    case Materialization => Tertiary
    case Home => Primary
  }

  /** Each of the three stages has its own accent colour; home shares reasoning's. */
  lemma StageColors(s: Stage, t: Stage)
    ensures s != Home && t != Home && s != t ==> StageColor(s) != StageColor(t)
    ensures StageColor(Home) == StageColor(Reasoning)
  {
  }

  /** A link is disabled exactly when its stage is not accessible. */
  predicate LinkDisabled(context: ProcessProvider, stage: Stage)
    reads context
    ensures LinkDisabled(context, stage) <==>
      (stage == Reasoning && context.progress.empathy < 50)
      || (stage == Materialization && context.progress.reasoning < 50)
  {
    !context.IsStageAccessible(Key(stage))
  }

  /** A link is highlighted exactly when its stage is the current one. */
  predicate LinkActive(context: ProcessProvider, stage: Stage)
    reads context
    ensures LinkActive(context, stage) <==> Index(context.current) == Index(stage)
  {
    context.current == stage
  }

  /**
   * At most one link is highlighted, and none on the home page. A stage
   * entered through Continue is highlighted even while its link is disabled.
   */
  lemma ActiveLinks(context: ProcessProvider, s: Stage, t: Stage)
    ensures LinkActive(context, s) && LinkActive(context, t) ==> s == t
    ensures context.current == Home ==> forall u :: u in LinkStages ==> !LinkActive(context, u)
    ensures context.current == Reasoning && context.progress.empathy < 50 ==>
      LinkActive(context, Reasoning) && LinkDisabled(context, Reasoning)
  {
  }

  /**
   * A desktop link click: `isStageAccessible(stage) && goToStage(stage)`.
   * A disabled link changes nothing.
   */
  method LinkClick(context: ProcessProvider, stage: Stage)
    modifies context
    ensures context.current == if old(LinkDisabled(context, stage)) then old(context.current) else stage
    ensures context.progress == old(context.progress)
    ensures LinkDisabled(context, stage) == old(LinkDisabled(context, stage))
    ensures !old(LinkDisabled(context, stage)) ==> LinkActive(context, stage)
  {
    if context.IsStageAccessible(Key(stage)) {
      context.GoToStage(Key(stage));
      ParseKey(stage);
    }
  }

  /** The component state: whether the mobile menu is open, over the shared context. */
  class NavigationBar {
    const context: ProcessProvider
    var mobileMenuOpen: bool

    constructor (context: ProcessProvider)
      ensures this.context == context
      ensures !mobileMenuOpen
    {
      this.context := context;
      mobileMenuOpen := false;
    }

    /** The menu button. */
    method OpenMenu()
      modifies this`mobileMenuOpen
      ensures mobileMenuOpen
    {
      mobileMenuOpen := true;
    }

    /** The close button. */
    method CloseMenu()
      modifies this`mobileMenuOpen
      ensures !mobileMenuOpen
    {
      mobileMenuOpen := false;
    }

    /**
     * A click on a link of the open mobile menu: an accessible stage is
     * entered and the menu closes; a disabled link changes neither.
     */
    method MobileLinkClick(stage: Stage)
      requires mobileMenuOpen
      modifies this`mobileMenuOpen, context
      ensures old(LinkDisabled(context, stage)) ==>
        context.current == old(context.current) && mobileMenuOpen
      ensures !old(LinkDisabled(context, stage)) ==>
        context.current == stage && !mobileMenuOpen
      ensures context.progress == old(context.progress)
    {
      if context.IsStageAccessible(Key(stage)) {
        context.GoToStage(Key(stage));
        ParseKey(stage);
        mobileMenuOpen := false;
      }
    }
  }
}
