/**
 * The application shell: the navigation bar's logo and container class,
 * the mount action, and the choice of the page shown for the current stage.
 * The shell's own link list uses the same names, colours and gated click
 * as the navigation bar, modelled once in module Navigation.
 */
module App {
  import opened ProcessContext
  import opened Navigation
  import Empathy

  /** The page components the shell can render. */
  datatype Page = HomePage | EmpathyPage | ReasoningPage | MaterializationPage

  /**
   * The four conditional renderings inside the transition wrapper, in
   * source order: each contributes its page when its test on the current
   * stage's key holds.
   */
  function PagesShown(current: Stage): (r: seq<Page>)
    ensures r == [PageFor(current)]
  {
    var k := Key(current);
    (if k == HomeKey then [HomePage] else [])
    + (if k == StageKeys[0] then [EmpathyPage] else [])
    + (if k == StageKeys[1] then [ReasoningPage] else [])
    + (if k == StageKeys[2] then [MaterializationPage] else [])
  }

  /** The page meant for each stage. */
  function PageFor(s: Stage): (p: Page)
    ensures p == HomePage <==> s == Home
  {
    match s
    case Home => HomePage
    case Empathy => EmpathyPage
    case Reasoning => ReasoningPage
    case Materialization => MaterializationPage
  }

  /** Different stages show different pages. */
  lemma PagesDistinguishStages(s: Stage, t: Stage)
    ensures PagesShown(s) == PagesShown(t) <==> s == t
  {
    assert PagesShown(s)[0] == PageFor(s);
    assert PagesShown(t)[0] == PageFor(t);
  }

  /** The navigation bar is see-through exactly on the home page. */
  predicate Transparent(current: Stage)
    ensures Transparent(current) <==> current == Home
  {
    ParseKey(current);
    Key(current) == HomeKey
  }

  /** A click on the logo returns to home, whatever the progress. */
  method LogoClick(context: ProcessProvider)
    modifies context
    ensures context.current == Home
    ensures context.progress == old(context.progress)
  {
    context.GoToStage(HomeKey);
    ParseKey(Home);
  }

  /** On mount the shell resets the stage to home; the progress stays as it is. */
  method Mount(context: ProcessProvider)
    modifies context
    ensures context.current == Home
    ensures context.progress == old(context.progress)
  {
    context.GoToStage(HomeKey);
    ParseKey(Home);
  }

  /**
   * The transition wrapper is keyed by the current stage, so entering a
   * stage mounts its page afresh and a page reached again starts from its
   * constructor state. An empathy page mounted anew and continued at once
   * reports 0 and locks reasoning, whatever the stage reported before.
   */
  method ReenterEmpathy(context: ProcessProvider) returns (page: Empathy.EmpathyStage)
    requires context.Valid() && context.current == Empathy
    modifies context
    ensures fresh(page) && page.context == context && page.userInput == Empathy.EmptyInput
    ensures context.progress == old(context.progress).(empathy := 0)
    ensures context.current == Reasoning
    ensures !context.IsStageAccessible(Key(Reasoning))
  {
    page := new Empathy.EmpathyStage(context);
    page.Continue();
    ParseKey(Reasoning);
  }

  /**
   * A shell started afresh shows the home page with a transparent bar, and
   * every link but the empathy one is disabled.
   */
  method Start() returns (context: ProcessProvider)
    ensures fresh(context)
    ensures context.current == Home && context.progress == Progress(0, 0, 0)
    ensures PagesShown(context.current) == [HomePage]
    ensures Transparent(context.current)
    ensures !LinkDisabled(context, Empathy)
    ensures LinkDisabled(context, Reasoning) && LinkDisabled(context, Materialization)
  {
    context := new ProcessProvider();
    Mount(context);
    InitiallyAccessible(Key(Empathy));
    InitiallyAccessible(Key(Reasoning));
    InitiallyAccessible(Key(Materialization));
  }
}
