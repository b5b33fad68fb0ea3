/**
 * The layout every stage page sits in: its accent colour, which of the
 * Previous and Continue buttons it shows, and what those buttons do.
 */
module StageLayout {
  import opened Wrappers
  import opened ProcessContext
  import opened Theme
  import Navigation

  /** The props that decide behaviour; an omitted boolean prop is `None`. */
  datatype Props = Props(stageTheme: string, canGoBack: Option<bool>, canContinue: Option<bool>)

  /** The Previous button is rendered iff `canGoBack`, which defaults to true. */
  function ShowsPrevious(p: Props): (b: bool)
    ensures b <==> p.canGoBack != Some(false)
  {
    p.canGoBack.GetOr(true)
  }

  /** The Continue button is rendered iff `canContinue`, which defaults to true. */
  function ShowsContinue(p: Props): (b: bool)
    ensures b <==> p.canContinue != Some(false)
  {
    p.canContinue.GetOr(true)
  }

  /** The `--stage-color` a theme selects. */
  function ThemeColor(theme: string): (c: Color)
    ensures c == Primary <==> theme == "reasoning"
    ensures c == Secondary <==> theme == "empathy"
    ensures c == Tertiary <==> theme != "reasoning" && theme != "empathy"
  {
    if theme == "reasoning" then Primary
    else if theme == "empathy" then Secondary
    else Tertiary
  }

  /**
   * On each stage page the layout's accent agrees with the navigation bar's
   * logo accent; the two disagree only for home, which has no layout.
   */
  lemma ThemeMatchesNavigation(s: Stage)
    ensures ThemeColor(Key(s)) == Navigation.StageColor(s) <==> s != Home
  {
  }

  /** The props the three stage pages pass. */
  const EmpathyProps: Props := Props("empathy", Some(false), None)
  const ReasoningProps: Props := Props("reasoning", None, None)
  const MaterializationProps: Props := Props("materialization", None, Some(false))

  /**
   * The empathy page has no Previous button, the materialization page no
   * Continue button, and the reasoning page both.
   */
  lemma StagePageButtons()
    ensures !ShowsPrevious(EmpathyProps) && ShowsContinue(EmpathyProps)
    ensures ShowsPrevious(ReasoningProps) && ShowsContinue(ReasoningProps)
    ensures ShowsPrevious(MaterializationProps) && !ShowsContinue(MaterializationProps)
  {
  }

  /** The Previous button: `prevStage`. */
  method PreviousClick(context: ProcessProvider)
    modifies context
    ensures context.current == Prev(old(context.current))
    ensures context.progress == old(context.progress)
  {
    context.PrevStage();
  }

  /**
   * The Continue button once `onComplete` (if any) has run: `nextStage`,
   * which moves on whether or not the next stage is accessible.
   */
  method ContinueClick(context: ProcessProvider)
    modifies context
    ensures context.current == Next(old(context.current))
    ensures context.progress == old(context.progress)
  {
    context.NextStage();
  }

  /** Continue enters the next stage even when its gate is closed. */
  lemma ContinueIgnoresGate()
    ensures Next(Empathy) == Reasoning && !Accessible(Progress(0, 0, 0), Key(Reasoning))
    ensures Next(Reasoning) == Materialization && !Accessible(Progress(0, 0, 0), Key(Materialization))
  {
  }
}
