# bbdl design-process UI — a Dafny model of its core

The bbdl single-page application walks a user through a three-stage design
process: empathy, reasoning and materialization, entered from a home page.
Beneath its styling and animation sits a small deterministic core, and this
project models it:

- **The stage navigator.** The process context holds the current stage and
  a progress percentage per stage. It offers `goToStage`, `nextStage`,
  `prevStage`, `updateProgress` (clamped to 0..100) and `isStageAccessible`.
  A later stage opens once the stage before it reached 50. This is module
  `ProcessContext`, class `ProcessProvider`.
- **The progress calculators of the empathy and reasoning stages.** Each
  counts how many of three conditions hold and reports
  `floor(completed / 3 * 100)`. The shared arithmetic is in module
  `Completion`; the stages are modules `Empathy` and `Reasoning`. The
  reasoning stage also keeps a list of selected pattern tags with toggle
  semantics.
- **The orbit presentation.** It holds the "miasto piękne" dataset of 17
  labelled items on three rings, and the selection of active rings. That
  selection is never empty, stays ascending and has no repeats. The module
  also gives the items shown for the rings, the label width, and the
  switch between datasets. This is module `Presentation`, class
  `ProcessPresentation`.
- **The user-action layer.** It holds the navigation bar's gated links and
  its mobile menu (module `Navigation`). It also holds the layout's
  Previous and Continue buttons and their theme colour (module
  `StageLayout`), and the application shell's logo, mount action and page
  dispatch (module `App`).

Component state that the source updates through React setters is a class
with mutable fields. Every handler is a method whose `modifies` clause
names the objects or fields it may change. The pure parts are functions: the percentage,
the access gate, label widths, filtering and toggling. The properties are
lemmas about those functions.

Two details of the source shape the model:

- The empathy calculator counts a field when its raw `.length` exceeds 10.
  Nothing trims the text first, so spaces count.
- Each edit schedules `calculateProgress` after 500 ms. The scheduled
  callback is the one captured by the render before the edit, so it reads
  the input as it was then. The model makes no claim about the value these
  callbacks leave behind (see "Left out").

## Model

| member | source | states |
|---|---|---|
| ProcessContext.Parse | src/context/ProcessContext.jsx:33 | a string names a stage exactly when it is `'home'` or one of the three `STAGES` values, and then the named stage's key is that string |
| ProcessContext.Key | src/context/ProcessContext.jsx:4-8 | only home has the key `'home'`; every other stage's key is the `STAGES` value (`StageKeys`) at its position less one |
| ProcessContext.ParseKey | src/context/ProcessContext.jsx:4-8 | parsing a stage's key gives the stage back; distinct stages have distinct keys |
| ProcessContext.StageKeysAreNonHomeStages | src/context/ProcessContext.jsx:4-8 | `STAGES` holds exactly the keys of the three stages other than home |
| ProcessContext.Index | src/context/ProcessContext.jsx:39-72 | each stage has a position from 0 (home) to 3 (materialization) along the order the navigator walks |
| ProcessContext.IndexInjective | src/context/ProcessContext.jsx:39-72 | no two stages share a position |
| ProcessContext.Next | src/context/ProcessContext.jsx:39-54 | `nextStage` moves one position forward and stays at materialization |
| ProcessContext.Prev | src/context/ProcessContext.jsx:57-72 | `prevStage` moves one position back and stays at home |
| ProcessContext.PrevAfterNext | src/context/ProcessContext.jsx:39-72 | `prevStage` after `nextStage` restores the stage iff the stage is not materialization |
| ProcessContext.NextAfterPrev | src/context/ProcessContext.jsx:39-72 | `nextStage` after `prevStage` restores the stage iff the stage is not home |
| ProcessContext.NextNIndex | src/context/ProcessContext.jsx:39-54 | `n` calls of `nextStage` advance the position by `n`, capped at materialization |
| ProcessContext.PrevNIndex | src/context/ProcessContext.jsx:57-72 | `n` calls of `prevStage` lower the position by `n`, floored at home |
| ProcessContext.WalkEnds | src/context/ProcessContext.jsx:39-72 | three or more `nextStage` calls from home reach materialization, and one more is a no-op; symmetrically, `prevStage` calls from materialization reach home |
| ProcessContext.Clamp | src/context/ProcessContext.jsx:78 | the stored value lies in [0, 100]; it equals the value inside that range, 0 below it and 100 above it |
| ProcessContext.Accessible | src/context/ProcessContext.jsx:83-96 | a string that names no stage is refused; home and empathy are always open; any later stage is open iff the progress of the stage before it is at least 50 |
| ProcessContext.ProcessProvider.IsStageAccessible | src/context/ProcessContext.jsx:83-96 | over the current progress: true for home and empathy, for reasoning iff empathy progress is at least 50, for materialization iff reasoning progress is at least 50, and false otherwise |
| ProcessContext.AccessibleStages | src/context/ProcessContext.jsx:83-96 | only a stage's name can be accessible (any other string is refused), and home and empathy always are |
| ProcessContext.GateReadsPreviousStage | src/context/ProcessContext.jsx:89-92 | whether reasoning or materialization is accessible depends only on the progress of the stage before it |
| ProcessContext.AccessibleMonotone | src/context/ProcessContext.jsx:83-96 | raising empathy or reasoning progress never closes an accessible stage |
| ProcessContext.InitiallyAccessible | src/context/ProcessContext.jsx:24-29 | at the initial progress, exactly home and empathy are accessible |
| ProcessContext.ProcessProvider.constructor | src/context/ProcessContext.jsx:24-29 | the navigator starts at home with all three progress values 0 |
| ProcessContext.ProcessProvider.GoToStage | src/context/ProcessContext.jsx:32-36 | a named stage becomes current whatever the progress; any other string changes nothing; progress never changes |
| ProcessContext.ProcessProvider.NextStage | src/context/ProcessContext.jsx:39-54 | the current stage becomes `Next` of the old one; progress unchanged |
| ProcessContext.ProcessProvider.PrevStage | src/context/ProcessContext.jsx:57-72 | the current stage becomes `Prev` of the old one; progress unchanged |
| ProcessContext.ProcessProvider.UpdateProgress | src/context/ProcessContext.jsx:75-80 | the named stage's progress becomes the clamped value; the other stages' progress and the current stage are unchanged; every value stays in [0, 100] |
| Completion.CountHolding | src/components/stages/empathy/EmpathyStage.jsx:132-137 | the counter is at most the number of conditions; it equals that number iff all hold, and 0 iff none holds |
| Completion.CountThree | src/components/stages/empathy/EmpathyStage.jsx:135-137 | counting three conditions equals bumping a counter once for each one that holds |
| Completion.CountIsMultiplicity | src/components/stages/reasoning/ReasoningStage.jsx:215-220 | the counter is the number of conditions that hold, independent of their order |
| Completion.Percentage | src/components/stages/empathy/EmpathyStage.jsx:139 | `floor(completed / 3 * 100)` is the largest whole percentage not above the exact ratio; it is 0, 33, 66 or 100; it is at least 50 iff at least two conditions hold, and 100 iff all three hold |
| Completion.PercentageMonotone | src/components/stages/reasoning/ReasoningStage.jsx:222 | more conditions met never gives a lower percentage |
| Completion.ThreeConditionsGate | src/context/ProcessContext.jsx:90-92 | the percentage of three conditions reaches the gate's 50 iff at least two of them hold |
| Empathy.With | src/components/stages/empathy/EmpathyStage.jsx:144-148 | the edited field takes the typed value and the other two fields keep theirs |
| Empathy.Conditions | src/components/stages/empathy/EmpathyStage.jsx:135-137 | the three tests, in source order, hold exactly for listening, observing and engaging being among the fields longer than ten characters |
| Empathy.EmpathyPercentage | src/components/stages/empathy/EmpathyStage.jsx:135-139 | the empathy percentage is one of 0, 33, 66, 100; it is 100 iff all three fields are longer than ten characters and 0 iff none is |
| Empathy.LongFieldsCount | src/components/stages/empathy/EmpathyStage.jsx:135-137 | the number of fields longer than ten characters is the sum of the three per-field tests |
| Empathy.CompletedCountsLongFields | src/components/stages/empathy/EmpathyStage.jsx:135-137 | `completed` is the number of fields whose raw length exceeds 10 |
| Empathy.UnlocksReasoning | src/components/stages/empathy/EmpathyStage.jsx:135-139 | the empathy percentage reaches 50, which opens reasoning, iff at least two fields exceed ten characters |
| Empathy.TenCharactersIsIncomplete | src/components/stages/empathy/EmpathyStage.jsx:135-137 | a field of exactly ten characters does not count: three such fields give 0 |
| Empathy.LongerTextNeverLowers | src/components/stages/empathy/EmpathyStage.jsx:135-139 | lengthening any fields never lowers the percentage |
| Empathy.TwoOfThreeExample | src/components/stages/empathy/EmpathyStage.jsx:135-139 | one short and two long answers give 66 |
| Empathy.EmpathyStage.constructor | src/components/stages/empathy/EmpathyStage.jsx:122-128 | the stage starts with three empty fields and local progress 0 |
| Empathy.EmpathyStage.CalculateProgress | src/components/stages/empathy/EmpathyStage.jsx:131-142 | the percentage is stored locally and as empathy progress, while the rest of the navigator state is unchanged; afterwards reasoning is accessible iff at least two fields exceed ten characters |
| Empathy.EmpathyStage.HandleInputChange | src/components/stages/empathy/EmpathyStage.jsx:144-148 | only the named field of the input changes |
| Empathy.EmpathyStage.Continue | src/components/layout/StageLayout.jsx:157-160 | on the empathy page, Continue first reports the percentage as empathy progress and then moves to `Next` of the current stage |
| Reasoning.OptionsAreDistinct | src/components/stages/reasoning/ReasoningStage.jsx:196-200 | thirteen pattern tags are offered, none twice |
| Reasoning.With | src/components/stages/reasoning/ReasoningStage.jsx:227-231 | the edited field takes the typed value and the other two fields keep theirs |
| Reasoning.Conditions | src/components/stages/reasoning/ReasoningStage.jsx:218-220 | the three tests, in source order: synthesis longer than ten characters, insights longer than ten characters, at least three tags selected |
| Reasoning.ReasoningPercentage | src/components/stages/reasoning/ReasoningStage.jsx:218-222 | the reasoning percentage is one of 0, 33, 66, 100; it is 100 iff all three conditions hold and 0 iff none does |
| Reasoning.UnlocksMaterialization | src/components/stages/reasoning/ReasoningStage.jsx:218-222 | the reasoning percentage reaches 50, which opens materialization, iff at least two of: synthesis longer than 10, insights longer than 10, at least three tags |
| Reasoning.PatternsTextIgnored | src/components/stages/reasoning/ReasoningStage.jsx:204-208 | editing the free-text `patterns` field never changes the percentage |
| Reasoning.TwoOfThreeExample | src/components/stages/reasoning/ReasoningStage.jsx:218-222 | a long synthesis, short insights and three tags give 66 |
| Reasoning.TogglePattern | src/components/stages/reasoning/ReasoningStage.jsx:237-243 | as a set, the selection gains the tag if it was absent and loses it if it was present, and nothing else changes |
| Reasoning.TogglePatternKeepsDistinct | src/components/stages/reasoning/ReasoningStage.jsx:237-243 | a selection without repeated tags keeps none after a toggle |
| Reasoning.ToggleTwice | src/components/stages/reasoning/ReasoningStage.jsx:237-243 | toggling a tag twice restores the set of selected tags, and restores the list itself when the tag was absent |
| Reasoning.WithoutAppend | src/components/stages/reasoning/ReasoningStage.jsx:239-241 | removing a just-appended absent tag gives the list back |
| Reasoning.ToggleTwiceReorders | src/components/stages/reasoning/ReasoningStage.jsx:237-243 | toggling a present tag twice may change the order: the tag moves to the end |
| Reasoning.ToggleStaysWithinOptions | src/components/stages/reasoning/ReasoningStage.jsx:196-200 | toggling offered tags keeps every selected tag among the offered ones |
| Reasoning.ReasoningStage.constructor | src/components/stages/reasoning/ReasoningStage.jsx:204-211 | the stage starts with empty fields, no tags and local progress 0 |
| Reasoning.ReasoningStage.CalculateProgress | src/components/stages/reasoning/ReasoningStage.jsx:214-225 | the percentage is stored locally and as reasoning progress, while the rest of the navigator state is unchanged; afterwards materialization is accessible iff at least two conditions hold |
| Reasoning.ReasoningStage.HandleInputChange | src/components/stages/reasoning/ReasoningStage.jsx:227-231 | only the named field of the input changes |
| Reasoning.ReasoningStage.TogglePatternClick | src/components/stages/reasoning/ReasoningStage.jsx:237-243 | the selection becomes its toggle and never holds a tag twice |
| Reasoning.ReasoningStage.Continue | src/components/layout/StageLayout.jsx:157-160 | on the reasoning page, Continue first reports the percentage as reasoning progress and then moves to `Next` of the current stage |
| Lists.Without | src/components/common/ProcessPresentation.jsx:316 | `filter(s => s !== x)` keeps every other element as many times as before and drops every `x`; a list without `x` is returned unchanged |
| Lists.WithoutKeepsDistinct | src/components/stages/reasoning/ReasoningStage.jsx:239 | removing a tag from a list without repeats leaves a list without repeats |
| Lists.WithoutKeepsIncreasing | src/components/common/ProcessPresentation.jsx:316 | removing a ring from an ascending list leaves it ascending |
| Lists.Insert | src/components/common/ProcessPresentation.jsx:319 | inserting adds exactly one occurrence of the element |
| Lists.InsertKeepsSorted | src/components/common/ProcessPresentation.jsx:319 | inserting into a sorted list keeps it sorted |
| Lists.InsertKeepsIncreasing | src/components/common/ProcessPresentation.jsx:319 | inserting an absent element into an ascending list keeps it strictly ascending |
| Lists.Sort | src/components/common/ProcessPresentation.jsx:319 | the sorted list is ordered and a permutation of its input |
| Lists.InsertLast | src/components/common/ProcessPresentation.jsx:319 | inserting into a sorted list an element no smaller than any of its elements appends it |
| Lists.SortSorted | src/components/common/ProcessPresentation.jsx:319 | sorting an already sorted list changes nothing |
| Lists.AppendSortIncreasing | src/components/common/ProcessPresentation.jsx:319 | `[...prev, stage].sort()` of an ascending list without `stage` is strictly ascending |
| Presentation.DatasetWellPlaced | src/components/common/ProcessPresentation.jsx:220-243 | every "miasto piękne" item lies on ring 1, 2 or 3, each of which has an `orbitConfig` radius (lines 332-336), at an angle in [0, 360) |
| Presentation.OrbitRadius | src/components/common/ProcessPresentation.jsx:332-336 | `orbitConfig` has a radius exactly for rings 1 to 3, namely 240, 400 and 560 (80 + 160 per ring) |
| Bounds.Min | src/components/common/ProcessPresentation.jsx:272 | `Math.min` is the smaller argument (also the upper clamp of src/context/ProcessContext.jsx:78) |
| Bounds.Max | src/components/common/ProcessPresentation.jsx:270 | `Math.max` is the larger argument (also the lower clamp of src/context/ProcessContext.jsx:78) |
| Presentation.LabelWidth | src/components/common/ProcessPresentation.jsx:264-273 | the width lies in [100, 280]; it is 100 up to 8 characters, `7 * length + 40` from 9 to 34 characters, and 280 from 35 |
| Presentation.LabelWidthMonotone | src/components/common/ProcessPresentation.jsx:270-272 | longer text never gets a narrower label |
| Presentation.ToggleRing | src/components/common/ProcessPresentation.jsx:312-321 | toggling the only active ring changes nothing; toggling another active ring removes exactly that ring; toggling an inactive ring adds exactly that ring |
| Presentation.ToggleRingKeepsValid | src/components/common/ProcessPresentation.jsx:312-321 | toggling keeps the selection non-empty, strictly ascending and within rings 1 to 3 |
| Presentation.TogglesKeepSelection | src/components/common/ProcessPresentation.jsx:253 | from `[1]` or any valid selection, no series of ring toggles empties the selection |
| Presentation.OnActiveRings | src/components/common/ProcessPresentation.jsx:327 | the filter never yields more items than the dataset |
| Presentation.OnActiveRingsMembers | src/components/common/ProcessPresentation.jsx:327 | an item is shown iff it is in the dataset and its ring is active |
| Presentation.OnActiveRingsConcat | src/components/common/ProcessPresentation.jsx:327 | filtering distributes over concatenation, so shown items keep their dataset order |
| Presentation.AllRingsShowAll | src/components/common/ProcessPresentation.jsx:327 | with the rings of all items active, every item is shown |
| Presentation.AllRingsShowDataset | src/components/common/ProcessPresentation.jsx:327 | with rings 1, 2 and 3 active, the whole "miasto piękne" dataset is shown |
| Presentation.DatasetFor | src/components/common/ProcessPresentation.jsx:292-308 | the two prepared maps load their empty datasets, and every other name, known or not, loads the "miasto piękne" items |
| Presentation.ProcessPresentation.constructor | src/components/common/ProcessPresentation.jsx:250-254 | the view starts on "miasto piękne" with ring 1 active, three iterations, and, once the filtering effect has run, the ring-1 items |
| Presentation.ProcessPresentation.RefreshItems | src/components/common/ProcessPresentation.jsx:324-330 | on "miasto piękne" the items become the dataset filtered by the active rings; on another map they stay as they are |
| Presentation.ProcessPresentation.ToggleStage | src/components/common/ProcessPresentation.jsx:312-321 | the rings become their toggle and stay valid, and the shown items follow the filter |
| Presentation.ProcessPresentation.HandleMapToggle | src/components/common/ProcessPresentation.jsx:289-309 | any map name is selected, with rings reset to `[1]` and three iterations; "miasto piękne" shows its ring-1 items, the two prepared maps show their empty datasets, and an unknown name shows all 17 items unfiltered |
| Navigation.LinksCoverStages | src/components/common/Navigation.jsx:208 | the link lists cover the three `STAGES` values in order, and never home; the shell's own bar (src/App.jsx:41) uses the same list |
| Navigation.UpperChar | src/components/common/Navigation.jsx:163 | a lower-case ASCII letter becomes its own capital (code point 32 lower), and any other character is kept |
| Navigation.StageName | src/components/common/Navigation.jsx:162-164 | the name has the key's length, its first character is that character upper-cased, and the rest of the key follows unchanged; the shell's bar (src/App.jsx:16-18) has the same helper |
| Navigation.LabelOf | src/components/common/Navigation.jsx:162-164 | a key starting with a lower-case letter is displayed as that letter's capital followed by the rest of the key |
| Navigation.LinkLabels | src/components/common/Navigation.jsx:215 | the links read "Empathy", "Reasoning" and "Materialization" |
| Navigation.StageColor | src/components/common/Navigation.jsx:167-178 | empathy gets the secondary colour, materialization the tertiary one, and reasoning and home the primary one, each iff |
| Navigation.LinkDisabled | src/components/common/Navigation.jsx:212 | a link is disabled iff it is reasoning with empathy progress below 50 or materialization with reasoning progress below 50 (the shell's links, src/App.jsx:45, are the same) |
| Navigation.LinkActive | src/components/common/Navigation.jsx:211 | a link is active iff its stage sits at the current stage's position (the shell's links, src/App.jsx:44, are the same) |
| Navigation.ActiveLinks | src/components/common/Navigation.jsx:211 | `active={currentStage === stage}` highlights at most one link and none on the home page; a stage entered through Continue is highlighted while its link is still disabled |
| Navigation.StageColors | src/components/common/Navigation.jsx:167-178 | the three stages have three different accent colours, and home shares reasoning's; the shell's bar (src/App.jsx:21-32) maps them the same way |
| Navigation.LinkClick | src/components/common/Navigation.jsx:211-213 | a desktop link click enters the stage iff its link is enabled, otherwise the stage is unchanged; progress is untouched, the link stays as it was, and an enabled link ends up highlighted; the shell's links (src/App.jsx:44-46) use the same gated click |
| Navigation.NavigationBar.constructor | src/components/common/Navigation.jsx:159 | the mobile menu starts closed |
| Navigation.NavigationBar.OpenMenu | src/components/common/Navigation.jsx:225 | the menu button opens the mobile menu |
| Navigation.NavigationBar.CloseMenu | src/components/common/Navigation.jsx:242 | the close button closes it |
| Navigation.NavigationBar.MobileLinkClick | src/components/common/Navigation.jsx:254-264 | an enabled mobile link enters its stage and closes the menu; a disabled one changes neither the stage nor the menu; progress is untouched |
| StageLayout.ShowsPrevious | src/components/layout/StageLayout.jsx:105 | the Previous button is shown iff `canGoBack` is not false, so an omitted prop shows it |
| StageLayout.ShowsContinue | src/components/layout/StageLayout.jsx:106 | the Continue button is shown iff `canContinue` is not false, so an omitted prop shows it |
| StageLayout.ThemeColor | src/components/layout/StageLayout.jsx:124 | the theme "reasoning" selects the primary colour, "empathy" the secondary one, and any other theme the tertiary one, each iff |
| StageLayout.ThemeMatchesNavigation | src/components/layout/StageLayout.jsx:124 | the layout's colour (reasoning primary, empathy secondary, anything else tertiary) agrees with the navigation accent on the three stage pages, and on no other stage key |
| StageLayout.StagePageButtons | src/components/stages/materialization/MaterializationStage.jsx:34-38 | the empathy page has no Previous button (EmpathyStage.jsx:165), the materialization page no Continue button, and the reasoning page has both |
| StageLayout.PreviousClick | src/components/layout/StageLayout.jsx:145 | Previous moves to `Prev` of the current stage and leaves progress alone |
| StageLayout.ContinueClick | src/components/layout/StageLayout.jsx:157-160 | after `onComplete`, Continue moves to `Next` of the current stage and leaves progress alone |
| StageLayout.ContinueIgnoresGate | src/components/layout/StageLayout.jsx:157-160 | Continue enters reasoning and materialization even when their gates are closed |
| App.PageFor | src/App.jsx:204-207 | only home maps to the home page |
| App.PagesShown | src/App.jsx:204-207 | the four conditional renderings yield exactly one page for each stage, namely that stage's page |
| App.PagesDistinguishStages | src/App.jsx:204-207 | different stages render different pages |
| App.Transparent | src/App.jsx:35 | the navigation bar gets the `transparent` class iff the current stage is home |
| App.LogoClick | src/App.jsx:36 | a logo click goes home whatever the progress, and leaves the progress alone |
| App.Mount | src/App.jsx:171-173 | mounting the shell sets the stage to home and leaves progress alone |
| App.Start | src/App.jsx:214-220 | a fresh shell shows the home page with a transparent bar; the empathy link is enabled and the reasoning and materialization links are disabled |
| App.ReenterEmpathy | src/App.jsx:196-207 | the empathy page is mounted afresh on entering the stage: continuing at once reports 0 for empathy, moves to reasoning and leaves reasoning locked |

## Left out

- The orbit rotation tick (src/components/common/ProcessPresentation.jsx:276-286) is not modelled. It is floating point driven by a 50 ms interval timer.
- Nothing about the rotation angles' sign is claimed. JavaScript's `%` keeps the sign, so `orbit2` drifts below zero.
- Polar-to-Cartesian placement, the dot offset and `getAdjustedPosition` are not modelled. They are trigonometry on floats; the last is the identity.
- The `setTimeout(calculateProgress, 500)` debounce after edits and tag toggles is not modelled. Its callbacks close over the input of an earlier render.
- Empathy.EmpathyStage.HandleInputChange: changes only the field, without the delayed recalculation. The calculator is a method run on the state at hand (on Continue, or when called).
- Reasoning.ReasoningStage.TogglePatternClick: changes only the selection, without the delayed recalculation, for the same reason.
- Progress percentages are integers. `updateProgress` in the source also accepts fractions and `NaN`, which no caller passes.
- `updateProgress` with a key other than the three stage names adds a property nothing reads. The model leaves the state unchanged for such a key.
- String lengths count Dafny characters. JavaScript's `.length` counts UTF-16 code units, which differ only outside the Basic Multilingual Plane.
- Navigation.UpperChar: upper-cases ASCII letters only. `toUpperCase` also maps other scripts, but the stage keys are ASCII.
- Presentation.ToggleRing: compares rings numerically when it sorts. The default `sort()` compares decimal strings, which orders the rings 1 to 3 the same way; the toggle buttons pass only 1, 2 and 3.
- Each page object stands for one mount of its page. The shell keys its transition wrapper by the current stage (src/App.jsx:196-207), so a page reached again starts from its constructor state; the model does not create or discard page objects on stage changes, and App.ReenterEmpathy shows one such remount.
- Presentation.OnActiveRings: the count of shown items per ring is not stated, only which items are shown and in what order.
- The ring labels, colours and progress-bar widths are display only. So are page transitions, scrolling to the top on stage change, CSS and motion variants.
- src/components/3d/ProcessCircle3D.jsx, src/components/pages/HomePage.jsx, src/components/common/Button.jsx and src/components/common/Footer.jsx are not part of this model. They are scenes, markup and styling; their stage clicks call the ungated `goToStage` already modelled.
- The materialization stage's content and its unused `updateProgress` are not part of this model. Only its layout props are: it never reports progress.
- vite.config.js is not part of this model. It is packaging.
- The React context plumbing is not modelled, including the error `useProcessContext` throws outside a provider. Components receive the `ProcessProvider` object directly.
