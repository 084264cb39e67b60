# Slide presentation on small language models: navigation, estimator and filmstrip

This project is a Dafny model of the logic inside a React slide deck about
small language models (SLMs). Everything else in that deck is markup, styling
and animation. The model covers three pieces:

- **The outer deck** (`src/App.tsx`). It holds the current chapter (chapter 1
  has 9 slides, chapter 2 has 8), the slide index and whether the navigation
  chrome is visible. `deck.dfy` gives each handler as a pure transition on a
  `Nav` value. The class `Navigator` keeps the same three cells as fields,
  and each of its methods is proved to match its transition and to keep the
  invariant `0 <= slideIndex < TotalSlides(chapter)`. Slide movement clamps
  and never wraps. While the chrome is hidden, only the five movement keys and
  `n`/`N` do anything.
- **The SLM explainer** (`src/SLMExplainer.tsx`).
  - `metrics.dfy` holds the pure estimator. It covers `clamp`, the device
    table, the body of `useMetrics`, the five-band badge classifier, the fixed
    7000M baseline and the MB/GB choice of `prettyMB`. The formulas use exact
    reals.
  - `explainer.dfy` holds the component's mutable state as the class
    `SlmExplainer`: the calculator settings plus an eight-slide counter that
    wraps at both ends. Its key handler is also given as a function.
  - `visuals.dfy` holds the small computations in the visualisation panels.
- **The filmstrip slide** (`src/chapters/slides/ch1-slide8.tsx`). It has a
  scroll position that moves one pixel per tick and wraps after 50 frames of
  210 px. The model also covers the cat number, bar width, accuracy and stage
  read-outs derived from that position, and the loop that builds the 60
  frames.

`js.dfy` models the JavaScript built-ins the source relies on:
`Array.prototype.findIndex` and `find`, reading an array out of bounds
(`undefined`), `Math.floor`, `Math.round` and the truncating `%`.

Three behaviours of the code are easy to get wrong:

- The 7000M comparison baseline is not the estimator run at 7000M. It has no
  clamp, no context factor and no 4-bit speed-up (`Metrics.BaselineIsNotTheEngine`).
- When the chrome is hidden, Escape is not on the list of allowed keys, so it
  is ignored. It would only have hidden the chrome anyway.
- The estimator clamps only the parameter count. The context length is used
  as given.

## Model

| member | source | states |
|---|---|---|
| Deck.TotalSlides | src/App.tsx:11-16 | chapter 1 has 9 slides and chapter 2 has 8, so every chapter has a slide 0 |
| Deck.Next | src/App.tsx:19-23 | the chapter and chrome are untouched; the index rises by one but never past the last slide (a no-op there); the invariant is kept |
| Deck.Previous | src/App.tsx:25-29 | the index falls by one but never below 0 (a no-op at slide 0); the invariant is kept |
| Deck.GoTo | src/App.tsx:31-35 | the index becomes `i` exactly when `0 <= i < total`, otherwise the state is unchanged; the invariant is kept |
| Deck.Toggled | src/App.tsx:37-39 | toggling flips the chrome and changes nothing else |
| Deck.Hidden | src/App.tsx:77-80 | Escape's action hides the chrome and keeps chapter and slide |
| Deck.WithChapter | src/App.tsx:42-44 | a different chapter starts at slide 0; the current chapter keeps its index; the chrome is kept; the result is always in range |
| Deck.AfterKey | src/App.tsx:48-82 | no key changes the chapter, and every key keeps the index in range |
| Deck.NextNClamps | src/App.tsx:19-23 | `k` advances give `min(index + k, total - 1)` and stay in the chapter |
| Deck.PreviousNClamps | src/App.tsx:25-29 | `k` steps back give `max(index - k, 0)` |
| Deck.NextFromFirstEndsOnLast | src/App.tsx:19-23 | advancing `total` times from slide 0 ends on the last slide |
| Deck.ArrowRightsAreNextN | src/App.tsx:55-64 | `k` ArrowRight presses are `k` advances, whether the chrome is visible or not |
| Deck.EndToEndScenario | src/App.tsx:5-82 | from load, 8 ArrowRights reach slide 8 of chapter 1, a 9th stays there, and Home returns to slide 0 |
| Deck.ChapterSwitchResets | src/App.tsx:42-44 | going from chapter 1 to chapter 2 gives chapter 2, slide 0, with the chrome setting kept |
| Deck.ToggleKeyInvolution | src/App.tsx:49-53 | `n`/`N` flips the chrome in every state, changes nothing else, and two presses restore the state |
| Deck.HiddenIgnoresOtherKeys | src/App.tsx:55-57 | with the chrome hidden, every key outside the movement keys and `n`/`N` (Escape included) is a no-op |
| Deck.HiddenMovementUnaffected | src/App.tsx:55-76 | with the chrome hidden, the movement keys act exactly as when it is visible |
| Deck.HomeAndEnd | src/App.tsx:69-76 | Home goes to slide 0 and End to slide `total - 1` |
| Deck.MovementKeys | src/App.tsx:55-70 | ArrowRight and Space advance and ArrowLeft goes back, whether the chrome is visible or not |
| Deck.VisibleIgnoresOtherKeys | src/App.tsx:48-82 | with the chrome visible, a key outside n, N, ArrowRight, Space, ArrowLeft, Home, End and Escape changes nothing |
| Deck.EscapeOnlyHides | src/App.tsx:77-80 | Escape with the chrome visible only hides it |
| Deck.KeysKeepChapter | src/App.tsx:48-82 | any run of key presses keeps the chapter and the invariant |
| Deck.Navigator.constructor | src/App.tsx:6-8 | the initial state is chapter 1, slide 0, chrome visible |
| Deck.Navigator.NextSlide | src/App.tsx:19-23 | the new state is `Next` of the old one, and the invariant holds |
| Deck.Navigator.PreviousSlide | src/App.tsx:25-29 | the new state is `Previous` of the old one, and the invariant holds |
| Deck.Navigator.GoToSlide | src/App.tsx:31-35 | the new state is `GoTo` of the old one, and the invariant holds |
| Deck.Navigator.ToggleNavigationControls | src/App.tsx:37-39 | the new state is `Toggled` of the old one |
| Deck.Navigator.SelectChapter | src/App.tsx:42-44 | a chapter button sets the chapter and resets the slide atomically, only when the chapter changes |
| Deck.Navigator.HandleKeyDown | src/App.tsx:48-82 | the handler's effect is `AfterKey`, and the invariant holds |
| Metrics.Clamp | src/SLMExplainer.tsx:17 | the result lies in `[lo, hi]`, is `n` inside the range and the nearer bound outside it (and `lo` if `lo > hi`) |
| Metrics.Profile | src/SLMExplainer.tsx:19-23 | the speed multipliers are 1.0 (desktop), 0.55 (mobile) and 3.2 (server); every memory multiplier is 1.0 |
| Metrics.EffectiveParams | src/SLMExplainer.tsx:37 | the parameter count the formulas use lies in `[1, 2000]` and equals the input inside that range |
| Metrics.ContextFactor | src/SLMExplainer.tsx:48 | the context penalty is at least 1, and exactly 1 up to 1024 tokens |
| Metrics.QuantFactor | src/SLMExplainer.tsx:49 | the factor is 1.15 exactly for 4-bit and 1.0 otherwise |
| Metrics.BaseTPS | src/SLMExplainer.tsx:47-51 | throughput is positive; the divisor `p * contextFactor` is at least 1, so there is no division by zero |
| Metrics.UseMetrics | src/SLMExplainer.tsx:34-67 | download equals weight size; memory is weights plus KV cache; weights, throughput and latency are positive; a non-negative context makes the cache non-negative |
| Metrics.MetricsUseClampedParams | src/SLMExplainer.tsx:37 | the metrics depend on the parameter count only through its clamp, so out-of-range inputs give the metrics of the nearer bound |
| Metrics.WeightAndCacheSizes | src/SLMExplainer.tsx:39-44 | weights are `p * 0.48828125` MB at 4 bits and `p * 1.953125` at 16 (four times as much); the KV cache is `0.0008 * p * contextLen` whatever the precision |
| Metrics.LongerContextCostsMore | src/SLMExplainer.tsx:43-51 | a longer context never shrinks the KV cache and never raises throughput |
| Metrics.BaseTPSAntitoneInContext | src/SLMExplainer.tsx:47-51 | the throughput formula is non-increasing in the context length |
| Metrics.BaseTPSAntitoneInParams | src/SLMExplainer.tsx:47-51 | the throughput formula is non-increasing in the parameter count |
| Metrics.ThroughputScalesWithDevice | src/SLMExplainer.tsx:50-51 | server throughput is 3.2 times desktop and mobile is 0.55 times desktop |
| Metrics.ThroughputByPrecision | src/SLMExplainer.tsx:49-51 | 4-bit throughput is exactly 1.15 times 16-bit throughput |
| Metrics.FirstTokenLatencyRange | src/SLMExplainer.tsx:53 | the latency clamp never binds: latency times the speed multiplier is `120 + 0.6 p`, within `[120.6, 1320]` |
| Metrics.DefaultMetrics | src/SLMExplainer.tsx:100-113 | the defaults give 24.4140625 MB of weights, 40.96 MB of cache, 65.3740625 MB in total, 46 tokens/s and 150 ms |
| Metrics.BadgesForParams | src/SLMExplainer.tsx:69-75 | there are always four labels |
| Metrics.BadgeBand | src/SLMExplainer.tsx:69-75 | the band is the first of `<= 20`, `<= 60`, `<= 200`, `<= 600` that holds, else band 4 |
| Metrics.BadgesFollowBands | src/SLMExplainer.tsx:69-75 | two parameter counts get the same labels exactly when they fall in the same band |
| Metrics.BadgeBandMonotone | src/SLMExplainer.tsx:69-75 | a larger parameter count never falls in a lower band |
| Metrics.LlmCompare | src/SLMExplainer.tsx:117-123 | the baseline throughput is positive |
| Metrics.BaselineValues | src/SLMExplainer.tsx:117-123 | the baseline is `2/7 * speedMul` tokens/s and 3417.96875 MB, whatever the context and precision |
| Metrics.BaselineIsNotTheEngine | src/SLMExplainer.tsx:117-123 | for every context up to 8192 tokens the estimator at 7000M clamps to 2000M (976.5625 MB) and so differs from the baseline in both download and throughput; up to 1024 tokens its 4-bit throughput is exactly 1.15 times the device multiplier |
| Metrics.SmallModelOutpacesBaseline | src/SLMExplainer.tsx:117-123 | within the slider ranges, the configured model is always faster than the baseline on the same device |
| Metrics.PrettyMB | src/SLMExplainer.tsx:25-28 | megabytes are chosen exactly below 1024; a gigabyte amount is at least 1; the printed amount converts back to the input |
| Metrics.PrettyMBThreshold | src/SLMExplainer.tsx:25-28 | 1023 MB prints as MB, 1024 MB as 1 GB, and the baseline download as GB |
| Explainer.NextIndex | src/SLMExplainer.tsx:176 | the next slide stays in `[0, 8)`, is one more except after the last slide, where it wraps to 0 |
| Explainer.PrevIndex | src/SLMExplainer.tsx:177 | the previous slide stays in `[0, 8)`, is one less except at slide 0, where it wraps to 7 |
| Explainer.AfterKeyPress | src/SLMExplainer.tsx:181-187 | key handling keeps the slide in `[0, 8)` |
| Explainer.PrevUndoesNext | src/SLMExplainer.tsx:176-177 | previous undoes next and next undoes previous |
| Explainer.NextIndexNIsModular | src/SLMExplainer.tsx:176 | `k` advances move `k` slides forward modulo 8 |
| Explainer.EightAdvancesCycle | src/SLMExplainer.tsx:176 | eight advances return to the starting slide |
| Explainer.PresentKeyToggles | src/SLMExplainer.tsx:184 | `p`/`P` flips presenting and nothing else; two presses restore the state |
| Explainer.AutoPlayKeyToggles | src/SLMExplainer.tsx:185 | `a`/`A` flips auto-play and nothing else; two presses restore the state |
| Explainer.TimerArmed | src/SLMExplainer.tsx:193-198 | the auto-advance timer can be pending only while presenting, and never with auto-play off |
| Explainer.KeysDisarmTimer | src/SLMExplainer.tsx:182-198 | an armed timer is disarmed by 'p', 'a' and Escape, and stays armed when an arrow moves the slide |
| Explainer.EscapeStopsPresenting | src/SLMExplainer.tsx:186 | Escape sets presenting to false, disarms the timer, and is idempotent |
| Explainer.ArrowsMoveInEveryMode | src/SLMExplainer.tsx:182-183 | arrows and Space move the slide whether or not the viewer is presenting, and leave both flags alone |
| Explainer.OtherKeysIgnored | src/SLMExplainer.tsx:181-187 | every other key leaves the presentation state unchanged |
| Explainer.SlmExplainer.constructor | src/SLMExplainer.tsx:100-106 | the defaults are 50M, 1024 tokens, desktop, 4-bit, slide 0, not presenting, auto-play off |
| Explainer.SlmExplainer.CurrentMetrics | src/SLMExplainer.tsx:108-113 | the shown memory is weights plus KV cache for the current settings |
| Explainer.SlmExplainer.NextSlide | src/SLMExplainer.tsx:176 | only the slide changes; it becomes `NextIndex` of the old one |
| Explainer.SlmExplainer.PrevSlide | src/SLMExplainer.tsx:177 | only the slide changes; it becomes `PrevIndex` of the old one |
| Explainer.SlmExplainer.HandleKeyPress | src/SLMExplainer.tsx:181-187 | the handler's effect is `AfterKeyPress`, and the settings are untouched |
| Explainer.SlmExplainer.SetIsPresenting | src/SLMExplainer.tsx:293 | the start and exit buttons set presenting and nothing else |
| Explainer.SlmExplainer.ToggleAutoPlay | src/SLMExplainer.tsx:436 | the auto button flips auto-play and nothing else |
| Explainer.SlmExplainer.AutoAdvance | src/SLMExplainer.tsx:193-198 | an armed timer that fires advances the slide with wrap-around |
| Explainer.SlmExplainer.SetParamsM | src/SlideComponents.tsx:685 | the parameter slider sets the setting and nothing else |
| Explainer.SlmExplainer.SetContextLen | src/SlideComponents.tsx:725 | the context slider sets the setting and nothing else |
| Explainer.SlmExplainer.SetDevice | src/SlideComponents.tsx:744 | the device selector sets the setting and nothing else |
| Explainer.SlmExplainer.SetQuantBits | src/SlideComponents.tsx:758-769 | the precision radio buttons set the setting and nothing else |
| Visuals.ModelBarHeight | src/SLMExplainer.tsx:1332 | the bar is 10 to 40 px: 10 px up to 500M, 40 px from 2000M, and proportional to `paramsM / 2000` in between |
| Visuals.ContextBarHeight | src/SLMExplainer.tsx:1333 | the bar is 10 to 40 px: 10 px up to 2048 tokens, 40 px from 8192, and proportional to `contextLen / 8192` in between |
| Visuals.QuantBarHeight | src/SLMExplainer.tsx:1334 | the bar is 15 px exactly for 4-bit and 30 px otherwise |
| Visuals.BarHeightsMonotone | src/SLMExplainer.tsx:1332-1333 | a larger model or context never gives a shorter bar |
| Visuals.SizeVerdict | src/SLMExplainer.tsx:1425-1434 | the verdict is large exactly above 1000M and small exactly up to 500M |
| Visuals.SizeVerdictMonotone | src/SLMExplainer.tsx:1425-1434 | a larger model never gets a smaller verdict |
| Visuals.MemoryShares | src/SLMExplainer.tsx:1442-1444 | when memory is weights plus cache, the two percentages add up to 100 |
| Visuals.SharesFillTheBar | src/SLMExplainer.tsx:1442-1444 | for any non-negative context, total memory is positive and the two segments fill the bar exactly |
| Visuals.GraphBarHeight | src/SLMExplainer.tsx:1520 | each graph bar is 20 to 80 px |
| Visuals.GraphBarHeights | src/SLMExplainer.tsx:1520 | bars shrink as the size grows: 80, 64 and 32 px for 5M, 50M and 100M, and 20 px from 250M on |
| Visuals.FirstSizeAtLeast | src/SLMExplainer.tsx:1504 | the search yields -1 or an index of the size list |
| Visuals.FirstSizeAtLeastMeaning | src/SLMExplainer.tsx:1504 | the search finds something exactly when `paramsM <= 2000`, and then it is the first size at least `paramsM` |
| Visuals.GraphIndexAsWritten | src/SLMExplainer.tsx:1504 | the index as written is 6 for `paramsM <= 5`, -1 exactly above 2000, and the first size at least `paramsM` otherwise |
| Visuals.GraphIndex | src/SLMExplainer.tsx:1504 | the intended index is always a bar: the first size at least `paramsM`, or the last bar |
| Visuals.MarkerLeftPercent | src/SLMExplainer.tsx:1545 | the marker is at 2% for the first bar and 94% for the last, within [2, 94] for every bar, and left of the graph for a negative index |
| Visuals.MarkerOnGraph | src/SLMExplainer.tsx:1545 | with the intended index the marker stays between 2% and 94% |
| Visuals.GraphIndexAsWrittenMisses | src/SLMExplainer.tsx:1503-1504 | as written, 5M highlights the 2000M bar, and 2500M highlights nothing and puts the marker left of the graph |
| Visuals.GraphIndexAgreesElsewhere | src/SLMExplainer.tsx:1504 | for `5 < paramsM <= 2000` the written and intended indices agree |
| Filmstrip.StepPosition | src/chapters/slides/ch1-slide8.tsx:27-33 | one tick keeps the position in `(-10500, 0]`: one pixel left, or back to 0 after a full strip |
| Filmstrip.TicksFromZero | src/chapters/slides/ch1-slide8.tsx:27-33 | from 0 the position after `k < 10500` ticks is `-k` |
| Filmstrip.TicksPeriodic | src/chapters/slides/ch1-slide8.tsx:27-33 | 10500 ticks return every position to itself, and from 0 no shorter run returns to 0 |
| Filmstrip.TicksStayInStrip | src/chapters/slides/ch1-slide8.tsx:27-33 | any number of ticks keeps the position in the strip |
| Filmstrip.CatNumber | src/chapters/slides/ch1-slide8.tsx:94 | the cat number is always between 1 and 50 |
| Filmstrip.CatNumberWithinStrip | src/chapters/slides/ch1-slide8.tsx:38 | within the strip the `% 50` never changes the cat number |
| Filmstrip.LearningProgress | src/chapters/slides/ch1-slide8.tsx:39 | the progress bar is at most 100%, and at least 2% for a cat number in `[1, 50]` |
| Filmstrip.DisplayedAccuracy | src/chapters/slides/ch1-slide8.tsx:137 | the displayed accuracy is at most 95%, and at least 2% for any cat |
| Filmstrip.ReadoutBounds | src/chapters/slides/ch1-slide8.tsx:137 | for every position the bar lies in `[2, 100]` and the accuracy in `[2, 95]` |
| Filmstrip.CurrentStage | src/chapters/slides/ch1-slide8.tsx:92 | the current stage is one of the four stages |
| Filmstrip.NextStage | src/chapters/slides/ch1-slide8.tsx:93 | a next stage is the stage with the lowest threshold above the progress, and one exists for every progress in [0, 75) |
| Filmstrip.CurrentStageIsAlwaysLearning | src/chapters/slides/ch1-slide8.tsx:92 | for any progress `>= 0` the current stage is "Learning", with threshold 0 |
| Filmstrip.NextStageUndefinedIffMastered | src/chapters/slides/ch1-slide8.tsx:93 | the next stage is undefined exactly when the progress is at least 75 |
| Filmstrip.StagesDiffer | src/chapters/slides/ch1-slide8.tsx:148 | a next stage's threshold always differs from the current one's, so the status line never divides by zero |
| Filmstrip.StatusPercent | src/chapters/slides/ch1-slide8.tsx:148 | the "% to next stage" figure lies in `[0, 100]` and is absent exactly when there is no next stage |
| Filmstrip.GenerateFilmstripFrames | src/chapters/slides/ch1-slide8.tsx:47-90 | there are 60 frames; frame `i` shows cat `i % 50 + 1`, image `i % 4` and gradient `i % 4`; the last 10 repeat the first 10 cat numbers |
| Filmstrip.FilmstripLearning.constructor | src/chapters/slides/ch1-slide8.tsx:4-6 | the strip starts at position 0 with no progress |
| Filmstrip.FilmstripLearning.Tick | src/chapters/slides/ch1-slide8.tsx:26-41 | the position steps; progress and the example count update only when the position before the step is a multiple of 20 |

## Left out

- Timers: the 8-second auto-advance `setTimeout`/`clearTimeout` and the 20 ms `setInterval` are asynchronous scheduling. `Explainer.TimerArmed` states when a timer is pending. `AutoAdvance` and `Tick` model one firing each.
- The React effect that resets the slide index runs after the render that changed the chapter. For that one render, the old index is shown against the new chapter's length. The model treats chapter selection as one atomic step.
- The chapter components pick which slide to render, with any out-of-range index showing the first slide. This is rendering glue.
- Device keys: the source looks profiles up by display strings. The model uses an enumeration of the three selectable devices.
- Floating point: all formulas use exact reals. The rounding of `toFixed`, `toLocaleString` and IEEE arithmetic is not modelled. `PrettyMB` models only the MB/GB choice and the amount before rounding. `prettyNum` is not modelled.
- Visuals.MemoryShares: requires total memory to be non-zero. The source would produce NaN or Infinity there, which exact reals cannot represent. That state cannot arise for a non-negative context.
- Js.Rem: for a negative dividend, the contract only bounds the result to `(-n, 0]`. Every call in the model has a non-negative dividend.
- The DOM manipulation, animation, random particle layouts and static content of the other slides have no logic to state.
- The `examplesProcessed` counter is modelled as a field, although the slide never reads it.

## Findings

| source | as written | input that shows it | evidently intended | confidence | as-written member | corrected member |
|---|---|---|---|---|---|---|
| src/SLMExplainer.tsx:1504 | `sizes.findIndex(size => size >= paramsM) \|\| sizes.length - 1` treats the found index 0 as "not found" and keeps the real "not found" value -1 | `paramsM = 5` (one of the quick-pick sizes) highlights the 2000M bar instead of the 5M bar; `paramsM = 2500` highlights no bar and puts the marker at -13.3% | the first size at least `paramsM`, or the last bar when every size is smaller | not executed; high. The panel is reached only from a slide the presentation does not mount | Visuals.GraphIndexAsWritten, Visuals.GraphIndexAsWrittenMisses | Visuals.GraphIndex, Visuals.MarkerOnGraph |
