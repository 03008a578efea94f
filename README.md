# Smart-contract audit front end, modelled in Dafny

This project models the logic inside the components and pages of a React front end
for AI-assisted smart-contract audits. The front end has a three-step submission
wizard, a simulated "AI auditors at work" loading screen, and an audit report with
severity summary and NFT token id. It also has the trust-score ring with its count-up
animation, audit NFT cards that flip, a search and filter bar, a notification bell
with its store, analytics charts, a code editor panel and a wallet-connect widget.

Each source file is one module:

| module | source file | form |
|---|---|---|
| `LoadingScreen` | `src/components/LoadingScreen.tsx` | pure step function `Step` plus the class `LoadingScreenView`, whose `Tick` is proved equal to `Step` |
| `SubmitAudit` | `src/pages/SubmitAudit.tsx` | pure `CanProceed`, `Progress`, `NextStep`, `PreviousStep`; class `Wizard` keeps the reachable-state invariant |
| `SearchAndFilter` | `src/components/SearchAndFilter.tsx` | method `ActiveFilterCount` (the counting `if`s) against `ActiveFacets`; pure record update; class `FilterPanel` |
| `NotificationSystem` | `src/components/NotificationSystem.tsx` | pure list functions; class `NotificationStore` for `useNotifications` |
| `AnalyticsChart` | `src/components/AnalyticsChart.tsx` | pure |
| `TrustScore` | `src/components/TrustScore.tsx` | pure lookups and step rule; class `ScoreDisplay` for the interval |
| `NftCard` | `src/components/NFTCard.tsx` | pure lookups; class `Card` with `isFlipped`/`isHovered` |
| `AuditReport` | `src/pages/AuditReport.tsx` | pure |
| `WalletConnect` | `src/components/WalletConnect.tsx` | pure label and view; class `Widget` with `isOpen` |
| `CodeEditor` | `src/components/CodeEditor.tsx` | pure counts and labels; class `Editor` with `copied` |

Two helper modules are shared by the others. `JsText` models the JavaScript string
built-ins the components call: `slice`, `substring`, `split` on one character, `trim`,
`toLowerCase`/`toUpperCase`, and number-to-text. `Optional` supplies an `Option` type,
used for optional props and conditionally rendered parts.

Timers are modelled as explicit method calls: one call of `Tick` is one firing of an
interval. Random numbers, the current time and locale formatting are parameters.

## Model

| member | source | states |
|---|---|---|
| JsText.Take | src/components/WalletConnect.tsx:27 | `slice(0, n)` has length min(n, length) and is a prefix of the text |
| JsText.TakeLast | src/components/NFTCard.tsx:108 | `slice(-n)` has length min(n, length) and is the text's suffix of that length |
| JsText.Substring | src/pages/AuditReport.tsx:334 | `substring(start)` is what follows the first `start` characters, and "" past the end |
| JsText.Split | src/components/CodeEditor.tsx:72 | `split(c)` gives one more part than there are `c` characters, and no part contains `c` |
| JsText.JoinSplit | src/components/CodeEditor.tsx:72 | joining the parts of a split with the separator gives back the text |
| JsText.SplitJoin | src/components/CodeEditor.tsx:72 | splitting a join of separator-free parts gives back the parts |
| JsText.Join | src/components/CodeEditor.tsx:72 | the inverse of `split`: see `JsText.JoinSplit` and `JsText.SplitJoin` |
| JsText.TrimStart | src/pages/SubmitAudit.tsx:50-51 | the result is a suffix; everything removed is white space; the result is empty or starts with a non-space |
| JsText.TrimEnd | src/pages/SubmitAudit.tsx:50-51 | the result is a prefix; everything removed is white space; the result is empty or ends with a non-space |
| JsText.Trim | src/pages/SubmitAudit.tsx:50-51 | `trim()`: empty exactly for a blank text, see `JsText.TrimEmptyIffBlank` |
| JsText.TrimEmptyIffBlank | src/pages/SubmitAudit.tsx:50-51 | `trim().length > 0` exactly when the text has a non-white-space character |
| JsText.ToLower | src/pages/AuditReport.tsx:123 | same length; each character is its lower-case form |
| JsText.ToUpper | src/components/CodeEditor.tsx:66 | same length; each character is its upper-case form |
| JsText.NatToString | src/components/NotificationSystem.tsx:41 | a number's decimal text is non-empty, all digits, and starts with "0" only for 0 (no leading zero) |
| JsText.ParseNatToString | src/components/NotificationSystem.tsx:57 | reading the decimal text of a number back gives the number |
| JsText.NatToStringInjective | src/components/NotificationSystem.tsx:41-43 | different numbers have different decimal texts |
| LoadingScreen.StageIndexOf | src/components/LoadingScreen.tsx:49 | `Math.floor((progress / 100) * stages.length)`: its range and monotonicity are used by `LoadingScreen.StepInv` and `LoadingScreen.CompletionLabel` |
| LoadingScreen.Step | src/components/LoadingScreen.tsx:38-54 | a tick never lowers progress and keeps it ≤ 100; the bar shows the new progress; the interval stays scheduled exactly while the sum is below 100; stopping leaves exactly 100 |
| LoadingScreen.StartInv | src/components/LoadingScreen.tsx:35-36 | a run starts within the invariant: progress 0, stage index 0, index following progress |
| LoadingScreen.StepInv | src/components/LoadingScreen.tsx:39-53 | a tick keeps the invariant: progress in [0, 100], stage index a valid index (< 5) following the progress, non-zero index shown as its text; the index never decreases |
| LoadingScreen.StepLabel | src/components/LoadingScreen.tsx:50-53 | a tick either keeps the label or sets it to stage 1 to 4; stage 0's text is never assigned |
| LoadingScreen.CompletionLabel | src/components/LoadingScreen.tsx:41-50 | at 100 the computed index is 5 and is rejected; the label stays "Generating report" |
| LoadingScreen.Ticks | src/components/LoadingScreen.tsx:38-54 | successive firings of the interval: see `LoadingScreen.TicksInv`, `LoadingScreen.TicksStop` and `LoadingScreen.StopsWithinTwentyTicks` |
| LoadingScreen.TicksInv | src/components/LoadingScreen.tsx:38-54 | any number of ticks keeps the invariant and never lowers progress or stage index |
| LoadingScreen.TicksStop | src/components/LoadingScreen.tsx:39-44 | when 5 per remaining tick would reach 100, the run stops at exactly 100 |
| LoadingScreen.StopsWithinTwentyTicks | src/components/LoadingScreen.tsx:39-44 | a run from 0 with any 20 increments in [5, 20) has stopped at 100 |
| LoadingScreen.LabelHeldInStageZero | src/components/LoadingScreen.tsx:35-53 | while the stage index stays 0, the label is the one the run started with |
| LoadingScreen.LabelHeldBelowTwenty | src/components/LoadingScreen.tsx:35-53 | in a run from the start, the label stays the `stage` prop until progress reaches 20 |
| LoadingScreen.Scenarios | src/components/LoadingScreen.tsx:39-53 | from 0 a tick of 15 gives progress 15 in stage 0; progress 82 is in stage 4 |
| LoadingScreen.FindStage | src/components/LoadingScreen.tsx:117 | `findIndex` gives the first position of the label in the stages, or -1 exactly when it is absent |
| LoadingScreen.DotLit | src/components/LoadingScreen.tsx:116-119 | the colour test of one dot: see `LoadingScreen.DotsLit` |
| LoadingScreen.DotsLit | src/components/LoadingScreen.tsx:113-121 | dot i is lit exactly when the label's stage position is ≥ i; no dot is lit for a label outside the stages |
| LoadingScreen.DefaultStageUnlit | src/components/LoadingScreen.tsx:113-120 | the default `stage` prop "Initializing analysis" is not a stage text, so no dot is lit for it |
| LoadingScreen.LoadingScreenView.constructor | src/components/LoadingScreen.tsx:21-38 | mounting shows 0 and the `stage` prop; a visible screen schedules the interval |
| LoadingScreen.LoadingScreenView.Tick | src/components/LoadingScreen.tsx:38-54 | the callback's updates of `progressValue`, `stageIndex`, `displayProgress` and `currentStage` are exactly `Step`, and keep the invariant |
| LoadingScreen.LoadingScreenView.SetVisible | src/components/LoadingScreen.tsx:32-57 | hiding clears the interval; showing restarts the run from 0 and leaves the shown progress and label alone; no change changes nothing |
| TrustScore.Percentage | src/components/TrustScore.tsx:13 | the ring percentage is ≤ 100; it is 100 exactly when score ≥ maxScore; it is non-negative for non-negative scores; below the cap it is score/maxScore·100 |
| TrustScore.BandRanges | src/components/TrustScore.tsx:42-52 | the bands are [80, ∞), [60, 80) and below 60 |
| TrustScore.ScoreColor | src/components/TrustScore.tsx:42-46 | `getScoreColor`: one class per band, see `TrustScore.ColoursFollowBands` |
| TrustScore.GlowColor | src/components/TrustScore.tsx:48-52 | `getGlowColor`: one class per band, see `TrustScore.ColoursFollowBands` |
| TrustScore.DropShadowColor | src/components/TrustScore.tsx:77-78 | the ring's drop-shadow colour: one per band, see `TrustScore.ColoursFollowBands` |
| TrustScore.ColoursFollowBands | src/components/TrustScore.tsx:42-78 | text colour, glow and drop shadow each coincide for two scores exactly when the scores share a band |
| TrustScore.AnimationStep | src/components/TrustScore.tsx:24-31 | the next display value never exceeds the score; it is the score once reached; below the score it is `Math.min(prev + score/50, score)`, never below prev |
| TrustScore.Animate | src/components/TrustScore.tsx:25-33 | n firings of the 20 ms interval: see `TrustScore.AnimateFromZero` and `TrustScore.ReachesScoreInFiftySteps` |
| TrustScore.AnimateFromZero | src/components/TrustScore.tsx:24-31 | from 0, after k ≤ 50 steps, the display is exactly k·score/50 |
| TrustScore.ReachesScoreInFiftySteps | src/components/TrustScore.tsx:27-31 | a positive score is shown after 50 steps and stays after the 51st |
| TrustScore.ScoreDisplay.constructor | src/components/TrustScore.tsx:12-39 | an animated display starts at 0 and ticks; otherwise it shows the score at once |
| TrustScore.ScoreDisplay.Tick | src/components/TrustScore.tsx:25-33 | a firing applies `AnimationStep`; the interval is cleared exactly when the score was already reached |
| NotificationSystem.UnreadCount | src/components/NotificationSystem.tsx:24 | the unread count is at most the list length, and 0 exactly when every entry is read |
| NotificationSystem.Badge | src/components/NotificationSystem.tsx:55-58 | the bell badge: see `NotificationSystem.BadgeText` |
| NotificationSystem.BadgeText | src/components/NotificationSystem.tsx:55-58 | the badge is hidden exactly at 0 unread, reads "9+" above 9, and otherwise reads back as the count |
| NotificationSystem.MarkedAsRead | src/components/NotificationSystem.tsx:164-168 | same length and order; entries with the id are read, all others unchanged |
| NotificationSystem.MarkedAsReadUnread | src/components/NotificationSystem.tsx:164-168 | marking lowers the unread count by exactly the unread entries with that id |
| NotificationSystem.MarkedAsReadEffect | src/components/NotificationSystem.tsx:164-168 | marking never raises the unread count; every entry with the id is read afterwards |
| NotificationSystem.MarkedAsReadIdempotent | src/components/NotificationSystem.tsx:164-168 | marking the same id twice is marking it once |
| NotificationSystem.FormatTime | src/components/NotificationSystem.tsx:35-44 | `formatTime` on the millisecond age: see `NotificationSystem.FormatTimeBuckets`, `NotificationSystem.FormatTimeShape` and `NotificationSystem.FormatTimeSameText` |
| NotificationSystem.FormatTimeBuckets | src/components/NotificationSystem.tsx:35-44 | below one minute (negative included) "Just now"; then minutes below an hour; hours below a day; days otherwise |
| NotificationSystem.FormatTimeShape | src/components/NotificationSystem.tsx:41-43 | from one minute on, the text is a number, the unit letter m, h or d, and " ago" |
| NotificationSystem.FormatTimeSameText | src/components/NotificationSystem.tsx:38-43 | two ages give the same text only when they fall in the same bucket with the same count |
| NotificationSystem.EmptyStateOrClearAll | src/components/NotificationSystem.tsx:69-93 | exactly one of "No notifications yet" and "Clear All" shows, the former exactly for an empty list |
| NotificationSystem.NotificationStore.constructor | src/components/NotificationSystem.tsx:138 | the store starts empty |
| NotificationSystem.NotificationStore.AddNotification | src/components/NotificationSystem.tsx:140-154 | a new unread entry is prepended; the old entries follow unchanged and in order; one more unread |
| NotificationSystem.NotificationStore.MarkAsRead | src/components/NotificationSystem.tsx:164-168 | the list becomes `MarkedAsRead` of the old list; unread never rises |
| NotificationSystem.NotificationStore.ClearAll | src/components/NotificationSystem.tsx:170-172 | the list becomes empty |
| SearchAndFilter.ActiveFacets | src/components/SearchAndFilter.tsx:40-48 | the facets the counter increments for, in its order: see `SearchAndFilter.ActiveFacetsExact` |
| SearchAndFilter.ActiveFilterCount | src/components/SearchAndFilter.tsx:40-48 | the counting `if`s return the number of facets departing from the defaults |
| SearchAndFilter.ActiveFacetsExact | src/components/SearchAndFilter.tsx:40-48 | a facet is counted exactly when it departs from its default, none is counted twice, and the count is at most 5 |
| SearchAndFilter.ActiveFacetsDistinct | src/components/SearchAndFilter.tsx:40-48 | each facet is tested once, so none is listed twice |
| SearchAndFilter.ActiveCountZeroIffCleared | src/components/SearchAndFilter.tsx:42-59 | the count is 0 exactly for the record `clearFilters` sends, so clearing gives 0 |
| SearchAndFilter.SortCountsOnce | src/components/SearchAndFilter.tsx:46 | the sort field and order together add at most 1 |
| SearchAndFilter.SearchCountsWithoutTrim | src/components/SearchAndFilter.tsx:42 | the search counts exactly when non-empty, a white-space-only search included |
| SearchAndFilter.Field | src/components/SearchAndFilter.tsx:61 | reading a key yields a value of that key |
| SearchAndFilter.UpdateFilter | src/components/SearchAndFilter.tsx:61-63 | `{ ...filters, [key]: value }`: see `SearchAndFilter.UpdateFilterFrame`, `SearchAndFilter.UpdateFilterOwnValue` and `SearchAndFilter.UpdatesCommute` |
| SearchAndFilter.UpdateFilterFrame | src/components/SearchAndFilter.tsx:61-63 | `updateFilter(k, v)` sets k to v and leaves every other key unchanged |
| SearchAndFilter.UpdateFilterOwnValue | src/components/SearchAndFilter.tsx:61-63 | writing back a key's current value changes nothing |
| SearchAndFilter.UpdatesCommute | src/components/SearchAndFilter.tsx:61-63 | updates of two different keys commute |
| SearchAndFilter.ActiveSummary | src/components/SearchAndFilter.tsx:261-263 | the "filter(s) active" text: see `SearchAndFilter.ActiveSummaryText` |
| SearchAndFilter.ActiveSummaryText | src/components/SearchAndFilter.tsx:261-263 | the inner count guard of "n filter(s) active" passes exactly for n > 0 (the footer's own guard is in `SearchAndFilter.ClearShownIffFiltersSet`), with "s" exactly when n ≠ 1 |
| SearchAndFilter.ResultSummary | src/components/SearchAndFilter.tsx:257-258 | the results line: see `SearchAndFilter.ResultSummaryPlural` |
| SearchAndFilter.ResultSummaryPlural | src/components/SearchAndFilter.tsx:257 | "n result(s) found" has "s" exactly when n ≠ 1 |
| SearchAndFilter.ShowsBadge | src/components/SearchAndFilter.tsx:86-90 | the badge's `activeFilterCount > 0` guard: see `SearchAndFilter.ClearShownIffFiltersSet` |
| SearchAndFilter.ShowsClearAll | src/components/SearchAndFilter.tsx:95-113 | "Clear All" needs the card open (`isFilterOpen`) and a non-zero count: see `SearchAndFilter.ClearShownIffFiltersSet` |
| SearchAndFilter.ResultsFooter | src/components/SearchAndFilter.tsx:254-274 | the footer, rendered only when `resultCount` is passed, with the results line and the guarded active summary: see `SearchAndFilter.ClearShownIffFiltersSet` |
| SearchAndFilter.ClearShownIffFiltersSet | src/components/SearchAndFilter.tsx:86-274 | the badge shows exactly while the filters differ from the cleared record; "Clear All" exactly while also the card is open; the footer exactly when `resultCount` is passed, and its Clear button exactly while also the filters differ; none shows after clearing |
| SearchAndFilter.FilterPanel.constructor | src/components/SearchAndFilter.tsx:38 | the advanced filters start closed |
| SearchAndFilter.FilterPanel.Toggle | src/components/SearchAndFilter.tsx:81 | the Filters button flips the panel |
| SearchAndFilter.FilterPanel.Close | src/components/SearchAndFilter.tsx:117 | the X button closes the panel |
| SubmitAudit.NextStep | src/pages/SubmitAudit.tsx:31-35 | `handleNext`: see `SubmitAudit.StepMoves` |
| SubmitAudit.PreviousStep | src/pages/SubmitAudit.tsx:37-41 | `handlePrevious`: see `SubmitAudit.StepMoves` |
| SubmitAudit.StepMoves | src/pages/SubmitAudit.tsx:31-41 | both moves keep the step in 1..3; Next is a no-op exactly at 3, Previous exactly at 1; inside, they undo each other |
| SubmitAudit.CanProceed | src/pages/SubmitAudit.tsx:48-55 | `canProceed()`: see `SubmitAudit.CanProceedRules` |
| SubmitAudit.CanProceedRules | src/pages/SubmitAudit.tsx:48-55 | step 1 needs non-blank code, step 2 non-blank name and description, step 3 nothing, other steps fail; the original prompt never matters |
| SubmitAudit.Progress | src/pages/SubmitAudit.tsx:29 | the progress bar value: see `SubmitAudit.ProgressFacts` |
| SubmitAudit.ProgressFacts | src/pages/SubmitAudit.tsx:29 | progress lies in (0, 100], grows with the step and is 100 exactly at step 3 |
| SubmitAudit.ReviewedFormValid | src/pages/SubmitAudit.tsx:48-55 | at the review step every step's check passes |
| SubmitAudit.ReviewCountsFacts | src/pages/SubmitAudit.tsx:187-194 | at review the code has ≥ 1 character (Unicode characters, not UTF-16 code units) and line-breaks + 1 lines, the same figures as the editor's row |
| SubmitAudit.Wizard.constructor | src/pages/SubmitAudit.tsx:15-21 | the wizard starts at step 1 with an empty form |
| SubmitAudit.Wizard.ClickNext | src/pages/SubmitAudit.tsx:248-256 | Next advances exactly when `canProceed()` enables it; the form is unchanged; steps ≥ 2 only follow non-blank code, step 3 only non-blank details |
| SubmitAudit.Wizard.ClickPrevious | src/pages/SubmitAudit.tsx:37-41 | Previous applies `handlePrevious` and keeps the invariant |
| SubmitAudit.Wizard.EditCode | src/pages/SubmitAudit.tsx:106 | the step-1 editor changes only `code` |
| SubmitAudit.Wizard.EditProjectName | src/pages/SubmitAudit.tsx:137 | the step-2 input changes only `projectName` |
| SubmitAudit.Wizard.EditDescription | src/pages/SubmitAudit.tsx:148 | the step-2 text area changes only `description` |
| SubmitAudit.Wizard.EditOriginalPrompt | src/pages/SubmitAudit.tsx:161 | the step-2 text area changes only `originalPrompt` |
| CodeEditor.LineCount | src/components/CodeEditor.tsx:72 | `value.split('\n').length`: see `CodeEditor.LineCountBreaks`, `CodeEditor.LineCountOfJoin` and `CodeEditor.LineCountConcat` |
| CodeEditor.LineCountBreaks | src/components/CodeEditor.tsx:72 | lines = line breaks + 1, so at least 1, and 1 for "" |
| CodeEditor.LineCountOfJoin | src/components/CodeEditor.tsx:72 | a text built from k break-free lines has k lines |
| CodeEditor.LineCountConcat | src/components/CodeEditor.tsx:72 | two texts joined by a break have the lines of both |
| CodeEditor.StatsRow | src/components/CodeEditor.tsx:70-75 | the statistics row: see `CodeEditor.StatsRowFacts` |
| CodeEditor.StatsRowFacts | src/components/CodeEditor.tsx:70-75 | the row shows exactly for a non-empty value, with breaks + 1 lines and the value's length counted in Unicode characters (not UTF-16 code units) |
| CodeEditor.CopyButtonWithStats | src/components/CodeEditor.tsx:36-70 | the copy button and the statistics row show together |
| CodeEditor.CopyLabel | src/components/CodeEditor.tsx:44 | the copy button's text: see `CodeEditor.CopyLabelStates` |
| CodeEditor.CopyLabelStates | src/components/CodeEditor.tsx:43-44 | the label is "Copied!" exactly while copied, "Copy" otherwise |
| CodeEditor.LanguageBadge | src/components/CodeEditor.tsx:66 | the language badge: see `CodeEditor.LanguageBadgeText` |
| CodeEditor.LanguageBadgeText | src/components/CodeEditor.tsx:18-66 | the badge is the language upper-cased, "RUST" by default, with no lower-case letter |
| CodeEditor.Editor.constructor | src/components/CodeEditor.tsx:21 | not copied at first |
| CodeEditor.Editor.HandleCopy | src/components/CodeEditor.tsx:23-26 | a resolved clipboard write sets the flag and the label reads "Copied!"; a rejected one leaves the flag and the label unchanged |
| CodeEditor.Editor.CopyTimerFires | src/components/CodeEditor.tsx:26 | the timer clears the flag and the label reads "Copy" |
| AnalyticsChart.ChartData | src/components/AnalyticsChart.tsx:45-53 | the `chartData` mapping: see `AnalyticsChart.ChartDataKeepsFields` |
| AnalyticsChart.ChartDataKeepsFields | src/components/AnalyticsChart.tsx:45-53 | same length and order; only the date is replaced by its formatted form |
| AnalyticsChart.BucketOf | src/components/AnalyticsChart.tsx:60-62 | the slice a score falls in: see `AnalyticsChart.BucketsPartition` |
| AnalyticsChart.BucketsPartition | src/components/AnalyticsChart.tsx:60-62 | every score passes exactly one of the three filters |
| AnalyticsChart.Tally | src/components/AnalyticsChart.tsx:60-62 | a bucket's count is at most the number of points |
| AnalyticsChart.TallyTotal | src/components/AnalyticsChart.tsx:60-62 | the three counts add up to the number of points |
| AnalyticsChart.PieData | src/components/AnalyticsChart.tsx:55-64 | `pieData`: see `AnalyticsChart.PieDataShape` |
| AnalyticsChart.PieDataShape | src/components/AnalyticsChart.tsx:55-64 | no slices unless the type is pie; a pie has High, Medium, Low in order with their names, colours and counts, totalling the number of points |
| AnalyticsChart.IconOf | src/components/AnalyticsChart.tsx:66-73 | `getIcon`: see `AnalyticsChart.LookupsDistinct` |
| AnalyticsChart.MetricLabel | src/components/AnalyticsChart.tsx:75-82 | `getMetricLabel`: see `AnalyticsChart.LookupsDistinct` |
| AnalyticsChart.MetricColor | src/components/AnalyticsChart.tsx:84-91 | `getColor`: see `AnalyticsChart.LookupsDistinct` |
| AnalyticsChart.LookupsDistinct | src/components/AnalyticsChart.tsx:66-91 | icons, labels and colours are one per case; the default "line"/"audits" take the default branches |
| AnalyticsChart.Heading | src/components/AnalyticsChart.tsx:243 | `title \|\| getMetricLabel()`: see `AnalyticsChart.HeadingChoice` |
| AnalyticsChart.HeadingChoice | src/components/AnalyticsChart.tsx:243 | the heading is a non-empty title, else the metric label, and is never empty |
| NftCard.RarityColor | src/components/NFTCard.tsx:45-52 | `getRarityColor`: see `NftCard.RarityColorCases` |
| NftCard.RarityColorCases | src/components/NFTCard.tsx:45-52 | Legendary, Epic and Rare have their own colours; Common and no rarity share the primary default |
| NftCard.Grade | src/components/NFTCard.tsx:54-59 | the number of thresholds reached is 0 to 3 |
| NftCard.ScoreGradient | src/components/NFTCard.tsx:54-59 | `getScoreGradient`: see `NftCard.ScoreGradientBands` |
| NftCard.ScoreGradientBands | src/components/NFTCard.tsx:54-59 | four gradients, equal exactly for scores reaching the same thresholds 70, 80, 90; monotone in the score |
| NftCard.IdBadge | src/components/NFTCard.tsx:108 | the id badge: see `NftCard.IdBadgeText` |
| NftCard.IdBadgeText | src/components/NFTCard.tsx:108 | "#" and the last four characters, or the whole id when shorter |
| NftCard.ShownAttributes | src/components/NFTCard.tsx:180-183 | the attributes list: see `NftCard.ShownAttributesPrefix` |
| NftCard.ShownAttributesPrefix | src/components/NFTCard.tsx:180-183 | the list shows exactly for non-empty attributes: the first one to three, in order |
| NftCard.AfterClick | src/components/NFTCard.tsx:66 | the card's click handler: see `NftCard.ClickInvolution` and `NftCard.AfterClicksParity` |
| NftCard.ClickInvolution | src/components/NFTCard.tsx:66 | two clicks restore the side; a non-interactive card never turns |
| NftCard.AfterClicksParity | src/components/NFTCard.tsx:66 | from the front, the back shows exactly after an odd number of clicks on an interactive card |
| NftCard.Card.constructor | src/components/NFTCard.tsx:35-37 | a card starts on its front, not hovered |
| NftCard.Card.Click | src/components/NFTCard.tsx:66 | a click toggles the side only when interactive; hover unchanged; only interactive cards are ever turned |
| NftCard.Card.BackButtonClick | src/components/NFTCard.tsx:153-156 | the back button always shows the front, without the card's toggle |
| NftCard.Card.MouseEnter | src/components/NFTCard.tsx:64 | entering sets hovered |
| NftCard.Card.MouseLeave | src/components/NFTCard.tsx:65 | leaving clears hovered |
| AuditReport.ReportId | src/pages/AuditReport.tsx:28 | `id \|\| "audit-new"`: see `AuditReport.TokenIdText` and `AuditReport.MockReportFacts` |
| AuditReport.SeverityColor | src/pages/AuditReport.tsx:122-129 | `getSeverityColor`: see `AuditReport.SeverityCaseInsensitive`, `AuditReport.SeverityColorMatchesIcon` and `AuditReport.SeverityExamples` |
| AuditReport.SeverityIconOf | src/pages/AuditReport.tsx:131-138 | `getSeverityIcon`: see `AuditReport.SeverityCaseInsensitive` and `AuditReport.SeverityColorMatchesIcon` |
| AuditReport.SeverityCaseInsensitive | src/pages/AuditReport.tsx:122-138 | severities equal up to case get the same colour and icon |
| AuditReport.SeverityColorMatchesIcon | src/pages/AuditReport.tsx:122-138 | colour and icon tell the same severities apart |
| AuditReport.SeverityExamples | src/pages/AuditReport.tsx:122-138 | "High", "HIGH" and "high" look alike; an unknown severity gets the muted colour and the shield |
| AuditReport.CountSeverity | src/pages/AuditReport.tsx:355-370 | a summary count is at most the number of issues |
| AuditReport.SummaryBound | src/pages/AuditReport.tsx:355-370 | the three counts add up to at most "Issues Found", and to exactly that when every severity is spelt "High", "Medium" or "Low" |
| AuditReport.SummaryOf | src/pages/AuditReport.tsx:355-374 | the summary figures: see `AuditReport.SummaryConsistent` |
| AuditReport.SummaryConsistent | src/pages/AuditReport.tsx:355-374 | the summary card's rows bound by the issue count; the gas row is the list length |
| AuditReport.LowerCaseNotCounted | src/pages/AuditReport.tsx:122-129 | a "high" issue gets the high colour but is not counted as High |
| AuditReport.TokenId | src/pages/AuditReport.tsx:334 | the token id: see `AuditReport.TokenIdText` |
| AuditReport.TokenIdText | src/pages/AuditReport.tsx:334 | "audit-x" gives "#SS-x"; no or an empty route id gives "#SS-new"; six characters or fewer give "#SS-" |
| AuditReport.MockReportFacts | src/pages/AuditReport.tsx:27-70 | the sample report has 3 issues, one each of High, Medium and Low, 2 gas optimisations, score 92 |
| WalletConnect.AddressLabel | src/components/WalletConnect.tsx:27 | the chip text: see `WalletConnect.AddressLabelText` |
| WalletConnect.AddressLabelText | src/components/WalletConnect.tsx:27 | no or empty address reads "Connected"; a long one the first 6 and last 4 around "..."; a short one appears twice |
| WalletConnect.SampleAddress | src/components/WalletConnect.tsx:27 | "syntax.near" reads "syntax...near" |
| WalletConnect.Render | src/components/WalletConnect.tsx:21-38 | the chip or the dialog: see `WalletConnect.RenderExclusive` |
| WalletConnect.RenderExclusive | src/components/WalletConnect.tsx:21-38 | the address chip exactly when connected, the dialog otherwise, open exactly as `isOpen` |
| WalletConnect.Widget.constructor | src/components/WalletConnect.tsx:14 | the dialog starts closed |
| WalletConnect.Widget.OpenChange | src/components/WalletConnect.tsx:38 | the dialog's open state follows `onOpenChange` |
| WalletConnect.Widget.HandleConnect | src/components/WalletConnect.tsx:16-19 | `onConnect` is called once more and the dialog closes |

## Left out

- JSX markup, Tailwind class lists other than the ones the lookups return, icons, CSS animations and the recharts charts themselves: presentation only.
- Timer scheduling (`setInterval`, `setTimeout`, the 300 ms start delay of the score animation) and React effect cleanup ordering: a firing is a method call.
- `Math.random`: the loading increment is a parameter constrained to [5, 20); the notification id is a parameter.
- `new Date()`, `getTime` and `toLocaleDateString`: `FormatTime` takes the millisecond difference, and `ChartData` takes the date formatter as a function parameter. NFTCard's mint date display is not modelled.
- Clipboard writes: whether `navigator.clipboard.writeText` resolves is the `written` argument of `CodeEditor.Editor.HandleCopy`; the text written is not modelled.
- `toast`, and navigation from `handleSubmit`: foreign side effects with no state in these components.
- The SVG stroke-dasharray arithmetic of the ring and `Math.round` display rounding: floating-point presentation.
- JavaScript numbers are exact reals (progress, score, percentage) or unbounded integers (counts, ids, times); rounding of the IEEE doubles is not modelled.
- TrustScore.Percentage: requires `maxScore > 0`; the default is 100 and no caller passes another value, and division by 0 in floating point is not modelled.
- JsText.Take: lengths and cut positions count Unicode characters, whereas `slice` counts UTF-16 code units, so results differ on text outside the Basic Multilingual Plane (and the model cannot cut a surrogate pair in half).
- JsText.TakeLast: lengths and cut positions count Unicode characters, not the UTF-16 code units `slice(-n)` counts, so results differ on text outside the Basic Multilingual Plane.
- JsText.Substring: the start position counts Unicode characters, not the UTF-16 code units `substring` counts, so results differ on text outside the Basic Multilingual Plane.
- CodeEditor.StatsRow: "Characters" is the number of Unicode characters, whereas `value.length` counts UTF-16 code units ("😀" shows 2 in the component and 1 here).
- CodeEditor.StatsRowFacts: the character count it states is in Unicode characters, not UTF-16 code units, as for `CodeEditor.StatsRow`.
- SubmitAudit.ReviewCountsFacts: the character count is in Unicode characters, not the UTF-16 code units `formData.code.length` counts.
- NftCard.IdBadge: the last four are Unicode characters, not the UTF-16 code units `slice(-4)` takes.
- NftCard.IdBadgeText: "the last four characters" are Unicode characters, not UTF-16 code units.
- AuditReport.TokenId: the six characters dropped are Unicode characters, not the UTF-16 code units `substring(6)` drops.
- AuditReport.TokenIdText: "six characters or fewer" counts Unicode characters, not UTF-16 code units.
- WalletConnect.AddressLabel: the first six and last four are Unicode characters, not the UTF-16 code units `slice(0, 6)` and `slice(-4)` take.
- WalletConnect.AddressLabelText: "first 6 and last 4" count Unicode characters, not UTF-16 code units.
- JsText.TrimStart: the model removes only ASCII white space, no-break space and the byte-order mark, whereas `String.prototype.trim` removes the full Unicode white-space and line-terminator set.
- JsText.Trim: the model's `Trim` removes only ASCII white space, no-break space and the byte-order mark, whereas `String.prototype.trim` removes the full Unicode white-space and line-terminator set.
- JsText.TrimEnd: the model removes only the restricted white-space set named on the `JsText.TrimStart` line, not the full set `String.prototype.trim` removes.
- JsText.TrimEmptyIffBlank: "blank" is over the same restricted white-space set as `JsText.TrimStart`.
- JsText.ToLower: `toLowerCase` maps ASCII letters only.
- JsText.ToUpper: `toUpperCase` maps ASCII letters only.
- TrustScore.ScoreDisplay: `score` and `animated` are fixed for the life of a display. In the component the 20 ms interval is never cleared by the effect cleanup: the `clearInterval` cleanup is returned from inside the `setTimeout` callback (src/components/TrustScore.tsx:34), where the return value is discarded, and the effect's own cleanup only clears the timer (src/components/TrustScore.tsx:36). So after a prop change, or after unmounting once the 300 ms timer has fired, an old interval keeps stepping the display toward the old score beside the new one, and can pull it back to the old score. The model has one interval per display. Every caller passes a constant score (src/pages/AuditReport.tsx:313, src/pages/Dashboard.tsx:159).
- The step header highlighting of the wizard and the NFT card's rarity badge visibility are single comparisons in markup and are not modelled.
- NotificationSystem: the bell panel's own `isOpen` flag and the per-type icon lookup are not modelled; they have no logic beyond a toggle and a table.
- SearchAndFilter.ResultSummary: takes the count as given; the guard that the caller passed `resultCount` is `SearchAndFilter.ResultsFooter`.
- AnalyticsChart: the `total` computed inside `pieData` is never used by the source, so it is not modelled.
- AuditReport: the sample source text embedded in the mock report is not modelled.
- NftCard: `sizeClasses` and the size prop are presentation; the `interactive` default (true) is the caller's argument to `Card.constructor`.
- LoadingScreen: the `progress` prop is never read by the source and is not modelled; the `title`/`subtitle` defaults are text only.
- `src/components/ui/cyber-button.tsx`, `src/pages/Index.tsx`, `src/pages/Dashboard.tsx` and `src/components/Layout.tsx`: static content, navigation and library wrappers. They are not part of this model beyond the sample wallet address that `WalletConnect.SampleAddress` uses.
