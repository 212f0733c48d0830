# FSE compliance assessment — a Dafny model

This project models the assessment page of the FSE (Food Service Establishment)
compliance system. An inspector fills in background information about a
facility. They then answer six checklist sections:
- Documentation: four check boxes;
- Personal Hygiene, Material Sourcing, Water Sources, Waste Disposal and
  Cleaning: radio-button ratings "excellent", "good", "fair" or "poor".

Both the inspector and the facility owner then sign. Completing the
assessment scores it out of 100. The score becomes a star rating of 1 to 5 and
a compliance badge, and a text message goes to the facility. The results view
shows the score, the stars, the badge and a breakdown by section. "New
Assessment" reopens the form.

The model has seven modules:

- `Records`: the unscored background record, the per-field edits of it and
  the map-location update, and the two signatures.
- `Scoring`: the ratings, the six sections, the answer records, the section
  scores and the total. It also holds the laws of the total: bounds, the
  effect of one edit, monotonicity, when the total is 0 or 100, and that
  "good" and "fair" earn nothing.
- `Classification`: the star thresholds, the badge levels and the verdict
  word of the completion message.
- `Navigation`: the tab order and the Previous/Next steps. Each step uses an
  `indexOf` lookup in the tab list, as the page does.
- `Report`: the results view and its score breakdown.
- `Scenarios`: complete worked assessments.
- `Workflow`: the page itself, as the class `ComplianceSystem`. Its fields
  are the page's state variables and its methods are the event handlers.
  Two scenario methods drive it: `TabWalkthrough` presses the forward
  button from a new page through every tab and into the signature dialog,
  and `RefusedCompletionWalkthrough` shows that completing with only the
  inspector's signature is refused and sends nothing.

Each handler's precondition is the condition under which the page renders the
control that fires it:
- the form, with its tabs, editors and Previous button, only while the
  assessment is not complete;
- each field editor only while its own tab is showing (the background
  editors on the background tab, a section's boxes or radio buttons on that
  section's tab, as `SectionTab` maps them);
- the Next button only on a tab other than the last, and the "Proceed to
  Signatures" button only on the last tab (cleaning);
- the signature dialog only while it is open;
- "New Assessment" only on the results view.

The class invariant `Valid()` holds in every reachable state:
- every answer record has one value per item;
- the stored score is within 0..100, and its stars are 0 before the first
  completion and its star rating after it;
- once complete, the stored score is the total of the current answers and
  both parties have signed.

Where the page's labels and its code differ, the model follows the code:

- The radio labels say "Good (3 marks)" and "Fair (2 marks)", but the score
  counts only "excellent" answers, so "good" and "fair" earn 0, like "poor"
  and unanswered items. `GoodAndFairEarnNothing` and `HygieneAllGood` prove
  the consequences. A form with every hygiene item rated "good" and
  everything else "excellent" scores 80 (four stars), not 95.
- "New Assessment" resets only the completion flag, the tab and the
  signatures, and closes the signature dialog. The background record, all answers, the stored score and the
  stars stay (`NewAssessment`).

## Model

| member | source | states |
|---|---|---|
| Records.WithField | app/page.tsx:336-403 | a field edit makes that field read back the new text and keeps every other field, the facility type and the coordinates |
| Records.WithFieldLaws | app/page.tsx:336-403 | writing back a field's own text is a no-op, and a second edit of the same field overrides the first |
| Records.WithLocation | app/page.tsx:156-161 | a map selection sets exactly the coordinates and the address; undoing both gives back the old record |
| Records.HasCoordinates | app/page.tsx:201-206 | whether a location is shown: the latitude is non-zero; its law is `EquatorCountsAsUnset` |
| Records.BothSigned | app/page.tsx:87 | the completion gate: both signature handles are non-empty; `CalculateScore` completes exactly when it holds |
| Records.EquatorCountsAsUnset | app/page.tsx:201-206 | the location is shown iff the latitude is non-zero, so any point with latitude 0 counts as "no location" |
| Records.SignatureImage | app/page.tsx:218-231 | the results image is never empty: it is the signature when there is one and a placeholder otherwise |
| Scoring.RatingValuesDistinct | app/page.tsx:483-500 | distinct ratings are distinct stored strings, so comparing with "excellent" is comparing with `Excellent` |
| Scoring.CheckedCount | app/page.tsx:99 | the number of checked boxes is at most the number of boxes |
| Scoring.ExcellentCount | app/page.tsx:102 | the number of "excellent" ratings is at most the number of ratings |
| Scoring.Answers.WithBox | app/page.tsx:423-428 | setting box `i` changes that box only, leaves every rating alone and keeps the records well formed |
| Scoring.Answers.WithRating | app/page.tsx:481-484 | setting rating `i` of a section changes that rating only, leaves the other sections and the boxes alone and keeps the records well formed |
| Scoring.SectionScore | app/page.tsx:98-114 | on well-formed records a section never earns more than its maximum |
| Scoring.TotalScore | app/page.tsx:96-116 | on well-formed records the total is at most 100 |
| Scoring.CheckedCountIsMultiplicity | app/page.tsx:99 | the checked count is the number of `true` values in the record |
| Scoring.ExcellentCountIsMultiplicity | app/page.tsx:102-114 | the excellent count is the number of `Excellent` values in the record |
| Scoring.CheckedCountExtremes | app/page.tsx:99 | the count is 0 iff no box is checked, and the number of boxes iff all are |
| Scoring.ExcellentCountExtremes | app/page.tsx:102-114 | the count is 0 iff no rating is excellent, and the number of ratings iff all are |
| Scoring.CheckedCountUpdate | app/page.tsx:427 | setting one box changes the count by exactly the difference in that box |
| Scoring.ExcellentCountUpdate | app/page.tsx:483 | setting one rating changes the count by exactly the difference in that rating |
| Scoring.CheckedCountMonotone | app/page.tsx:99 | checking more boxes never lowers the count |
| Scoring.ExcellentCountMonotone | app/page.tsx:102-114 | more excellent ratings never lower the count |
| Scoring.ItemCountsMatchKeys | app/page.tsx:35-72 | each section has one item per key of its record (4, 5, 4, 2, 4, 2) |
| Scoring.SectionMaximaSumTo100 | app/page.tsx:98-114 | each maximum is items times per-item marks, and the six maxima add up to 100 |
| Scoring.TotalScoreByFormula | app/page.tsx:96-116 | the section-wise total equals the page's six formulas: boxes times 5, hygiene times 4, the rest times 5 |
| Scoring.SetBoxEffect | app/page.tsx:427 | checking a box adds 5 to the total, unchecking removes 5, re-setting it changes nothing |
| Scoring.SetRatingEffect | app/page.tsx:483 | changing one rating moves the total by the section mark exactly when it enters or leaves "excellent" |
| Scoring.GoodAndFairEarnNothing | app/page.tsx:486-500 | replacing a non-excellent value by another non-excellent value leaves the total unchanged |
| Scoring.GoodScoresLikePoor | app/page.tsx:486-500 | whatever an item holds now, choosing "good" gives the same total as "poor", and "fair" the same as unanswered |
| Scoring.TotalMonotone | app/page.tsx:96-116 | improving answers item by item never lowers the total |
| Scoring.RatingsMonotone | app/page.tsx:102-114 | improving one rated section item by item never lowers its score |
| Scoring.PerfectScoreIffAllQualify | app/page.tsx:96-116 | the total is 100 iff every box is checked and every rating is excellent |
| Scoring.ZeroScoreIffNothingQualifies | app/page.tsx:96-116 | the total is 0 iff nothing is checked and nothing is rated excellent |
| Scoring.InitialAnswersScoreZero | app/page.tsx:35-72 | the records of a new page are well formed and score 0 |
| Classification.StarRating | app/page.tsx:119-123 | stars are always between 1 and 5 |
| Classification.StarRatingMonotone | app/page.tsx:119-123 | a higher score never earns fewer stars |
| Classification.StarRatingPartition | app/page.tsx:119-123 | 5, 4, 3, 2 and 1 stars correspond exactly to the ranges from 90, 80-89, 70-79, 60-69 and below 60 |
| Classification.StarRatingBoundaries | app/page.tsx:119-123 | the thresholds are inclusive: 90, 80, 70 and 60 reach the higher rating and one less does not |
| Classification.ComplianceLevel | app/page.tsx:148-154 | the badge level of every score is the one whose star count is that score's star rating |
| Classification.LevelsOneToOne | app/page.tsx:148-154 | levels, their star counts and their labels correspond one to one |
| Classification.NotificationVerdict | app/page.tsx:134 | the message says "Compliant" iff the score earns at least three stars |
| Classification.CompliantIffTopLevels | app/page.tsx:134 | the message says "Compliant" iff the badge is Excellent, Good or Satisfactory |
| Navigation.IndexOf | app/page.tsx:673 | the lookup gives -1 iff the tab is absent, and otherwise the position of its first occurrence |
| Navigation.IndexOfFirstOccurrence | app/page.tsx:692 | a position holding the tab with no earlier occurrence is the lookup's answer |
| Navigation.IndexOfIsPosition | app/page.tsx:672-673 | every tab is in the list, at its form position, so the lookup is one-to-one |
| Navigation.TabValuesDistinct | app/page.tsx:318-324 | distinct tabs have distinct stored values |
| Navigation.PreviousTab | app/page.tsx:671-677 | Previous leads one place back in form order, and stays on the first tab |
| Navigation.NextTab | app/page.tsx:690-696 | Next leads one place on in form order, and stays on the last tab |
| Navigation.PreviousStepsBack | app/page.tsx:671-677 | Previous moves one index back, and stays put exactly on the first tab |
| Navigation.NextStepsForward | app/page.tsx:690-696 | Next moves one index on, and stays put exactly on the last tab |
| Navigation.NextThenPrevious | app/page.tsx:671-696 | Previous undoes Next on every tab but the last |
| Navigation.PreviousThenNext | app/page.tsx:671-696 | Next undoes Previous on every tab but the first |
| Navigation.NextWalkReachesLastTab | app/page.tsx:683-696 | from any tab, pressing Next once per later tab reaches the cleaning tab |
| Report.Breakdown | app/page.tsx:241-264 | there is one line per scored section; each shows what the scoring step gives that section and its maximum |
| Report.BreakdownMatchesScoring | app/page.tsx:241-264 | the breakdown lines add up to the total and to 100 |
| Report.ResultsOf | app/page.tsx:169-264 | the view shows the stored score and stars, a badge agreeing with the score's stars, the location iff the latitude is non-zero, and non-empty signature images that are the signatures once both are signed |
| Report.BreakdownWithinMaxima | app/page.tsx:241-264 | no breakdown line shows more than its maximum on well-formed records |
| Scenarios.Filled | app/page.tsx:35-72 | uniformly filled records are well formed and hold the given value everywhere |
| Scenarios.EverythingExcellent | app/page.tsx:96-134 | all boxes checked and all items excellent give 100, five stars, the Excellent badge and "Compliant" |
| Scenarios.HygieneAllGood | app/page.tsx:96-123 | all hygiene items good and everything else at its best give 80 and four stars with the Good badge |
| Scenarios.NothingQualifies | app/page.tsx:96-154 | nothing checked and nothing excellent give 0, one star, the Poor badge and "Requires Improvement" |
| Scenarios.OneCheckedBox | app/page.tsx:96-123 | a new page with one box checked scores 5 with one star |
| Workflow.CompletionMessage | app/page.tsx:133-134 | the message's verdict is "Compliant" iff the score is at least 70 |
| Workflow.ScoreAnswers | app/page.tsx:96-123 | the computed total is the total of the answers, at most 100 on well-formed records, and the stars are its rating |
| Workflow.ComplianceSystem.constructor | app/page.tsx:21-84 | a new page is valid, with empty background, no answers, no signatures, the first tab, score and stars 0 and nothing sent |
| Workflow.SectionTab | app/page.tsx:415-665 | each section's editors sit on a tab of their own, never the background tab, and only the documentation boxes on the documentation tab |
| Workflow.SectionTabsDistinct | app/page.tsx:415-665 | no two sections' editors sit on the same tab |
| Workflow.ComplianceSystem.EditBackground | app/page.tsx:336-404 | on the background tab, a field editor changes that background field only and keeps the page valid |
| Workflow.ComplianceSystem.SelectLocation | app/page.tsx:156-161 | a map selection replaces coordinates and address and keeps the page valid |
| Workflow.ComplianceSystem.SetDocumentationBox | app/page.tsx:423-458 | on the documentation tab, a box change updates exactly that box of the answers and keeps the page valid |
| Workflow.ComplianceSystem.SetRating | app/page.tsx:481-644 | on the section's own tab, a radio choice updates exactly that rating of the answers and keeps the page valid |
| Workflow.ComplianceSystem.SelectTab | app/page.tsx:316 | clicking a tab header makes it current |
| Workflow.ComplianceSystem.Previous | app/page.tsx:671-677 | the current tab becomes the previous one in form order; nothing changes on the first tab |
| Workflow.ComplianceSystem.Next | app/page.tsx:689-696 | on any tab but the last, the current tab becomes the next one in form order |
| Workflow.ComplianceSystem.ProceedToSignatures | app/page.tsx:683-684 | on the last tab, opens the signature dialog |
| Workflow.ComplianceSystem.Forward | app/page.tsx:683-700 | on the cleaning tab the forward button opens the dialog; on any other tab it moves to the next tab and leaves the dialog as it was |
| Workflow.ComplianceSystem.SignAsInspector | app/page.tsx:748 | sets the inspector's signature only |
| Workflow.ComplianceSystem.SignAsFacilityOwner | app/page.tsx:755 | sets the facility owner's signature only |
| Workflow.ComplianceSystem.CancelSignatures | app/page.tsx:760 | closes the dialog and keeps the signatures |
| Workflow.ComplianceSystem.SendSmsNotification | app/page.tsx:133-140 | appends exactly the completion message for the given score and stars |
| Workflow.ComplianceSystem.CalculateScore | app/page.tsx:86-131 | without both signatures nothing changes; with them, the stored score is the total of the answers, the stars are its rating, the assessment is complete and one message is sent |
| Workflow.ComplianceSystem.CompleteAssessment | app/page.tsx:763-767 | closes the dialog, then completes exactly when both parties have signed |
| Workflow.ComplianceSystem.Results | app/page.tsx:169-264 | the results view shows the total of the answers; its breakdown adds up to it and to 100; its stars and badge follow from it; the location shows iff the latitude is non-zero |
| Workflow.ComplianceSystem.NewAssessment | app/page.tsx:286-291 | reopens the form on the first tab with no signatures and the dialog closed, keeping background, answers, score, stars and messages |

## Left out

- The toasts are left out. The missing-signatures toast is the `false` result of `CalculateScore`. The "SMS sent" toast is a `TextMessage` appended to `sentMessages`, which stands for the simulated sender. The page builds the message text with string formatting; the model keeps only its parts (recipient, facility, score, stars, verdict).
- The map dialog (`showMap`), the map and geocoding component and `window.print` are left out. The map component (components/address-map.tsx) is not part of this model; only the location it reports is modelled, through `SelectLocation`.
- The signature pad's canvas drawing (components/signature-pad.tsx) is not part of this model. A signature is the opaque string the pad reports: "" after Clear, an image data URL after a stroke.
- Floating point: coordinates are `real`. Only the comparison of the latitude with 0 is modelled, not `toFixed(6)` formatting.
- Rendering is left out: the JSX, the star icons (`renderStars`) and colours beyond the badge class.
- Ratings and tabs are enumerations that carry their stored strings (`Value()`), not free strings. The page never stores any other value, so the `indexOf` result -1 cannot occur.
- Keyed record updates (`{...record, [key]: value}`) are index updates. Each record is the sequence of its values in key order, which is what `Object.values` yields.
- React's batching of state updates is left out. Each handler is one atomic step, and `CompleteAssessment` closes the dialog before scoring, as its handler does.
- `CompleteAssessment`: it is also modelled for states where the button would be disabled (one signature missing). There the score step refuses and changes nothing, which is what the page's own guard in the score step does.
- `Previous`: disabling Previous on the first tab is not a precondition. There the step changes nothing, as its handler does.
