# Cyber-Secure pages: a Dafny model

This project models the state logic of three pages of a client-side cybersecurity web app.
The app's analysis work is done by an external generative-AI service, and the model treats
those calls as opaque.

- **Incident response** (`IncidentResponse.dfy`, `IncidentReport.dfy`, `Playbooks.dfy`).
  The user describes an incident in a chat. An external classifier names its category,
  severity and summary. The page picks the matching playbook from a catalog, falling back to
  `"Unknown"`, and walks the user through it one step card at a time. Each card can be
  confirmed ("Yes, Completed") or declined ("No, I need help"). Everything is recorded in an
  append-only audit log. When the playbook is finished, the log can be exported as a plain-text
  report. The page's state is the class `IncidentResponsePage`. Each handler is proved to
  produce the state given by a pure transition on the value `Session`, and the properties are
  lemmas about those transitions.
- **Learning arena** (`LearningArena.dfy`). Completing a quiz updates a per-quiz progress
  record: high score, last score and attempts. The user's own articles and quizzes are
  appended with timestamp-derived ids and shown after the built-in ones.
- **Detector** (`Detector.dfy`). Covers the submit guard, the loading, result and error flags
  around the analysis call, the count of successful analyses, and the badge chosen for a
  count.

`Strings.dfy` holds the JavaScript string operations the pages use: `trim`, decimal printing,
`join` and `repeat`. It also holds `split` on one character, which no page calls; it is used
only to read the report back in the round-trip lemma `IncidentReport.ReportLinesRecoverLogs`. `Wrappers.dfy` holds `Option`, which stands
for `null`.

Behaviour of the code that the model keeps on purpose:

- A successful classification never resets `currentStepIndex`.
- After the last step, the cursor stays on the last index (it never becomes the playbook
  length). `isFinished` is set and the last step still shows as active in the timeline.
- Confirming is not blocked once finished. A confirmation after the end logs the last step
  again and posts the final message again.
- `incidentType` stores the classifier's raw category even when the fallback playbook is used.
- The report's type line prints `null` when there is no category.

## Model

| member | source | states |
|---|---|---|
| `Strings.TrimEmptyIffBlank` | IncidentResponsePage.tsx:37 | `trim()` yields the empty string exactly when every character is ECMAScript whitespace or a line terminator |
| `Strings.DecimalString` | IncidentResponsePage.tsx:95 | a printed step number or timestamp is a non-empty string of decimal digits whose first digit is `0` only for zero |
| `Strings.ParseDecimalString` | IncidentResponsePage.tsx:128 | printing a non-negative integer loses nothing: reading the digits back gives the number |
| `Strings.DecimalStringInjective` | IncidentResponsePage.tsx:128 | two numbers print the same exactly when they are equal |
| `Strings.JoinSplit` | IncidentResponsePage.tsx:123 | splitting a string on the separator and joining the pieces gives the string back |
| `Strings.SplitJoin` | IncidentResponsePage.tsx:123 | joining a non-empty list of lines that hold no separator, then splitting, gives the same lines in the same order |
| `Strings.JoinAppend` | IncidentResponsePage.tsx:123 | joining two non-empty lists puts exactly one separator between their joins |
| `Playbooks.Resolve` | IncidentResponsePage.tsx:50 | the playbook chosen for any category is one of the catalog's lists and is never empty |
| `IncidentReport.Rule` | IncidentResponsePage.tsx:123 | the rule above and below the report body is 30 characters long |
| `IncidentReport.RuleIsEquals` | IncidentResponsePage.tsx:123 | every character of the rule is `=` |
| `IncidentReport.ReportIsLines` | IncidentResponsePage.tsx:123 | the report is the title, the rule, a blank line, `Date: …`, `Incident Type: …`, a blank line, `Logs:`, the log lines in append order (one blank line if there are none), a blank line, the rule and `End of Report`, joined by line breaks |
| `IncidentReport.ReportLinesRecoverLogs` | IncidentResponsePage.tsx:123 | when no line holds a line break, splitting the report into lines yields exactly the header lines, the audit log in append order and the footer lines, so the log can be read back from the report |
| `IncidentReport.ReportFileNameUnique` | IncidentResponsePage.tsx:128 | `incident_report_<millis>.txt` names differ exactly when the export times differ |
| `IncidentReport.Timeline` | IncidentResponsePage.tsx:209-212 | the timeline has one status per playbook step |
| `IncidentReport.TimelineShape` | IncidentResponsePage.tsx:211-212 | with the cursor inside the playbook, every earlier step is completed, exactly the cursor's step is active and every later step is pending |
| `IncidentReport.EmphasisedIffNotPending` | IncidentResponsePage.tsx:215 | a step title is emphasised exactly when its step is not pending |
| `IncidentResponse.InitialInvariant` | IncidentResponsePage.tsx:18-28 | the freshly opened page satisfies the session invariant for every well-formed catalog |
| `IncidentResponse.AfterConfirm` | IncidentResponsePage.tsx:89-120 | answering a step card keeps the cursor inside a non-empty playbook, never changes the playbook, the category or the in-flight flag, and never un-finishes a session |
| `IncidentResponse.Apply` | IncidentResponsePage.tsx:36-120 | every event keeps the session invariant (cursor in bounds, category and playbook set together with the playbook chosen from the catalog, nothing in flight once classified), only appends to the transcript and the log, and adds at most one log line |
| `IncidentResponse.SubmitKeepsInvariant` | IncidentResponsePage.tsx:36-43 | a submission, accepted or not, keeps the invariant, only appends, and logs at most one line |
| `IncidentResponse.ClassifiedKeepsInvariant` | IncidentResponsePage.tsx:46-58 | a classification arriving while one is in flight keeps the invariant, only appends, and logs one line |
| `IncidentResponse.FailedKeepsInvariant` | IncidentResponsePage.tsx:60-66 | a failed classification keeps the invariant and only appends to the transcript |
| `IncidentResponse.ConfirmKeepsInvariant` | IncidentResponsePage.tsx:89-120 | answering a step card keeps the invariant, only appends, and logs at most one line |
| `IncidentResponse.OneAnswer` | IncidentResponsePage.tsx:94-119 | one answer moves the cursor by one exactly when it confirms, capped at the last step; it finishes the session exactly when a confirmation reaches past the last step; it adds one log line and one message |
| `IncidentResponse.Run` | IncidentResponsePage.tsx:36-120 | over any history of events the invariant holds, the transcript and the log only grow, and the log grows by at most one line per event |
| `IncidentResponse.SubmitGuard` | IncidentResponsePage.tsx:37 | a submission changes the session exactly when it is accepted, and it is accepted exactly when the text is not blank, nothing is in flight and no category is recorded |
| `IncidentResponse.SubmitThenFail` | IncidentResponsePage.tsx:39-66 | submit then failure: the log gains only `User Report: <text>`, the transcript gains the user message and one apology, no category or playbook is set, loading is cleared and the same text can be submitted again |
| `IncidentResponse.SubmitThenClassify` | IncidentResponsePage.tsx:39-58 | submit then success: the raw category is recorded, the playbook is the catalog's list for it or the `"Unknown"` list, the cursor is on step 1, the transcript gains the user message, the summary and the first card in that order, the log gains the report and analysis lines, and no further description is accepted |
| `IncidentResponse.ConfirmGuard` | IncidentResponsePage.tsx:90 | answering a card does nothing exactly when no playbook is active |
| `IncidentResponse.DeclineStays` | IncidentResponsePage.tsx:94-104 | declining keeps the cursor and the finished flag, appends `Step n (title): User requested help/could not complete.` and one help message |
| `IncidentResponse.ConfirmAdvances` | IncidentResponsePage.tsx:106-119 | confirming appends `Step n (title): Completed by user.`; before the last step the cursor moves on by one and the next card is posted, on the last step the cursor stays, the final message is posted and the session is finished |
| `IncidentResponse.ConfirmAll` | IncidentResponsePage.tsx:89-120 | any run of answers keeps the cursor invariant and leaves the playbook and category as they were |
| `IncidentResponse.ConfirmAllProgress` | IncidentResponsePage.tsx:106-119 | after any answers, with declines anywhere, the cursor is the start plus the number of confirmations, capped at the last step; the session is finished exactly when the confirmations reach past the last step; log and transcript grow by exactly one entry per answer |
| `IncidentResponse.FinishesAfterAllSteps` | IncidentResponsePage.tsx:110-118 | from the first step of an n-step playbook, the session is finished exactly when there were at least n confirmations, with the cursor then on step n; before that the cursor counts the confirmations |
| `IncidentResponse.RepeatedDeclines` | IncidentResponsePage.tsx:94-103 | k declines of one step keep the cursor and the finished flag and append k identical help lines and k identical help messages |
| `IncidentResponse.ThreeStepWalkthrough` | IncidentResponsePage.tsx:89-119 | a three-step playbook answered confirm, decline, decline, confirm, confirm ends finished on step 3 with exactly those five outcome lines logged in order |
| `IncidentResponse.IncidentResponsePage.constructor` | IncidentResponsePage.tsx:18-28 | the page opens with the welcome message, empty log, no category or playbook, cursor 0, nothing in flight or finished |
| `IncidentResponse.IncidentResponsePage.HandleUserSubmit` | IncidentResponsePage.tsx:36-43 | reports whether the text was accepted, and leaves exactly the state `AfterSubmit` describes (the guard, then the user message, the in-flight flag and the report line); the invariant is kept |
| `IncidentResponse.IncidentResponsePage.ClassifySucceeded` | IncidentResponsePage.tsx:46-58 | leaves exactly the state `AfterClassified` describes (category, resolved playbook, summary message, analysis line, first card, loading cleared); the invariant is kept |
| `IncidentResponse.IncidentResponsePage.ClassifyFailed` | IncidentResponsePage.tsx:60-66 | leaves exactly the state `AfterClassifyFailed` describes (one apology, loading cleared); the invariant is kept |
| `IncidentResponse.IncidentResponsePage.AddNextStepMessage` | IncidentResponsePage.tsx:69-87 | appends exactly one card, for the given step and index, changes nothing else, and keeps the page invariant exactly as it found it |
| `IncidentResponse.IncidentResponsePage.HandleStepConfirmation` | IncidentResponsePage.tsx:89-120 | leaves exactly the state `AfterConfirm` describes; the invariant is kept |
| `IncidentResponse.IncidentResponsePage.ExportReport` | IncidentResponsePage.tsx:122-128 | returns the report text for the current category and log and the timestamped file name, changing nothing |
| `IncidentResponse.EmptyCategoryBreaksCursor` | IncidentResponsePage.tsx:37-58 | with the page's truthiness guard, a classifier answer of `""` re-opens submission, and a second classification leaves the cursor past the end of the new playbook; the presence guard refuses that second submission |
| `LearningArena.CustomIdsUnique` | LearningArenaPage.tsx:52-59 | generated ids differ exactly when the save times differ, and an article id never equals a quiz id |
| `LearningArena.Percentage` | LearningArenaPage.tsx:36 | the recorded percentage is the nearest integer to 100·score/total, halves rounded up, and lies in 0..100 when 0 ≤ score ≤ total |
| `LearningArena.CompletionEffect` | LearningArenaPage.tsx:38-47 | a completion adds or replaces only its own quiz's entry: last score is the new percentage, high score is at least the new percentage and never goes down, and is either the new percentage or the previous high score (0 for a new entry), and attempts go up by one (1 for a new entry) |
| `LearningArena.CompletionKeepsConsistent` | LearningArenaPage.tsx:43-44 | if every entry has at least one attempt and a high score of at least 0 and at least its last score, that stays true after a completion |
| `LearningArena.ReplaySummarises` | LearningArenaPage.tsx:38-47 | after any history of completions, a quiz has an entry exactly when it was completed; its attempts are its number of completions, its last score its latest percentage and its high score its best percentage (0 if all were negative) |
| `LearningArena.LearningArenaPage.constructor` | LearningArenaPage.tsx:20-30 | the page opens with the stored progress and custom lists, no active quiz and both create dialogs closed |
| `LearningArena.LearningArenaPage.StartQuiz` | LearningArenaPage.tsx:141 | the chosen quiz becomes the active one |
| `LearningArena.LearningArenaPage.ExitQuiz` | LearningArenaPage.tsx:64 | leaving the runner clears the active quiz and records nothing |
| `LearningArena.LearningArenaPage.HandleQuizComplete` | LearningArenaPage.tsx:35-50 | the progress record becomes `RecordCompletion` of the old record, and the active quiz is cleared |
| `LearningArena.LearningArenaPage.OpenCreateArticle` | LearningArenaPage.tsx:89 | opens the create-article dialog |
| `LearningArena.LearningArenaPage.OpenCreateQuiz` | LearningArenaPage.tsx:124 | opens the create-quiz dialog |
| `LearningArena.LearningArenaPage.HandleSaveArticle` | LearningArenaPage.tsx:32-55 | the draft, with id `custom-article-<now>`, is appended at the end of the custom list, so the displayed list is the old one plus that article; the dialog is closed |
| `LearningArena.LearningArenaPage.HandleSaveQuiz` | LearningArenaPage.tsx:33-60 | the draft, with id `custom-quiz-<now>`, is appended at the end of the custom list, so the displayed list is the old one plus that quiz; the dialog is closed |
| `Detector.ErrorText` | DetectorPage.tsx:57 | the error shown is the exception's message when there is a non-empty one, and otherwise exactly `An unexpected error occurred.`; it is never empty |
| `Detector.FindBadge` | DetectorPage.tsx:29 | the badge found has the count, and it is the first such badge in the table; nothing is found exactly when no badge has the count |
| `Detector.BadgeSelection` | DetectorPage.tsx:22-34 | a badge is selected exactly when the count is 1, 5 or 10, and then it is the one badge with that threshold |
| `Detector.EachBadgeOnce` | DetectorPage.tsx:22-34 | counting up from 0, each badge is selected at exactly one count along the way, its threshold, once the count has reached it |
| `Detector.DetectorPage.constructor` | DetectorPage.tsx:13-18 | the page opens with the stored count, no result, no error, not loading |
| `Detector.DetectorPage.HandleSubmit` | DetectorPage.tsx:36-41 | refused exactly when the text is empty and there is no image (untrimmed, so whitespace is analysed); otherwise loading starts and result and error are cleared; the count is unchanged |
| `Detector.DetectorPage.AnalysisSucceeded` | DetectorPage.tsx:52-60 | the result is shown, the count goes up by exactly one and loading stops |
| `Detector.DetectorPage.AnalysisFailed` | DetectorPage.tsx:56-60 | the error text is shown, the count is unchanged and loading stops |

## Findings

| source | as written | input that shows it | evidently intended | confidence | as-written member | corrected member |
|---|---|---|---|---|---|---|
| IncidentResponsePage.tsx:37 | the guard rejects a new description only when `incidentType` is truthy, so a recorded category of `""` counts as none; success never resets `currentStepIndex` or `isFinished` | classifier answers `""` (fallback playbook of 2 steps), user confirms step 1, submits again, classifier answers a category whose playbook has 1 step: the cursor is 1, and the next confirmation reads `playbook[1]` of a 1-step list and fails on `.title` | once a category is recorded, no further description is accepted, so the cursor always stays inside the active playbook | low: not executed; needs the classifier to return an empty category | `IncidentResponse.EmptyCategoryBreaksCursor` | `IncidentResponse.Apply` |

The as-written guard is `IncidentResponse.CanSubmitAsWritten`. The rest of the model uses
`IncidentResponse.CanSubmit`, which tests whether a category is present. With that guard,
`Apply` and `Run` prove that the cursor invariant holds after every event.

## Left out

- `IncidentResponse.SubmitGuard`, `IncidentResponse.IncidentResponsePage.HandleUserSubmit` and
  the other submit lemmas use the corrected guard `CanSubmit`, which tests whether a category is
  recorded. The page tests the category for truthiness, so with a recorded category of `""` the
  page accepts a description that the model refuses. The page's own guard is
  `IncidentResponse.CanSubmitAsWritten`; see "## Findings".
- Calls into the AI service (`classifyIncident`, `analyzeContent`, `fileToBase64`) are not
  part of this model. Their outcomes are parameters of the handlers: `ClassifySucceeded`,
  `ClassifyFailed`, `AnalysisSucceeded` and `AnalysisFailed`.
- The playbook catalog (`data/incidentPlaybooks`) and the built-in articles and quizzes
  (`data/learningData`) are not part of this model. They are constructor parameters. The
  catalog must contain `"Unknown"`, and every list in it must be non-empty.
- Keys that a plain JavaScript object inherits (`"constructor"`, `"__proto__"`, …) are not
  modelled. Catalog lookup is exact map membership.
- Async interleaving on the incident page is not modelled. A classification answer is
  delivered to the page only while one is in flight; an answer that arrives with none in
  flight is discarded.
- On the detector page, answers may interleave, because the page has no in-flight guard. A
  ghost counter of pending calls stands in for the promises.
- React's stale closures are not modelled: every handler acts on the current state. This
  includes step-card buttons created in an earlier render, and a double click before a
  re-render.
- Rendering, icons, `scrollIntoView`, the text-input field and its clearing, and the "Response
  Plan" panel's visibility test are not modelled. The same goes for the badge and article
  modals, the quiz runner, and the Blob/URL/anchor download. The export's date and
  millisecond timestamp are parameters.
- `LearningArena.LearningArenaPage.HandleQuizComplete`: takes the percentage as an integer.
  The page computes it in floating point with `Math.round((score / total) * 100)`, which can
  differ from exact rounding, and gives `NaN` when there are no questions.
  `LearningArena.Percentage` is the exact-arithmetic counterpart.
- `useLocalStorage` persistence (progress, custom lists and detection count) is plain state.
  The stored values are constructor parameters.
- The article and quiz records carry only the fields the page reads. Question bodies are
  opaque strings.
- Two saves within the same millisecond would get the same id. `CustomIdsUnique` states the
  ids are distinct only for distinct save times.
