# iTELL page progression and summary forms, in Dafny

iTELL is a family of Next.js textbook apps in which students read a page,
write a summary of it, and move on to the next page. This project models the
rules that decide when a student may move on, and the state of the forms and
the sidebar that drive it:

- **Section navigation** (`Location`): over the ordered section list of the
  example textbook, which is a parameter here, it gives the next page that asks
  for a summary, page order, the last page, and the pages open without signing in.
- **Summary submission** (`PageSummary`): the example textbook's server action.
  It takes a summary through validation and scoring, stores it, and decides
  whether the student advances. The decision is the pure function `Decide`.
  `SummaryAction.OnSubmit` makes the same decision step by step and appends its
  writes to an effect log.
- **Reread summary form** (`SummaryFormReread`): the chevron textbook's form,
  a reducer over `prevInput`, `pending`, `error` and `finished`, with the
  submit handler that dispatches to it and strips NUL characters from the input.
- **Simple summary form** (`SummaryFormSimple`): the chevron page-completion
  button, with its readiness test, its label, when it is disabled, and the three
  ways a submit ends.
- **Sidebar** (`Sidebar`): the dashboard sidebar's open/closed state and role,
  the cookies it writes, and the table that moves a dashboard path from the
  student view to the teacher view and back.

The services these pieces call are inputs to the model. That covers the
summary validator, the scorer, the quiz status, the database answers and
`isLastPage` in the chevron app. Writes to the database, cookies, the session
and the router become entries in a log.

Files: `wrappers.dfy` (Option), `summary_types.dfy` (the shared `ErrorType`),
`location.dfy`, `page_summary.dfy`, `summary_form_reread.dfy`,
`summary_form_simple.dfy`, `sidebar.dfy`.

## Model

| member | source | states |
|---|---|---|
| `Location.FindIndex` | apps/example-poe/src/lib/location.ts:5-7 | `findIndex` gives the first position holding the slug, and -1 exactly when no section has it |
| `Location.FindSummary` | apps/example-poe/src/lib/location.ts:26-28 | `find` gives nothing exactly when no section asks for a summary; otherwise it gives a section of the list that does |
| `Location.FindSummaryIsFirst` | apps/example-poe/src/lib/location.ts:26-28 | `find` gives the first section that asks for a summary |
| `Location.NextPage` | apps/example-poe/src/lib/location.ts:4-36 | `nextPage(slug)` is either `slug` or the slug of a section that asks for a summary and lies strictly after `slug`'s position |
| `Location.NextPageStays` | apps/example-poe/src/lib/location.ts:9-15 | an unknown slug and the last section's slug are returned unchanged |
| `Location.NextPageIsFirstLaterSummary` | apps/example-poe/src/lib/location.ts:17-31 | when a later section asks for a summary, `nextPage` returns the first such section, skipping none |
| `Location.NextPageWithoutLaterSummary` | apps/example-poe/src/lib/location.ts:25-35 | when no later section asks for a summary, `nextPage` returns the slug unchanged |
| `Location.IndexOfDistinctSlug` | apps/example-poe/src/lib/location.ts:5-7 | with distinct slugs, `findIndex` of a section's slug is that section's position |
| `Location.NextPageMovesForward` | apps/example-poe/src/lib/location.ts:4-49 | with distinct slugs, a `nextPage` that moves always lands on a page that `isPageAfter` places after the current one |
| `Location.IsPageUnlockedWithoutUser` | apps/example-poe/src/lib/location.ts:38-42 | transcribed definition of the fixed allow-list: true for exactly the two introduction slugs; there is nothing further to prove about a constant list |
| `Location.SlugIndex` | apps/example-poe/src/lib/location.ts:44-46 | a nullable slug's index: -1 exactly for `null` or a slug in no section |
| `Location.IsPageAfter` | apps/example-poe/src/lib/location.ts:44-49 | only a known page can be after another, no page is after itself, and every known page is after `null` |
| `Location.IsPageAfterStrictOrder` | apps/example-poe/src/lib/location.ts:44-49 | `isPageAfter` is asymmetric and transitive |
| `Location.IsLastPage` | apps/example-poe/src/lib/location.ts:51-54 | true iff the slug is the final section's slug; needs a non-empty list, which the source indexes unguarded |
| `Location.LastPageStays` | apps/example-poe/src/lib/location.ts:4-54 | with distinct slugs, `nextPage` of the last page is the last page itself |
| `PageSummary.InitialState` | apps/example-poe/src/components/summary/page-summary.tsx:36-41 | transcribed constant: cannot proceed, no error, no quiz, no feedback |
| `PageSummary.SummaryCount` | apps/example-poe/src/lib/server-actions.ts:105-115 | the count of a user's summaries for a page never exceeds the writes in the log; `SummaryCountCounts` says which writes it counts |
| `PageSummary.SummaryCountCounts` | apps/example-poe/src/lib/server-actions.ts:105-115 | the count equals the number of log positions that store a summary of that user for that page |
| `PageSummary.SummaryCountAppend` | apps/example-poe/src/components/summary/page-summary.tsx:112-161 | storing a summary for the user and page adds exactly one to the count read back afterwards; other writes add nothing |
| `PageSummary.FeedbackOf` | apps/example-poe/src/components/summary/page-summary.tsx:105-127 | transcribed definition of `feedback`: the scorer's verdict and prompt when feedback is on, `simpleFeedback()` when it is off; `Decide` states that an accepted submission returns it |
| `PageSummary.Record` | apps/example-poe/src/components/summary/page-summary.tsx:112-141 | transcribed definition of the `createSummary` payload: it holds the input, counts towards this user's summaries of the page, carries the verdict the student is shown, and has -1 scores when feedback is off; `Decide` states that it is the first write |
| `PageSummary.Decide` | apps/example-poe/src/components/summary/page-summary.tsx:66-179 | the decision table. No user gives INTERNAL. A validation error gives `prevState` with that error. A missing scorer response gives INTERNAL and a non-English one LANGUAGE_NOT_EN, both with feedback cleared. None of these writes anything. A submission is error-free exactly when it is accepted: signed in, valid, and with feedback on, scored in English. An accepted one returns the scorer's feedback (or `simpleFeedback` when feedback is off) and stores exactly one summary first, with -1 scores and `simpleFeedback`'s verdict when feedback is off. It writes the quiz cookie exactly on quiz pages and makes 1, 2 or 3 writes in all. It advances exactly when that feedback passed or the count including the new summary reaches the threshold. Advancing increments the page last and gives `canProceed = !isLastPage` and `showQuiz` = quiz page with an unfinished quiz. Not advancing gives no increment, and `canProceed` and `showQuiz` are false |
| `PageSummary.ThresholdAdvancesLikePass` | apps/example-poe/src/components/summary/page-summary.tsx:150-171 | with feedback on or off, a failed summary that reaches the threshold ends in the same state (apart from its feedback), with as many writes and the same final page increment as the same submission passed |
| `PageSummary.ShowQuizAsWritten` | apps/example-poe/src/components/summary/page-summary.tsx:144-148 | the unawaited quiz flag as the source computes it agrees with the awaited answer exactly when the page has no quiz or its quiz is unfinished |
| `PageSummary.UnawaitedQuizFlagOffersFinishedQuiz` | apps/example-poe/src/components/summary/page-summary.tsx:144-158 | a passed summary on a quiz page whose quiz is finished: the source's flag offers the quiz, `Decide` does not |
| `PageSummary.SummaryAction.OnSubmit` | apps/example-poe/src/components/summary/page-summary.tsx:66-179 | the step-by-step action returns `Decide`'s state and appends exactly `Decide`'s writes, with the stored count read from the log |
| `PageSummary.SummaryAction.StoreAndProgress` | apps/example-poe/src/components/summary/page-summary.tsx:112-178 | for an accepted submission, stores the summary (and quiz cookie), reads the count back from the log and decides, ending with `Decide`'s state and writes |
| `SummaryFormReread.StripNul` | apps/chevron/src/components/summary/summary-form-reread.tsx:157 | the sanitised input holds no NUL, is no longer than the input, and equals the input when it had none |
| `SummaryFormReread.StripNulConcat` | apps/chevron/src/components/summary/summary-form-reread.tsx:157 | stripping distributes over concatenation |
| `SummaryFormReread.StripNulKeepsOthers` | apps/chevron/src/components/summary/summary-form-reread.tsx:157 | every character other than NUL survives as often as it occurred, and no NUL survives |
| `SummaryFormReread.StripNulIdempotent` | apps/chevron/src/components/summary/summary-form-reread.tsx:157 | sanitising twice equals sanitising once |
| `SummaryFormReread.RereadForm.constructor` | apps/chevron/src/components/summary/summary-form-reread.tsx:61-67 | initial state `prevInput = ""`, not pending, no error, `finished = pageStatus.unlocked`; textbook finished as the user record says |
| `SummaryFormReread.RereadForm.Dispatch` | apps/chevron/src/components/summary/summary-form-reread.tsx:86-104 | `set_prev_input` changes only `prevInput`. `submit` sets pending and clears the error. `fail(e)` clears pending and sets the error. `finish(b)` clears pending and sets `finished`. Each leaves the other fields alone. After `submit` the input is locked whatever the readiness; after `fail`/`finish` it is locked only when not ready; after `set_prev_input` the caption follows the new input |
| `SummaryFormReread.RereadForm.OnSubmit` | apps/chevron/src/components/summary/summary-form-reread.tsx:149-226 | dispatches `submit`, `set_prev_input(sanitised)`, then `finish(true)` on success or `fail(INTERNAL)` on any failure. It ends not pending, with the caption "Resubmit" for any non-empty sanitised summary and the input locked only when the summary is not ready. On success the last page sets the user finished and stops there; otherwise it sets the user's page and highlights a chunk iff it is not production or the page is locked |
| `SummaryFormReread.RereadForm.Summary` | apps/chevron/src/components/summary/summary-form-reread.tsx:185-195 | the stored row is for this user and page and is passed only when the scorer said `is_passed: true` |
| `SummaryFormReread.RereadForm.ButtonLabel` | apps/chevron/src/components/summary/summary-form-reread.tsx:262 | transcribed definition of the caption ("Submit" iff `prevInput` is empty); `Dispatch` and `OnSubmit` state what it shows after each transition |
| `SummaryFormReread.RereadForm.InputDisabled` | apps/chevron/src/components/summary/summary-form-reread.tsx:253 | transcribed definition (disabled iff pending or not ready); `Dispatch` and `OnSubmit` state what it is after each transition |
| `SummaryFormSimple.LastChunk` | apps/chevron/src/components/summary/summary-form-simple.tsx:29 | transcribed definition of `chunks.at(-1)`: undefined for no chunks, else the last chunk |
| `SummaryFormSimple.IsReady` | apps/chevron/src/components/summary/summary-form-simple.tsx:29 | transcribed definition of `isReady` (unlocked, or at the last chunk; with no chunks, only when unlocked); `LockedReadyOnlyAtLastChunk` states what it means for a reader |
| `SummaryFormSimple.LockedReadyOnlyAtLastChunk` | apps/chevron/src/components/summary/summary-form-simple.tsx:29 | on a locked page with distinct chunk slugs, the form is ready at exactly one chunk position, the last |
| `SummaryFormSimple.ButtonDisabled` | apps/chevron/src/components/summary/summary-form-simple.tsx:87 | disabled only once finished, and then iff there is no next page |
| `SummaryFormSimple.ButtonLabel` | apps/chevron/src/components/summary/summary-form-simple.tsx:90-100 | "Mark as completed" iff not finished; "Textbook finished" exactly when the button is disabled |
| `SummaryFormSimple.SimpleForm.constructor` | apps/chevron/src/components/summary/summary-form-simple.tsx:32 | `finished` starts as `pageStatus.unlocked` |
| `SummaryFormSimple.SimpleForm.Submit` | apps/chevron/src/components/summary/summary-form-simple.tsx:35-53 | finished with a next page: navigate there with no increment. Otherwise increment the page, then set the user's page, or on the last page set the user finished, and end finished. A failed increment writes nothing and leaves `finished` alone |
| `SummaryFormSimple.MarkThenGo` | apps/chevron/src/components/summary/summary-form-simple.tsx:37-52 | on a page with a next page, a first click completes the page and a second click navigates to the next page |
| `Sidebar.RouteMappings` | apps/research-methods-in-psychology/src/components/sidebar.tsx:42-53 | transcribed definition of `routeMappings`: every path and target lies under `/dashboard`, switching to the teacher lands on a teacher page and switching to the student leaves one; `RouteMappingsInverse` and `RoleChangeTarget` use it |
| `Sidebar.RouteMappingsInverse` | apps/research-methods-in-psychology/src/components/sidebar.tsx:42-53 | the teacher and student tables are mutual inverses |
| `Sidebar.RoleChangeTarget` | apps/research-methods-in-psychology/src/components/sidebar.tsx:78-84 | a role change navigates iff the path is a non-empty key of the new role's table with a non-empty target, and then to exactly that target |
| `Sidebar.RoleSwitchRoundTrip` | apps/research-methods-in-psychology/src/components/sidebar.tsx:42-84 | switching role and switching back returns to the starting path |
| `Sidebar.SidebarLayout.constructor` | apps/research-methods-in-psychology/src/components/sidebar.tsx:62-63 | `open` defaults to true and `role` to student |
| `Sidebar.SidebarLayout.OnOpenChange` | apps/research-methods-in-psychology/src/components/sidebar.tsx:68-71 | sets `open` and writes the state cookie with the same value; `data-sidebar` then reads "open" iff the value was true |
| `Sidebar.SidebarLayout.OnRoleChange` | apps/research-methods-in-psychology/src/components/sidebar.tsx:73-88 | always sets the role and writes the role cookie; pushes exactly `RoleChangeTarget`'s route, or nothing |
| `Sidebar.SidebarLayout.Trigger` | apps/research-methods-in-psychology/src/components/sidebar.tsx:129 | the trigger flips `open`, writes the flipped value to the cookie, and changes `data-sidebar` |
| `Sidebar.SidebarLayout.TriggerTwice` | apps/research-methods-in-psychology/src/components/sidebar.tsx:129 | two clicks restore `open` and `data-sidebar`, and both cookie writes are recorded |
| `Sidebar.SidebarLayout.DataSidebar` | apps/research-methods-in-psychology/src/components/sidebar.tsx:90 | transcribed definition of `data-sidebar` ("open" iff open, else "closed"); `OnOpenChange`, `Trigger` and `TriggerTwice` state how it moves |

## Left out

- JSX rendering, styling and the mobile sheet: they are presentation with no state to model.
- The network and the scorer: `fetch`, the response's JSON and its schema check are one input, the scorer's answer, which is absent on any failure.
- `validateSummary`, `simpleFeedback`, `isPageQuizUnfinished` and `maybeCreateQuizCookie` are not part of this model. Their answers are inputs, and the quiz-cookie call is logged on every quiz page, whether or not it then writes a cookie.
- `PAGE_SUMMARY_THRESHOLD`: the constants file is not part of this model, so the threshold is a parameter.
- `incrementUserPage` is a logged write. What it does to the user record (set `pageSlug := nextPage(pageSlug)` when the user exists) is `Location.NextPage`.
- The chevron app's `isLastPage` and `incrementUserPage` are not part of this model. Their answers are inputs.
- The random choice of the chunk to reread, `getChunkElement`, driver.js and scrolling. `HighlightRandomChunk` is logged whenever the source's condition holds, even if the chunk element would not be found.
- Summary stages (`addStage`, `finishStage`, `clearStages`), `saveSummaryLocal`'s storage format, Sentry reports, toasts and console output. Only the `saveSummaryLocal` call itself is logged.
- React scheduling: dispatches and state setters take effect at once and in order. Overlapping submissions are not modelled.
- The sidebar's `pathname` is fixed per `SidebarLayout` object. The source re-reads it on every render, and `onRoleChange` is rebuilt with it (its callback lists `pathname` as a dependency). The route change a push makes is not modelled, and neither is the transition's pending flag. `Sidebar.RoleSwitchRoundTrip` is stated about `RoleChangeTarget`, not about two successive `OnRoleChange` calls on one object.
- JavaScript prototype-chain keys seen by `pathname in routeMappings[role]`: each table is a finite map.
- Scores are JavaScript numbers, modelled as `real`. No arithmetic is done on them.
- The page lookup `allPagesSorted.find(...) as Page` is an input `Page`. The crash when it finds nothing is not modelled.
- `PageSummary.Decide`: takes `isPageQuizUnfinished` as an awaited answer, which the source does not await (see Findings). `maybeCreateQuizCookie` is not awaited either: its write is logged in call order, though it may complete after the later writes.
- `PageSummary.Decide`: a throw from `createSummary`, `getUserPageSummaryCount` or `incrementUserPage` is not modelled. The source awaits them without a try/catch, so the action rejects and returns no form state; when the count or the increment throws, the summary is already stored. "Error-free exactly when accepted" holds only when these writes succeed.
- `PageSummary.Decide`: requires a non-empty section list on every path. The source reads the last section only when the submission advances (`isLastPage`), so an error or a non-advancing answer on an empty list is not covered. A real textbook always has sections.
- `PageSummary.Decide`: `showQuiz` is stated only for error-free outcomes. The error answers return `prevState` and keep whatever `showQuiz` it had, so the quiz guarantee does not extend to them.
- `SummaryFormReread.RereadForm.OnSubmit`: a throw before the `try` block (from `addStage` or `saveSummaryLocal`) is not modelled. It would reject the handler after `submit` was dispatched and before `set_prev_input`, leaving `pending` true and the input locked. The contract's "ends not pending" holds only when these calls return.
- `SummaryFormReread.RereadForm.OnSubmit`: a failure after `createSummary` succeeded keeps that summary in the call log. A throw from `updateUser` or from the highlight is not modelled.
- `SummaryFormSimple.SimpleForm.Submit`: a throw from `incrementUserPage` is modelled as making no write. A throw from `updateUser` is not modelled.
- The note-anchoring popover and the other apps' auth, dashboard and content-pipeline code are not part of this model.

## Findings

| source | as written | input that shows it | evidently intended | confidence | as-written member | corrected member |
|---|---|---|---|---|---|---|
| apps/example-poe/src/components/summary/page-summary.tsx:148 | `showQuiz` is `isPageQuizUnfinished(pageSlug)` without `await`. That function comes from a `"use server"` module (apps/example-poe/src/lib/server-actions.ts:1), so it is async and the flag is a pending promise, truthy on every quiz page | a passed summary on a quiz page whose quiz the student has already finished | offer the quiz only when it is unfinished | not executed; apps/example-poe/src/lib/server-actions.ts, at the revision cited here, defines none of `isPageQuizUnfinished`, `maybeCreateQuizCookie` or `finishPageQuiz`, although this file and apps/example-poe/src/app/api/quiz/route.ts:1 import them from it, so it appears to be a different revision. That they are async rests only on the import path at page-summary.tsx:5-11 and that module's `"use server"` line, since such a module can export only async functions | `PageSummary.ShowQuizAsWritten`, `PageSummary.UnawaitedQuizFlagOffersFinishedQuiz` | `PageSummary.Decide` |
