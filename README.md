# AI model generator: a Dafny model of its page logic

This project models the logic of a small single-page web application. Users
upload reference face images, pick a gender, an ethnicity, a fashion style and
a background in a seven-step wizard, and ask an AI image service for portraits.
They then browse, search, favourite and delete their saved generations, and
see counters on a dashboard. Four source files are modelled:

- `ModelGenerator.tsx`, the generator wizard. Its pure side is in the modules
  `WizardForm` (form record, per-step guard, file-list edits) and
  `GenerationPrompt` (style lookup, background phrase, prompt templates, retry
  schedule, error-to-toast mapping). Its stateful side is in `ModelGenerator`:
  the class `Wizard` holds the step, the form and the generated images. The
  submission is modelled as methods. The upload loop collects public URLs. The
  AI call is retried for Figure Study. The steps after the AI answer are
  modelled as well.
- `GenerationHistory.tsx`, the history page (module `GenerationHistory`). The
  search and category filter and the stat cards are functions. The class
  `HistoryBrowser` holds the loaded list and rewrites it on favourite and
  delete.
- `Dashboard.tsx`, the dashboard (module `Dashboard`). It keeps the
  six-record recent strip and three counters, and reloads them on auth events.
- `App.tsx`, the shell (module `App`). The class `App` holds the current page,
  the user and the loading flag. It also holds the rule that picks the view
  to render.

Shared modules:

- `Wrappers`: `Option` and `Result`.
- `Seqs`: `filter`, and its length.
- `Text`: `includes`, `startsWith`, ASCII `toLowerCase`, ECMAScript `trim`,
  `join(',')` and `split(',')`.
- `Records`: the stored generation record and the JavaScript truthiness of
  its favourite flag.
- `SavedRecords`: how a row saved by the generator reads back on the
  history page.

The backend client (storage, AI, auth, database) is never called. Each of its
answers is a parameter:

- `Backend` gives the outcome of the k-th upload, the k-th AI request,
  `auth.me` and the row insert.
- The list calls are functions from a user id to a `Result`.
- The delete confirmation is a boolean.
- The current month is a `YearMonth`.

Each submission returns a `Trace` of the backend calls it made, in order.

## Model

| member | source | states |
|---|---|---|
| Text.ContainsIff | src/components/pages/GenerationHistory.tsx:54-59 | `includes`, searched left to right, holds exactly when the substring sits at some offset (reference definition), both directions |
| Text.TrimSpec | src/components/pages/ModelGenerator.tsx:199-201 | `trim()` keeps a slice with no white space at either end and drops only white space around it |
| Text.TrimEmptyIff | src/components/pages/ModelGenerator.tsx:199 | the trimmed custom prompt is empty exactly when the prompt is all white space |
| Text.LowerIdempotent | src/components/pages/GenerationHistory.tsx:54-59 | lower-casing twice is lower-casing once |
| Records.FirstNonEmpty | src/components/pages/GenerationHistory.tsx:56 | `a \|\| b` over two string spellings is `a` whenever `a` is non-empty and `b` otherwise, so it is empty only when both are |
| Records.FavoriteFlagPrecedence | src/components/pages/GenerationHistory.tsx:65 | `Number(is_favorite \|\| isFavorite) > 0`: a truthy snake_case flag decides alone and a falsy one hands over to the camelCase flag; a favourite always has a truthy flag, and a negative number, though truthy, is no favourite |
| Records.BothFieldsSet | src/components/pages/GenerationHistory.tsx:88-90 | a record whose two favourite fields hold the same boolean passes `Number(a \|\| b) > 0` exactly when that boolean is true |
| WizardForm.PristineIsInitial | src/components/pages/ModelGenerator.tsx:120-139 | the initial form (no files, empty selections, sliders at 50) is the only pristine form |
| WizardForm.ReadyIffEveryStepProceeds | src/components/pages/ModelGenerator.tsx:356-366 | the guards of steps 0-5 all hold exactly when files, gender, ethnicity, style and background are all set |
| WizardForm.Select | src/components/pages/ModelGenerator.tsx:427-429 | a radio-group choice on step 1, 2, 3 or 5 sets exactly that step's field (gender, ethnicity, style, background) to the chosen value; every other field, the files and the custom prompt among them, stays |
| WizardForm.CanProceedWaitsOnlyForSelections | src/components/pages/ModelGenerator.tsx:356-366 | `canProceed()` waits only for selections: a complete form may leave every step; the initial form is held on exactly steps 0, 1, 2, 3 and 5; the optional features step and any later step never block |
| WizardForm.SelectionGuardsStep | src/components/pages/ModelGenerator.tsx:356-366 | choosing a value opens exactly that step's guard when the value is non-empty, clearing it closes the guard, and other steps' guards do not change |
| WizardForm.NextButton | src/components/pages/ModelGenerator.tsx:748-752 | the Next button is absent on the last step only, and is enabled exactly when the step's guard holds |
| WizardForm.AfterUpload | src/components/pages/ModelGenerator.tsx:141-150 | a null file list changes nothing; otherwise the old list is kept as a prefix, followed by the image/video files of the input, in input order, each as many times as the input holds it, and nothing else |
| WizardForm.DropIndex | src/components/pages/ModelGenerator.tsx:152-157 | removing index i in range yields the list without element i; an index out of range leaves the list unchanged |
| GenerationPrompt.StyleLookup | src/components/pages/ModelGenerator.tsx:179-196 | `AdditionalPrompt`: extra prompt text exists exactly for Figure Study, Classical Art and Renaissance; any style outside the four named ones is described as "<style> style clothing" |
| GenerationPrompt.StyleDescriptionIdentifiesStyle | src/components/pages/ModelGenerator.tsx:183-197 | `StyleDescription`: the clothing phrase is never empty; two styles outside the four named ones share a phrase only when they are equal, and the four named styles have four different phrases |
| GenerationPrompt.BackgroundUsesCustomPrompt | src/components/pages/ModelGenerator.tsx:198-202 | `BackgroundDescription`: the background phrase differs from the bare background exactly when the custom prompt has a non-space character, and then starts with the background and contains the trimmed prompt |
| GenerationPrompt.MaxAttempts | src/components/pages/ModelGenerator.tsx:228-268 | the limit on AI requests: at most one request, or at most three for Figure Study (Figure Study makes two when the first fails and the second succeeds) |
| GenerationPrompt.AttemptPrompts | src/components/pages/ModelGenerator.tsx:204-262 | there are as many prompts as attempts, and the first attempt uses the primary prompt |
| GenerationPrompt.RetryPolicy | src/components/pages/ModelGenerator.tsx:228-268 | only Figure Study gets more than one attempt, and no style gets more than three |
| GenerationPrompt.PortraitMentions | src/components/pages/ModelGenerator.tsx:204 | the portrait sentence contains the gender, the ethnicity, the style clause and the setting |
| GenerationPrompt.PromptsMentionSelections | src/components/pages/ModelGenerator.tsx:204-258 | every attempt's prompt names the chosen gender, ethnicity and background phrase; the first also names the style description |
| GenerationPrompt.ErrorMessage | src/components/pages/ModelGenerator.tsx:322-332 | the toast text is the safety text, the rate-limit text, the generic text or the error's own message, and is never empty |
| GenerationPrompt.ErrorMessagePrecedence | src/components/pages/ModelGenerator.tsx:322-332 | "safety" anywhere wins, then "rate limit", then a non-empty message is shown as is; an empty message gives the generic text |
| ModelGenerator.UploadPathsByName | src/components/pages/ModelGenerator.tsx:170-173 | one storage path per file, in file order, inside "references/", from which the file's name reads back; two files share a path exactly when they share a name, so with `upsert` the later upload replaces the earlier one |
| ModelGenerator.UsableUrls | src/components/pages/ModelGenerator.tsx:277 | the URLs kept are the non-empty ones of the answer, in their order, each as many times as the answer holds it; so the toast's count is the number of non-empty URLs |
| ModelGenerator.UploadReferences | src/components/pages/ModelGenerator.tsx:170-175 | the URLs are those of uploads 0..n-1, in order; a failing upload stops the loop with its error, and otherwise every file has a URL |
| ModelGenerator.RequestImages | src/components/pages/ModelGenerator.tsx:214-271 | attempt k sends the uploaded URLs with prompt k; a later attempt is made only after a failed one; the answer is that of the last attempt, and an error is final only once the allowed attempts are used up |
| ModelGenerator.SavedRowReadsBack | src/components/pages/ModelGenerator.tsx:291-303 | the comma-joined reference and image columns of the saved row split back at ',' into the URLs they were made from, as the history page reads them, when no URL holds a comma |
| Text.SplitJoin | src/components/pages/GenerationHistory.tsx:233-234 | `split(',')` inverts `join(',')` on a non-empty list of comma-free pieces |
| SavedRecords.SavedPromptNotSearched | src/components/pages/ModelGenerator.tsx:300 | a saved generation reads back with the wizard's gender, ethnicity, style and background, is not a favourite, and has no custom prompt the search can see; a query found only in its custom prompt does not find it |
| ModelGenerator.ToastFor | src/components/pages/ModelGenerator.tsx:308-339 | the final toast reports success exactly when the submission completed, carrying the number of images it reported; a thrown error gives the failure toast whose text is `ErrorMessage` of the error's message (so a message containing "safety" gives the safety text), never empty |
| ModelGenerator.Deliver | src/components/pages/ModelGenerator.tsx:273-306 | an AI error is rethrown; an empty answer and an answer without a usable URL throw their own errors; otherwise the usable URLs are shown before `auth.me` is asked; the row is saved only with a user, and the submission completes exactly when the insert succeeds, with the number of images shown |
| ModelGenerator.Submit | src/components/pages/ModelGenerator.tsx:159-342 | `Submitted`: no files: throws before any backend call. Uploads run in order up to the first failure, whose error ends the submission. The AI is called only after every upload succeeded, with those URLs and the prompts in retry order, at most as often as the style allows. The last AI answer decides the rest, as in `Deliver` |
| ModelGenerator.Wizard.constructor | src/components/pages/ModelGenerator.tsx:113-139 | starts on step 0, not generating, with no images and the initial form |
| ModelGenerator.Wizard.NextStep | src/components/pages/ModelGenerator.tsx:344-348 | advances one step unless on the last one; the step stays within 0..6 |
| ModelGenerator.Wizard.PrevStep | src/components/pages/ModelGenerator.tsx:350-354 | goes back one step unless on the first one; the step stays within 0..6 |
| ModelGenerator.Wizard.Choose | src/components/pages/ModelGenerator.tsx:427-555 | a radio-group choice on step 1, 2, 3 or 5 sets that step's field |
| ModelGenerator.Wizard.SetCustomPrompt | src/components/pages/ModelGenerator.tsx:575 | editing the details text changes only the custom prompt |
| ModelGenerator.Wizard.HandleFileUpload | src/components/pages/ModelGenerator.tsx:141-150 | the form's file list becomes `AfterUpload` of the old list; nothing else in the form changes |
| ModelGenerator.Wizard.RemoveFile | src/components/pages/ModelGenerator.tsx:152-157 | the file at the index is removed when the index is in range; otherwise the form is unchanged |
| ModelGenerator.Wizard.Restart | src/components/pages/ModelGenerator.tsx:642-664 | "Generate Another Model" returns to step 0 with no images and a pristine form |
| ModelGenerator.Wizard.Generate | src/components/pages/ModelGenerator.tsx:159-342 | the trace and outcome are those of one run of the submission (`Submitted`, with some shown images); the images that run shows replace the old ones, and otherwise the old images stay; the toast is that of the outcome; generation is off afterwards; a completed submission shows as many images as it reports |
| GenerationHistory.MatchesByOccurrence | src/components/pages/GenerationHistory.tsx:52-60 | `Matches`: a record matches exactly when the lower-cased query occurs, by the offset definition, in one of its lower-cased searched fields (the prompt only when non-empty); its own gender or background, typed as the query, always finds it |
| GenerationHistory.Searched | src/components/pages/GenerationHistory.tsx:51-60 | with a non-empty query, the matching records are kept in order, each as many times as the list holds it, and nothing else; an empty query keeps all |
| GenerationHistory.FilterGenerations | src/components/pages/GenerationHistory.tsx:48-76 | the filtered list keeps the loaded order, and a record is in it exactly when it matches a non-empty query and its category, with as many copies as the loaded list holds; an empty query with "all" shows everything |
| GenerationHistory.SearchThenCategoryIsOneFilter | src/components/pages/GenerationHistory.tsx:51-74 | with a non-empty query, the search followed by the category button is a single filter by both tests together |
| GenerationHistory.SearchIgnoresCase | src/components/pages/GenerationHistory.tsx:54-59 | lower-casing the query does not change the result |
| GenerationHistory.SearchForMaleFindsFemale | src/components/pages/GenerationHistory.tsx:54-73 | the search is by substring, so the query "male" matches every female record, while the Male button excludes it |
| GenerationHistory.FilterIdempotent | src/components/pages/GenerationHistory.tsx:48-76 | filtering the filtered list again with the same inputs changes nothing |
| GenerationHistory.StatsOf | src/components/pages/GenerationHistory.tsx:172-197 | the total is the number of loaded records; favourites do not exceed it, and neither do male plus female together |
| GenerationHistory.StatsMatchCategories | src/components/pages/GenerationHistory.tsx:64-74 | with an empty search box, each stat card equals the length of the list that the matching category button shows |
| GenerationHistory.MarkFavorite | src/components/pages/GenerationHistory.tsx:88-90 | the list keeps its length and ids; every record with the id keeps all its other fields, gets both flags set to the new value and so is a favourite exactly when the value is true; other records are unchanged |
| GenerationHistory.MarkFavoriteKeepsCounts | src/components/pages/GenerationHistory.tsx:86-95 | a favourite update keeps the total, male and female cards; marking never lowers the favourites card and unmarking never raises it |
| GenerationHistory.ToggleTwiceRestoresFavorite | src/components/pages/GenerationHistory.tsx:86-95 | one press of the heart flips the record's favourite status, and a second press restores it |
| GenerationHistory.MarkFavoriteLastWins | src/components/pages/GenerationHistory.tsx:86-95 | two updates of the same id amount to the later one |
| GenerationHistory.WithoutId | src/components/pages/GenerationHistory.tsx:102 | the list after a delete keeps, in order, every record with another id as many times as before, and drops every record with the id |
| GenerationHistory.DeleteUnknownId | src/components/pages/GenerationHistory.tsx:102 | deleting an id that no record has leaves the list unchanged |
| GenerationHistory.HistoryBrowser.constructor | src/components/pages/GenerationHistory.tsx:23-27 | starts empty, with no query, on "all", loading |
| GenerationHistory.HistoryBrowser.LoadGenerations | src/components/pages/GenerationHistory.tsx:29-46 | on success the list is the database list for the current user's id; on any error it is kept; loading ends either way |
| GenerationHistory.HistoryBrowser.SetSearchQuery | src/components/pages/GenerationHistory.tsx:144 | the search box holds the typed text |
| GenerationHistory.HistoryBrowser.SetFilterBy | src/components/pages/GenerationHistory.tsx:154 | the selected category is the pressed button |
| GenerationHistory.HistoryBrowser.ToggleFavorite | src/components/pages/GenerationHistory.tsx:86-95 | the database is sent the negated flag; only when it accepts is the local list rewritten by `MarkFavorite`, and otherwise it is unchanged |
| GenerationHistory.HistoryBrowser.DeleteGeneration | src/components/pages/GenerationHistory.tsx:97-106 | without confirmation nothing is sent; a confirmed, successful delete removes every record with the id; otherwise the list is unchanged |
| Dashboard.Recent | src/components/pages/Dashboard.tsx:34 | the recent strip is a prefix of the list, of six records or the whole list when it is shorter |
| Dashboard.ComputeStats | src/components/pages/Dashboard.tsx:37-45 | the total is the list length, and neither this month's count nor the favourites exceed it |
| Dashboard.AgreesWithHistory | src/components/pages/Dashboard.tsx:38-45 | the dashboard's total and favourite counters equal the history page's cards for the same list |
| Dashboard.ThisMonthCountsExactly | src/components/pages/Dashboard.tsx:39-45 | `CreatedIn`: this month's counter is the number of list positions holding a record created in the current month and year, and the favourites counter the number holding a favourite, repeats included |
| Dashboard.LoadDashboardData | src/components/pages/Dashboard.tsx:21-52 | a successful list replaces both the strip and the counters; a failed one replaces neither |
| Dashboard.OnAuthChanged | src/components/pages/Dashboard.tsx:54-62 | the user is stored on every event, and data is loaded, for that user's id, only when there is a user |
| Dashboard.InitiallyCoherent | src/components/pages/Dashboard.tsx:13-19 | the initial empty strip and zero counters are those of the empty list |
| Dashboard.CoherentBounds | src/components/pages/Dashboard.tsx:34-45 | when the strip and the counters come from one list, the strip holds six records or the whole list, and no counter exceeds the total |
| Dashboard.OnAuthChangedKeepsCoherent | src/components/pages/Dashboard.tsx:21-62 | if the strip and the counters are the slice and the counts of one list, they still are after any auth event: of the list just loaded, or of the earlier one |
| App.PageAfterAuth | src/App.tsx:19-22 | a signed-in user on the landing page goes to the dashboard; any other event keeps the page |
| App.Views | src/App.tsx:31-61 | while loading, no page view is rendered |
| App.ViewSelection | src/App.tsx:31-61 | at most one view is rendered. Landing needs the landing page and no user. Dashboard needs the dashboard page, or the landing page with a user. Generator and history need an exact page match. Any other page renders nothing |
| App.SignedInNeverSeesLanding | src/App.tsx:19-22 | after an auth event that brings a user, the landing view is never rendered; from the landing page the dashboard is shown instead |
| App.App.constructor | src/App.tsx:10-12 | starts on "landing", with no user, loading |
| App.App.HandleNavigate | src/App.tsx:27-29 | navigation sets the page to exactly the requested one |
| App.App.OnAuthStateChanged | src/App.tsx:14-25 | every auth event copies the user and the loading flag, and moves the page as `PageAfterAuth` says |

## Left out

- Rendering, CSS, `console` logging and `URL.createObjectURL` are not modelled. The same goes for the image download helper (`downloadImage`, GenerationHistory.tsx:108-116) and the image previews. None of them hold page logic.
- The backend SDK (storage, AI, database, auth) is not modelled. Each of its answers is a parameter, fixed in advance for one run.
- The request options of the AI call (size, quality, four variations) are not modelled. Nor are the storage upload's `upsert` option and the list calls' `where`/`orderBy`. The database is trusted to return the right user's records, newest first.
- The AI answer is modelled as its list of URLs, with "" for a missing `url`. A missing `result` or `result.data` is taken to be an empty list, which throws the same error.
- Sliders store `JSON.stringify` of their values in the saved row. The model stores the slider values themselves. The slider setters (ModelGenerator.tsx:512-546) are not modelled, since no logic reads the values back.
- The progress bar (ModelGenerator.tsx:695) is not modelled; it is a floating-point display value.
- Dates are not parsed. A record's creation time is a given (year, month), or `None` when it does not parse. The current month is a parameter. Time zones are not modelled.
- `toLowerCase` is modelled for ASCII letters only, with no Unicode case mapping.
- The success toast is modelled by its image count, without its wording.
- React's effect scheduling and the concurrency of async handlers are not modelled. Each handler runs atomically, with its awaited answers given. So the model does not capture a stale `currentPage` in the App auth callback, or a page left before a call returns.
- The generator saves the custom prompt under `custom_background` (ModelGenerator.tsx:300). The history page searches and shows only `custom_prompt || customPrompt` (GenerationHistory.tsx:58, 290-292). `SavedRecords.SavedPromptNotSearched` shows the consequence. The model keeps both sides as written: which side is at fault cannot be read from the code.
- `SavedRecords.Loaded` assumes the database returns a row under the column names it was written with.
- A record's absent gender, ethnicity or background is read as "". In the source, `toLowerCase()` on an absent field throws inside the filter.
- `Header.tsx`, `LandingPage.tsx` and `types/index.ts` are not part of this model. They contain only rendering, sign-in/sign-out calls and type declarations.
- GenerationHistory.HistoryBrowser.ToggleFavorite: the history page's favourite toggle is sometimes described as optimistic. The code awaits the database update before it changes the local list, and leaves the list alone when the update fails. The model follows the code.
- GenerationPrompt.ErrorMessage: the branch for messages that contain "reference" shows the message as is, as the generic branch after it does. The model keeps both branches. No lemma separates them, because none can.
