# my-diary: the editor's autosave, the dashboard, the diary resource, the session and the routes

This project is a Dafny model of the parts of the my-diary application (a Laravel API behind a React front end) that decide something. Properties of each part are proved.

- **Entry editor** (`DiaryEntryPage`): the page state of `DiaryEntry.jsx`:
  - the draft, `entryId`, `autoSaveStatus` and `saving`;
  - the refs `isInitialLoad` and `autoSaveTimeoutRef`, the latter as "a timeout is pending".

  `Step` is its reaction to one event, written as a function:
  - a change of the draft, i.e. the autosave effect with React's cleanup-before-rerun;
  - the debounce timeout firing (`performAutoSave`);
  - the "Save & Exit" click (`handleSave`);
  - a failed load;
  - unmounting.

  The class `AutosaveController` performs the same reactions on its fields, and each method is proved equal to `Step`. Server replies are inputs, and each request completes inside its event.
- **Dashboard** (`DashboardPage`):
  - `groupedDiaries`: a `forEach` into per-date buckets, then the dates sorted newest first. It is proved to be a partition of the fetched entries by date that keeps their order.
  - The delete dialog's two fields (`DeleteDialog`).
- **Diary resource** (`DiaryController`): `index`, `store`, `show`, `update` and `destroy` over a map from ids to rows, with Laravel's validation rules and the route-model-binding 404 made explicit.
- **Session** (`AuthContext`):
  - the token, the user and the stored token;
  - the `Authorization: Bearer` header rule;
  - login, register, logout and token verification.
- **Routes** (`AppRoutes`): `PrivateRoute`, `PublicRoute`, the five-route table and a segment matcher ranking literal segments over parameters.

Shared pieces:
- `Common` holds `Option`, positive ids and calendar dates.
- `DateOrder` holds a newest-first insertion sort. Its permutation and ordering are proved, and both the dashboard and `index` use it.

Two behaviours of the code differ from a natural reading of the page's intent. The model follows the code in both:

- **A loaded entry schedules an autosave.** Only the effect's first run (at mount) is skipped (DiaryEntry.jsx:45-48). The fetched entry arrives later through `setDiary` (line 98), which is a change like any other. With a non-blank title it therefore marks the entry unsaved and eventually sends an update (`LoadedEntrySchedulesSave`).
- **"Save & Exit" does not clear a pending autosave timeout.** `handleSave` never touches the timeout ref (lines 107-129). Only the effect's cleanup does, when the effect re-runs or the page unmounts (lines 67-71). On success the page navigates to `/`; in the model that unmount is what cancels the timeout; on failure the timeout stays pending.

The timeout calls the `performAutoSave` of the render that scheduled it, so it sees that render's draft and `entryId`. `OnTimerWith` models that closure, and `Rescheduled` tracks which closure the timeout ref holds. `TimeoutSeesCurrentPage` proves that, after any events since mounting, the closure holds the current draft and id. `Step` can therefore read the current values. The reasons:
- every change of the draft clears the pending timeout, and at most one new one is set, by the render that holds the new draft;
- the only other way `entryId` changes while a timeout is pending is a successful "Save & Exit", which unmounts the page.

## Model

| member | source | states |
|---|---|---|
| Common.EarlierIsStrictTotalOrder | resources/js/pages/Dashboard.jsx:67 | comparing dates as days is irreflexive, asymmetric, transitive and total, so sorting by it is well defined |
| DateOrder.SortNewestFirstCorrect | resources/js/pages/Dashboard.jsx:66-67 | the sort returns a permutation of its input with no element on an earlier day than one after it, and keeps distinct elements distinct |
| DiaryEntryPage.BlankIffAllWhitespace | resources/js/pages/DiaryEntry.jsx:51 | `title.trim()` is empty exactly when every character of the title is ECMAScript whitespace or a line terminator |
| DiaryEntryPage.MountEstablishesInv | resources/js/pages/DiaryEntry.jsx:22-48 | the freshly mounted page is idle: not saving, no `saving` status, the initial-load flag cleared, no timeout pending |
| DiaryEntryPage.StepPreservesInv | resources/js/pages/DiaryEntry.jsx:43-129 | every event leaves the page idle; a pending timeout always belongs to a mounted page with a non-blank title and status `unsaved` |
| DiaryEntryPage.RunPreservesInv | resources/js/pages/DiaryEntry.jsx:43-129 | the same holds after any sequence of events |
| DiaryEntryPage.MountOnlyClearsInitialLoad | resources/js/pages/DiaryEntry.jsx:24-48 | the effect's first run changes nothing but the initial-load flag (no timeout, status still `saved`); `entryId` starts out as the route's id, and the page is "editing" exactly when there is one |
| DiaryEntryPage.HeadingShowsEditExactlyWhenBound | resources/js/pages/DiaryEntry.jsx:148 | the header reads "Edit Entry" exactly when an entry id is bound |
| DiaryEntryPage.BlankEditSchedulesNothing | resources/js/pages/DiaryEntry.jsx:51-71 | a change to a blank title only replaces the draft: the old timeout is cleared by the cleanup, no new one is set, the status is kept, and there are no effects |
| DiaryEntryPage.EditSchedulesOneTimer | resources/js/pages/DiaryEntry.jsx:55-71 | a change with a non-blank title shows `unsaved` and leaves exactly one pending timeout, and changes nothing else |
| DiaryEntryPage.RequestsCarryNonBlankDraft | resources/js/pages/DiaryEntry.jsx:74-118 | from an idle page, any request an event sends carries the current draft, whose title is not blank |
| DiaryEntryPage.AutosaveDispatch | resources/js/pages/DiaryEntry.jsx:74-92 | the timeout sends a create without an id and an update of the bound id with one; the statuses are `saving` then `saved`, or `saving` then `unsaved` on failure; a successful create binds the returned id and rewrites the address to `/entry/{id}`; there is no navigation |
| DiaryEntryPage.NoTimerNoAutosave | resources/js/pages/DiaryEntry.jsx:63-71 | with no pending timeout, or after unmount, nothing fires |
| DiaryEntryPage.ManualSaveBlankTitle | resources/js/pages/DiaryEntry.jsx:108-111 | "Save & Exit" with a blank title raises the title alert and changes nothing else: no request, no spinner, no status change |
| DiaryEntryPage.ManualSaveOutcome | resources/js/pages/DiaryEntry.jsx:113-128 | the click sends the create or update for the current draft, with `saving` on and then off; on success the status is `saved`, the id is bound and the page navigates to `/` and unmounts; on failure the state is unchanged, the failure alert is raised and the page stays |
| DiaryEntryPage.LoadedEntrySchedulesSave | resources/js/pages/DiaryEntry.jsx:43-98 | an existing entry with a non-blank title, fetched after mount, marks the page unsaved with a timeout pending, and the save that follows is an update of that id with the fetched data |
| DiaryEntryPage.BoundIdIsPermanent | resources/js/pages/DiaryEntry.jsx:79-120 | once an id is bound, every later event keeps it, and every request sent is an update of that id, never a create |
| DiaryEntryPage.EntryIdNeverReset | resources/js/pages/DiaryEntry.jsx:83-119 | a bound id is never reset to null; while none is bound, no update is sent |
| DiaryEntryPage.NothingAfterUnmount | resources/js/pages/DiaryEntry.jsx:67-71 | after unmount no event sends a request or changes the state beyond the cleanup |
| DiaryEntryPage.NoEditNoSave | resources/js/pages/DiaryEntry.jsx:43-72 | with no timeout pending, events that are neither edits nor clicks send no request and change at most the mounted flag |
| DiaryEntryPage.StepKeepsClosureCurrent | resources/js/pages/DiaryEntry.jsx:57-71 | after every event, a pending timeout's closure holds the page's draft and id |
| DiaryEntryPage.RunKeepsClosureCurrent | resources/js/pages/DiaryEntry.jsx:57-71 | the same holds after any sequence of events |
| DiaryEntryPage.TimeoutSeesCurrentPage | resources/js/pages/DiaryEntry.jsx:63-92 | after any events since mounting, `performAutoSave` run on the timeout's stale closure does exactly what it does on the current draft and id |
| DiaryEntryPage.LastChangeDecides | resources/js/pages/DiaryEntry.jsx:51-65 | when the last edit of a burst changes the draft, whether a timeout is left pending depends only on that edit's title |
| DiaryEntryPage.EditsOnlyReschedule | resources/js/pages/DiaryEntry.jsx:55-71 | a burst of edits sends nothing and keeps the id; the page ends with the last draft; a timeout is pending exactly when the last real change had a non-blank title (or, with no real change, when one was already pending) |
| DiaryEntryPage.DebounceCoalesces | resources/js/pages/DiaryEntry.jsx:57-65 | after any burst of edits that leaves a timeout pending, exactly one autosave is sent, with the last draft, and a second firing sends nothing |
| DiaryEntryPage.CreateOnceThenUpdate | resources/js/pages/DiaryEntry.jsx:79-86 | a new draft's first successful autosave creates the entry and binds the returned id; from then on every request updates that id |
| DiaryEntryPage.AutosaveController.constructor | resources/js/pages/DiaryEntry.jsx:22-48 | the fields after the first render and the effect's first run equal `Mount`, which satisfies the page invariant |
| DiaryEntryPage.AutosaveController.RunEffect | resources/js/pages/DiaryEntry.jsx:43-65 | the effect body, after the previous cleanup: only the initial-load flag on the first run; nothing for a blank title; otherwise `unsaved` and one new timeout |
| DiaryEntryPage.AutosaveController.ChangeDraft | resources/js/pages/DiaryEntry.jsx:43-72 | `setDiary` followed by the effect when a dependency changed; the new fields and the effects equal `Step` on an edit |
| DiaryEntryPage.AutosaveController.TimerFires | resources/js/pages/DiaryEntry.jsx:74-92 | `performAutoSave` on the fields; the new fields and the effects equal `Step` on a timer event |
| DiaryEntryPage.AutosaveController.Save | resources/js/pages/DiaryEntry.jsx:107-129 | `handleSave` on the fields; the new fields and the effects equal `Step` on a click |
| DiaryEntryPage.AutosaveController.LoadFailed | resources/js/pages/DiaryEntry.jsx:99-101 | a failed fetch navigates to `/`, unmounting the page |
| DiaryEntryPage.AutosaveController.Leave | resources/js/pages/DiaryEntry.jsx:67-71 | unmount clears the pending timeout |
| DashboardPage.EntriesOnMatch | resources/js/pages/Dashboard.jsx:59-63 | a date's bucket holds only fetched diaries of that date and every one of them, and it is empty exactly when the date does not occur |
| DashboardPage.Bucket | resources/js/pages/Dashboard.jsx:58-64 | the `forEach` builds, for each date present, the list of its diaries in fetched order, and the keys are exactly the dates present, each once |
| DashboardPage.SortedBucketsGroup | resources/js/pages/Dashboard.jsx:66-71 | the distinct dates sorted newest first and mapped to their buckets form the grouping |
| DashboardPage.GroupByDate | resources/js/pages/Dashboard.jsx:57-72 | `groupedDiaries` holds each date's diaries in fetched order; its dates are exactly the dates present, strictly descending; it is empty exactly when no diary was fetched |
| DashboardPage.EachDiaryInExactlyOneGroup | resources/js/pages/Dashboard.jsx:58-64 | every diary lies in the group of its own date and in no other group |
| DashboardPage.GroupDatesDistinct | resources/js/pages/Dashboard.jsx:60-66 | no two groups share a date |
| DashboardPage.GroupingKeepsCount | resources/js/pages/Dashboard.jsx:57-72 | the groups hold as many entries as were fetched, and there are no groups (the "No entries yet" state of line 115) exactly when nothing was fetched |
| DashboardPage.EntriesOnKeepsOrder | resources/js/pages/Dashboard.jsx:59-63 | of two diaries of the same day, the one fetched first comes first in its group |
| DashboardPage.DeleteDialog.constructor | resources/js/pages/Dashboard.jsx:40-41 | the dialog starts closed with no id |
| DashboardPage.DeleteDialog.HandleDelete | resources/js/pages/Dashboard.jsx:74-78 | the id is recorded and the dialog opens |
| DashboardPage.DeleteDialog.ConfirmDelete | resources/js/pages/Dashboard.jsx:80-91 | a delete is requested exactly for the recorded id, if any, and always when the dialog was open; the list is refetched only after a successful delete; the dialog always ends closed with no id |
| DashboardPage.DeleteDialog.Cancel | resources/js/pages/Dashboard.jsx:187 | Cancel clears the id, and the dialog closes |
| DashboardPage.DeleteDialog.Dismiss | resources/js/pages/Dashboard.jsx:178 | closing the dialog any other way keeps the recorded id |
| DiaryController.ValidateStore | app/Http/Controllers/DiaryController.php:17-21 | accepts exactly a filled string title of at most 255 characters, filled string content and a filled valid date string, and returns those values; a missing field is always rejected; a rejection names at least one field, and names the title exactly when the title fails |
| DiaryController.ValidateUpdate | app/Http/Controllers/DiaryController.php:42-46 | accepts exactly when every supplied field passes its rule; the validated data holds exactly the supplied fields |
| DiaryController.UpdateTouchesOnlySuppliedFields | app/Http/Controllers/DiaryController.php:42-48 | after a valid update each supplied field has its new value, each other field and the owner are unchanged |
| DiaryController.EmptyUpdateChangesNothing | app/Http/Controllers/DiaryController.php:42-48 | an update with no fields passes and leaves the row as it was |
| DiaryController.StoreRulesImplyUpdateRules | app/Http/Controllers/DiaryController.php:17-46 | any input `store` accepts, `update` accepts with the same data |
| DiaryController.OwnedOrRefused | app/Http/Controllers/DiaryController.php:30-32 | an unknown id gives 404, another user's entry gives 403, and the caller's own entry passes |
| DiaryController.SelectOwned | app/Http/Controllers/DiaryController.php:12 | `$request->user()->diaries()` lists exactly the caller's rows as stored, each once |
| DiaryController.PermutedListing | app/Http/Controllers/DiaryController.php:12 | reordering such a listing keeps it exactly the caller's rows, with no id twice |
| DiaryController.DiaryTable.constructor | app/Http/Controllers/DiaryController.php:23 | the empty `diaries` table with the auto-increment counter at 1, the state the ORM's inserts start from |
| DiaryController.DiaryTable.Show | app/Http/Controllers/DiaryController.php:28-34 | 200 with the entry exactly when it exists and is the caller's; otherwise the 404 or 403 refusal |
| DiaryController.DiaryTable.Index | app/Http/Controllers/DiaryController.php:10-13 | exactly the caller's entries as stored, each once, newest date first |
| DiaryController.DiaryTable.Store | app/Http/Controllers/DiaryController.php:15-26 | 201 exactly when validation passes, with one new row under a fresh id, owned by the caller, holding the validated fields; otherwise 422 and no change |
| DiaryController.DiaryTable.Update | app/Http/Controllers/DiaryController.php:36-51 | a refusal leaves the table unchanged and comes before validation; a rejected update gives 422 and no change; a valid one replaces only that row, with the supplied fields patched |
| DiaryController.DiaryTable.Destroy | app/Http/Controllers/DiaryController.php:53-62 | a refusal changes nothing; otherwise exactly that id is removed and the message returned |
| AuthContext.AuthorizationHeader | resources/js/context/AuthContext.jsx:26-28 | the header is set exactly when a non-empty token is present, and is `Bearer ` followed by the token |
| AuthContext.HeaderDeterminesToken | resources/js/context/AuthContext.jsx:27 | different tokens never give the same header |
| AuthContext.Session.constructor | resources/js/context/AuthContext.jsx:15-16 | the token is the stored one and there is no user |
| AuthContext.Session.Login | resources/js/context/AuthContext.jsx:44-51 | success stores and holds the access token, sets the user and returns it; a refusal changes nothing |
| AuthContext.Session.Register | resources/js/context/AuthContext.jsx:53-60 | the same outcomes as login |
| AuthContext.Session.Logout | resources/js/context/AuthContext.jsx:62-71 | the request carries the current header; whatever the server answers, the stored token, the token and the user all end cleared |
| AuthContext.Session.Verify | resources/js/context/AuthContext.jsx:30-42 | `GET /user` is requested exactly when a token is present; success sets the user; failure clears the stored token, the token and the user; without a token nothing changes |
| AppRoutes.Private | resources/js/App.jsx:8-11 | renders the child exactly when a token is present, and otherwise redirects to `/login` |
| AppRoutes.Public | resources/js/App.jsx:13-16 | renders the child exactly when no token is present, and otherwise redirects to `/` |
| AppRoutes.ExactlyOneGuardRenders | resources/js/App.jsx:8-16 | for every token state exactly one of the two guards renders its child |
| AppRoutes.GuardTable | resources/js/App.jsx:22-26 | a route is public exactly when it shows the login or the register page |
| AppRoutes.Best | resources/js/App.jsx:21-27 | the chosen route is in the table and matches the path; there is none exactly when no route matches; no matching route ranks higher |
| AppRoutes.NewEntryRoute | resources/js/App.jsx:25 | `/entry/new` resolves to the new-entry route, which binds no `id` |
| AppRoutes.EntryIdRoute | resources/js/App.jsx:26 | `/entry/{id}` for any other non-empty segment resolves to the `:id` route, which binds `id` to that segment |
| AppRoutes.GuardedRendering | resources/js/App.jsx:22-26 | a resolved page renders exactly when its guard agrees with the token state; otherwise a private page redirects to `/login` and a public one to `/` |

## Left out

- `getSriLankaDate` (DiaryEntry.jsx:11-15) depends on the clock and time zones. The initial date is the input `today`.
- `formatDate` and `stripHtml` (Dashboard.jsx:19-34) depend on Intl and the DOM. They are not part of this model.
- Time and concurrency:
  - The 2000 ms delay is the abstract `TimerFired` event.
  - Requests in flight side by side, and the order in which they complete, are not modelled. Each request completes inside the event that sends it, so `saving` and the `saving` status exist only within one step. They appear only in the effects' `spinner` and `statuses` sequences.
- The fetch on mount (DiaryEntry.jsx:36-40, 94-105) is split into its two outcomes. Success is an ordinary `Edit` with the fetched draft, and failure is `FetchFailed`. The `loading` flag and the spinner render are not modelled.
- Rendering, styling, the rich-text editor, `window.history` itself, the Login and Register pages and routes/web.php are not part of this model.
- `DiaryEntryPage.AutosaveController.RunEffect` and `ChangeDraft`: React re-runs the effect only when one of `title`, `content` or `date` changes. The model compares the drafts to decide, so setting an equal draft has no effect.
- `DiaryController`, Laravel internals:
  - The `date` rule (strtotime) is the parameter `dateRule`.
  - Route-model binding is the 404 of `OwnedOrRefused`.
  - Authentication middleware (a 401 without a valid token) is not modelled; every call has an authenticated `user`.
  - The ORM is a map with an auto-increment counter.
  - Timestamps and the JSON shape of replies are not modelled.
- `DiaryController.ValidateStore` and `ValidateUpdate` see the raw request body. The `TrimStrings` and `ConvertEmptyStringsToNull` middleware are not part of this model, so strings are stored untrimmed.
- `DiaryController.ValidateUpdate`: Laravel skips a non-implicit rule on a string that is empty after trimming. So `update` accepts and stores a blank `date` and a blank title of more than 255 characters. The model applies the rules to them, and rejects both whenever `dateRule` rejects the blank string.
- `DiaryController.DateRule` accepts only strings. Laravel's `date` rule also accepts numeric values, which the model rejects.
- `max:255` counts code points, as `mb_strlen` does for strings.
- `DiaryController.DiaryTable.Index`: SQL leaves the order of entries on the same date unspecified. The model lists them in the order the selection loop finds them, and states only the newest-first order.
- `AppRoutes.Best` ranks a literal segment 10 and a parameter 3. This is the part of React Router's ranking that matters for this table; index routes, splats and optional segments are not used here.
- `AppRoutes.Matches` compares segments exactly. React Router matches case-insensitively and accepts a trailing slash, so `/Login` and `/login/` reach the login page in the app but resolve to no route in the model.
- `DiaryEntryPage.Initial` takes the route id as a positive number or none. `useState(id || null)` takes any non-empty segment, so `/entry/abc` binds `"abc"`; its fetch fails and the page returns to `/`, as `FetchFailed` models for any id whose fetch fails. The model does not represent such an id.
- `DiaryEntryPage.Draft` holds a calendar date. The empty string that a cleared date input sends is not modelled.
- `AuthContext`:
  - A second tab changing `localStorage` is not modelled.
  - The request body of login and register is not modelled.
  - A `GET /user` reply arriving after the token changed is not modelled.
