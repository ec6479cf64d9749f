# Task list and task editor of a to-do web client, in Dafny

This project models the client-side logic of a personal to-do application's
web front end: the dashboard page that loads the user's tasks, filters them
and starts edits and deletes, and the modal editor that creates or updates
one task. Both are React components; here their state is a Dafny class whose
fields are the components' `useState` values, and their pure derivations are
functions with lemmas about them.

- `text.dfy` (`Text`): ASCII `toLowerCase`, `String.prototype.includes`
  (proved to be "is a contiguous substring") and `Array.prototype.join`
  (its length, when it is empty, and that it contains every part).
- `tasks.dfy` (`Tasks`): priorities and statuses with their wire names, and
  the request body the editor sends.
- `api.dfy` (`Api`): the REST client as a log of issued requests
  (`Client.sent`) and an `Outcome` type for a settled call: success with a
  value, or failure with or without response data.
- `browser.dfy` (`Browser`): `localStorage` as a map.
- `dashboard_filter.dfy` (`DashboardFilter`): `filteredTasks` — status,
  priority, starred-only and title search ANDed — and what it promises:
  membership iff all four criteria hold, an order-preserving subsequence
  that keeps every matching task, idempotence, `'ALL'`/off/empty are no
  constraint, exact matches, case-insensitive substring search.
- `dashboard.dfy` (`Dashboard`): class `DashboardPage` with `tasks`, the four
  filter values, `isModalOpen`, `editingTask`, `isLoading`, and the
  handlers `FetchTasks` (split into the synchronous start and the
  settlement), `HandleDelete`, `HandleLogout`, `OpenForCreate`,
  `OpenForEdit`, `CloseModal` and the filter setters.
- `editor.dfy` (`Editor`): the editor's pure derivations (`ResetForm`,
  `DataToSend`, `SaveRequest`, `ErrorMessage`) and class `TaskModal` with
  `formData` and `error`, the reset effect, the six field updates and
  `HandleSubmit`.

The outcome of every network call, and the answer to `confirm()`, are
parameters of the operation that makes the call. The editor's callbacks are
returned, in call order, by `HandleSubmit`; in the page they are
`CloseModal` (onClose) and `FetchTasks` (onSave).

The create-or-update choice reads the `task` prop's id (`task?.id`,
frontend/components/TaskModal.tsx:58), not the id in `formData`; an id of 0
is falsy, so it is saved by a create.

## Model

| member | source | states |
|---|---|---|
| `Text.ToLower` | frontend/app/dashboard/page.tsx:63 | lower-casing keeps the length, turns each ASCII upper-case letter into its lower-case letter (code point + 32), leaves no upper-case ASCII letter and keeps every other character |
| `Text.ToLowerIdempotent` | frontend/app/dashboard/page.tsx:63 | lower-casing a lower-cased string changes nothing |
| `Text.IncludesIsSubstring` | frontend/app/dashboard/page.tsx:63 | `includes` holds iff the needle occurs contiguously at some position of the haystack |
| `Text.Includes` | frontend/app/dashboard/page.tsx:63 | `includes`; no contract of its own: `Text.IncludesIsSubstring` proves it is exactly 'occurs contiguously somewhere', `Text.IncludesEmpty` that the empty needle is always included |
| `Text.IncludesEmpty` | frontend/app/dashboard/page.tsx:63 | the empty string is included in every string |
| `Text.Join` | frontend/components/TaskModal.tsx:68 | `.join(', ')`; no contract of its own: `Text.JoinLength`, `Text.JoinEmptyIff` and `Text.JoinContainsPart` state its length, when it is empty and that it holds every part |
| `Text.JoinLength` | frontend/components/TaskModal.tsx:68 | a join's length is the parts' total length plus one separator between each two parts |
| `Text.JoinEmptyIff` | frontend/components/TaskModal.tsx:68-69 | with a non-empty separator the join is empty iff there are no parts or a single empty part |
| `Text.JoinContainsPart` | frontend/components/TaskModal.tsx:68 | every part occurs contiguously in the join |
| `Tasks.PriorityNameInjective` | frontend/app/dashboard/page.tsx:14 | two priorities have the same wire name iff they are equal |
| `Tasks.StatusNameInjective` | frontend/app/dashboard/page.tsx:15 | two statuses have the same wire name iff they are equal |
| `DashboardFilter.MatchesStatus` | frontend/app/dashboard/page.tsx:60 | `matchesStatus`; no contract of its own: `StatusAllUnconstrained`, `StatusExactMatch` and `UnknownStatusShowsNothing` state its three cases |
| `DashboardFilter.MatchesPriority` | frontend/app/dashboard/page.tsx:61 | `matchesPriority`; no contract of its own: `PriorityAllUnconstrained` and `PriorityExactMatch` state its cases |
| `DashboardFilter.MatchesStarred` | frontend/app/dashboard/page.tsx:62 | `matchesStarred`; no contract of its own: `StarredCriterion` states both of its cases |
| `DashboardFilter.MatchesSearch` | frontend/app/dashboard/page.tsx:63 | `matchesSearch`; no contract of its own: `SearchIsCaseInsensitiveSubstring` and `SearchIgnoresCase` state it is a case-insensitive substring test |
| `DashboardFilter.Matches` | frontend/app/dashboard/page.tsx:64 | the conjunction returned to `filter`; no contract of its own: `FilterMembership` states a task is shown iff all four predicates hold |
| `DashboardFilter.FilteredTasks` | frontend/app/dashboard/page.tsx:59-65 | the filtered list is no longer than the list and every task in it meets all four criteria |
| `DashboardFilter.FilterMembership` | frontend/app/dashboard/page.tsx:60-64 | a task is shown iff it is in the list and the status, priority, starred and search criteria all hold of it |
| `DashboardFilter.FilterIsOrderedSubsequence` | frontend/app/dashboard/page.tsx:59-65 | the shown tasks come from strictly increasing positions of the list, and every matching position is among them: an order-preserving subsequence that drops only non-matching tasks |
| `DashboardFilter.FilterIdempotent` | frontend/app/dashboard/page.tsx:59-65 | filtering the filtered list again changes nothing |
| `DashboardFilter.NoCriteriaShowsAll` | frontend/app/dashboard/page.tsx:59-65 | with 'ALL', 'ALL', starred-only off and an empty search the whole list is shown, in order |
| `DashboardFilter.StatusAllUnconstrained` | frontend/app/dashboard/page.tsx:60 | with status 'ALL', a task's status never affects whether it is shown |
| `DashboardFilter.PriorityAllUnconstrained` | frontend/app/dashboard/page.tsx:61 | with priority 'ALL', a task's priority never affects whether it is shown |
| `DashboardFilter.StarredCriterion` | frontend/app/dashboard/page.tsx:62 | with starred-only off, `starred` never affects whether a task is shown; with it on, every shown task is starred |
| `DashboardFilter.StatusExactMatch` | frontend/app/dashboard/page.tsx:60 | with a status name selected, every shown task has exactly that status |
| `DashboardFilter.PriorityExactMatch` | frontend/app/dashboard/page.tsx:61 | with a priority name selected, every shown task has exactly that priority |
| `DashboardFilter.UnknownStatusShowsNothing` | frontend/app/dashboard/page.tsx:60 | a status filter string that is neither 'ALL' nor a status name shows no task |
| `DashboardFilter.SearchIsCaseInsensitiveSubstring` | frontend/app/dashboard/page.tsx:63 | a task matches the search iff the lower-cased query occurs in the lower-cased title; an empty query matches every title |
| `DashboardFilter.SearchIgnoresCase` | frontend/app/dashboard/page.tsx:63 | titles, and queries, that agree up to ASCII case match alike |
| `DashboardFilter.StarredOnlyScenario` | frontend/app/dashboard/page.tsx:59-65 | of an unstarred pending task and a starred completed one, starred-only shows just the second |
| `Dashboard.AsFormTask` | frontend/app/dashboard/page.tsx:179 | the task handed to the editor has the listed task's id present and every other field equal |
| `Dashboard.SaveTargetOfEditor` | frontend/components/TaskModal.tsx:58-62 | saving from an editor opened on a listed task is a PUT to that task's id unless the id is 0, then a POST; from an editor opened for a new task it is a POST |
| `Dashboard.DashboardPage.Visible` | frontend/app/dashboard/page.tsx:59-65 | `filteredTasks` for the page's current state; no contract of its own: it is `FilteredTasks` over `tasks` and the four filter fields, so every `DashboardFilter` lemma applies to it |
| `Dashboard.DashboardPage.Cards` | frontend/app/dashboard/page.tsx:124-131 | the spinner-or-cards choice; no contract of its own: `BeginLoad` states no card is rendered while loading, `EndLoad` that afterwards the cards are the filtered tasks |
| `Dashboard.DashboardPage.ModalTask` | frontend/app/dashboard/page.tsx:179 | the editor's `task` prop; no contract of its own: `OpenForCreate` states it is absent after 'New Task', `OpenForEdit` that it is the clicked task with its id |
| `Dashboard.DashboardPage.constructor` | frontend/app/dashboard/page.tsx:20-27 | initial state: no tasks, 'ALL'/'ALL', starred-only off, empty search, editor closed with no task, loading |
| `Dashboard.DashboardPage.BeginLoad` | frontend/app/dashboard/page.tsx:31-33 | loading starts (no cards are rendered) and exactly one GET /tasks/ is sent; nothing else changes |
| `Dashboard.DashboardPage.EndLoad` | frontend/app/dashboard/page.tsx:33-39 | loading ends; on success `tasks` is the returned data, on failure it keeps its previous value; the cards are then the filtered tasks |
| `Dashboard.DashboardPage.FetchTasks` | frontend/app/dashboard/page.tsx:30-40 | one GET is sent, loading is over afterwards, and `tasks` is the data on success and unchanged on failure; no other field changes |
| `Dashboard.DashboardPage.HandleDelete` | frontend/app/dashboard/page.tsx:46-51 | unconfirmed: no request and no change; confirmed: exactly DELETE of that id, then, if it succeeded, one reload with its effect on `tasks` and `isLoading`; a failed delete is a rejection with no reload |
| `Dashboard.DashboardPage.HandleLogout` | frontend/app/dashboard/page.tsx:53-57 | exactly the keys `access_token` and `refresh_token` are removed from storage; the page state is untouched |
| `Dashboard.DashboardPage.OpenForCreate` | frontend/app/dashboard/page.tsx:116 | no task is selected and the editor is open, so the editor receives no task |
| `Dashboard.DashboardPage.OpenForEdit` | frontend/app/dashboard/page.tsx:143 | the clicked task is selected and the editor is open, receiving that task with its id |
| `Dashboard.DashboardPage.CloseModal` | frontend/app/dashboard/page.tsx:177 | the editor closes and nothing else changes |
| `Dashboard.DashboardPage.SetSearchQuery` | frontend/app/dashboard/page.tsx:84 | only the search query changes, to the typed text |
| `Dashboard.DashboardPage.SetFilterStatus` | frontend/app/dashboard/page.tsx:91 | only the status filter changes, to the selected value |
| `Dashboard.DashboardPage.SetFilterPriority` | frontend/app/dashboard/page.tsx:101 | only the priority filter changes, to the selected value |
| `Dashboard.DashboardPage.ToggleStarred` | frontend/app/dashboard/page.tsx:110 | only starred-only changes, to its negation |
| `Editor.ResetForm` | frontend/components/TaskModal.tsx:35-46 | with a task, the form is that task field for field; without, it is the default draft: no id, empty title, description and due date, MEDIUM, PENDING, not starred |
| `Editor.DataToSend` | frontend/components/TaskModal.tsx:52-55 | the body's due date is null iff the form's is empty, and otherwise that date; every other field, the id included, equals the form's |
| `Editor.FormOfDataToSend` | frontend/components/TaskModal.tsx:52-55 | the form is recovered from the body it produced (null due date as the empty field) |
| `Editor.DataToSendFormOf` | frontend/components/TaskModal.tsx:52-55 | a body is reproduced from its form iff it does not carry an empty date string, which the normalisation never sends |
| `Editor.HasTruthyId` | frontend/components/TaskModal.tsx:58 | the truthiness of `task?.id`; no contract of its own: `Editor.SaveRequest` states an update is chosen iff it holds, `Editor.FalsyIdCreates` that a missing task, a missing id and id 0 do not satisfy it |
| `Editor.SaveRequest` | frontend/components/TaskModal.tsx:58-62 | an update is issued iff the `task` prop is present with a present non-zero id, and then to that id with the body; otherwise a create with the body |
| `Editor.FalsyIdCreates` | frontend/components/TaskModal.tsx:58 | no task, a task without id and a task with id 0 are all saved by a create |
| `Editor.Flatten` | frontend/components/TaskModal.tsx:68 | `Object.values(...).flat()`; no contract of its own: `Editor.FlattenMembers` states it holds exactly the messages the values carry |
| `Editor.FlattenMembers` | frontend/components/TaskModal.tsx:68 | the one-level flatten holds exactly the messages carried by the error values |
| `Editor.ErrorMessage` | frontend/components/TaskModal.tsx:67-72 | the shown error is never empty, and without response data it is 'Failed to save task.' |
| `Editor.ErrorMessageFromData` | frontend/components/TaskModal.tsx:67-72 | with data, the error is the flattened messages joined by ", ", except that no message or one empty message gives 'Failed to save task.'; every message carried appears in it |
| `Editor.TaskModal.constructor` | frontend/components/TaskModal.tsx:24-48 | on mount the props are stored and the reset has run: the form is the reset form for the task and the error is empty |
| `Editor.TaskModal.Reset` | frontend/components/TaskModal.tsx:34-47 | the form becomes the task prop or the default draft, and the error is cleared; nothing else changes |
| `Editor.TaskModal.SetProps` | frontend/components/TaskModal.tsx:48 | new props are stored; when `task` or `isOpen` changed the form is reset and the error cleared, otherwise form and error are kept |
| `Editor.TaskModal.SetTitle` | frontend/components/TaskModal.tsx:91 | only the title of the form changes |
| `Editor.TaskModal.SetDescription` | frontend/components/TaskModal.tsx:98 | only the description of the form changes |
| `Editor.TaskModal.SetDueDate` | frontend/components/TaskModal.tsx:104 | only the due date of the form changes |
| `Editor.TaskModal.SetPriority` | frontend/components/TaskModal.tsx:109 | only the priority of the form changes |
| `Editor.TaskModal.SetStatus` | frontend/components/TaskModal.tsx:118 | only the status of the form changes |
| `Editor.TaskModal.SetStarred` | frontend/components/TaskModal.tsx:129 | only `starred` of the form changes |
| `Editor.TaskModal.HandleSubmit` | frontend/components/TaskModal.tsx:50-74 | exactly one request, the chosen create or update with the normalised body, is sent; on success onSave then onClose are called and the error is kept; on failure neither is called and the error is the derived message; the form is unchanged |
| `Browser.LocalStorage.RemoveItem` | frontend/app/dashboard/page.tsx:54-55 | `localStorage.removeItem(key)`: the stored map loses exactly that key and nothing else |
| `Api.Client.Send` | frontend/app/dashboard/page.tsx:33 | one call of `api.get`, `api.post`, `api.put` or `api.delete` (also page.tsx:48 and TaskModal.tsx:59, 61): exactly that request is appended to the log of sent requests |

## Left out

- The HTTP client `@/lib/api` and the backend behind it are not part of this model: each call is a logged request whose outcome is a parameter.
- Rendering: JSX markup, the priority and status badge colours, the `status.replace` display text, the due-date and star display, and the framer-motion animations.
- Navigation: `router.push('/login')` in logout is not modelled; only the storage removals are.
- Logging: the `console.error` calls on load and save failure have no observable state and are omitted.
- Concurrency: overlapping loads, the un-awaited reload in `handleDelete` and double submission are not modelled; every call settles before the next operation.
- Text.ToLower: only ASCII A-Z are lower-cased; full Unicode `toLowerCase` is not modelled.
- Editor.TaskModal.SetProps: React compares the effect's dependencies by reference identity (`Object.is`); the model compares the task by value, so a distinct but equal task object does not reset the form here.
- Editor.ErrorMessage: the error body is modelled as an object whose values are strings or lists of strings; nested lists, non-string values and a body that is not an object are not modelled.
- Due dates are the declared `string`; a `null` due date arriving from the backend is not modelled.
- Ids are integers; a NaN id (also falsy) is not modelled.
- The browser's `required` check on the title input, which blocks submission of an empty title before `handleSubmit` runs, is not modelled.
- `localStorage` is only a map from which keys are removed; its other operations are not used by the page.
- `backend/reproduce_issue.py` and `backend/inspect_db.py` are debugging scripts doing HTTP and database I/O and are not part of this model.
