# Personal Dashboard — a Dafny model of the dashboard state

The Personal Dashboard is a single-page admin dashboard. One `Dashboard` controller object
holds one root document (user profile, statistics, task list, chart series, preferences and
an RSS feed text), mutates it in response to user actions and writes it back to local
storage after each change. This project models that controller's state and rules:

- `Text.dfy` — JavaScript's `trim()` (used to reject blank titles, names and emails) and
  `name.split(' ')[0]` (the first name shown in the welcome line).
- `Tasks.dfy` — the task record and the pure rules over the task list: the status filter
  of the task list view, the three status counts behind the distribution chart,
  `findIndex`, and the list after an edit, a status toggle or a delete. It also holds the
  lemmas relating these operations to each other.
- `Document.dfy` — the root document, the built-in default document, loading
  ("the stored document if there is one, else the default"), the theme flip and the
  profile validation.
- `Dashboard.dfy` — `class Dashboard` with the fields the controller mutates:
  - the document;
  - the id of the task being edited;
  - the dataset of the task-distribution pie chart;
  - the local-storage entry.

  Its methods follow the controller's control flow, including its early returns. The file
  also holds the hour-to-greeting mapping.

Environment values are parameters:

- the `Date.now()` id of a new task;
- the answer to the `confirm()` prompt;
- the current hour;
- the stored document;
- whether the page has the chart canvas;
- whether storage writes succeed.

The model follows the code, including these behaviours a reader might not expect:

- Editing an id that no longer exists is a silent no-op, not an error. The list is
  unchanged, but the chart is still redrawn, the form closed and the document saved.
- Toggling an `in-progress` task makes it `completed`. Toggling it again makes it `pending`,
  so two toggles do not restore it (`Tasks.ToggleTwiceInProgress`).
- The edited-id test is JavaScript truthiness, so an edited id of `0` takes the create branch
  (`DashboardApp.IsEditing`).
- The task-distribution series stored in the document is never recomputed. The default holds
  `[45, 25, 30]` while the default tasks count `[1, 2, 0]` (`Document.DefaultSeriesIsNotTheCounts`).
  The pie chart is first drawn from that stored series. Only the chart's own dataset is
  replaced by the counts, on every task mutation. The model therefore proves
  `ChartTracksTasks()` after each task mutation, not as an invariant from start-up.
- Ids are not checked for uniqueness. Uniqueness is preserved when the caller supplies a fresh
  id (the `UniqueIds` postconditions and lemmas). A delete removes every task with the id.
- Loading does not guard `JSON.parse`. The model takes the stored document as already parsed.

## Model

| member | source | states |
|---|---|---|
| `Text.TrimStart` | app.js:807 | the result is the suffix of the input left after removing a leading run of ECMAScript whitespace, and it does not start with whitespace |
| `Text.TrimEnd` | app.js:807 | the result is the prefix of the input left after removing a trailing run of whitespace, and it does not end with whitespace |
| `Text.Trim` | app.js:807 | `trim()` keeps a piece of the string that neither starts nor ends with whitespace: a prefix of the leading-trimmed string whose cut-off tail is all whitespace |
| `Text.IsBlank` | app.js:807 | `!s.trim()` holds exactly when every character of `s` is whitespace (the empty string included) |
| `Text.BlankIffAllWhitespace` | app.js:807 | trimming leaves the empty string exactly when every character is whitespace |
| `Text.TrimStartOfWhitespace` | app.js:899 | trimming an all-whitespace string leaves nothing |
| `Text.SplitOnSpace` | app.js:322 | `split(' ')` yields at least one piece and no piece contains a space |
| `Text.JoinSplitOnSpace` | app.js:322 | joining the pieces of `split(' ')` with spaces gives back the original string |
| `Text.SplitOnSpaceCount` | app.js:322 | `split(' ')` yields one more piece than the string has spaces |
| `Text.FirstWord` | app.js:914 | `name.split(' ')[0]` is a prefix of the name without spaces, ending at the first space or at the end of the name |
| `Text.FirstWordIsPrefix` | app.js:322 | the first piece of `split(' ')` is a prefix that stops at a space or at the end |
| `Tasks.NewTask` | app.js:828-836 | the created record has the given id and status `pending`, and its other fields are exactly the form's |
| `Tasks.FlipStatus` | app.js:851 | a toggle gives `pending` exactly from `completed`, and `completed` from every other status |
| `Tasks.FlipStatusTwice` | app.js:851 | two flips restore a status exactly when it is `completed` or `pending` |
| `Tasks.WithStatus` | app.js:873-875 | `filter(t => t.status === s)` keeps only tasks with status `s`, keeps every such task, and never grows the list |
| `Tasks.WithStatusIsSubsequence` | app.js:715-718 | the status filter keeps tasks in their original order (a subsequence) |
| `Tasks.WithStatusLength` | app.js:873-875 | the length of the status filter is the number of tasks with that status |
| `Tasks.Visible` | app.js:715-718 | filter `all` shows the whole list; any other filter shows a subsequence of the list, all of that status, as many as the list has of that status (exactly the matching tasks in order) |
| `Tasks.Distribution` | app.js:873-875 | the chart series is `[#completed, #pending, #in-progress]` |
| `Tasks.DistributionTotal` | app.js:873-878 | the three counts add up to at most the number of tasks, and to exactly that number iff every status is one of the three |
| `Tasks.ChartedCounts` | app.js:873-875 | the same bound and equality, stated over the three filter lengths |
| `Tasks.FindIndex` | app.js:814 | `findIndex` returns -1 iff no task has the id, otherwise the index of the first task with the id |
| `Tasks.FindIndexSameIds` | app.js:848 | the first match depends only on the ids, in order |
| `Tasks.Updated` | app.js:812-825 | editing replaces the title, description, priority, due date and category of the first task with the id, keeping its id, status and index; all other tasks and the length are unchanged; an unknown id changes nothing |
| `Tasks.Toggled` | app.js:847-851 | toggling changes only the status of the first task with the id: `completed` becomes `pending`, every other status becomes `completed`; an unknown id changes nothing |
| `Tasks.Removed` | app.js:862-864 | deleting keeps exactly the tasks whose id differs; an absent id leaves the list unchanged |
| `Tasks.RemovedIsSubsequence` | app.js:864 | deleting keeps the remaining tasks in order |
| `Tasks.RemovedLength` | app.js:864 | the new length is the old length minus the number of tasks with the id |
| `Tasks.RemoveUniqueRemovesOne` | app.js:864 | with unique ids, deleting a present id removes exactly one task |
| `Tasks.ToggleTwice` | app.js:851 | toggling a `completed` or `pending` task twice restores the list |
| `Tasks.ToggleTwiceInProgress` | app.js:851 | toggling an `in-progress` task twice leaves it `pending` |
| `Tasks.UpdateKeepsIds` | app.js:816-823 | an edit keeps every id in place |
| `Tasks.ToggleKeepsIds` | app.js:851 | a toggle keeps every id in place |
| `Tasks.UpdateKeepsDistribution` | app.js:816-823 | an edit leaves the three status counts unchanged |
| `Tasks.ToggleMovesOneCount` | app.js:851-853 | after a toggle, the count of the task's old status drops by one and the count of its new status rises by one |
| `Tasks.CreateAddsOnePending` | app.js:828-837 | a create raises the pending count by one and leaves every other count alone |
| `Tasks.CreatedTaskIsListedPending` | app.js:828-837 | a created task is listed under `pending` and not under `completed` |
| `Tasks.CreateKeepsIdsUnique` | app.js:829-837 | appending a task whose id no task has keeps ids unique |
| `Tasks.SameIdsSameUniqueness` | app.js:816 | lists with the same ids in order are equally unique |
| `Tasks.UpdateKeepsIdsUnique` | app.js:816-823 | an edit keeps ids unique |
| `Tasks.ToggleKeepsIdsUnique` | app.js:851 | a toggle keeps ids unique |
| `Tasks.UniqueTail` | app.js:864 | dropping the first task of a unique list keeps it unique, and the first id does not recur |
| `Tasks.RemoveKeepsIdsUnique` | app.js:864 | a delete keeps ids unique |
| `Tasks.ConsKeepsIdsUnique` | app.js:864 | putting a task in front of tasks drawn from a list without its id keeps ids unique |
| `Document.LoadStored` | app.js:12-17 | a stored document is used as it is |
| `Document.LoadWithoutStorage` | app.js:12-86 | with nothing stored the document is the default one: the three sample tasks with unique ids, light theme, the fixed chart series, and a profile whose name and email are not blank |
| `Document.DefaultIdsUnique` | app.js:34-62 | the default tasks' ids are pairwise distinct |
| `Document.DefaultSeriesIsNotTheCounts` | app.js:34-75 | the default tasks count `[1, 2, 0]`, and the default stored series `[45, 25, 30]` is not that |
| `Document.FlipTheme` | app.js:693-694 | the new theme is `dark` iff the old one is `light`, and `light` otherwise |
| `Document.FlipThemeTwice` | app.js:694 | on `light` and `dark`, toggling twice is the identity |
| `Document.UpdatedProfile` | app.js:899-907 | the profile is refused iff the name or the email is all whitespace; otherwise name, email, role and location are the new values and avatar and join date are kept |
| `DashboardApp.IsEditing` | app.js:812 | the edited id counts as "editing" unless it is `null` or `0`, the falsy values of a number-or-null |
| `DashboardApp.Greeting` | app.js:371-377 | morning before 12, afternoon from 12 to before 17, evening from 17 |
| `DashboardApp.Dashboard.constructor` | app.js:12-17 | the document is the stored one if present, else the default; nothing is being edited; the chart, when the page has it, starts from the stored series |
| `DashboardApp.Dashboard.SaveData` | app.js:1200-1206 | storage holds the document afterwards, or keeps its old content when the write fails |
| `DashboardApp.Dashboard.UpdateTaskDistributionChart` | app.js:872-881 | an existing chart is set to the counts of the current tasks; no chart stays absent; the document is untouched |
| `DashboardApp.Dashboard.OpenTaskModal` | app.js:744-745 | the edited id becomes the given id, or none for a new task |
| `DashboardApp.Dashboard.CloseTaskModal` | app.js:776-782 | nothing is being edited afterwards |
| `DashboardApp.Dashboard.SaveTask` | app.js:789-845 | a blank title changes nothing; otherwise an edit applies `Updated` to the list (a no-op for an unknown id) and a create appends one pending task with the given id and fields; in both cases the rest of the document is kept, the form is closed, the chart shows the counts, the document is saved, and ids stay unique when the new id is fresh |
| `DashboardApp.Dashboard.ToggleTaskStatus` | app.js:847-856 | an unknown id changes nothing; otherwise the list becomes `Toggled`, the chart shows the counts and the document is saved; ids stay unique |
| `DashboardApp.Dashboard.DeleteTask` | app.js:862-870 | without confirmation nothing changes; with it the list becomes `Removed`, the chart shows the counts and the document is saved; ids stay unique |
| `DashboardApp.Dashboard.ToggleTheme` | app.js:692-699 | only the theme preference changes, to `FlipTheme` of the old one, and the document is saved |
| `DashboardApp.Dashboard.SaveProfile` | app.js:883-918 | succeeds iff name and email are not all whitespace; on failure nothing changes; on success only the user changes, as `UpdatedProfile` says, and the document is saved |
| `DashboardApp.Dashboard.UpdateAvatar` | app.js:1006-1018 | only the avatar changes, and the document is saved |

## Left out

- Rendering, modals, toasts, notifications, animation, ripple effects and section navigation
  are presentation only. The notification a save shows is kept as the `SaveOutcome` it returns.
- The form-element presence checks (app.js:796-799, 889-892) and the modal check in
  `closeTaskModal` are not modelled. The model assumes the page has its elements.
- Filling the edit form for an id that no task has throws (app.js:761). This is not modelled.
  `OpenTaskModal` only records the id.
- Chart.js construction and the revenue and user-growth charts are not modelled. Only the
  dataset of the task-distribution chart is modelled.
- `JSON.parse` and `JSON.stringify` are not modelled, so a malformed stored entry throwing at
  app.js:16 is not captured. Storage holds an already parsed document. A failed write is the
  `storageWritable` flag.
- RSS parsing with `DOMParser` is a foreign XML parser. The feed is kept as its raw text.
- `refreshDashboard` (random, floating-point statistics deltas, asynchronous), `animateNumber`
  and the clock are timers, floating point and locale formatting.
- `Date.now()`, `confirm()` and `new Date().getHours()` are environment calls. Their values
  are parameters.
- Tasks are values in a sequence, not shared objects. The in-place `task.status = …` at
  app.js:851 is modelled as replacing that element, so aliasing of task objects is not captured.
- JavaScript strings are UTF-16 code units; the model's strings are Unicode scalar values, so a
  lone surrogate cannot be written. Every character `trim` removes, and the space `split` uses,
  lies outside the surrogate range, so no behaviour of the modelled operations is lost.
- `test-suite.js` and `tools/run-tests.js` are a browser feature probe and a test runner.
  They contain no dashboard logic.
