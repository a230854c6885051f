# Team Sync task board: a model of the client state

Team Sync is a shared task board: signed-in users pick a nickname, open a
project (or the "my tasks" view), add, edit, complete and delete tasks, attach
subtasks to them, and look at a ranking of who completed most. All of it lives
in one React component, `app/page.tsx`, whose state hooks are mirrored here by
the fields of the class `Board.Board`; each event handler is a method of that
class. Every call to the remote store is replaced by a parameter carrying its
outcome: a success flag, an error text, a returned row or a fetched list.

Files:

- `wrappers.dfy`: `Option`.
- `text.dfy`: JavaScript's `trim` and the `s || fallback` / `s || null` defaults.
- `records.dfy`: the rows (profile, project, member, task, subtask), the update
  patch and its object spread, the subtask draft and the insert payload.
- `tasklist.dfy`: the pure transforms of the in-memory task list: merge by id,
  filter by id, subtask append and subtask toggle, with their lemmas.
- `ranking.dfy`: pairing profiles with counts, and the stable descending sort.
- `board.dfy`: the component itself: the gate (`loading`, `auth`,
  `nickname-setup`, `main`), the two task modes, and every handler.

Each handler's `modifies` clause lists exactly the hooks the handler sets, so
every hook it does not name keeps its value. `Board.Board.Valid` is the
invariant every handler keeps:

- project mode and my-tasks mode exclude each other;
- the setup and main screens have a signed-in user;
- the main screen is only reached with a profile whose nickname is non-empty.

## Model

| member | source | states |
|---|---|---|
| Text.TrimStart | app/page.tsx:226 | The result is a suffix of the input; the part removed is all white space; the result does not start with white space. |
| Text.TrimEnd | app/page.tsx:226 | The result is a prefix of the input; the part removed is all white space; the result does not end with white space. |
| Text.TrimEmptyIffBlank | app/page.tsx:226 | `!s.trim()` holds exactly when every character of `s` is white space (both directions). |
| Text.OrElse | app/page.tsx:230 | `s \|\| fallback`: a non-empty `s` is kept, an empty `s` yields `fallback`; the result is empty only when both are empty. |
| Text.OrNull | app/page.tsx:231-232 | `s \|\| null`: missing exactly when `s` is empty, otherwise `s` itself. |
| Records.ApplyPatchIdempotent | app/page.tsx:282-283 | Spreading the same update twice equals spreading it once, and the spread never changes the task id. |
| Records.NewSubtask | app/page.tsx:306-312 | The new subtask keeps the draft text untrimmed and is not completed. Its assignee is the draft's, or else the current user. An empty due date or link is stored as missing. |
| TaskList.MergeById | app/page.tsx:282-283 | The merged list has the same length as the old one. |
| TaskList.MergeByIdAt | app/page.tsx:282-283 | Position by position, an entry with the id takes the patch and every other entry is unchanged. |
| TaskList.MergeByIdKeepsIds | app/page.tsx:282-283 | The merge keeps every id at its position. |
| TaskList.MergeByIdAbsent | app/page.tsx:282-283 | An update for an id that is not in the list leaves the list unchanged. |
| TaskList.MergeByIdIdempotent | app/page.tsx:282-283 | Merging the same update twice gives the same list as merging it once. |
| TaskList.RemoveById | app/page.tsx:293 | The filter never lengthens the list. |
| TaskList.RemoveByIdCounts | app/page.tsx:293 | Every entry with the id is dropped. Every other entry is kept as often as it occurred. |
| TaskList.RemoveByIdGone | app/page.tsx:293 | No entry with the deleted id remains. |
| TaskList.RemoveByIdAppend | app/page.tsx:293 | The filter distributes over concatenation, so the surviving entries keep their original order. |
| TaskList.RemoveByIdAbsent | app/page.tsx:293 | Deleting an id that is not in the list leaves the list unchanged. |
| TaskList.AppendSubtaskAt | app/page.tsx:314-323 | Each entry with the task's id gets the task's subtasks plus the new one at the end, and keeps its other fields. Every other entry is unchanged. The length is kept. |
| TaskList.ToggleAt | app/page.tsx:765-766 | Only subtask `i` changes, and only in its `completed` flag, which is negated. The length and every other subtask are unchanged. |
| TaskList.ToggleAtInvolution | app/page.tsx:765-766 | Toggling the same subtask twice restores the list. |
| TaskList.ToggleAsWrittenKeepsFlipOnError | app/page.tsx:764-767 | As written, a failed update still leaves subtask `i` flipped in the local list. |
| TaskList.ToggleLocalEffect | app/page.tsx:764-767 | The intended toggle changes nothing on failure. On success, every entry with the toggled task's id gets the task's list with exactly subtask `i` flipped and keeps its other fields; entries with other ids are untouched. The length is kept. |
| TaskList.ToggleAsWrittenAgreesOnSuccess | app/page.tsx:764-767 | When the update succeeds, the as-written toggle and the intended one give the same list. |
| Ranking.CountOrZero | app/page.tsx:217 | `count \|\| 0`: a missing count is zero, a present one is kept. |
| Ranking.PairCounts | app/page.tsx:209-218 | One entry per fetched profile, in fetch order, each with its own count (missing as zero). |
| Ranking.Insert | app/page.tsx:219 | An insertion adds exactly one entry. |
| Ranking.RankSort | app/page.tsx:219 | The sort keeps the length. |
| Ranking.InsertPermutation | app/page.tsx:219 | An insertion adds `x` and loses nothing (multiset). |
| Ranking.RankSortPermutation | app/page.tsx:219 | The sorted ranking is a permutation of its input. |
| Ranking.InsertBounded | app/page.tsx:219 | Inserting into entries bounded by `b` keeps every entry bounded by `b`. |
| Ranking.InsertNonIncreasing | app/page.tsx:219 | Inserting into a list ordered largest-first keeps it ordered. |
| Ranking.RankSortNonIncreasing | app/page.tsx:219 | The ranking is ordered by count, largest first. |
| Ranking.InsertWithCount | app/page.tsx:219 | An insertion places `x` first among the entries of its count and disturbs no other count. |
| Ranking.RankSortStable | app/page.tsx:219 | The sort is stable: the entries of each count keep their input order. |
| Ranking.SameCountsSame | app/page.tsx:219 | Two largest-first lists whose entries of each count agree, in order, are equal. |
| Ranking.RankOrderUnique | app/page.tsx:219 | Any largest-first order that keeps each count's input order is the sort's result, so the ranking is fully determined. |
| Ranking.RankSpec | app/page.tsx:209-219 | The ranking holds every fetched profile exactly once with its count, ordered largest first, with ties in fetch order. |
| Ranking.RankExample | app/page.tsx:209-219 | Counts 3, 7 and missing rank as 7, 3, 0. |
| Board.DraftFor | app/page.tsx:298-303 | A task without a draft gets the all-empty draft; otherwise its own draft. |
| Board.Board.constructor | app/page.tsx:7-48 | The initial values of every hook; the gate starts in `loading`. |
| Board.Board.CheckProfile | app/page.tsx:84-101 | The main screen is reached exactly when the profile's nickname is non-empty, and the setup screen otherwise. With a nickname, the profile, the edit fields and the project list are set; without one, they are kept. |
| Board.Board.InitialSession | app/page.tsx:55-62 | With a session, the user is set and the profile check runs. Without one, the gate moves to `auth`. |
| Board.Board.AuthStateChanged | app/page.tsx:65-75 | With a session, as on mount. Without one, the gate moves to `auth` and the user is cleared. |
| Board.Board.HandleAuth | app/page.tsx:104-128 | An empty email or password makes no call. Otherwise the sign-up or sign-in call of the current tab is made with the fields, and the error decides the message. No hook changes. |
| Board.Board.SaveSetup | app/page.tsx:425-436 | An empty nickname is refused before any write. Otherwise the row is upserted; on success the profile is checked again, and on failure nothing changes. |
| Board.Board.SaveProfileEdit | app/page.tsx:968-978 | The row is upserted without a nickname check. The profile is then checked again, whatever the outcome. |
| Board.Board.FetchProjectDetails | app/page.tsx:148-181 | No project, no change. Otherwise the board is in project mode, not my-tasks mode. The project is selected, the sidebar is closed, and the open tasks, the log and the members are the fetched lists (missing as empty). |
| Board.Board.LoadMyTasks | app/page.tsx:184-200 | The board is in my-tasks mode with no project selected and no members, and the tasks are the fetched list. |
| Board.Board.FetchRankings | app/page.tsx:203-222 | The rankings are the profiles paired with their counts and sorted (see `Ranking.RankSpec`). The ranking panel is shown and the sidebar is closed. |
| Board.Board.AddTask | app/page.tsx:225-261 | A blank title or no selected project is a no-op. Otherwise the `text` insert is sent with sort order equal to the list length, the assignee defaulting to the user, not completed and with no subtasks. The `title` insert is retried only if that fails. A returned row is appended and the title, link and due fields are cleared, keeping the assignee. If no row comes back, nothing changes. |
| Board.Board.UpdateTask | app/page.tsx:264-287 | On error, nothing changes. A completion reloads the selected project, or else my tasks, and merges nothing. Any other patch is merged into the entries with the id, and nothing else changes. |
| Board.Board.CompleteTask | app/page.tsx:704-706 | A check mark never merges locally: on success, the current view is reloaded. |
| Board.Board.EditTaskTitle | app/page.tsx:716-721 | On success, the entries with the id carry the new text in both title columns and keep their other fields. Every other entry is untouched. |
| Board.Board.DeleteTask | app/page.tsx:290-294 | Declined: nothing happens. Confirmed: the delete is issued and the id is filtered from the list, whatever the store answers. |
| Board.Board.AddQuickSubTask | app/page.tsx:297-329 | A blank or missing draft text writes nothing and changes nothing. Otherwise the appended list is written and set on the task's entries, and only that task's draft is reset. |
| Board.Board.ToggleSubtask | app/page.tsx:764-767 | The corrected toggle (see "## Findings"): the flipped list goes through the non-completion update path, so the list changes only on success, and no other hook changes. |
| Board.Board.EditDraftText | app/page.tsx:820-831 | Only this task's draft text is set; a new draft starts with empty other fields. |
| Board.Board.EditDraftUrl | app/page.tsx:843-854 | Only this task's draft link is set, starting from the all-empty draft if there was none. |
| Board.Board.EditDraftDue | app/page.tsx:861-872 | Only this task's draft due date is set, starting from the all-empty draft if there was none. |
| Board.Board.EditDraftAssignee | app/page.tsx:879-886 | Only this task's draft assignee is set. A new draft starts with no text. |

## Left out

- Remote store queries: filters, ordering, joins, `limit(20)` and the exact count are not modelled. Each call's outcome is a parameter, and each fetched list is taken as returned.
- The project list query of `checkProfile` (`fetchProjects`, app/page.tsx:131-145) is only modelled through its resulting list, which is a parameter.
- JSX rendering and styling are not modelled, and neither is `app/layout.tsx`.
- Browser effects are left out: the one-second clock (app/page.tsx:53), `alert` (modelled as the returned `Notice`), `prompt`, the clipboard and page reloads. `confirm` is a boolean parameter.
- Concurrency is left out: the `Promise.all` fan-out of the ranking and the interleaving of asynchronous handlers. Each handler is one atomic step.
- The creation, joining, deletion and member-kick flows of projects (app/page.tsx:511-548, 1008-1017, 1050-1061) are remote writes followed by a reload, with no local logic.
- Strings are sequences of Unicode scalar values, not UTF-16 code units. This matters only for `trim`, whose white-space set is spelled out.
- A task whose `subtasks` column is null is modelled with the empty list, which is what `task.subtasks || []` makes of it.
- Board.Board.AddQuickSubTask: a draft created by the assignee picker has no text, and the source then throws on `input.text.trim()`. The model treats that throw as ending the handler with no write and no change, which is what the throw leaves behind.
- Ranking.RankSort: the sort is a function on sequences, not the in-place `Array.prototype.sort`. Only the order it produces is modelled: a stable descending sort.
- Board.Board.ToggleSubtask: models the corrected toggle, not the handler as written. As written, the flip is made on the subtask object the current list shares, so it stays in the list even when the update fails. That as-written outcome is `TaskList.ToggleAsWritten`, and `TaskList.ToggleAsWrittenKeepsFlipOnError` proves that it keeps the flip; on success the two agree (`TaskList.ToggleAsWrittenAgreesOnSuccess`).
- Board.Board.CheckProfile: requires a signed-in user, because every caller sets the user first.
- Board.Board.SaveSetup and Board.Board.SaveProfileEdit: each requires the screen its button is rendered on.
- The title edit and check mark call `updateTask` as written. The remaining UI-only hooks (email and password typing, the sidebar toggle, tab switches) are plain field assignments and are not separate members.

## Findings

| source | as written | input that shows it | evidently intended | confidence | as-written member | corrected member |
|---|---|---|---|---|---|---|
| app/page.tsx:764-767 | `[...task.subtasks]` copies the list but not the subtask objects. `n[i].completed = !n[i].completed` therefore flips the object that the current `todos` state shares, before the remote update is attempted. | Any task with at least one subtask, toggled while the remote update fails: the local list still shows the flip (`TaskList.ToggleAsWrittenKeepsFlipOnError`). | The toggle goes through the non-completion update path: nothing changes locally on failure, and on success only subtask `i` of that task is flipped. | not executed | TaskList.ToggleAsWritten | TaskList.ToggleLocal |
