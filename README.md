# Task board kernel

A Dafny model of the logic of a personal kanban board (todo-kanban). Tasks
move between five status columns (To Do, In Progress, Review, Done, Cancel).
The board stamps `startedAt` and `completedAt` automatically as tasks move.
Reusable templates pre-fill new tasks, a singleton settings row holds the
GitHub integration fields, and a statistics page lists finished tasks and
counts the tasks completed over the last seven days.

Modules, one per source file or shared concept:

- `Wrappers` (wrappers.dfy): `Option`, for properties that may be `undefined`.
- `Arrays` (arrays.dfy): `Filter` and `Find`, the two JavaScript array operations the views use.
- `Types` (types.dfy): `src/types.ts`. It holds the closed `TaskStatus`, the `Task`, `TaskTemplate`, `Column` and `AppSettings` records and the `COLUMNS` table. It also holds `Change<T>`, one property of a `Partial<...>` patch (absent, `undefined`, or a value), and `IsSet`, JavaScript truthiness of a timestamp.
- `TaskStore` (task_store.dfy): `src/hooks/useTaskStore.ts`. The `tasks` and `templates` tables are maps keyed by `id`. Each operation has a specification function from the old table to the new one (`TasksAfterMove`, ...). The class `TaskTables` performs the operations in place, and its methods are proved against those functions. Lemmas cover the lifecycle rules of one move (`Moved`) and whole traces of operations (`Replay`).
- `SettingsStore` (settings_store.dfy): `src/hooks/useSettingsStore.ts`. Reads default to an empty row. A save merges the patch over the current row and `put`s it under `'default'`.
- `Board` (board.dfy): `src/features/board/Board.tsx`. `DragEndMove` decides which move a finished drag produces. `ColumnTasks` gives each column's list, and `ClearOffered` says which columns get a clear button. `Trim` is the blank-title guard. The class `BoardView` holds the component's state and handlers, which call into `TaskTables`.
- `Statistics` (statistics.dfy): `src/features/stats/Statistics.tsx`. `History` filters to done or cancelled tasks and sorts them newest completion first. `ChartData` gives the seven per-day counts.

Modelling choices:

- Identifiers and clock readings are parameters. A new task's or template's key stands in for `crypto.randomUUID()`. `now: nat` stands in for `Date.now()`.
- The table's `add` rejects a key that is already present. `AddTask` and `AddTemplate` then return `false` and change nothing.
- `update` and `delete` on a missing key change nothing.
- An `update` property whose value is `undefined` removes that property. This is `Change.Clear`, which gives `None`.
- Timestamps are `Option<nat>`. The source's tests `!task.startedAt` and `!task.completedAt` are JavaScript truthiness, so a stored `0` counts as unset (`IsSet`). For this reason the lifecycle invariant is proved for moves made at a non-zero clock reading.
- Asynchronous calls are taken to run one after another, without interleaving.
- The board and the statistics page read the task list as `db.tasks.toArray()`, a snapshot of the `tasks` table's values. There is therefore one task per id in it. The functions in `Board` and `Statistics` take that list as a plain `seq<Task>` and do not assume this uniqueness.

Behaviour of the code worth noting:

- `addTask` and `addTemplate` do not reject blank titles. The check lives in the callers, and `BoardView.HandleAddTask` models the board's check.
- `moveTask` and `updateTask` on an unknown id do nothing and report nothing.
- `clearColumn` returns nothing.
- A task that leaves done and re-enters it gets a new `completedAt`. Leaving done removes the old stamp, so the stamp is unset on re-entry.
- The "completedAt iff done" invariant does not hold for a raw `updateTask`. `UpdateCanBreakLifecycle` shows a case that breaks it.

## Model

| member | source | states |
|---|---|---|
| `Types.StatusFromId` | src/types.ts:1 | A string names a status exactly when it is one of the five status ids, and then it names that status: the inverse of `StatusId` |
| `Types.StatusIsOneOfFive` | src/types.ts:1 | Every status is one of todo, in-progress, review, done, cancel |
| `Types.StatusIdInjective` | src/types.ts:1 | Distinct statuses have distinct string ids |
| `Types.ColumnIndex` | src/types.ts:26-32 | Every status has exactly one column in `COLUMNS` |
| `Types.ColumnsInWorkflowOrder` | src/types.ts:26-32 | `COLUMNS` has five entries, in the order todo, in-progress, review, done, cancel, with no status twice |
| `Arrays.Filter` | src/features/stats/Statistics.tsx:31-32 | `filter` keeps exactly the elements that pass, each as often as it occurs, and drops the others |
| `Arrays.FilterAppend` | src/features/board/Board.tsx:155 | `filter` keeps the input order: filtering a concatenation gives the filtered parts, concatenated in the same order |
| `Arrays.Find` | src/features/board/Board.tsx:99 | `find` yields undefined exactly when no element matches, and otherwise the first element that matches |
| `TaskStore.ApplyPatch` | src/hooks/useTaskStore.ts:21-23 | A patch never changes a task's key. Each property present in the patch replaces the stored one, an absent one keeps its value, and an optional one set to `undefined` is removed. An empty patch changes nothing |
| `TaskStore.TasksAfterAdd` | src/hooks/useTaskStore.ts:10-19 | `addTask` inserts exactly one task under the new key. The task is todo, has the given title and description, was created now, and has no startedAt, completedAt or tags. All other tasks are unchanged. A taken key is rejected |
| `TaskStore.TasksAfterUpdate` | src/hooks/useTaskStore.ts:21-23 | `updateTask` patches only the given task, keeps the set of keys, and changes nothing for a missing key |
| `TaskStore.TasksAfterMove` | src/hooks/useTaskStore.ts:25-43 | `moveTask` on a missing key changes nothing. Otherwise only the moved task changes, and it becomes `Moved` of itself |
| `TaskStore.TableAfterDelete` | src/hooks/useTaskStore.ts:45-47 | `deleteTask`, and likewise `deleteTemplate`, removes only the given key and is a no-op for a missing one |
| `TaskStore.TasksAfterClear` | src/hooks/useTaskStore.ts:49-54 | `clearColumn(s)` removes exactly the tasks whose status is `s`, leaves every other task untouched, and is a no-op on an empty column |
| `TaskStore.TemplatesAfterAdd` | src/hooks/useTaskStore.ts:57-64 | `addTemplate` inserts exactly one template with the given key, title and description. A taken key is rejected |
| `TaskStore.Moved` | src/hooks/useTaskStore.ts:29-40 | A move sets the status to the target and changes nothing but the status and the two stamps. `startedAt` can change only on entering in-progress, and only to the current time. `completedAt` can change only to the current time on entering done, or to unset on any other target |
| `TaskStore.MoveKeepsIdentity` | src/hooks/useTaskStore.ts:29-42 | After a move the status is the target. Id, title, description, createdAt and tags are unchanged |
| `TaskStore.MoveStampsStartOnce` | src/hooks/useTaskStore.ts:32-34 | Entering in-progress stamps startedAt only when it is unset. A set startedAt is never overwritten, and other targets never touch it |
| `TaskStore.MoveStampsCompletion` | src/hooks/useTaskStore.ts:35-40 | Entering done keeps a set completedAt and stamps an unset one. Every other target leaves completedAt unset |
| `TaskStore.ReopenRestampsCompletion` | src/hooks/useTaskStore.ts:35-40 | Done, then another status, then done again stamps the new completion time |
| `TaskStore.NewTaskConsistent` | src/hooks/useTaskStore.ts:10-19 | A new task satisfies the lifecycle invariant: completedAt present iff done, in-progress implies started |
| `TaskStore.MoveKeepsLifecycle` | src/hooks/useTaskStore.ts:29-42 | A move at a non-zero clock reading preserves the lifecycle invariant |
| `TaskStore.MoveToSameStatusIsNoOp` | src/hooks/useTaskStore.ts:29-42 | Under the invariant, moving a task to its own status leaves it, timestamps included, unchanged |
| `TaskStore.InstantiateCopiesTemplate` | src/components/QuickAddBar.tsx:21 | Adding from a template makes a todo task with the template's title and description |
| `TaskStore.StepKeepsLifecycle` | src/hooks/useTaskStore.ts:10-54 | Each add, move, delete and clear keeps every task in the table consistent |
| `TaskStore.ReplayKeepsLifecycle` | src/hooks/useTaskStore.ts:10-54 | Over any trace of adds, moves, deletes and clears, every task has completedAt exactly when it is done |
| `TaskStore.ReplayKeepsKeys` | src/hooks/useTaskStore.ts:10-54 | Every trace, raw updates included, keeps each task stored under its own id |
| `TaskStore.UpdateCanBreakLifecycle` | src/hooks/useTaskStore.ts:21-23 | A raw update to done leaves a done task without completedAt |
| `TaskStore.WriteReportScenario` | src/hooks/useTaskStore.ts:10-43 | Create, start at t1, finish, reopen: completedAt is gone, and startedAt is still t1 |
| `TaskStore.TaskTables.constructor` | src/db.ts:10-13 | The tables start empty and keyed by id |
| `TaskStore.TaskTables.AddTask` | src/hooks/useTaskStore.ts:10-19 | In place, the tasks table becomes `TasksAfterAdd` of the old one, and the result tells whether the key was free. Templates are unchanged |
| `TaskStore.TaskTables.UpdateTask` | src/hooks/useTaskStore.ts:21-23 | In place, the tasks table becomes `TasksAfterUpdate` of the old one. Templates are unchanged |
| `TaskStore.TaskTables.MoveTask` | src/hooks/useTaskStore.ts:25-43 | The patch built field by field and then applied gives exactly `TasksAfterMove` of the old table |
| `TaskStore.TaskTables.DeleteTask` | src/hooks/useTaskStore.ts:45-47 | In place, the tasks table becomes `TableAfterDelete` of the old one |
| `TaskStore.TaskTables.ClearColumn` | src/hooks/useTaskStore.ts:49-54 | Deleting the keys of the column's tasks in one batch gives `TasksAfterClear` of the old table |
| `TaskStore.TaskTables.AddTemplate` | src/hooks/useTaskStore.ts:57-64 | In place, the templates table becomes `TemplatesAfterAdd` of the old one. Tasks are unchanged |
| `TaskStore.TaskTables.DeleteTemplate` | src/hooks/useTaskStore.ts:66-68 | In place, the templates table becomes `TableAfterDelete` of the old one. Tasks, including those made from the template, are unchanged |
| `SettingsStore.SettingsOrDefault` | src/hooks/useSettingsStore.ts:6-9 | The read yields the row stored at 'default', or `{id:'default'}` when there is none |
| `SettingsStore.Merged` | src/hooks/useSettingsStore.ts:12-16 | The merged row always has id 'default', whatever id the patch carries. Properties in the patch override the current ones, a property present as `undefined` removes the current value, and absent ones keep their value |
| `SettingsStore.RowsAfterSave` | src/hooks/useSettingsStore.ts:11-17 | A save writes only key 'default', and what it writes is the merge over the current read |
| `SettingsStore.MergeIdempotent` | src/hooks/useSettingsStore.ts:12-16 | Merging the same patch twice equals merging it once |
| `SettingsStore.SaveIdempotent` | src/hooks/useSettingsStore.ts:11-17 | Saving the same patch twice stores the same table as saving it once |
| `SettingsStore.SaveKeepsSingleton` | src/hooks/useSettingsStore.ts:11-17 | From a table with no key but 'default', a save leaves exactly the one row 'default', stored under its own id |
| `SettingsStore.ReadAfterSave` | src/hooks/useSettingsStore.ts:6-17 | After a save, the read yields the merged row, with id 'default' |
| `SettingsStore.SettingsTable.constructor` | src/hooks/useSettingsStore.ts:6-9 | The settings table starts empty |
| `SettingsStore.SettingsTable.Settings` | src/hooks/useSettingsStore.ts:6-9 | The live settings value always has id 'default' |
| `SettingsStore.SettingsTable.SaveSettings` | src/hooks/useSettingsStore.ts:11-17 | In place, the table becomes `RowsAfterSave` of the old one, and the read afterwards is the merge of the old read with the patch |
| `Board.FindTask` | src/features/board/Board.tsx:99 | The lookup yields nothing exactly when no task has the requested id. Otherwise it yields the first task in the list with that id |
| `Board.FindColumn` | src/features/board/Board.tsx:106 | An id matches a column exactly when it names a status, and the column found is that status's |
| `Board.DragEndMove` | src/features/board/Board.tsx:88-120 | No drop target, or a dragged id that is not a task, gives no move. Any move is of the dragged task, to a status other than its current one |
| `Board.DropOnColumn` | src/features/board/Board.tsx:106-110 | A drop on a column moves the task there exactly when its status differs. Column ids are tried before task ids |
| `Board.DropOnTask` | src/features/board/Board.tsx:111-117 | A drop on a task moves the dragged task to that task's status only when it differs. An id naming neither a column nor a task gives no move |
| `Board.ColumnTasks` | src/features/board/Board.tsx:155 | A column shows exactly the tasks whose status is its id |
| `Board.BoardColumns` | src/features/board/Board.tsx:151-155 | One task list per entry of `COLUMNS`, in order |
| `Board.ColumnsPartitionTasks` | src/features/board/Board.tsx:151-155 | The five column lists together hold every task exactly as often as the task list does. A task shows in one column only, its status's |
| `Board.ClearOffered` | src/features/board/Board.tsx:158 | The clear action is offered exactly on the last two columns of `COLUMNS` (done and cancel) |
| `Board.ClearOnlyRemovesFinished` | src/features/board/Board.tsx:157-161 | The clear action, offered only on done and cancel, only removes finished tasks. Todo, in-progress and review tasks survive it |
| `Board.Trim` | src/features/board/Board.tsx:124 | `trim()` yields a contiguous slice of the title. What it removes before and after is all white space, and the result neither starts nor ends with white space |
| `Board.TrimEmptyIffBlank` | src/features/board/Board.tsx:124 | `title.trim()` is empty exactly when every character is JavaScript white space |
| `Board.BoardView.constructor` | src/features/board/Board.tsx:30-36 | Nothing is dragged, the form is empty and the dialog is closed |
| `Board.BoardView.HandleDragStart` | src/features/board/Board.tsx:61-63 | Records the dragged id and touches nothing else |
| `Board.BoardView.HandleDragEnd` | src/features/board/Board.tsx:88-120 | Performs exactly the move `DragEndMove` decides, or none, and always forgets the dragged id |
| `Board.BoardView.HandleAddTask` | src/features/board/Board.tsx:122-129 | A whitespace-only title adds nothing and keeps the form. Otherwise the task is added with the form's title and description, the fields are reset to empty and the dialog closes |
| `Board.BoardView.HandleClearColumn` | src/features/board/Board.tsx:157-161 | Clears the column exactly when it is done or cancel, and otherwise changes nothing |
| `Statistics.SortNewestFirst` | src/features/stats/Statistics.tsx:33 | The sort yields a permutation of its input ordered by `completedAt || 0`, descending |
| `Statistics.History` | src/features/stats/Statistics.tsx:30-34 | The history is ordered newest completion first. It holds each done or cancelled task as often as the task list does, and nothing else |
| `Statistics.HistoryHoldsExactlyFinished` | src/features/stats/Statistics.tsx:31-32 | A task is in the history exactly when it is a done or cancelled task |
| `Statistics.MissingCompletionLast` | src/features/stats/Statistics.tsx:33 | In a newest-first list such as the history, an entry without completedAt comes after every entry with a set completedAt |
| `Statistics.ChartData` | src/features/stats/Statistics.tsx:10-28 | Seven entries on consecutive days, oldest first, ending today. Each holds the number of done tasks completed that day |
| `Statistics.DoneOn` | src/features/stats/Statistics.tsx:17-21 | One day's count never exceeds the number of done tasks with a completion time |
| `Statistics.DoneOnIsFilterLength` | src/features/stats/Statistics.tsx:17-21 | The day's count is the length of the list of done tasks completed that day |
| `Statistics.CancelledNeverCounted` | src/features/stats/Statistics.tsx:16-21 | Adding a cancelled task, whatever its timestamps, changes no day's count |
| `Statistics.ChartTotalBounded` | src/features/stats/Statistics.tsx:16-21 | Over distinct days, the counts add up to at most the number of done tasks with a completion time |
| `Statistics.WeekTotalBounded` | src/features/stats/Statistics.tsx:10-28 | The seven bars together count each completed task at most once |

## Left out

- The reactive queries (`useLiveQuery`) are left out: re-running a query after a write and delivering the new result. `HandleDragEnd` takes the task list the board shows as a parameter, and may act on a stale list just as the source can.
- `SettingsTable.SaveSettings` merges over the stored row. The source merges over the hook's last delivered value, which is `{id:'default'}` until the first read completes.
- The settings table is assumed. src/db.ts declares only the `tasks` and `templates` tables, yet `useSettingsStore` calls `db.settings.get` and `db.settings.put`. As written, `db.settings` is undefined, so the read throws instead of falling back to `{id:'default'}`, and the save fails. `SettingsStore` models a `settings` table keyed by `id`, which src/db.ts does not declare.
- IndexedDB itself (src/db.ts) is left out: schema versions, secondary indexes, durability and storage errors. The tables are plain maps.
- `crypto.randomUUID` and `Date.now` are parameters, and timestamps have no upper bound.
- `TaskPatch` has no `id` property, and it cannot set a required property (`title`, `status`, `createdAt`) to `undefined`. Changing a primary key through `update` is not modelled.
- Calendar handling is left out (`subDays`, `startOfDay`, `isSameDay`, `format`). A day is the integer `dayOf(timestamp)` for a caller-supplied `dayOf`. Chart labels are the day numbers, not formatted dates.
- `Statistics.History` and `Statistics.SortNewestFirst`: the history is proved ordered and a permutation of the finished tasks, but not stable. JavaScript's sort keeps equal keys in input order, and the insertion sort used does the same. Nothing about the order of tied entries is proved. This matters most for cancelled tasks, which all have the key 0 because a move to cancel removes `completedAt`. `Arrays.FilterAppend` proves that the filter before the sort keeps the input order.
- React rendering, CSS, dnd-kit sensors and the empty `handleDragOver` are left out, as are the task detail dialog and the floating-point duration display.
- `TemplateManager`'s own blank-title check before `addTemplate` is left out. It is the same check as `HandleAddTask`'s and is not modelled separately.
- Speech input (src/hooks/useSpeechRecognition.ts) and the GitHub issue client (src/services/github.ts) are left out. Neither reads or writes the tables.
