/**
 * The record shapes of the task board: the closed set of task statuses, tasks,
 * templates, board columns and the application settings row.
 */
module Types {
  import opened Wrappers

  /** The five workflow states a task can be in; no other value is representable. */
  datatype TaskStatus = Todo | InProgress | Review | Done | Cancel

  /** The string a status is stored and compared as ('todo', 'in-progress', ...). */
  function StatusId(s: TaskStatus): string {
    match s
    case Todo => "todo"
    case InProgress => "in-progress"
    case Review => "review"
    case Done => "done"
    case Cancel => "cancel"
  }

  /** The status a string names, if it names one: the inverse of `StatusId`. */
  function StatusFromId(x: string): (r: Option<TaskStatus>)
    ensures r.Some? ==> StatusId(r.value) == x
    ensures forall s :: StatusId(s) == x ==> r == Some(s)
  {
    if x == "todo" then Some(Todo)
    else if x == "in-progress" then Some(InProgress)
    else if x == "review" then Some(Review)
    else if x == "done" then Some(Done)
    else if x == "cancel" then Some(Cancel)
    else None
  }

  /**
   * A task. `id`, `title`, `status` and `createdAt` are always present; the
   * other fields are optional properties. Timestamps are milliseconds since
   * the epoch.
   */
  datatype Task = Task(
    id: string,
    title: string,
    description: Option<string>,
    status: TaskStatus,
    createdAt: nat,
    startedAt: Option<nat>,
    completedAt: Option<nat>,
    tags: Option<seq<string>>)

  /** A reusable title and description; it has no status and no timestamps. */
  datatype TaskTemplate = TaskTemplate(id: string, title: string, description: Option<string>)

  /** A board column: the status it holds, its heading and its colour. */
  datatype Column = Column(id: TaskStatus, title: string, color: string)

  /** The board's columns, left to right. */
  const COLUMNS: seq<Column> := [
    Column(Todo, "To Do", "var(--column-todo)"),
    Column(InProgress, "In Progress", "var(--column-inprogress)"),
    Column(Review, "Review", "var(--column-review)"),
    Column(Done, "Done", "var(--column-done)"),
    Column(Cancel, "Cancel", "var(--column-cancel)")
  ]

  /** The settings row; its `id` is meant to be 'default'. */
  datatype AppSettings = AppSettings(
    id: string,
    githubToken: Option<string>,
    githubOwner: Option<string>,
    githubRepo: Option<string>)

  /**
   * One property of a `Partial<...>` patch: absent from the patch (`Keep`),
   * present with the value `undefined` (`Clear`), or present with a value.
   */
  datatype Change<T> = Keep | Clear | Put(value: T)

  /** Every record of a table is stored under its own primary key. */
  ghost predicate KeyedBy<V>(m: map<string, V>, key: V -> string) {
    forall k :: k in m ==> key(m[k]) == k
  }

  /** The property after the patch is applied; an `undefined` value removes it. */
  function ApplyChange<T>(current: Option<T>, c: Change<T>): (r: Option<T>)
    ensures c.Keep? ==> r == current
    ensures c.Clear? ==> r.None?
    ensures c.Put? ==> r == Some(c.value)
  {
    match c
    case Keep => current
    case Clear => None
    case Put(v) => Some(v)
  }

  /**
   * JavaScript truthiness of an optional timestamp: `undefined` and `0` are
   * both falsy, so a timestamp of 0 counts as unset.
   */
  predicate IsSet(t: Option<nat>) {
    t.Some? && t.value != 0
  }

  /** Every value of `TaskStatus` is one of the five named states. */
  lemma StatusIsOneOfFive(s: TaskStatus)
    ensures s in {Todo, InProgress, Review, Done, Cancel}
  {
  }

  /** Distinct statuses are stored as distinct strings. */
  lemma StatusIdInjective(s: TaskStatus, t: TaskStatus)
    ensures StatusId(s) == StatusId(t) ==> s == t
  {
  }

  /** The position of a status's column on the board. */
  function ColumnIndex(s: TaskStatus): (i: nat)
    ensures i < |COLUMNS| && COLUMNS[i].id == s
    ensures forall j :: 0 <= j < |COLUMNS| && COLUMNS[j].id == s ==> j == i
  {
    match s
    case Todo => 0
    case InProgress => 1
    case Review => 2
    case Done => 3
    case Cancel => 4
  }

  /** There is one column per status, with no duplicates, in workflow order. */
  lemma ColumnsInWorkflowOrder()
    ensures |COLUMNS| == 5
    ensures COLUMNS[0].id == Todo && COLUMNS[1].id == InProgress && COLUMNS[2].id == Review
    ensures COLUMNS[3].id == Done && COLUMNS[4].id == Cancel
    ensures forall i, j :: 0 <= i < j < |COLUMNS| ==> COLUMNS[i].id != COLUMNS[j].id
  {
  }
}
