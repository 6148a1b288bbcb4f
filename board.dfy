/**
 * The board view: which move a finished drag produces, which tasks each
 * column shows, which columns offer "clear", and the guard on the add-task
 * form. The view's own state (the dragged id, the form fields, whether the
 * add dialog is open) lives in `BoardView`.
 */
module Board {
  import opened Wrappers
  import opened Types
  import opened Arrays
  import TaskStore

  // ---------------------------------------------------------------------------
  // Drag and drop

  /** `tasks.find(t => t.id === id)`. */
  function FindTask(tasks: seq<Task>, id: string): (r: Option<Task>)
    ensures r.Some? ==> r.value in tasks && r.value.id == id
    ensures r.None? <==> forall t :: t in tasks ==> t.id != id
    ensures r.Some? ==> exists i :: 0 <= i < |tasks| && tasks[i] == r.value &&
                                    forall j :: 0 <= j < i ==> tasks[j].id != id
  {
    Find(tasks, (t: Task) => t.id == id)
  }

  /** `COLUMNS.find(c => c.id === id)`: a column exactly when `id` names a status. */
  function FindColumn(id: string): (r: Option<Column>)
    ensures r.Some? <==> StatusFromId(id).Some?
    ensures r.Some? ==> r.value in COLUMNS && r.value.id == StatusFromId(id).value
  {
    var r := Find(COLUMNS, (c: Column) => StatusId(c.id) == id);
    assert r.Some? ==> r.value in COLUMNS;
    if r.None? then
      assert forall s :: StatusId(s) != id by {
        forall s ensures StatusId(s) != id {
          var i := ColumnIndex(s);
          assert StatusId(COLUMNS[i].id) != id;
        }
      }
      r
    else
      StatusIdInjective(r.value.id, StatusFromId(id).value);
      r
  }

  /**
   * The move a finished drag produces, as (task id, target status), or none.
   * No drop target, or a dragged id that is not a task: no move. A drop on a
   * column (column ids are tried first) moves the task there unless it is
   * already there; otherwise a drop on a task moves the dragged task to that
   * task's status unless it already has it; any other target: no move.
   */
  function DragEndMove(activeId: string, overId: Option<string>, tasks: seq<Task>): (r: Option<(string, TaskStatus)>)
    ensures overId.None? ==> r.None?
    ensures FindTask(tasks, activeId).None? ==> r.None?
    ensures r.Some? ==> r.value.0 == activeId && FindTask(tasks, activeId).Some? &&
                        r.value.1 != FindTask(tasks, activeId).value.status
  {
    match overId
    case None => None
    case Some(over) =>
      match FindTask(tasks, activeId)
      case None => None
      case Some(activeTask) =>
        match FindColumn(over)
        case Some(overColumn) =>
          if activeTask.status != overColumn.id then Some((activeId, overColumn.id)) else None
        case None =>
          match FindTask(tasks, over)
          case Some(overTask) =>
            if activeTask.status != overTask.status then Some((activeId, overTask.status)) else None
          case None => None
  }

  /**
   * Dropping a task on the column of status `s` moves it to `s` exactly when
   * it is elsewhere, even if some task's id also reads `StatusId(s)`.
   */
  lemma DropOnColumn(activeId: string, tasks: seq<Task>, s: TaskStatus)
    requires FindTask(tasks, activeId).Some?
    ensures var activeTask := FindTask(tasks, activeId).value;
      DragEndMove(activeId, Some(StatusId(s)), tasks) ==
        if activeTask.status != s then Some((activeId, s)) else None
  {
  }

  /**
   * Dropping a task on another task (an id that names no column) moves it to
   * that task's status when the two differ; an id that names neither a column
   * nor a task produces no move.
   */
  lemma DropOnTask(activeId: string, tasks: seq<Task>, overId: string)
    requires FindTask(tasks, activeId).Some? && StatusFromId(overId).None?
    ensures var activeTask := FindTask(tasks, activeId).value;
      DragEndMove(activeId, Some(overId), tasks) ==
        match FindTask(tasks, overId)
        case Some(overTask) =>
          if activeTask.status != overTask.status then Some((activeId, overTask.status)) else None
        case None => None
  {
  }

  // ---------------------------------------------------------------------------
  // Columns

  /** `tasks.filter(t => t.status === s)`: the tasks column `s` shows. */
  function ColumnTasks(tasks: seq<Task>, s: TaskStatus): (r: seq<Task>)
    ensures forall t :: t in r <==> t in tasks && t.status == s
  {
    Filter(tasks, (t: Task) => t.status == s)
  }

  /** The lists the board renders, one per entry of `COLUMNS`, in order. */
  function BoardColumns(tasks: seq<Task>): (r: seq<seq<Task>>)
    ensures |r| == |COLUMNS|
    ensures forall i :: 0 <= i < |r| ==> r[i] == ColumnTasks(tasks, COLUMNS[i].id)
  {
    seq(|COLUMNS|, i requires 0 <= i < |COLUMNS| => ColumnTasks(tasks, COLUMNS[i].id))
  }

  /**
   * The columns partition the tasks: every task shows in exactly one column,
   * once for each time it occurs, and nothing else shows.
   */
  lemma ColumnsPartitionTasks(tasks: seq<Task>)
    ensures var cols := BoardColumns(tasks);
      multiset(cols[0]) + multiset(cols[1]) + multiset(cols[2]) + multiset(cols[3]) + multiset(cols[4])
        == multiset(tasks)
    ensures forall t, i :: t in tasks && 0 <= i < |COLUMNS| ==>
      (t in BoardColumns(tasks)[i] <==> i == ColumnIndex(t.status))
  {
    var cols := BoardColumns(tasks);
    var sum := multiset(cols[0]) + multiset(cols[1]) + multiset(cols[2]) + multiset(cols[3]) + multiset(cols[4]);
    forall t ensures sum[t] == multiset(tasks)[t] {
      StatusIsOneOfFive(t.status);
    }
    assert sum == multiset(tasks);
  }

  /** Whether a column offers the clear action: only done and cancel do. */
  predicate ClearOffered(s: TaskStatus): (r: bool)
    ensures r <==> ColumnIndex(s) >= |COLUMNS| - 2
  {
    s == Done || s == Cancel
  }

  /**
   * Clearing a column the board offers to clear only ever removes finished
   * (done or cancelled) tasks; tasks still to do, in progress or in review
   * all survive.
   */
  lemma ClearOnlyRemovesFinished(m: map<string, Task>, s: TaskStatus)
    requires ClearOffered(s)
    ensures forall k :: k in m && k !in TaskStore.TasksAfterClear(m, s) ==>
      m[k].status == Done || m[k].status == Cancel
    ensures forall k :: k in m && m[k].status in {Todo, InProgress, Review} ==>
      k in TaskStore.TasksAfterClear(m, s)
  {
  }

  // ---------------------------------------------------------------------------
  // The add-task form

  /** The characters `String.prototype.trim` removes: white space and line terminators. */
  predicate IsJsWhitespace(c: char) {
    c == '\t' || c == '\n' || c == '\U{000B}' || c == '\U{000C}' || c == '\r' || c == ' ' ||
    c == '\U{00A0}' || c == '\U{1680}' || ('\U{2000}' <= c <= '\U{200A}') ||
    c == '\U{2028}' || c == '\U{2029}' || c == '\U{202F}' || c == '\U{205F}' ||
    c == '\U{3000}' || c == '\U{FEFF}'
  }

  /** Every character of `s` is white space. */
  predicate IsBlank(s: string) {
    forall i :: 0 <= i < |s| ==> IsJsWhitespace(s[i])
  }

  /** `s` without its longest blank prefix. */
  function TrimStart(s: string): (r: string)
    ensures |r| <= |s|
    ensures r == s[|s| - |r|..] && IsBlank(s[..|s| - |r|])
    ensures r != [] ==> !IsJsWhitespace(r[0])
  {
    if s != [] && IsJsWhitespace(s[0]) then
      var r := TrimStart(s[1..]);
      assert s[1..][..|s[1..]| - |r|] == s[1..|s| - |r|];
      r
    else s
  }

  /** `s` without its longest blank suffix. */
  function TrimEnd(s: string): (r: string)
    ensures |r| <= |s|
    ensures r == s[..|r|] && IsBlank(s[|r|..])
    ensures r != [] ==> !IsJsWhitespace(r[|r| - 1])
  {
    if s != [] && IsJsWhitespace(s[|s| - 1]) then
      var r := TrimEnd(s[..|s| - 1]);
      assert s[..|s| - 1][|r|..] == s[|r|..|s| - 1];
      r
    else s
  }

  /** `s.trim()`. */
  function Trim(s: string): (r: string)
    ensures exists i :: 0 <= i <= i + |r| <= |s| && r == s[i..i + |r|] &&
                        IsBlank(s[..i]) && IsBlank(s[i + |r|..])
    ensures r != [] ==> !IsJsWhitespace(r[0]) && !IsJsWhitespace(r[|r| - 1])
  {
    var m := TrimStart(s);
    var r := TrimEnd(m);
    var i := |s| - |m|;
    assert r == s[i..i + |r|];
    assert s[i + |r|..] == m[|r|..];
    r
  }

  lemma TrimStartEmptyIffBlank(s: string)
    ensures TrimStart(s) == [] <==> IsBlank(s)
  {
    var r := TrimStart(s);
    if r == [] {
      assert s[..|s|] == s;
    }
  }

  lemma {:induction false} TrimEndOfNonBlankStart(s: string)
    requires s != [] && !IsJsWhitespace(s[0])
    ensures TrimEnd(s) != []
    decreases |s|
  {
    if IsJsWhitespace(s[|s| - 1]) {
      TrimEndOfNonBlankStart(s[..|s| - 1]);
    }
  }

  /** `s.trim()` is empty exactly when `s` is blank. */
  lemma TrimEmptyIffBlank(s: string)
    ensures Trim(s) == [] <==> IsBlank(s)
  {
    TrimStartEmptyIffBlank(s);
    if TrimStart(s) != [] {
      TrimEndOfNonBlankStart(TrimStart(s));
    }
  }

  // ---------------------------------------------------------------------------
  // The board's own state and its handlers

  class BoardView {
    var activeId: Option<string>
    var newTaskTitle: string
    var newTaskDesc: string
    var isAddModalOpen: bool

    constructor ()
      ensures activeId.None? && newTaskTitle == "" && newTaskDesc == "" && !isAddModalOpen
    {
      activeId := None;
      newTaskTitle := "";
      newTaskDesc := "";
      isAddModalOpen := false;
    }

    method HandleDragStart(id: string)
      modifies this
      ensures activeId == Some(id)
      ensures newTaskTitle == old(newTaskTitle) && newTaskDesc == old(newTaskDesc)
      ensures isAddModalOpen == old(isAddModalOpen)
    {
      activeId := Some(id);
    }

    /**
     * The end of a drag over the task list `tasks` the board is showing:
     * performs the move `DragEndMove` decides, if any, and forgets the
     * dragged id.
     */
    method HandleDragEnd(store: TaskStore.TaskTables, active: string, over: Option<string>,
                         tasks: seq<Task>, now: nat)
      requires store.Valid()
      modifies this, store
      ensures store.Valid()
      ensures store.tasks == match DragEndMove(active, over, tasks)
        case Some(mv) => TaskStore.TasksAfterMove(old(store.tasks), mv.0, mv.1, now)
        case None => old(store.tasks)
      ensures store.templates == old(store.templates)
      ensures activeId.None?
      ensures newTaskTitle == old(newTaskTitle) && newTaskDesc == old(newTaskDesc)
      ensures isAddModalOpen == old(isAddModalOpen)
    {
      if over.None? {
        activeId := None;
        return;
      }
      var overId := over.value;
      var activeTask := FindTask(tasks, active);
      if activeTask.None? {
        activeId := None;
        return;
      }
      var overColumn := FindColumn(overId);
      if overColumn.Some? {
        if activeTask.value.status != overColumn.value.id {
          store.MoveTask(active, overColumn.value.id, now);
        }
      } else {
        var overTask := FindTask(tasks, overId);
        if overTask.Some? && activeTask.value.status != overTask.value.status {
          store.MoveTask(active, overTask.value.status, now);
        }
      }
      activeId := None;
    }

    /**
     * Submitting the add-task form: a blank title adds nothing and keeps the
     * form; otherwise the task is added and the form is reset and closed.
     */
    method HandleAddTask(store: TaskStore.TaskTables, id: string, now: nat)
      requires store.Valid()
      modifies this, store
      ensures store.Valid()
      ensures store.templates == old(store.templates)
      ensures activeId == old(activeId)
      ensures IsBlank(old(newTaskTitle)) ==>
        && store.tasks == old(store.tasks)
        && newTaskTitle == old(newTaskTitle) && newTaskDesc == old(newTaskDesc)
        && isAddModalOpen == old(isAddModalOpen)
      ensures !IsBlank(old(newTaskTitle)) ==>
        && store.tasks == TaskStore.TasksAfterAdd(old(store.tasks), id, old(newTaskTitle), Some(old(newTaskDesc)), now)
        && newTaskTitle == "" && newTaskDesc == "" && !isAddModalOpen
    {
      TrimEmptyIffBlank(newTaskTitle);
      if Trim(newTaskTitle) == "" {
        return;
      }
      var _ := store.AddTask(newTaskTitle, Some(newTaskDesc), id, now);
      newTaskTitle := "";
      newTaskDesc := "";
      isAddModalOpen := false;
    }

    /** The clear button exists only on the done and cancel columns. */
    method HandleClearColumn(store: TaskStore.TaskTables, s: TaskStatus) returns (cleared: bool)
      requires store.Valid()
      modifies store
      ensures store.Valid()
      ensures cleared == ClearOffered(s)
      ensures store.tasks == if cleared then TaskStore.TasksAfterClear(old(store.tasks), s) else old(store.tasks)
      ensures store.templates == old(store.templates)
    {
      cleared := ClearOffered(s);
      if cleared {
        store.ClearColumn(s);
      }
    }
  }
}
