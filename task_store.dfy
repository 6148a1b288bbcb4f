/**
 * The task and template tables and the operations the board performs on them:
 * add, update, move, delete and clear-column for tasks, add and delete for
 * templates. The tables are maps from primary key (`id`) to record; each
 * operation is specified by a function from the old table to the new one, and
 * the class `TaskTables` performs it in place.
 */
module TaskStore {
  import opened Wrappers
  import opened Types

  // ---------------------------------------------------------------------------
  // Patches

  /**
   * A `Partial<Task>` handed to the table's `update`. A required property can
   * only be overridden; an optional one can also be set to `undefined`, which
   * removes it. The primary key is never part of a patch.
   */
  datatype TaskPatch = TaskPatch(
    title: Option<string>,
    description: Change<string>,
    status: Option<TaskStatus>,
    createdAt: Option<nat>,
    startedAt: Change<nat>,
    completedAt: Change<nat>,
    tags: Change<seq<string>>)

  const NO_CHANGES := TaskPatch(None, Keep, None, None, Keep, Keep, Keep)

  /** The record after `update(id, p)`: each property in `p` replaces the stored one. */
  function ApplyPatch(t: Task, p: TaskPatch): (r: Task)
    ensures r.id == t.id
    ensures p.title.Some? ==> r.title == p.title.value
    ensures p.title.None? ==> r.title == t.title
    ensures p.status.Some? ==> r.status == p.status.value
    ensures p.status.None? ==> r.status == t.status
    ensures p.createdAt.Some? ==> r.createdAt == p.createdAt.value
    ensures p.createdAt.None? ==> r.createdAt == t.createdAt
    ensures r.description == ApplyChange(t.description, p.description)
    ensures r.startedAt == ApplyChange(t.startedAt, p.startedAt)
    ensures r.completedAt == ApplyChange(t.completedAt, p.completedAt)
    ensures r.tags == ApplyChange(t.tags, p.tags)
    ensures p == NO_CHANGES ==> r == t
  {
    Task(t.id,
      p.title.GetOr(t.title),
      ApplyChange(t.description, p.description),
      p.status.GetOr(t.status),
      p.createdAt.GetOr(t.createdAt),
      ApplyChange(t.startedAt, p.startedAt),
      ApplyChange(t.completedAt, p.completedAt),
      ApplyChange(t.tags, p.tags))
  }

  // ---------------------------------------------------------------------------
  // The lifecycle of one task

  /** A fresh task: status todo, created now, never started or completed. */
  function NewTask(id: string, title: string, description: Option<string>, now: nat): Task {
    Task(id, title, description, Todo, now, None, None, None)
  }

  /**
   * The task after a move to `s` at time `now`: entering in-progress stamps
   * `startedAt` if it is unset, entering done stamps `completedAt` if it is
   * unset, and any other status removes a set `completedAt`.
   */
  function Moved(t: Task, s: TaskStatus, now: nat): (r: Task)
    ensures r.status == s
    ensures r.(status := t.status, startedAt := t.startedAt, completedAt := t.completedAt) == t
    ensures r.startedAt != t.startedAt ==> s == InProgress && r.startedAt == Some(now)
    ensures r.completedAt != t.completedAt ==>
      if s == Done then r.completedAt == Some(now) else r.completedAt.None?
  {
    t.(status := s,
       startedAt := if s == InProgress && !IsSet(t.startedAt) then Some(now) else t.startedAt,
       completedAt :=
         if s == Done then (if IsSet(t.completedAt) then t.completedAt else Some(now))
         else if IsSet(t.completedAt) then None
         else t.completedAt)
  }

  /**
   * The lifecycle invariant: `completedAt` is present exactly when the task is
   * done, a task in progress has a `startedAt`, and every stamp is a real
   * (non-zero) clock reading.
   */
  ghost predicate Consistent(t: Task) {
    && (t.completedAt.Some? <==> t.status == Done)
    && (t.status == InProgress ==> t.startedAt.Some?)
    && (t.completedAt.Some? ==> t.completedAt.value > 0)
    && (t.startedAt.Some? ==> t.startedAt.value > 0)
  }

  /** A move changes the status and nothing but the two timestamps. */
  lemma MoveKeepsIdentity(t: Task, s: TaskStatus, now: nat)
    ensures var r := Moved(t, s, now);
      && r.status == s && r.id == t.id && r.title == t.title
      && r.description == t.description && r.createdAt == t.createdAt && r.tags == t.tags
  {
  }

  /**
   * `startedAt` is stamped on the first entry to in-progress and is never
   * overwritten: every move either keeps it or stamps an unset one.
   */
  lemma MoveStampsStartOnce(t: Task, s: TaskStatus, now: nat)
    ensures IsSet(t.startedAt) ==> Moved(t, s, now).startedAt == t.startedAt
    ensures s != InProgress ==> Moved(t, s, now).startedAt == t.startedAt
    ensures s == InProgress && !IsSet(t.startedAt) ==> Moved(t, s, now).startedAt == Some(now)
  {
  }

  /**
   * Entering done keeps a set `completedAt` and stamps an unset one; any
   * other target leaves it unset.
   */
  lemma MoveStampsCompletion(t: Task, s: TaskStatus, now: nat)
    ensures s == Done ==>
      Moved(t, s, now).completedAt == (if IsSet(t.completedAt) then t.completedAt else Some(now))
    ensures s != Done ==> !IsSet(Moved(t, s, now).completedAt)
  {
  }

  /** Leaving done and coming back stamps a new completion time. */
  lemma ReopenRestampsCompletion(t: Task, s: TaskStatus, leftAt: nat, doneAt: nat)
    requires s != Done
    ensures Moved(Moved(t, s, leftAt), Done, doneAt).completedAt == Some(doneAt)
  {
  }

  /** A new task satisfies the lifecycle invariant. */
  lemma NewTaskConsistent(id: string, title: string, description: Option<string>, now: nat)
    ensures Consistent(NewTask(id, title, description, now))
  {
  }

  /** A move at a real clock reading preserves the lifecycle invariant. */
  lemma MoveKeepsLifecycle(t: Task, s: TaskStatus, now: nat)
    requires Consistent(t) && now > 0
    ensures Consistent(Moved(t, s, now))
  {
  }

  /** Under the invariant, a move to the current status changes nothing. */
  lemma MoveToSameStatusIsNoOp(t: Task, now: nat)
    requires Consistent(t)
    ensures Moved(t, t.status, now) == t
  {
  }

  // ---------------------------------------------------------------------------
  // Table operations on tasks

  /**
   * `addTask`: inserts a fresh todo task under a new key; an `add` under a key
   * that is already taken is rejected and leaves the table as it was.
   */
  function TasksAfterAdd(m: map<string, Task>, id: string, title: string,
                         description: Option<string>, now: nat): (r: map<string, Task>)
    ensures id in m ==> r == m
    ensures id !in m ==> r.Keys == m.Keys + {id}
    ensures id !in m ==>
      && r[id].id == id && r[id].title == title && r[id].description == description
      && r[id].status == Todo && r[id].createdAt == now
      && r[id].startedAt.None? && r[id].completedAt.None? && r[id].tags.None?
    ensures forall k :: k in m ==> k in r && r[k] == m[k]
  {
    if id in m then m else m[id := NewTask(id, title, description, now)]
  }

  /**
   * `updateTask`: applies a raw patch to one task, bypassing the timestamp
   * rules; a missing key changes nothing.
   */
  function TasksAfterUpdate(m: map<string, Task>, id: string, p: TaskPatch): (r: map<string, Task>)
    ensures r.Keys == m.Keys
    ensures forall k :: k in m && k != id ==> r[k] == m[k]
    ensures id in m ==> r[id] == ApplyPatch(m[id], p)
  {
    if id in m then m[id := ApplyPatch(m[id], p)] else m
  }

  /** `moveTask`: moves one task; a missing key changes nothing. */
  function TasksAfterMove(m: map<string, Task>, id: string, s: TaskStatus, now: nat): (r: map<string, Task>)
    ensures id !in m ==> r == m
    ensures r.Keys == m.Keys
    ensures forall k :: k in m && k != id ==> r[k] == m[k]
    ensures id in m ==> r[id] == Moved(m[id], s, now)
  {
    if id in m then m[id := Moved(m[id], s, now)] else m
  }

  /** `deleteTask` and `deleteTemplate`: removes one key; a missing key changes nothing. */
  function TableAfterDelete<V>(m: map<string, V>, id: string): (r: map<string, V>)
    ensures r.Keys == m.Keys - {id}
    ensures id !in m ==> r == m
    ensures forall k :: k in r ==> r[k] == m[k]
  {
    m - {id}
  }

  /** `clearColumn`: removes exactly the tasks whose status is `s`. */
  function TasksAfterClear(m: map<string, Task>, s: TaskStatus): (r: map<string, Task>)
    ensures forall k :: k in r <==> k in m && m[k].status != s
    ensures forall k :: k in r ==> r[k] == m[k]
    ensures (forall k :: k in m ==> m[k].status != s) ==> r == m
  {
    map k | k in m && m[k].status != s :: m[k]
  }

  // ---------------------------------------------------------------------------
  // Table operations on templates

  /** `addTemplate`: inserts a template under a new key; a taken key is rejected. */
  function TemplatesAfterAdd(m: map<string, TaskTemplate>, id: string, title: string,
                             description: Option<string>): (r: map<string, TaskTemplate>)
    ensures id in m ==> r == m
    ensures id !in m ==> r.Keys == m.Keys + {id} && r[id] == TaskTemplate(id, title, description)
    ensures forall k :: k in m ==> k in r && r[k] == m[k]
  {
    if id in m then m else m[id := TaskTemplate(id, title, description)]
  }

  /**
   * Adding a task from a template copies the template's title and
   * description into a new todo task; the task keeps no link to the template.
   */
  lemma InstantiateCopiesTemplate(m: map<string, Task>, tmpl: TaskTemplate, id: string, now: nat)
    requires id !in m
    ensures var r := TasksAfterAdd(m, id, tmpl.title, tmpl.description, now);
      id in r && r[id].title == tmpl.title && r[id].description == tmpl.description &&
      r[id].status == Todo
  {
  }

  // ---------------------------------------------------------------------------
  // Traces of task operations

  datatype TaskOp =
    | AddOp(id: string, title: string, description: Option<string>, now: nat)
    | UpdateOp(id: string, patch: TaskPatch)
    | MoveOp(id: string, status: TaskStatus, now: nat)
    | DeleteOp(id: string)
    | ClearOp(status: TaskStatus)

  function Step(m: map<string, Task>, op: TaskOp): map<string, Task> {
    match op
    case AddOp(id, title, description, now) => TasksAfterAdd(m, id, title, description, now)
    case UpdateOp(id, p) => TasksAfterUpdate(m, id, p)
    case MoveOp(id, s, now) => TasksAfterMove(m, id, s, now)
    case DeleteOp(id) => TableAfterDelete(m, id)
    case ClearOp(s) => TasksAfterClear(m, s)
  }

  /** The table after performing `ops` in order, starting from `m`. */
  function Replay(m: map<string, Task>, ops: seq<TaskOp>): map<string, Task>
    decreases |ops|
  {
    if ops == [] then m else Replay(Step(m, ops[0]), ops[1..])
  }

  /**
   * An operation that goes through the lifecycle rules: anything but a raw
   * `updateTask`, with moves made at a real clock reading.
   */
  predicate ViaLifecycle(op: TaskOp) {
    match op
    case UpdateOp(_, _) => false
    case MoveOp(_, _, now) => now > 0
    case _ => true
  }

  ghost predicate AllConsistent(m: map<string, Task>) {
    forall k :: k in m ==> Consistent(m[k])
  }

  lemma StepKeepsLifecycle(m: map<string, Task>, op: TaskOp)
    requires AllConsistent(m) && ViaLifecycle(op)
    ensures AllConsistent(Step(m, op))
  {
    match op
    case AddOp(id, title, description, now) =>
      NewTaskConsistent(id, title, description, now);
    case MoveOp(id, s, now) =>
      if id in m { MoveKeepsLifecycle(m[id], s, now); }
    case DeleteOp(id) =>
    case ClearOp(s) =>
  }

  /**
   * Over any trace of adds, moves, deletes and column clears, every task's
   * `completedAt` is present exactly when it is done.
   */
  lemma {:induction false} ReplayKeepsLifecycle(m: map<string, Task>, ops: seq<TaskOp>)
    requires AllConsistent(m)
    requires forall i :: 0 <= i < |ops| ==> ViaLifecycle(ops[i])
    ensures AllConsistent(Replay(m, ops))
    ensures forall k :: k in Replay(m, ops) ==>
      (Replay(m, ops)[k].completedAt.Some? <==> Replay(m, ops)[k].status == Done)
    decreases |ops|
  {
    if ops != [] {
      StepKeepsLifecycle(m, ops[0]);
      ReplayKeepsLifecycle(Step(m, ops[0]), ops[1..]);
    }
  }

  /** Every operation, raw updates included, keeps each task under its own key. */
  lemma {:induction false} ReplayKeepsKeys(m: map<string, Task>, ops: seq<TaskOp>)
    requires KeyedBy(m, (t: Task) => t.id)
    ensures KeyedBy(Replay(m, ops), (t: Task) => t.id)
    decreases |ops|
  {
    if ops != [] {
      ReplayKeepsKeys(Step(m, ops[0]), ops[1..]);
    }
  }

  /** A raw `updateTask` can break the lifecycle invariant: done without `completedAt`. */
  lemma UpdateCanBreakLifecycle()
    ensures var m := map["a" := NewTask("a", "Write report", None, 1)];
      AllConsistent(m) &&
      !AllConsistent(TasksAfterUpdate(m, "a", NO_CHANGES.(status := Some(Done))))
  {
    var m := map["a" := NewTask("a", "Write report", None, 1)];
    var r := TasksAfterUpdate(m, "a", NO_CHANGES.(status := Some(Done)));
    assert r["a"].status == Done && r["a"].completedAt.None?;
  }

  /**
   * Create, start, finish, reopen: `completedAt` is gone again and `startedAt`
   * is still the time the task was started.
   */
  lemma WriteReportScenario(m: map<string, Task>, id: string, t0: nat, t1: nat, t2: nat, t3: nat)
    requires id !in m && t1 > 0 && t2 > 0
    ensures var r := Replay(m, [AddOp(id, "Write report", None, t0), MoveOp(id, InProgress, t1),
                                MoveOp(id, Done, t2), MoveOp(id, Todo, t3)]);
      id in r && r[id].status == Todo && r[id].completedAt.None? && r[id].startedAt == Some(t1)
  {
    var ops := [AddOp(id, "Write report", None, t0), MoveOp(id, InProgress, t1),
                MoveOp(id, Done, t2), MoveOp(id, Todo, t3)];
    var m1 := Step(m, ops[0]);
    var m2 := Step(m1, ops[1]);
    var m3 := Step(m2, ops[2]);
    var m4 := Step(m3, ops[3]);
    assert Replay(m, ops) == Replay(m1, ops[1..]);
    assert Replay(m1, ops[1..]) == Replay(m2, ops[2..]);
    assert Replay(m2, ops[2..]) == Replay(m3, ops[3..]);
    assert Replay(m3, ops[3..]) == m4;
  }

  // ---------------------------------------------------------------------------
  // The tables, updated in place

  class TaskTables {
    var tasks: map<string, Task>
    var templates: map<string, TaskTemplate>

    ghost predicate Valid()
      reads this
    {
      KeyedBy(tasks, (t: Task) => t.id) && KeyedBy(templates, (t: TaskTemplate) => t.id)
    }

    constructor ()
      ensures Valid() && tasks == map[] && templates == map[]
    {
      tasks := map[];
      templates := map[];
    }

    /** `addTask(title, description)` with the new key and clock reading as parameters. */
    method AddTask(title: string, description: Option<string>, id: string, now: nat) returns (added: bool)
      requires Valid()
      modifies this
      ensures Valid()
      ensures added == (id !in old(tasks))
      ensures tasks == TasksAfterAdd(old(tasks), id, title, description, now)
      ensures templates == old(templates)
    {
      added := id !in tasks;
      if added {
        tasks := tasks[id := NewTask(id, title, description, now)];
      }
    }

    method UpdateTask(id: string, updates: TaskPatch)
      requires Valid()
      modifies this
      ensures Valid()
      ensures tasks == TasksAfterUpdate(old(tasks), id, updates)
      ensures templates == old(templates)
    {
      if id in tasks {
        tasks := tasks[id := ApplyPatch(tasks[id], updates)];
      }
    }

    /** Builds the patch for the move field by field, then applies it. */
    method MoveTask(id: string, newStatus: TaskStatus, now: nat)
      requires Valid()
      modifies this
      ensures Valid()
      ensures tasks == TasksAfterMove(old(tasks), id, newStatus, now)
      ensures templates == old(templates)
    {
      if id !in tasks {
        return;
      }
      var task := tasks[id];
      var updates := NO_CHANGES.(status := Some(newStatus));
      if newStatus == InProgress && !IsSet(task.startedAt) {
        updates := updates.(startedAt := Put(now));
      }
      if newStatus == Done && !IsSet(task.completedAt) {
        updates := updates.(completedAt := Put(now));
      }
      if newStatus != Done && IsSet(task.completedAt) {
        updates := updates.(completedAt := Clear);
      }
      tasks := tasks[id := ApplyPatch(task, updates)];
    }

    method DeleteTask(id: string)
      requires Valid()
      modifies this
      ensures Valid()
      ensures tasks == TableAfterDelete(old(tasks), id)
      ensures templates == old(templates)
    {
      tasks := tasks - {id};
    }

    /** Looks up the keys of the column's tasks and deletes them in one batch. */
    method ClearColumn(status: TaskStatus)
      requires Valid()
      modifies this
      ensures Valid()
      ensures tasks == TasksAfterClear(old(tasks), status)
      ensures templates == old(templates)
    {
      var ids := set k | k in tasks && tasks[k].status == status;
      tasks := tasks - ids;
    }

    method AddTemplate(title: string, description: Option<string>, id: string) returns (added: bool)
      requires Valid()
      modifies this
      ensures Valid()
      ensures added == (id !in old(templates))
      ensures templates == TemplatesAfterAdd(old(templates), id, title, description)
      ensures tasks == old(tasks)
    {
      added := id !in templates;
      if added {
        templates := templates[id := TaskTemplate(id, title, description)];
      }
    }

    /** Deleting a template never touches the tasks made from it. */
    method DeleteTemplate(id: string)
      requires Valid()
      modifies this
      ensures Valid()
      ensures templates == TableAfterDelete(old(templates), id)
      ensures tasks == old(tasks)
    {
      templates := templates - {id};
    }
  }
}
