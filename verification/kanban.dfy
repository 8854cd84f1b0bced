/**
 * The client's board state (`BoardData`), its seed value, and the list
 * operations the client components build new states from: the tasks of one
 * column, a task moved to another column, a task removed by id.
 */
module Kanban {
  import opened Common
  import opened Positions

  /** A task as the client builds it: id, title, the column it sits in, its position there. */
  datatype Task = Task(id: string, title: string, columnId: string, position: int)

  datatype Column = Column(id: string, title: string, position: int)

  datatype BoardData = BoardData(tasks: seq<Task>, columns: seq<Column>)

  /** The board the client starts from: two tasks in "To Do", one in "In Progress". */
  const InitialData := BoardData(
    [ Task("task-1", "Test Task 1", "todo", 0),
      Task("task-2", "Test Task 2", "todo", 1),
      Task("task-3", "Test Task 3", "in-progress", 0) ],
    [ Column("todo", "To Do", 0),
      Column("in-progress", "In Progress", 1),
      Column("done", "Done", 2) ])

  function TaskPosition(t: Task): int { t.position }

  function ColumnPosition(c: Column): int { c.position }

  /** Whether some column has id `id`. */
  predicate HasColumn(columns: seq<Column>, id: string) {
    exists i :: 0 <= i < |columns| && columns[i].id == id
  }

  /** Every task's column is one of the board's columns. */
  predicate RefsValid(b: BoardData) {
    forall i :: 0 <= i < |b.tasks| ==> HasColumn(b.columns, b.tasks[i].columnId)
  }

  predicate TaskIdsDistinct(tasks: seq<Task>) {
    forall i, j :: 0 <= i < j < |tasks| ==> tasks[i].id != tasks[j].id
  }

  /** Task ids and column ids are each pairwise distinct. */
  predicate IdsDistinct(b: BoardData) {
    && TaskIdsDistinct(b.tasks)
    && forall i, j :: 0 <= i < j < |b.columns| ==> b.columns[i].id != b.columns[j].id
  }

  /** Within every column, the task positions are exactly 0, ..., k-1. */
  ghost predicate DensePerColumn(b: BoardData) {
    forall c :: Dense(Project(TaskPosition, TasksIn(b.tasks, c)))
  }

  /** `tasks.filter(task => task.columnId === columnId)`. */
  function TasksIn(tasks: seq<Task>, columnId: string): (r: seq<Task>)
    ensures |r| <= |tasks|
    ensures forall t :: t in r <==> t in tasks && t.columnId == columnId
  {
    if tasks == [] then []
    else
      assert tasks == [tasks[0]] + tasks[1..];
      (if tasks[0].columnId == columnId then [tasks[0]] else []) + TasksIn(tasks[1..], columnId)
  }

  /** The filter keeps each task of the column as often as the board holds it, and no other task. */
  lemma {:induction false} TasksInCount(tasks: seq<Task>, columnId: string, t: Task)
    ensures multiset(TasksIn(tasks, columnId))[t] == if t.columnId == columnId then multiset(tasks)[t] else 0
  {
    if tasks != [] {
      assert tasks == [tasks[0]] + tasks[1..];
      TasksInCount(tasks[1..], columnId, t);
    }
  }

  /** Filtering a concatenation filters each part and keeps their order. */
  lemma {:induction false} TasksInConcat(a: seq<Task>, b: seq<Task>, columnId: string)
    ensures TasksIn(a + b, columnId) == TasksIn(a, columnId) + TasksIn(b, columnId)
  {
    if a == [] {
      assert a + b == b;
    } else {
      assert (a + b)[1..] == a[1..] + b;
      TasksInConcat(a[1..], b, columnId);
    }
  }

  lemma TasksInAppend(tasks: seq<Task>, t: Task, columnId: string)
    ensures TasksIn(tasks + [t], columnId) == TasksIn(tasks, columnId) + (if t.columnId == columnId then [t] else [])
  {
    TasksInConcat(tasks, [t], columnId);
    assert [t][1..] == [];
  }

  /** `tasks.filter(task => task.id !== taskId)`. */
  function RemoveTask(tasks: seq<Task>, taskId: string): (r: seq<Task>)
    ensures |r| <= |tasks|
    ensures forall t :: t in r <==> t in tasks && t.id != taskId
  {
    if tasks == [] then []
    else
      assert tasks == [tasks[0]] + tasks[1..];
      (if tasks[0].id != taskId then [tasks[0]] else []) + RemoveTask(tasks[1..], taskId)
  }

  /** Deleting keeps each task with another id as often as the board holds it, and none with the id. */
  lemma {:induction false} RemoveTaskCount(tasks: seq<Task>, taskId: string, t: Task)
    ensures multiset(RemoveTask(tasks, taskId))[t] == if t.id == taskId then 0 else multiset(tasks)[t]
  {
    if tasks != [] {
      assert tasks == [tasks[0]] + tasks[1..];
      RemoveTaskCount(tasks[1..], taskId, t);
    }
  }

  /** Removal keeps the survivors in their order. */
  lemma {:induction false} RemoveTaskConcat(a: seq<Task>, b: seq<Task>, taskId: string)
    ensures RemoveTask(a + b, taskId) == RemoveTask(a, taskId) + RemoveTask(b, taskId)
  {
    if a == [] {
      assert a + b == b;
    } else {
      assert (a + b)[1..] == a[1..] + b;
      RemoveTaskConcat(a[1..], b, taskId);
    }
  }

  /** Removing an id no task has changes nothing. */
  lemma {:induction false} RemoveAbsentTask(tasks: seq<Task>, taskId: string)
    requires forall i :: 0 <= i < |tasks| ==> tasks[i].id != taskId
    ensures RemoveTask(tasks, taskId) == tasks
  {
    if tasks != [] {
      RemoveAbsentTask(tasks[1..], taskId);
      assert tasks == [tasks[0]] + tasks[1..];
    }
  }

  /** Removing twice is removing once. */
  lemma RemoveTaskIdempotent(tasks: seq<Task>, taskId: string)
    ensures RemoveTask(RemoveTask(tasks, taskId), taskId) == RemoveTask(tasks, taskId)
  {
    var r := RemoveTask(tasks, taskId);
    forall i | 0 <= i < |r|
      ensures r[i].id != taskId
    {
      assert r[i] in r;
    }
    RemoveAbsentTask(r, taskId);
  }

  /** Removal keeps task ids distinct. */
  lemma {:induction false} RemoveKeepsIdsDistinct(tasks: seq<Task>, taskId: string)
    requires TaskIdsDistinct(tasks)
    ensures TaskIdsDistinct(RemoveTask(tasks, taskId))
  {
    if tasks != [] {
      var rest := tasks[1..];
      assert TaskIdsDistinct(rest) by {
        forall i, j | 0 <= i < j < |rest|
          ensures rest[i].id != rest[j].id
        {
          assert rest[i] == tasks[i + 1] && rest[j] == tasks[j + 1];
        }
      }
      RemoveKeepsIdsDistinct(rest, taskId);
      if tasks[0].id != taskId {
        HeadIdIsNotRemoved(tasks, taskId);
      } else {
        assert RemoveTask(tasks, taskId) == [] + RemoveTask(rest, taskId);
      }
    }
  }

  lemma HeadIdIsNotRemoved(tasks: seq<Task>, taskId: string)
    requires TaskIdsDistinct(tasks) && tasks != [] && tasks[0].id != taskId
    requires TaskIdsDistinct(RemoveTask(tasks[1..], taskId))
    ensures TaskIdsDistinct(RemoveTask(tasks, taskId))
  {
    var r' := RemoveTask(tasks[1..], taskId);
    HeadIdIsUnique(tasks);
    assert forall t :: t in r' ==> t.id != tasks[0].id;
    ConsKeepsIdsDistinct(tasks[0], r');
    assert RemoveTask(tasks, taskId) == [tasks[0]] + r';
  }

  /** A task whose id no other task has can be put in front without repeating an id. */
  lemma ConsKeepsIdsDistinct(head: Task, tasks: seq<Task>)
    requires TaskIdsDistinct(tasks)
    requires forall t :: t in tasks ==> t.id != head.id
    ensures TaskIdsDistinct([head] + tasks)
  {
    var r := [head] + tasks;
    forall i, j | 0 <= i < j < |r|
      ensures r[i].id != r[j].id
    {
      assert r[j] == tasks[j - 1];
      if i > 0 {
        assert r[i] == tasks[i - 1];
      }
    }
  }

  /** With distinct ids, no later task shares the first task's id. */
  lemma HeadIdIsUnique(tasks: seq<Task>)
    requires TaskIdsDistinct(tasks) && tasks != []
    ensures forall t :: t in tasks[1..] ==> t.id != tasks[0].id
  {
    forall t | t in tasks[1..]
      ensures t.id != tasks[0].id
    {
      var k :| 0 <= k < |tasks[1..]| && tasks[1..][k] == t;
      assert tasks[k + 1] == t;
    }
  }

  /** Removing a task keeps references valid and ids distinct. */
  lemma RemoveTaskKeepsWellFormed(b: BoardData, taskId: string)
    requires RefsValid(b) && IdsDistinct(b)
    ensures RefsValid(b.(tasks := RemoveTask(b.tasks, taskId)))
    ensures IdsDistinct(b.(tasks := RemoveTask(b.tasks, taskId)))
  {
    var r := RemoveTask(b.tasks, taskId);
    forall i | 0 <= i < |r|
      ensures HasColumn(b.columns, r[i].columnId)
    {
      assert r[i] in b.tasks;
    }
    RemoveKeepsIdsDistinct(b.tasks, taskId);
  }

  /** `tasks.map(task => task.id === taskId ? { ...task, columnId } : task)`. */
  function MoveTask(tasks: seq<Task>, taskId: string, columnId: string): (r: seq<Task>)
    ensures |r| == |tasks|
    ensures forall i :: 0 <= i < |tasks| ==>
      && r[i].id == tasks[i].id && r[i].title == tasks[i].title && r[i].position == tasks[i].position
      && r[i].columnId == if tasks[i].id == taskId then columnId else tasks[i].columnId
  {
    seq(|tasks|, i requires 0 <= i < |tasks| =>
      if tasks[i].id == taskId then tasks[i].(columnId := columnId) else tasks[i])
  }

  /** Moving a task to the column it is already in changes nothing. */
  lemma MoveToOwnColumn(tasks: seq<Task>, taskId: string, columnId: string)
    requires forall i :: 0 <= i < |tasks| && tasks[i].id == taskId ==> tasks[i].columnId == columnId
    ensures MoveTask(tasks, taskId, columnId) == tasks
  {
  }

  /** Moving twice to the same column is moving once. */
  lemma MoveTaskIdempotent(tasks: seq<Task>, taskId: string, columnId: string)
    ensures MoveTask(MoveTask(tasks, taskId, columnId), taskId, columnId) == MoveTask(tasks, taskId, columnId)
  {
    MoveToOwnColumn(MoveTask(tasks, taskId, columnId), taskId, columnId);
  }

  /** After a move, each task with the moved id is among the target column's tasks. */
  lemma MovedTaskIsInTarget(tasks: seq<Task>, taskId: string, columnId: string, i: nat)
    requires i < |tasks| && tasks[i].id == taskId
    ensures MoveTask(tasks, taskId, columnId)[i] in TasksIn(MoveTask(tasks, taskId, columnId), columnId)
  {
    assert MoveTask(tasks, taskId, columnId)[i] in MoveTask(tasks, taskId, columnId);
  }

  /** A move to an existing column keeps every reference valid, and ids are untouched. */
  lemma MoveTaskKeepsWellFormed(b: BoardData, taskId: string, columnId: string)
    requires RefsValid(b) && IdsDistinct(b)
    requires HasColumn(b.columns, columnId)
    ensures RefsValid(b.(tasks := MoveTask(b.tasks, taskId, columnId)))
    ensures IdsDistinct(b.(tasks := MoveTask(b.tasks, taskId, columnId)))
  {
  }

  /** Moving onto an id that is no column leaves the moved task without a column. */
  lemma MoveToUnknownColumn(b: BoardData, taskId: string, columnId: string, i: nat)
    requires i < |b.tasks| && b.tasks[i].id == taskId
    requires !HasColumn(b.columns, columnId)
    ensures !RefsValid(b.(tasks := MoveTask(b.tasks, taskId, columnId)))
  {
    assert MoveTask(b.tasks, taskId, columnId)[i].columnId == columnId;
  }

  /** `tasks.find(t => t.id === id)`: the first task with that id. */
  function FindTask(tasks: seq<Task>, id: string): (r: Option<Task>)
    ensures r.None? <==> forall i :: 0 <= i < |tasks| ==> tasks[i].id != id
    ensures r.Some? ==> exists i :: 0 <= i < |tasks| && tasks[i] == r.value && (forall j :: 0 <= j < i ==> tasks[j].id != id)
    ensures r.Some? ==> r.value.id == id
  {
    if tasks == [] then None
    else if tasks[0].id == id then Some(tasks[0])
    else
      var r := FindTask(tasks[1..], id);
      if r.Some? then
        ghost var i :| 0 <= i < |tasks[1..]| && tasks[1..][i] == r.value && (forall j :: 0 <= j < i ==> tasks[1..][j].id != id);
        assert tasks[i + 1] == r.value;
        r
      else r
  }

  /**
   * Appending a task whose position is the number of tasks already in its
   * column keeps that column's positions dense and leaves the others alone.
   */
  lemma AppendAtCountKeepsDense(b: BoardData, t: Task)
    requires DensePerColumn(b)
    requires t.position == |TasksIn(b.tasks, t.columnId)|
    ensures DensePerColumn(b.(tasks := b.tasks + [t]))
  {
    forall c
      ensures Dense(Project(TaskPosition, TasksIn(b.tasks + [t], c)))
    {
      TasksInAppend(b.tasks, t, c);
      if t.columnId == c {
        var ps := Project(TaskPosition, TasksIn(b.tasks, c));
        ProjectConcat(TaskPosition, TasksIn(b.tasks, c), [t]);
        NextPositionOfDense(ps);
        AppendKeepsDense(ps);
        assert Project(TaskPosition, [t]) == [t.position];
      } else {
        assert TasksIn(b.tasks, c) + [] == TasksIn(b.tasks, c);
      }
    }
  }

  /** Appending a task with a fresh id in an existing column keeps ids distinct and references valid. */
  lemma AppendKeepsWellFormed(b: BoardData, t: Task)
    requires RefsValid(b) && IdsDistinct(b)
    requires HasColumn(b.columns, t.columnId)
    requires forall i :: 0 <= i < |b.tasks| ==> b.tasks[i].id != t.id
    ensures RefsValid(b.(tasks := b.tasks + [t]))
    ensures IdsDistinct(b.(tasks := b.tasks + [t]))
  {
  }

  /** The seed board: column positions are 0, 1, 2 and ids are distinct. */
  lemma InitialColumns()
    ensures Project(ColumnPosition, InitialData.columns) == Iota(3)
    ensures IdsDistinct(InitialData)
  {
  }

  /** Every seeded task sits in a seeded column. */
  lemma InitialRefsValid()
    ensures RefsValid(InitialData)
  {
    assert InitialData.columns[0].id == "todo";
    assert InitialData.columns[1].id == "in-progress";
  }

  /** Filtering three tasks keeps those of the column, in order. */
  lemma TasksInOfThree(t1: Task, t2: Task, t3: Task, c: string)
    ensures TasksIn([t1, t2, t3], c)
         == (if t1.columnId == c then [t1] else []) + (if t2.columnId == c then [t2] else [])
            + (if t3.columnId == c then [t3] else [])
  {
    var ts := [t1, t2, t3];
    assert ts[1..] == [t2, t3] && ts[1..][1..] == [t3] && ts[1..][1..][1..] == [];
    assert TasksIn([t3], c) == if t3.columnId == c then [t3] else [];
    assert TasksIn([t2, t3], c) == (if t2.columnId == c then [t2] else []) + TasksIn([t3], c);
  }

  /** A column whose tasks, in order, have their indices as positions has dense positions. */
  lemma PositionsFromZero(tasks: seq<Task>, c: string, ts: seq<Task>)
    requires TasksIn(tasks, c) == ts
    requires forall i :: 0 <= i < |ts| ==> ts[i].position == i
    ensures Dense(Project(TaskPosition, TasksIn(tasks, c)))
  {
    assert Project(TaskPosition, ts) == Iota(|ts|);
  }

  /** The seeded tasks of "To Do": the first two, in order. */
  lemma InitialTodoTasks(c: string)
    requires c == "todo"
    ensures TasksIn(InitialData.tasks, c) == InitialData.tasks[..2]
  {
    var ts := InitialData.tasks;
    assert ts == [ts[0], ts[1], ts[2]] && ts[..2] == [ts[0], ts[1]];
    assert ts[2].columnId != c by {
      assert |ts[2].columnId| != |c|;
    }
    TasksInOfThree(ts[0], ts[1], ts[2], c);
  }

  /** The seeded tasks of "In Progress": the third alone. */
  lemma InitialInProgressTasks(c: string)
    requires c == "in-progress"
    ensures TasksIn(InitialData.tasks, c) == InitialData.tasks[2..]
  {
    var ts := InitialData.tasks;
    assert ts == [ts[0], ts[1], ts[2]] && ts[2..] == [ts[2]];
    assert ts[0].columnId != c && ts[1].columnId != c by {
      assert |ts[0].columnId| != |c| && |ts[1].columnId| != |c|;
    }
    TasksInOfThree(ts[0], ts[1], ts[2], c);
  }

  /** Every other column has no seeded task. */
  lemma InitialOtherTasks(c: string)
    requires c != "todo" && c != "in-progress"
    ensures TasksIn(InitialData.tasks, c) == []
  {
    var ts := InitialData.tasks;
    assert ts == [ts[0], ts[1], ts[2]];
    TasksInOfThree(ts[0], ts[1], ts[2], c);
  }

  lemma InitialTodoDense(c: string)
    requires c == "todo"
    ensures Dense(Project(TaskPosition, TasksIn(InitialData.tasks, c)))
  {
    var ts := InitialData.tasks;
    InitialTodoTasks(c);
    PositionsFromZero(ts, c, ts[..2]);
  }

  lemma InitialInProgressDense(c: string)
    requires c == "in-progress"
    ensures Dense(Project(TaskPosition, TasksIn(InitialData.tasks, c)))
  {
    var ts := InitialData.tasks;
    InitialInProgressTasks(c);
    PositionsFromZero(ts, c, ts[2..]);
  }

  /** Within each seeded column the task positions are 0, ..., k-1 (two in "To Do", one in "In Progress", none in "Done"). */
  lemma InitialDensePerColumn()
    ensures DensePerColumn(InitialData)
  {
    forall c
      ensures Dense(Project(TaskPosition, TasksIn(InitialData.tasks, c)))
    {
      if c == "todo" {
        InitialTodoDense(c);
      } else if c == "in-progress" {
        InitialInProgressDense(c);
      } else {
        InitialOtherTasks(c);
        PositionsFromZero(InitialData.tasks, c, []);
      }
    }
  }
}
