/**
 * The Supabase-backed task hook: the client copy of the board, the loading
 * flag and the last error, kept in step with the hosted `columns` and
 * `tasks` tables. Each hosted query's outcome reaches the hook as a
 * parameter.
 */
module SupabaseTasks {
  import opened Common
  import opened Kanban

  /** A `columns` row as the hosted table returns it. */
  datatype ColumnRecord = ColumnRecord(id: string, title: string, position: int)

  /** A `tasks` row as the hosted table returns it; its column key is `column_id`. */
  datatype TaskRecord = TaskRecord(id: string, title: string, column_id: string, position: int)

  /**
   * The outcome of one hosted query: its `data` (`None` for `null`), or
   * the error it threw, with that error's message (`""` when it has none).
   */
  datatype Outcome<T> = Data(data: Option<T>) | Failure(message: string)

  /** A partial task: the fields an update sets, `None` for those it leaves undefined. */
  datatype TaskPatch = TaskPatch(id: Option<string>, title: Option<string>, columnId: Option<string>, position: Option<int>)

  /** A value of the update object sent to the hosted table. */
  datatype FieldValue = Text(text: string) | Number(number: int)

  /** The error message stored on failure: the thrown message, or `fallback` when it is empty. */
  function ErrorText(message: string, fallback: string): (e: string)
    ensures message != "" ==> e == message
    ensures message == "" ==> e == fallback
  {
    if message != "" then message else fallback
  }

  /** A fetched task row as the client's task: `column_id` becomes `columnId`. */
  function ToTask(row: TaskRecord): Task {
    Task(row.id, row.title, row.column_id, row.position)
  }

  function ToColumn(row: ColumnRecord): Column {
    Column(row.id, row.title, row.position)
  }

  /** A client task as the row that stores it. */
  function ToRecord(t: Task): TaskRecord {
    TaskRecord(t.id, t.title, t.columnId, t.position)
  }

  /** Row and client task carry the same four fields: converting either way and back gives the original. */
  lemma RecordRoundTrip(row: TaskRecord, t: Task)
    ensures ToRecord(ToTask(row)) == row
    ensures ToTask(ToRecord(t)) == t
  {
  }

  /** `(tasksData || []).map(...)`. */
  function ToTasks(rows: Option<seq<TaskRecord>>): (ts: seq<Task>)
    ensures rows.None? ==> ts == []
    ensures rows.Some? ==> |ts| == |rows.value| && forall i :: 0 <= i < |ts| ==>
      ts[i].id == rows.value[i].id && ts[i].title == rows.value[i].title
      && ts[i].columnId == rows.value[i].column_id && ts[i].position == rows.value[i].position
  {
    if rows.None? then [] else seq(|rows.value|, i requires 0 <= i < |rows.value| => ToTask(rows.value[i]))
  }

  /** `(columnsData || []).map(...)`. */
  function ToColumns(rows: Option<seq<ColumnRecord>>): (cs: seq<Column>)
    ensures rows.None? ==> cs == []
    ensures rows.Some? ==> |cs| == |rows.value| && forall i :: 0 <= i < |cs| ==>
      cs[i].id == rows.value[i].id && cs[i].title == rows.value[i].title && cs[i].position == rows.value[i].position
  {
    if rows.None? then [] else seq(|rows.value|, i requires 0 <= i < |rows.value| => ToColumn(rows.value[i]))
  }

  /** Fetched task ids that are distinct stay distinct. */
  lemma ToTasksKeepsIds(rows: seq<TaskRecord>)
    requires forall i, j :: 0 <= i < j < |rows| ==> rows[i].id != rows[j].id
    ensures TaskIdsDistinct(ToTasks(Some(rows)))
  {
  }

  /** `{ ...task, ...updates }`: each field the patch defines replaces the task's. */
  function ApplyPatch(t: Task, p: TaskPatch): Task {
    Task(p.id.GetOr(t.id), p.title.GetOr(t.title), p.columnId.GetOr(t.columnId), p.position.GetOr(t.position))
  }

  /** The local update: every task with id `taskId` gets the patch, the others stay as they are. */
  function PatchTasks(tasks: seq<Task>, taskId: string, p: TaskPatch): (r: seq<Task>)
    ensures |r| == |tasks|
    ensures forall i :: 0 <= i < |tasks| ==> r[i] == if tasks[i].id == taskId then ApplyPatch(tasks[i], p) else tasks[i]
  {
    seq(|tasks|, i requires 0 <= i < |tasks| => if tasks[i].id == taskId then ApplyPatch(tasks[i], p) else tasks[i])
  }

  /** A patch that defines nothing changes nothing. */
  lemma EmptyPatch(tasks: seq<Task>, taskId: string)
    ensures PatchTasks(tasks, taskId, TaskPatch(None, None, None, None)) == tasks
  {
  }

  /** A patch that sets only the column is the drag-and-drop move. */
  lemma ColumnPatchIsMove(tasks: seq<Task>, taskId: string, columnId: string)
    ensures PatchTasks(tasks, taskId, TaskPatch(None, None, Some(columnId), None)) == MoveTask(tasks, taskId, columnId)
  {
  }

  /** The update object the hook sends: the defined ones among title, column and position, the column under `column_id`. */
  function DbUpdates(p: TaskPatch): (m: map<string, FieldValue>)
    ensures "title" in m <==> p.title.Some?
    ensures "column_id" in m <==> p.columnId.Some?
    ensures "position" in m <==> p.position.Some?
    ensures m.Keys <= {"title", "column_id", "position"}
    ensures p.title.Some? ==> m["title"] == Text(p.title.value)
    ensures p.columnId.Some? ==> m["column_id"] == Text(p.columnId.value)
    ensures p.position.Some? ==> m["position"] == Number(p.position.value)
  {
    var m1: map<string, FieldValue> := if p.title.Some? then map["title" := Text(p.title.value)] else map[];
    var m2 := if p.columnId.Some? then m1["column_id" := Text(p.columnId.value)] else m1;
    if p.position.Some? then m2["position" := Number(p.position.value)] else m2
  }

  /** The hosted side of an update: each key of the update object overwrites that column of the row. */
  function ApplyDbUpdates(row: TaskRecord, m: map<string, FieldValue>): TaskRecord {
    TaskRecord(
      row.id,
      if "title" in m && m["title"].Text? then m["title"].text else row.title,
      if "column_id" in m && m["column_id"].Text? then m["column_id"].text else row.column_id,
      if "position" in m && m["position"].Number? then m["position"].number else row.position)
  }

  /**
   * The hosted row after the update and the local task after the merge
   * agree, for a patch that does not set the id (the update object never
   * carries it, while the local merge would take it).
   */
  lemma UpdateKeepsRowAndTaskInStep(row: TaskRecord, p: TaskPatch)
    requires p.id.None?
    ensures ToTask(ApplyDbUpdates(row, DbUpdates(p))) == ApplyPatch(ToTask(row), p)
  {
  }

  /** A patch that sets the id renames the local task while the hosted row keeps its id. */
  lemma PatchedIdIsNotSent(row: TaskRecord, p: TaskPatch)
    requires p.id.Some? && p.id.value != row.id
    ensures ApplyDbUpdates(row, DbUpdates(p)).id != ApplyPatch(ToTask(row), p).id
  {
  }

  class TasksHook {
    var boardData: BoardData
    var loading: bool
    var error: Option<string>

    constructor ()
      ensures boardData == BoardData([], []) && loading && error.None?
    {
      boardData := BoardData([], []);
      loading := true;
      error := None;
    }

    /**
     * Fetching both tables: on success the board becomes the mapped
     * columns and tasks and the error stays cleared; on a failure the board
     * is kept and the error set. Loading ends in every case.
     */
    method FetchData(columnsResult: Outcome<seq<ColumnRecord>>, tasksResult: Outcome<seq<TaskRecord>>)
      modifies this
      ensures !loading
      ensures columnsResult.Failure? ==>
        boardData == old(boardData) && error == Some(ErrorText(columnsResult.message, "Failed to load data"))
      ensures columnsResult.Data? && tasksResult.Failure? ==>
        boardData == old(boardData) && error == Some(ErrorText(tasksResult.message, "Failed to load data"))
      ensures columnsResult.Data? && tasksResult.Data? ==>
        boardData == BoardData(ToTasks(tasksResult.data), ToColumns(columnsResult.data)) && error.None?
    {
      loading := true;
      error := None;
      if columnsResult.Failure? {
        error := Some(ErrorText(columnsResult.message, "Failed to load data"));
      } else if tasksResult.Failure? {
        error := Some(ErrorText(tasksResult.message, "Failed to load data"));
      } else {
        var columns := ToColumns(columnsResult.data);
        var tasks := ToTasks(tasksResult.data);
        boardData := BoardData(tasks, columns);
      }
      loading := false;
    }

    /**
     * Adding a task: the hosted insert's outcome is `result`. A returned
     * row is appended as a client task; a failure sets the error and keeps
     * the board.
     */
    method AddTask(result: Outcome<TaskRecord>)
      modifies this
      ensures loading == old(loading) && boardData.columns == old(boardData.columns)
      ensures result.Failure? ==> boardData == old(boardData) && error == Some(ErrorText(result.message, "Failed to add task"))
      ensures result.Data? ==> error == old(error)
      ensures result.Data? && result.data.Some? ==> boardData.tasks == old(boardData.tasks) + [ToTask(result.data.value)]
      ensures result.Data? && result.data.None? ==> boardData == old(boardData)
    {
      if result.Failure? {
        error := Some(ErrorText(result.message, "Failed to add task"));
        return;
      }
      if result.data.Some? {
        var newTask := ToTask(result.data.value);
        boardData := boardData.(tasks := boardData.tasks + [newTask]);
      }
    }

    /** Building the update object field by field, as the hook does before sending it. */
    static method BuildDbUpdates(p: TaskPatch) returns (m: map<string, FieldValue>)
      ensures m == DbUpdates(p)
    {
      m := map[];
      if p.title.Some? {
        m := m["title" := Text(p.title.value)];
      }
      if p.columnId.Some? {
        m := m["column_id" := Text(p.columnId.value)];
      }
      if p.position.Some? {
        m := m["position" := Number(p.position.value)];
      }
    }

    /**
     * Updating task `taskId` with `updates`; `failure` is the message of the
     * hosted update's error, if it threw. On success every task with that id
     * gets the patch; on failure the board is kept and the error set.
     */
    method UpdateTask(taskId: string, updates: TaskPatch, failure: Option<string>) returns (sent: map<string, FieldValue>)
      modifies this
      ensures sent == DbUpdates(updates)
      ensures loading == old(loading) && boardData.columns == old(boardData.columns)
      ensures failure.Some? ==> boardData == old(boardData) && error == Some(ErrorText(failure.value, "Failed to update task"))
      ensures failure.None? ==> boardData.tasks == PatchTasks(old(boardData.tasks), taskId, updates) && error == old(error)
    {
      sent := BuildDbUpdates(updates);
      if failure.Some? {
        error := Some(ErrorText(failure.value, "Failed to update task"));
        return;
      }
      boardData := boardData.(tasks := PatchTasks(boardData.tasks, taskId, updates));
    }

    /** Deleting task `taskId`; `failure` as for updates. On success the tasks with that id are removed. */
    method DeleteTask(taskId: string, failure: Option<string>)
      modifies this
      ensures loading == old(loading) && boardData.columns == old(boardData.columns)
      ensures failure.Some? ==> boardData == old(boardData) && error == Some(ErrorText(failure.value, "Failed to delete task"))
      ensures failure.None? ==> boardData.tasks == RemoveTask(old(boardData.tasks), taskId) && error == old(error)
    {
      if failure.Some? {
        error := Some(ErrorText(failure.value, "Failed to delete task"));
        return;
      }
      boardData := boardData.(tasks := RemoveTask(boardData.tasks, taskId));
    }
  }
}
