/**
 * The store the route handlers share: the three tables, changed in place by
 * the handlers' INSERT and UPDATE statements, and the loops the handlers run
 * over query results.
 */
module Store {
  import opened Common
  import opened Positions
  import opened Tables

  /**
   * A store query that throws: `query` is the 0-based index, among the
   * queries one handler call issues, of the first one to fail, and
   * `message` the thrown error's message when it has one.
   */
  datatype Fault = Fault(query: nat, message: Option<string>)

  /** Whether the query with index `q` throws. */
  predicate Fails(fault: Option<Fault>, q: nat) {
    fault.Some? && fault.value.query == q
  }

  /** `error?.message ?? 'Database error'`. */
  function FaultMessage(fault: Option<Fault>): string
    requires fault.Some?
  {
    fault.value.message.GetOr("Database error")
  }

  /**
   * The `forEach` loops that build `tasksByColumn`: an empty list for each
   * column, then each task pushed onto its column's list when that column
   * has a key.
   */
  method GroupTasksByColumn(columns: seq<ColumnRow>, tasks: seq<TaskRow>) returns (m: map<string, seq<TaskRow>>)
    ensures m == Grouped(columns, tasks)
  {
    m := map[];
    for i := 0 to |columns|
      invariant m.Keys == ColumnIdSet(columns[..i])
      invariant forall id :: id in m ==> m[id] == []
    {
      assert columns[..i + 1] == columns[..i] + [columns[i]];
      m := m[columns[i].id := []];
    }
    assert columns[..|columns|] == columns;
    for j := 0 to |tasks|
      invariant m.Keys == ColumnIdSet(columns)
      invariant forall id :: id in m ==> m[id] == ChildrenOf(tasks[..j], id)
    {
      PushStep(m, tasks, j);
      if tasks[j].parent in m {
        m := m[tasks[j].parent := m[tasks[j].parent] + [tasks[j]]];
      }
    }
    assert tasks[..|tasks|] == tasks;
  }

  /** Pushing the `j`-th task onto its column's list, when it has one, keeps every list the tasks so far of its column. */
  lemma PushStep(m: map<string, seq<TaskRow>>, tasks: seq<TaskRow>, j: nat)
    requires j < |tasks|
    requires forall id :: id in m ==> m[id] == ChildrenOf(tasks[..j], id)
    ensures var t := tasks[j];
      var pushed := if t.parent in m then m[t.parent := m[t.parent] + [t]] else m;
      pushed.Keys == m.Keys && forall id :: id in pushed ==> pushed[id] == ChildrenOf(tasks[..j + 1], id)
  {
    var t := tasks[j];
    assert tasks[..j + 1] == tasks[..j] + [t];
    forall id ensures ChildrenOf(tasks[..j + 1], id) == ChildrenOf(tasks[..j], id) + (if t.parent == id then [t] else []) {
      ChildrenOfAppend(tasks[..j], t, id);
    }
  }

  /** The reorder statement, applied one listed id at a time: the row with the k-th id gets position k. */
  method ReorderRows<D(!new)>(rows: seq<Child<D>>, parent: string, ids: seq<Json>) returns (r: seq<Child<D>>)
    requires Distinct(ids)
    ensures r == Reordered(rows, parent, ids)
  {
    r := rows;
    assert Reordered(rows, parent, ids[..0]) == rows;
    for k := 0 to |ids|
      invariant r == Reordered(rows, parent, ids[..k])
    {
      ReorderedStep(rows, parent, ids, k);
      r := SetPosition(r, parent, ids[k], k);
    }
    assert ids[..|ids|] == ids;
  }

  /** `kb_boards`, `kb_columns` and `kb_tasks`. */
  class KanbanStore {
    var boards: seq<BoardRow>
    var columns: seq<ColumnRow>
    var tasks: seq<TaskRow>

    ghost predicate Valid()
      reads this
    {
      WellFormed(boards, columns, tasks)
    }

    constructor ()
      ensures Valid()
      ensures boards == [] && columns == [] && tasks == []
    {
      boards, columns, tasks := [], [], [];
    }

    /** `INSERT INTO kb_boards (device_id, title) VALUES ($1, $2) RETURNING *`; `id` is the generated key. */
    method InsertBoard(id: string, deviceId: string, title: string) returns (row: BoardRow)
      requires Valid()
      requires !IsBoardId(boards, id)
      requires BoardOf(boards, deviceId).None?
      modifies this
      ensures Valid()
      ensures row == BoardRow(id, deviceId, title)
      ensures boards == old(boards) + [row]
      ensures columns == old(columns) && tasks == old(tasks)
    {
      row := BoardRow(id, deviceId, title);
      boards := boards + [row];
      forall i | 0 <= i < |columns|
        ensures IsBoardId(boards, columns[i].parent)
      {
        var j :| 0 <= j < |old(boards)| && old(boards)[j].id == columns[i].parent;
        assert boards[j] == old(boards)[j];
      }
    }

    /** `INSERT INTO kb_columns (board_id, title, position) ... RETURNING *`; `id` is the generated key. */
    method InsertColumn(id: string, boardId: string, title: string, position: int) returns (row: ColumnRow)
      requires Valid()
      requires !HasId(columns, id)
      requires IsBoardId(boards, boardId)
      modifies this
      ensures Valid()
      ensures row == Child(id, boardId, position, ColumnData(title))
      ensures columns == old(columns) + [row]
      ensures boards == old(boards) && tasks == old(tasks)
    {
      row := Child(id, boardId, position, ColumnData(title));
      columns := columns + [row];
      forall i | 0 <= i < |tasks|
        ensures HasId(columns, tasks[i].parent)
      {
        var j :| 0 <= j < |old(columns)| && old(columns)[j].id == tasks[i].parent;
        assert columns[j] == old(columns)[j];
      }
    }

    /** `INSERT INTO kb_tasks (column_id, title, description, position) ... RETURNING *`; `id` is the generated key. */
    method InsertTask(id: string, columnId: string, title: string, description: Option<string>, position: int)
      returns (row: TaskRow)
      requires Valid()
      requires !HasId(tasks, id)
      requires HasId(columns, columnId)
      modifies this
      ensures Valid()
      ensures row == Child(id, columnId, position, TaskData(title, description))
      ensures tasks == old(tasks) + [row]
      ensures boards == old(boards) && columns == old(columns)
    {
      row := Child(id, columnId, position, TaskData(title, description));
      tasks := tasks + [row];
    }

    /** The task reorder statement, restricted to the tasks of `columnId`. */
    method UpdateTaskPositions(columnId: string, ids: seq<Json>)
      requires Valid()
      requires Distinct(ids)
      modifies this
      ensures Valid()
      ensures tasks == Reordered(old(tasks), columnId, ids)
      ensures boards == old(boards) && columns == old(columns)
    {
      ReorderedKeepsWellFormed(boards, columns, tasks, columnId, ids);
      tasks := ReorderRows(tasks, columnId, ids);
    }

    /** The column reorder statement, restricted to the columns of `boardId`. */
    method UpdateColumnPositions(boardId: string, ids: seq<Json>)
      requires Valid()
      requires Distinct(ids)
      modifies this
      ensures Valid()
      ensures columns == Reordered(old(columns), boardId, ids)
      ensures boards == old(boards) && tasks == old(tasks)
    {
      ReorderedKeepsWellFormed(boards, columns, tasks, boardId, ids);
      columns := ReorderRows(columns, boardId, ids);
    }
  }
}
