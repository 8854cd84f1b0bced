/**
 * The three tables of the store (`kb_boards`, `kb_columns`, `kb_tasks`) as
 * rows in table order, and the queries the route handlers run against them,
 * each stated as a function on the rows.
 */
module Tables {
  import opened Common
  import opened Positions

  /** A row of `kb_boards`. */
  datatype BoardRow = BoardRow(id: string, deviceId: string, title: string)

  /**
   * A row that has a parent and a position among its siblings: a column,
   * whose parent is its board, or a task, whose parent is its column.
   */
  datatype Child<D> = Child(id: string, parent: string, position: int, data: D)

  datatype ColumnData = ColumnData(title: string)

  /** `description` is `null` when absent. */
  datatype TaskData = TaskData(title: string, description: Option<string>)

  /** A row of `kb_columns`; `parent` is `board_id`. */
  type ColumnRow = Child<ColumnData>

  /** A row of `kb_tasks`; `parent` is `column_id`. */
  type TaskRow = Child<TaskData>

  // ---------------------------------------------------------------------
  // Well-formed tables
  // ---------------------------------------------------------------------

  predicate UniqueBoardIds(boards: seq<BoardRow>) {
    forall i, j :: 0 <= i < j < |boards| ==> boards[i].id != boards[j].id
  }

  /** No device owns two boards (only the boot handler creates boards, and only when the device has none). */
  predicate OneBoardPerDevice(boards: seq<BoardRow>) {
    forall i, j :: 0 <= i < j < |boards| ==> boards[i].deviceId != boards[j].deviceId
  }

  predicate UniqueIds<D(!new)>(rows: seq<Child<D>>) {
    forall i, j :: 0 <= i < j < |rows| ==> rows[i].id != rows[j].id
  }

  predicate IsBoardId(boards: seq<BoardRow>, id: string) {
    exists i :: 0 <= i < |boards| && boards[i].id == id
  }

  predicate HasId<D(!new)>(rows: seq<Child<D>>, id: string) {
    exists i :: 0 <= i < |rows| && rows[i].id == id
  }

  /** Primary keys are unique and every foreign key names an existing row. */
  predicate WellFormed(boards: seq<BoardRow>, columns: seq<ColumnRow>, tasks: seq<TaskRow>) {
    && UniqueBoardIds(boards)
    && OneBoardPerDevice(boards)
    && UniqueIds(columns)
    && UniqueIds(tasks)
    && (forall i :: 0 <= i < |columns| ==> IsBoardId(boards, columns[i].parent))
    && (forall i :: 0 <= i < |tasks| ==> HasId(columns, tasks[i].parent))
  }

  // ---------------------------------------------------------------------
  // Selections
  // ---------------------------------------------------------------------

  /** `SELECT * FROM kb_boards WHERE device_id = $1`, then `rows[0]`: the first board of the device. */
  function BoardOf(boards: seq<BoardRow>, deviceId: string): (r: Option<BoardRow>)
    ensures r.None? <==> forall i :: 0 <= i < |boards| ==> boards[i].deviceId != deviceId
    ensures r.Some? ==> exists i :: 0 <= i < |boards| && boards[i] == r.value
    ensures r.Some? ==> r.value.deviceId == deviceId
  {
    if boards == [] then None
    else if boards[0].deviceId == deviceId then Some(boards[0])
    else
      var r := BoardOf(boards[1..], deviceId);
      assert r.Some? ==> r.value in boards[1..];
      r
  }

  /** With one board per device, the board found is the only one the device has. */
  lemma BoardOfIsTheDevicesBoard(boards: seq<BoardRow>, deviceId: string, k: nat)
    requires OneBoardPerDevice(boards)
    requires k < |boards| && boards[k].deviceId == deviceId
    ensures BoardOf(boards, deviceId) == Some(boards[k])
  {
    var i :| 0 <= i < |boards| && boards[i] == BoardOf(boards, deviceId).value;
    if i < k {
      assert boards[i].deviceId != boards[k].deviceId;
    } else if k < i {
      assert boards[k].deviceId != boards[i].deviceId;
    }
  }

  /** The rows of one parent in table order: `WHERE board_id = $1` or `WHERE column_id = $1`. */
  function ChildrenOf<D(!new)>(rows: seq<Child<D>>, parent: string): (r: seq<Child<D>>)
    ensures |r| <= |rows|
    ensures forall x :: x in r <==> x in rows && x.parent == parent
  {
    if rows == [] then []
    else
      var init, last := rows[..|rows| - 1], rows[|rows| - 1];
      assert rows == init + [last];
      ChildrenOf(init, parent) + (if last.parent == parent then [last] else [])
  }

  function PositionOf<D(!new)>(row: Child<D>): int {
    row.position
  }

  /** The `position` column of some rows. */
  function PositionsOf<D(!new)>(rows: seq<Child<D>>): (ps: seq<int>)
    ensures |ps| == |rows|
    ensures forall k :: 0 <= k < |rows| ==> ps[k] == rows[k].position
  {
    Project(PositionOf, rows)
  }

  /** The id of a row as it appears in a request body. */
  function KeyOf<D(!new)>(row: Child<D>): Json {
    JStr(row.id)
  }

  function Keys<D(!new)>(rows: seq<Child<D>>): (ks: seq<Json>)
    ensures |ks| == |rows|
    ensures forall k :: 0 <= k < |rows| ==> ks[k] == JStr(rows[k].id)
  {
    Project(KeyOf, rows)
  }

  /** The positions of one parent's children are exactly 0, ..., n-1. */
  predicate DenseUnder<D(!new)>(rows: seq<Child<D>>, parent: string) {
    Dense(PositionsOf(ChildrenOf(rows, parent)))
  }

  /** `SELECT COALESCE(MAX(position), -1) + 1 ... WHERE <parent> = $1`. */
  function NextChildPosition<D(!new)>(rows: seq<Child<D>>, parent: string): int {
    NextPosition(PositionsOf(ChildrenOf(rows, parent)))
  }

  /**
   * The ownership check: the join of `kb_columns` with `kb_boards` has a row
   * for this column id on a board of this device.
   */
  predicate OwnsColumn(boards: seq<BoardRow>, columns: seq<ColumnRow>, deviceId: string, columnId: string) {
    exists i, j :: 0 <= i < |columns| && 0 <= j < |boards|
      && columns[i].id == columnId && boards[j].id == columns[i].parent && boards[j].deviceId == deviceId
  }

  /** On well-formed tables a column is owned exactly when it lies on the device's board. */
  lemma OwnsColumnOnDevicesBoard(boards: seq<BoardRow>, columns: seq<ColumnRow>, deviceId: string, columnId: string)
    requires WellFormed(boards, columns, [])
    ensures OwnsColumn(boards, columns, deviceId, columnId)
        <==> BoardOf(boards, deviceId).Some?
             && exists c :: c in ChildrenOf(columns, BoardOf(boards, deviceId).value.id) && c.id == columnId
  {
    if OwnsColumn(boards, columns, deviceId, columnId) {
      var i, j :| 0 <= i < |columns| && 0 <= j < |boards|
        && columns[i].id == columnId && boards[j].id == columns[i].parent && boards[j].deviceId == deviceId;
      BoardOfIsTheDevicesBoard(boards, deviceId, j);
      assert columns[i] in ChildrenOf(columns, boards[j].id);
    }
    if BoardOf(boards, deviceId).Some? && exists c :: c in ChildrenOf(columns, BoardOf(boards, deviceId).value.id) && c.id == columnId {
      var b := BoardOf(boards, deviceId).value;
      var c :| c in ChildrenOf(columns, b.id) && c.id == columnId;
      var i :| 0 <= i < |columns| && columns[i] == c;
      var j :| 0 <= j < |boards| && boards[j] == b;
    }
  }

  // ---------------------------------------------------------------------
  // Counting and order of a parent's children
  // ---------------------------------------------------------------------

  /** Selecting one parent's children keeps each of them as often as the table holds it, and nothing else. */
  lemma {:induction false} ChildrenCount<D(!new)>(rows: seq<Child<D>>, parent: string, x: Child<D>)
    ensures multiset(ChildrenOf(rows, parent))[x] == if x.parent == parent then multiset(rows)[x] else 0
  {
    if rows != [] {
      var init, last := rows[..|rows| - 1], rows[|rows| - 1];
      assert rows == init + [last];
      ChildrenCount(init, parent, x);
    }
  }

  lemma ChildrenOfAppend<D(!new)>(rows: seq<Child<D>>, x: Child<D>, parent: string)
    ensures ChildrenOf(rows + [x], parent) == ChildrenOf(rows, parent) + (if x.parent == parent then [x] else [])
  {
    assert (rows + [x])[..|rows|] == rows;
  }

  lemma {:induction false} ChildrenOfConcat<D(!new)>(a: seq<Child<D>>, b: seq<Child<D>>, parent: string)
    ensures ChildrenOf(a + b, parent) == ChildrenOf(a, parent) + ChildrenOf(b, parent)
  {
    if b != [] {
      var init, last := b[..|b| - 1], b[|b| - 1];
      assert b == init + [last];
      assert a + b == (a + init) + [last];
      var tail := if last.parent == parent then [last] else [];
      ChildrenOfAppend(a + init, last, parent);
      ChildrenOfAppend(init, last, parent);
      ChildrenOfConcat(a, init, parent);
      calc {
        ChildrenOf(a + b, parent);
        ChildrenOf(a + init, parent) + tail;
        ChildrenOf(a, parent) + ChildrenOf(init, parent) + tail;
        ChildrenOf(a, parent) + (ChildrenOf(init, parent) + tail);
        ChildrenOf(a, parent) + ChildrenOf(b, parent);
      }
    } else {
      assert a + b == a;
    }
  }

  /** When every row has the given parent, the selection returns them all. */
  lemma {:induction false} ChildrenOfAll<D(!new)>(rows: seq<Child<D>>, parent: string)
    requires forall k :: 0 <= k < |rows| ==> rows[k].parent == parent
    ensures ChildrenOf(rows, parent) == rows
  {
    if rows != [] {
      var init, last := rows[..|rows| - 1], rows[|rows| - 1];
      assert rows == init + [last];
      ChildrenOfAll(init, parent);
    }
  }

  predicate SortedByPosition<D(!new)>(rows: seq<Child<D>>) {
    forall i, j :: 0 <= i < j < |rows| ==> rows[i].position <= rows[j].position
  }

  /** Selecting one parent's children from rows in position order leaves them in position order. */
  lemma {:induction false} ChildrenOfSorted<D(!new)>(rows: seq<Child<D>>, parent: string)
    requires SortedByPosition(rows)
    ensures SortedByPosition(ChildrenOf(rows, parent))
  {
    if rows != [] {
      var init, last := rows[..|rows| - 1], rows[|rows| - 1];
      assert rows == init + [last];
      ChildrenOfSorted(init, parent);
      var c := ChildrenOf(init, parent);
      forall i | 0 <= i < |c|
        ensures c[i].position <= last.position
      {
        assert c[i] in init;
        var k :| 0 <= k < |init| && init[k] == c[i];
      }
    }
  }

  /** Children of one parent have distinct ids when the table's ids are distinct. */
  lemma {:induction false} ChildrenOfUnique<D(!new)>(rows: seq<Child<D>>, parent: string)
    requires UniqueIds(rows)
    ensures UniqueIds(ChildrenOf(rows, parent))
  {
    if rows != [] {
      var init, last := rows[..|rows| - 1], rows[|rows| - 1];
      assert rows == init + [last];
      ChildrenOfUnique(init, parent);
      var c := ChildrenOf(init, parent);
      forall i | 0 <= i < |c|
        ensures c[i].id != last.id
      {
        assert c[i] in init;
        var k :| 0 <= k < |init| && init[k] == c[i];
      }
    }
  }

  /** `ORDER BY position`; rows of equal position stay in table order. */
  function ByPosition<D(==,!new)>(rows: seq<Child<D>>): (r: seq<Child<D>>)
    ensures SortedByPosition(r)
    ensures multiset(r) == multiset(rows)
  {
    var r := SortByKey(rows, PositionOf);
    assert forall i, j :: 0 <= i < j < |r| ==> PositionOf(r[i]) <= PositionOf(r[j]);
    r
  }

  // ---------------------------------------------------------------------
  // Allocation
  // ---------------------------------------------------------------------

  /**
   * Appending a child at the allocated position: if its parent's positions
   * were 0, ..., n-1 they become 0, ..., n, and every other parent's
   * children are unchanged.
   */
  lemma AppendAtNextPosition<D(!new)>(rows: seq<Child<D>>, x: Child<D>)
    requires x.position == NextChildPosition(rows, x.parent)
    ensures ChildrenOf(rows + [x], x.parent) == ChildrenOf(rows, x.parent) + [x]
    ensures forall q :: q != x.parent ==> ChildrenOf(rows + [x], q) == ChildrenOf(rows, q)
    ensures DenseUnder(rows, x.parent) ==> DenseUnder(rows + [x], x.parent) && x.position == |ChildrenOf(rows, x.parent)|
  {
    forall q {
      ChildrenOfAppend(rows, x, q);
    }
    var cs := ChildrenOf(rows, x.parent);
    assert PositionsOf(cs + [x]) == PositionsOf(cs) + [x.position];
    if Dense(PositionsOf(cs)) {
      AppendKeepsDense(PositionsOf(cs));
      NextPositionOfDense(PositionsOf(cs));
    }
  }

  /** The allocated position is above every position of the parent's children, and is 0 for a parent without any. */
  lemma NextChildPositionIsAbove<D(!new)>(rows: seq<Child<D>>, parent: string)
    ensures forall x :: x in rows && x.parent == parent ==> x.position < NextChildPosition(rows, parent)
    ensures (forall x :: x in rows ==> x.parent != parent) ==> NextChildPosition(rows, parent) == 0
  {
    var cs := ChildrenOf(rows, parent);
    forall x | x in rows && x.parent == parent
      ensures x.position < NextChildPosition(rows, parent)
    {
      var k :| 0 <= k < |cs| && cs[k] == x;
      assert PositionsOf(cs)[k] == x.position;
    }
    if forall x :: x in rows ==> x.parent != parent {
      if cs != [] {
        assert cs[0] in rows;
      }
    }
  }

  // ---------------------------------------------------------------------
  // Reordering
  // ---------------------------------------------------------------------

  /**
   * One row under `UPDATE ... SET position = ord - 1 FROM unnest(ids) WITH
   * ORDINALITY WHERE id = i.id AND <parent> = $2`: a child of `parent` whose
   * id is listed takes the 0-based index of its id in the list.
   */
  function Reposition<D(!new)>(row: Child<D>, parent: string, ids: seq<Json>): (r: Child<D>)
    ensures r.id == row.id && r.parent == row.parent && r.data == row.data
  {
    if row.parent == parent && JStr(row.id) in ids then row.(position := IndexOf(ids, JStr(row.id))) else row
  }

  /** The table after the reorder statement. */
  function Reordered<D(!new)>(rows: seq<Child<D>>, parent: string, ids: seq<Json>): (r: seq<Child<D>>)
    ensures |r| == |rows|
    ensures forall k :: 0 <= k < |rows| ==> r[k] == Reposition(rows[k], parent, ids)
  {
    seq(|rows|, k requires 0 <= k < |rows| => Reposition(rows[k], parent, ids))
  }

  /** The effect of the reorder statement for the single id `key` at index `pos`. */
  function SetPosition<D(!new)>(rows: seq<Child<D>>, parent: string, key: Json, pos: int): (r: seq<Child<D>>)
    ensures |r| == |rows|
    ensures forall k :: 0 <= k < |rows| ==>
      r[k] == if rows[k].parent == parent && JStr(rows[k].id) == key then rows[k].(position := pos) else rows[k]
  {
    seq(|rows|, k requires 0 <= k < |rows| =>
      if rows[k].parent == parent && JStr(rows[k].id) == key then rows[k].(position := pos) else rows[k])
  }

  /** Reordering by the first k+1 ids is reordering by the first k, then placing the (k+1)st. */
  lemma ReorderedStep<D(!new)>(rows: seq<Child<D>>, parent: string, ids: seq<Json>, k: nat)
    requires Distinct(ids)
    requires k < |ids|
    ensures Reordered(rows, parent, ids[..k + 1]) == SetPosition(Reordered(rows, parent, ids[..k]), parent, ids[k], k)
  {
    var pre, next := ids[..k], ids[..k + 1];
    assert next == pre + [ids[k]];
    assert ids[k] !in pre by {
      assert forall i :: 0 <= i < k ==> pre[i] == ids[i] != ids[k];
    }
    var lhs, rhs := Reordered(rows, parent, next), SetPosition(Reordered(rows, parent, pre), parent, ids[k], k);
    forall j | 0 <= j < |rows|
      ensures lhs[j] == rhs[j]
    {
      var row, key := rows[j], JStr(rows[j].id);
      if row.parent == parent && key in pre {
        IndexOfAppend(pre, ids[k], key);
      } else if row.parent == parent && key == ids[k] {
        var i := IndexOf(next, key);
        assert next[k] == key;
        assert i == k;
      }
    }
  }

  /**
   * The reorder statement row by row: a child of `parent` whose id is at
   * index i of the list gets position i; every other row is untouched.
   */
  lemma ReorderedRows<D(!new)>(rows: seq<Child<D>>, parent: string, ids: seq<Json>)
    requires Distinct(ids)
    ensures forall k, i :: 0 <= k < |rows| && 0 <= i < |ids| && rows[k].parent == parent && ids[i] == JStr(rows[k].id) ==>
      Reordered(rows, parent, ids)[k] == rows[k].(position := i)
    ensures forall k :: 0 <= k < |rows| && (rows[k].parent != parent || JStr(rows[k].id) !in ids) ==>
      Reordered(rows, parent, ids)[k] == rows[k]
  {
    forall k, i | 0 <= k < |rows| && 0 <= i < |ids| && rows[k].parent == parent && ids[i] == JStr(rows[k].id)
      ensures Reordered(rows, parent, ids)[k] == rows[k].(position := i)
    {
      var j := IndexOf(ids, ids[i]);
      assert j == i by {
        assert ids[j] == ids[i];
      }
    }
  }

  lemma ReorderedConcat<D(!new)>(a: seq<Child<D>>, b: seq<Child<D>>, parent: string, ids: seq<Json>)
    ensures Reordered(a + b, parent, ids) == Reordered(a, parent, ids) + Reordered(b, parent, ids)
  {
  }

  /** Selecting one parent's children commutes with the reorder statement. */
  lemma {:induction false} ChildrenOfReordered<D(!new)>(rows: seq<Child<D>>, q: string, parent: string, ids: seq<Json>)
    ensures ChildrenOf(Reordered(rows, parent, ids), q) == Reordered(ChildrenOf(rows, q), parent, ids)
  {
    if rows != [] {
      var init, last := rows[..|rows| - 1], rows[|rows| - 1];
      var tail := if last.parent == q then [last] else [];
      assert rows == init + [last];
      calc {
        ChildrenOf(Reordered(rows, parent, ids), q);
        { ReorderedConcat(init, [last], parent, ids); }
        ChildrenOf(Reordered(init, parent, ids) + [Reposition(last, parent, ids)], q);
        { ChildrenOfAppend(Reordered(init, parent, ids), Reposition(last, parent, ids), q); }
        ChildrenOf(Reordered(init, parent, ids), q) + Reordered(tail, parent, ids);
        { ChildrenOfReordered(init, q, parent, ids); }
        Reordered(ChildrenOf(init, q), parent, ids) + Reordered(tail, parent, ids);
        { ReorderedConcat(ChildrenOf(init, q), tail, parent, ids); }
        Reordered(ChildrenOf(init, q) + tail, parent, ids);
        { ChildrenOfAppend(init, last, q); }
        Reordered(ChildrenOf(rows, q), parent, ids);
      }
    }
  }

  /**
   * A reorder only rewrites positions: ids, parents and payloads stay, so
   * the tables stay well formed.
   */
  lemma ReorderedKeepsWellFormed(boards: seq<BoardRow>, columns: seq<ColumnRow>, tasks: seq<TaskRow>,
                                 parent: string, ids: seq<Json>)
    requires WellFormed(boards, columns, tasks)
    ensures WellFormed(boards, columns, Reordered(tasks, parent, ids))
    ensures WellFormed(boards, Reordered(columns, parent, ids), tasks)
  {
    var cs := Reordered(columns, parent, ids);
    forall i | 0 <= i < |tasks|
      ensures HasId(cs, tasks[i].parent)
    {
      var j :| 0 <= j < |columns| && columns[j].id == tasks[i].parent;
      assert cs[j].id == columns[j].id;
    }
  }

  /** Sending the same reorder twice has the effect of sending it once. */
  lemma ReorderedIdempotent<D(!new)>(rows: seq<Child<D>>, parent: string, ids: seq<Json>)
    ensures Reordered(Reordered(rows, parent, ids), parent, ids) == Reordered(rows, parent, ids)
  {
  }

  /** On rows of `parent` whose ids are all listed, the reorder assigns each row the index of its id. */
  lemma ReorderedPositionsAreRanks<D(!new)>(cs: seq<Child<D>>, parent: string, ids: seq<Json>)
    requires forall k :: 0 <= k < |cs| ==> cs[k].parent == parent && JStr(cs[k].id) in ids
    ensures PositionsOf(Reordered(cs, parent, ids)) == Ranks(ids, Keys(cs))
  {
  }

  /**
   * When the listed ids are exactly the ids of the parent's children, each
   * once, the children's positions become exactly 0, ..., n-1.
   */
  lemma ReorderedDense<D(!new)>(rows: seq<Child<D>>, parent: string, ids: seq<Json>)
    requires Distinct(ids)
    requires multiset(ids) == multiset(Keys(ChildrenOf(rows, parent)))
    ensures DenseUnder(Reordered(rows, parent, ids), parent)
  {
    var cs := ChildrenOf(rows, parent);
    ChildrenOfReordered(rows, parent, parent, ids);
    forall k | 0 <= k < |cs|
      ensures cs[k].parent == parent && JStr(cs[k].id) in ids
    {
      assert cs[k] in cs;
      assert Keys(cs)[k] in multiset(Keys(cs));
    }
    ReorderedPositionsAreRanks(cs, parent, ids);
    RanksOfPermutationAreDense(ids, Keys(cs));
  }

  /**
   * Reordering a parent whose positions are already 0, ..., n-1 by its
   * children's ids in position order changes nothing.
   */
  lemma ReorderByCurrentOrderChangesNothing<D(!new)>(rows: seq<Child<D>>, parent: string)
    requires UniqueIds(rows)
    requires DenseUnder(rows, parent)
    ensures Reordered(rows, parent, Keys(ByPosition(ChildrenOf(rows, parent)))) == rows
  {
    var cs := ChildrenOf(rows, parent);
    var s := ByPosition(cs);
    var ids := Keys(s);
    ProjectRespectsMultiset(PositionOf, s, cs);
    assert |s| == |multiset(s)| == |cs|;
    SortedDenseIsIota(PositionsOf(s));
    ChildrenOfUnique(rows, parent);
    assert Distinct(Keys(cs));
    ProjectRespectsMultiset(KeyOf, s, cs);
    DistinctHasSingleCounts(Keys(cs));
    SingleCountsAreDistinct(ids);
    forall k | 0 <= k < |rows|
      ensures Reposition(rows[k], parent, ids) == rows[k]
    {
      var row := rows[k];
      if row.parent == parent {
        assert row in multiset(s);
        var j := IndexOf(s, row);
        assert ids[j] == JStr(row.id);
        var i := IndexOf(ids, JStr(row.id));
        assert i == j;
        assert PositionsOf(s)[j] == j;
      }
    }
  }

  // ---------------------------------------------------------------------
  // The board view: columns in order and tasks grouped by column
  // ---------------------------------------------------------------------

  /** A task belongs to a column of the given board. */
  predicate OnBoard(columns: seq<ColumnRow>, boardId: string, t: TaskRow) {
    exists i :: 0 <= i < |columns| && columns[i].id == t.parent && columns[i].parent == boardId
  }

  /** `SELECT t.* FROM kb_tasks t JOIN kb_columns c ON t.column_id = c.id WHERE c.board_id = $1`, in table order. */
  function BoardTasks(columns: seq<ColumnRow>, tasks: seq<TaskRow>, boardId: string): (r: seq<TaskRow>)
    ensures forall t :: t in r <==> t in tasks && OnBoard(columns, boardId, t)
  {
    if tasks == [] then []
    else
      var init, last := tasks[..|tasks| - 1], tasks[|tasks| - 1];
      assert tasks == init + [last];
      BoardTasks(columns, init, boardId) + (if OnBoard(columns, boardId, last) then [last] else [])
  }

  lemma {:induction false} BoardTasksCount(columns: seq<ColumnRow>, tasks: seq<TaskRow>, boardId: string, t: TaskRow)
    ensures multiset(BoardTasks(columns, tasks, boardId))[t] == if OnBoard(columns, boardId, t) then multiset(tasks)[t] else 0
  {
    if tasks != [] {
      var init, last := tasks[..|tasks| - 1], tasks[|tasks| - 1];
      assert tasks == init + [last];
      BoardTasksCount(columns, init, boardId, t);
    }
  }

  function ColumnIdSet(columns: seq<ColumnRow>): set<string> {
    set c | c in columns :: c.id
  }

  /**
   * `tasksByColumn`: a key for every listed column, holding the listed
   * tasks of that column in the order listed.
   */
  function Grouped(columns: seq<ColumnRow>, tasks: seq<TaskRow>): map<string, seq<TaskRow>> {
    map id | id in ColumnIdSet(columns) :: ChildrenOf(tasks, id)
  }

  /** The body `{board, columns, tasksByColumn}` of the board and boot handlers. */
  datatype BoardView = BoardView(board: BoardRow, columns: seq<ColumnRow>, tasksByColumn: map<string, seq<TaskRow>>)

  /** The JSON bodies of the handlers' successful replies. */
  datatype Payload =
    | TaskCreated(task: TaskRow)        // `{task}`
    | ColumnCreated(column: ColumnRow)  // `{column}`
    | Success                           // `{success: true}`
    | Board(view: BoardView)            // `{board, columns, tasksByColumn}`

  /** What the two reads and the grouping produce for a board. */
  function ViewOf(board: BoardRow, columns: seq<ColumnRow>, tasks: seq<TaskRow>): BoardView {
    var cols := ByPosition(ChildrenOf(columns, board.id));
    BoardView(board, cols, Grouped(cols, ByPosition(BoardTasks(columns, tasks, board.id))))
  }

  /**
   * The view lists the board's columns, each once as often as stored, in
   * position order, and has a key for each of them.
   */
  lemma ViewColumns(board: BoardRow, columns: seq<ColumnRow>, tasks: seq<TaskRow>)
    ensures SortedByPosition(ViewOf(board, columns, tasks).columns)
    ensures forall c :: c in ViewOf(board, columns, tasks).columns <==> c in columns && c.parent == board.id
    ensures ViewOf(board, columns, tasks).tasksByColumn.Keys
         == set c | c in columns && c.parent == board.id :: c.id
  {
    var v := ViewOf(board, columns, tasks);
    var cs := ChildrenOf(columns, board.id);
    forall c ensures c in v.columns <==> c in cs {
      assert c in v.columns <==> c in multiset(v.columns);
      assert c in cs <==> c in multiset(cs);
    }
  }

  /**
   * Each list of the view holds only tasks of its own column, in position
   * order; and each task on one of the board's columns is listed under its
   * own column exactly as often as the table holds it, and under no other.
   */
  lemma ViewGroupsEachTaskOnce(board: BoardRow, columns: seq<ColumnRow>, tasks: seq<TaskRow>, t: TaskRow)
    ensures forall id :: id in ViewOf(board, columns, tasks).tasksByColumn ==>
      SortedByPosition(ViewOf(board, columns, tasks).tasksByColumn[id])
      && forall x :: x in ViewOf(board, columns, tasks).tasksByColumn[id] ==> x in tasks && x.parent == id
    ensures OnBoard(columns, board.id, t) ==>
      && t.parent in ViewOf(board, columns, tasks).tasksByColumn
      && multiset(ViewOf(board, columns, tasks).tasksByColumn[t.parent])[t] == multiset(tasks)[t]
    ensures forall id :: id in ViewOf(board, columns, tasks).tasksByColumn && id != t.parent ==>
      t !in ViewOf(board, columns, tasks).tasksByColumn[id]
  {
    var v := ViewOf(board, columns, tasks);
    var bt := BoardTasks(columns, tasks, board.id);
    var sorted := ByPosition(bt);
    forall id | id in v.tasksByColumn
      ensures SortedByPosition(v.tasksByColumn[id])
      ensures forall x :: x in v.tasksByColumn[id] ==> x in tasks && x.parent == id
    {
      ChildrenOfSorted(sorted, id);
      forall x | x in v.tasksByColumn[id]
        ensures x in tasks
      {
        assert x in multiset(sorted);
      }
    }
    if OnBoard(columns, board.id, t) {
      var i :| 0 <= i < |columns| && columns[i].id == t.parent && columns[i].parent == board.id;
      ViewColumns(board, columns, tasks);
      assert columns[i] in v.columns;
      ChildrenCount(sorted, t.parent, t);
      BoardTasksCount(columns, tasks, board.id, t);
    }
  }
}
