/**
 * `GET /api/kb/boot`: find or create the caller's board, seed it with three
 * columns when it has none, and return it with its columns and tasks.
 */
module BootRoute {
  import opened Common
  import opened Positions
  import opened ApiHelpers
  import opened Tables
  import opened Store

  const DefaultBoardTitle := "My Board"

  const DefaultColumnTitles: seq<string> := ["To Do", "In Progress", "Done"]

  /** The seeded columns of a board, in insertion order; `ids` are the generated keys. */
  function DefaultColumns(boardId: string, ids: seq<string>): (cs: seq<ColumnRow>)
    requires |ids| == 3
    ensures |cs| == 3
    ensures forall i :: 0 <= i < 3 ==> cs[i] == Child(ids[i], boardId, i, ColumnData(DefaultColumnTitles[i]))
  {
    seq(3, i requires 0 <= i < 3 => Child(ids[i], boardId, i, ColumnData(DefaultColumnTitles[i])))
  }

  /** Seeding a board without columns gives it the positions 0, 1, 2. */
  lemma DefaultColumnsAreDense(columns: seq<ColumnRow>, boardId: string, ids: seq<string>)
    requires |ids| == 3
    requires ChildrenOf(columns, boardId) == []
    ensures ChildrenOf(columns + DefaultColumns(boardId, ids), boardId) == DefaultColumns(boardId, ids)
    ensures PositionsOf(ChildrenOf(columns + DefaultColumns(boardId, ids), boardId)) == [0, 1, 2]
    ensures DenseUnder(columns + DefaultColumns(boardId, ids), boardId)
  {
    SeededChildren(columns, boardId, ids);
    DefaultPositions(boardId, ids);
  }

  /** How many defaults the inserts after a successful column select (query `q`) leave, given whether all succeeded. */
  lemma SeedCountAfterSelect(fault: Option<Fault>, q: nat, ok: bool)
    requires !Fails(fault, q)
    requires ok <==> !(fault.Some? && q + 1 <= fault.value.query < q + 4)
    ensures ok ==> SeedCount(fault, q) == 3
    ensures !ok ==> fault.Some? && SeedCount(fault, q) == fault.value.query - (q + 1)
  {
  }

  /** The children of a board seeded without columns are exactly the defaults. */
  lemma SeededChildren(columns: seq<ColumnRow>, boardId: string, ids: seq<string>)
    requires |ids| == 3
    requires ChildrenOf(columns, boardId) == []
    ensures ChildrenOf(columns + DefaultColumns(boardId, ids), boardId) == DefaultColumns(boardId, ids)
    ensures DefaultColumns(boardId, ids)[..3] == DefaultColumns(boardId, ids)
  {
    var d := DefaultColumns(boardId, ids);
    ChildrenOfConcat(columns, d, boardId);
    ChildrenOfAll(d, boardId);
    assert d[..3] == d;
  }

  lemma DefaultPositions(boardId: string, ids: seq<string>)
    requires |ids| == 3
    ensures PositionsOf(DefaultColumns(boardId, ids)) == [0, 1, 2] == Iota(3)
  {
    var ps := PositionsOf(DefaultColumns(boardId, ids));
    assert forall i :: 0 <= i < 3 ==> ps[i] == i;
  }

  /** The board the handler works on: the device's board, or the one it creates. */
  function BootBoard(boards: seq<BoardRow>, deviceId: string, newBoardId: string): BoardRow {
    match BoardOf(boards, deviceId)
    case Some(b) => b
    case None => BoardRow(newBoardId, deviceId, DefaultBoardTitle)
  }

  /**
   * The number of queries a boot issues when none throws: the board select,
   * the board insert when the device has none, the column select, the three
   * seed inserts and the second select when the board has no columns, and
   * the tasks select.
   */
  function BootQueries(boards: seq<BoardRow>, columns: seq<ColumnRow>, deviceId: string, newBoardId: string): (n: nat)
    ensures 3 <= n <= 8
    ensures n == 3 <==> BoardOf(boards, deviceId).Some? && ChildrenOf(columns, BoardOf(boards, deviceId).value.id) != []
  {
    BoardQueries(boards, deviceId) + ColumnQueries(columns, BootBoard(boards, deviceId, newBoardId).id) + 1
  }

  /** The queries that find or create the board: the select, and the insert when the device has no board. */
  function BoardQueries(boards: seq<BoardRow>, deviceId: string): nat {
    if BoardOf(boards, deviceId).None? then 2 else 1
  }

  /** The queries that load the columns: the select, and the three inserts and the second select when there are none. */
  function ColumnQueries(columns: seq<ColumnRow>, boardId: string): nat {
    if ChildrenOf(columns, boardId) == [] then 5 else 1
  }

  /**
   * How many default columns a board without columns gets when its column
   * select is query `q`: none when the select or the first insert throws,
   * the ones inserted before the throwing insert, and otherwise all three.
   */
  function SeedCount(fault: Option<Fault>, q: nat): (k: nat)
    ensures k <= 3
    ensures k == 3 <==> !(fault.Some? && q <= fault.value.query < q + 4)
    ensures fault.Some? && q < fault.value.query < q + 4 ==> k == fault.value.query - (q + 1)
  {
    if fault.Some? && q < fault.value.query < q + 4 then fault.value.query - q - 1
    else if Fails(fault, q) then 0
    else 3
  }

  /** The boards after a boot: the new board is kept once its insert, query 1, has run. */
  function BootBoards(boards: seq<BoardRow>, deviceId: string, newBoardId: string, fault: Option<Fault>): seq<BoardRow> {
    if BoardOf(boards, deviceId).None? && !(fault.Some? && fault.value.query < 2) then boards + [BootBoard(boards, deviceId, newBoardId)]
    else boards
  }

  /**
   * The columns after a boot: a board without columns keeps the default
   * columns inserted before the first throwing query; nothing else changes.
   */
  function BootColumns(boards: seq<BoardRow>, columns: seq<ColumnRow>, deviceId: string, newBoardId: string,
                       ids: seq<string>, fault: Option<Fault>): seq<ColumnRow>
    requires |ids| == 3
  {
    var board := BootBoard(boards, deviceId, newBoardId);
    var q := BoardQueries(boards, deviceId);
    if (fault.Some? && fault.value.query < q) || ChildrenOf(columns, board.id) != [] then columns
    else columns + DefaultColumns(board.id, ids)[..SeedCount(fault, q)]
  }

  /**
   * When none of the queries a boot issues throws (whatever index the fault
   * names), the device gets its board and a board without columns gets all
   * three default columns.
   */
  lemma BootTablesWithoutFault(boards: seq<BoardRow>, columns: seq<ColumnRow>, deviceId: string, newBoardId: string,
                               ids: seq<string>, fault: Option<Fault>)
    requires |ids| == 3
    requires !(fault.Some? && fault.value.query < BootQueries(boards, columns, deviceId, newBoardId))
    ensures BootBoards(boards, deviceId, newBoardId, fault)
      == if BoardOf(boards, deviceId).None? then boards + [BootBoard(boards, deviceId, newBoardId)] else boards
    ensures BootColumns(boards, columns, deviceId, newBoardId, ids, fault)
      == if ChildrenOf(columns, BootBoard(boards, deviceId, newBoardId).id) == [] then columns + DefaultColumns(BootBoard(boards, deviceId, newBoardId).id, ids)
         else columns
  {
    var board := BootBoard(boards, deviceId, newBoardId);
    assert DefaultColumns(board.id, ids)[..3] == DefaultColumns(board.id, ids);
  }

  /** A boot that fails part-way through the seeding keeps the default columns inserted before the throw. */
  lemma BootKeepsSeededColumns(boards: seq<BoardRow>, columns: seq<ColumnRow>, deviceId: string, newBoardId: string,
                               ids: seq<string>, fault: Option<Fault>)
    requires |ids| == 3
    requires ChildrenOf(columns, BootBoard(boards, deviceId, newBoardId).id) == []
    requires fault.Some? && BoardQueries(boards, deviceId) < fault.value.query <= BoardQueries(boards, deviceId) + 3
    ensures var k := fault.value.query - BoardQueries(boards, deviceId) - 1;
      BootColumns(boards, columns, deviceId, newBoardId, ids, fault)
      == columns + DefaultColumns(BootBoard(boards, deviceId, newBoardId).id, ids)[..k]
  {
  }

  /** A device whose board already has columns leaves both tables as they are, whatever throws. */
  lemma BootedTablesUnchanged(boards: seq<BoardRow>, columns: seq<ColumnRow>, deviceId: string, newBoardId: string,
                              ids: seq<string>, fault: Option<Fault>)
    requires |ids| == 3
    requires Booted(boards, columns, deviceId)
    ensures BootBoards(boards, deviceId, newBoardId, fault) == boards
    ensures BootColumns(boards, columns, deviceId, newBoardId, ids, fault) == columns
  {
  }

  /** Whether the device already has a board with at least one column. */
  predicate Booted(boards: seq<BoardRow>, columns: seq<ColumnRow>, deviceId: string) {
    BoardOf(boards, deviceId).Some? && ChildrenOf(columns, BoardOf(boards, deviceId).value.id) != []
  }

  /** The new ids are unused and pairwise distinct. */
  predicate FreshIds(store: KanbanStore, newBoardId: string, newColumnIds: seq<string>)
    reads store
  {
    && !IsBoardId(store.boards, newBoardId)
    && |newColumnIds| == 3
    && Distinct(newColumnIds)
    && forall i :: 0 <= i < 3 ==> !HasId(store.columns, newColumnIds[i])
  }

  /**
   * The seeding loop: the three default columns inserted one at a time,
   * the i-th by query `q0 + i`. A failing insert ends the loop, leaving the
   * columns inserted before it.
   */
  method SeedDefaultColumns(store: KanbanStore, boardId: string, ids: seq<string>, fault: Option<Fault>, q0: nat)
    returns (ok: bool)
    requires store.Valid()
    requires IsBoardId(store.boards, boardId)
    requires |ids| == 3 && Distinct(ids)
    requires forall i :: 0 <= i < 3 ==> !HasId(store.columns, ids[i])
    modifies store
    ensures store.Valid()
    ensures store.boards == old(store.boards) && store.tasks == old(store.tasks)
    ensures ok <==> !(fault.Some? && q0 <= fault.value.query < q0 + 3)
    ensures ok ==> store.columns == old(store.columns) + DefaultColumns(boardId, ids)
    ensures !ok ==> store.columns == old(store.columns) + DefaultColumns(boardId, ids)[..fault.value.query - q0]
  {
    var defaults := DefaultColumns(boardId, ids);
    assert store.columns == old(store.columns) + defaults[..0];
    for i := 0 to 3
      invariant store.Valid()
      invariant store.boards == old(store.boards) && store.tasks == old(store.tasks)
      invariant store.columns == old(store.columns) + defaults[..i]
      invariant !(fault.Some? && q0 <= fault.value.query < q0 + i)
    {
      if Fails(fault, q0 + i) {
        return false;
      }
      forall j | 0 <= j < |store.columns|
        ensures store.columns[j].id != ids[i]
      {
        if j >= |old(store.columns)| {
          assert store.columns[j] == defaults[j - |old(store.columns)|];
        } else {
          assert store.columns[j] == old(store.columns)[j];
        }
      }
      var _ := store.InsertColumn(ids[i], boardId, DefaultColumnTitles[i], i);
      assert defaults[..i + 1] == defaults[..i] + [defaults[i]];
    }
    assert defaults[..3] == defaults;
    return true;
  }

  /**
   * The handler's first step: query 0 looks the device's board up and, when
   * there is none, query 1 inserts one. `q` is the index of the next query.
   */
  method FindOrCreateBoard(store: KanbanStore, deviceId: string, newBoardId: string, fault: Option<Fault>)
    returns (ok: bool, board: BoardRow, q: nat)
    requires store.Valid()
    requires !IsBoardId(store.boards, newBoardId)
    modifies store
    ensures store.Valid()
    ensures store.columns == old(store.columns) && store.tasks == old(store.tasks)
    ensures board == BootBoard(old(store.boards), deviceId, newBoardId)
    ensures q == BoardQueries(old(store.boards), deviceId)
    ensures ok <==> !(fault.Some? && fault.value.query < q)
    ensures !ok ==> store.boards == old(store.boards)
    ensures ok ==>
      && store.boards == (if BoardOf(old(store.boards), deviceId).None? then old(store.boards) + [board] else old(store.boards))
      && BoardOf(store.boards, deviceId) == Some(board)
  {
    board := BootBoard(store.boards, deviceId, newBoardId);
    var found := BoardOf(store.boards, deviceId);
    q := if found.None? then 2 else 1;
    // query 0: the device's board
    if Fails(fault, 0) {
      return false, board, q;
    }
    if found.None? {
      // query 1: the new board
      if Fails(fault, 1) {
        return false, board, q;
      }
      var row := store.InsertBoard(newBoardId, deviceId, DefaultBoardTitle);
      BoardOfIsTheDevicesBoard(store.boards, deviceId, |store.boards| - 1);
    }
    return true, board, q;
  }

  /**
   * The handler's second step: query `q` selects the board's columns; when
   * there are none, queries `q + 1` to `q + 3` seed them and `q + 4` selects
   * them again. `next` is the index of the next query.
   */
  method LoadColumns(store: KanbanStore, board: BoardRow, ids: seq<string>, fault: Option<Fault>, q: nat)
    returns (ok: bool, columns: seq<ColumnRow>, next: nat)
    requires store.Valid()
    requires IsBoardId(store.boards, board.id)
    requires |ids| == 3 && Distinct(ids)
    requires forall i :: 0 <= i < 3 ==> !HasId(store.columns, ids[i])
    modifies store
    ensures store.Valid()
    ensures store.boards == old(store.boards) && store.tasks == old(store.tasks)
    ensures ChildrenOf(old(store.columns), board.id) != [] ==>
      store.columns == old(store.columns) && next == q + 1 && (ok <==> !Fails(fault, q))
    ensures ChildrenOf(old(store.columns), board.id) == [] ==>
      && next == q + 5
      && (ok <==> !(fault.Some? && q <= fault.value.query < q + 5))
      && (ok ==> store.columns == old(store.columns) + DefaultColumns(board.id, ids))
      && store.columns == old(store.columns) + DefaultColumns(board.id, ids)[..SeedCount(fault, q)]
    ensures ok ==> columns == ByPosition(ChildrenOf(store.columns, board.id)) && ChildrenOf(store.columns, board.id) != []
  {
    assert store.columns == old(store.columns) + DefaultColumns(board.id, ids)[..0];
    next := q + 1;
    columns := [];
    if Fails(fault, q) {
      assert SeedCount(fault, q) == 0;
      if ChildrenOf(store.columns, board.id) == [] {
        next := q + 5;
      }
      return false, columns, next;
    }
    columns := ByPosition(ChildrenOf(store.columns, board.id));
    if columns != [] {
      return true, columns, next;
    }
    assert ChildrenOf(store.columns, board.id) == [] by {
      assert |ChildrenOf(store.columns, board.id)| == |multiset(columns)| == 0;
    }
    next := q + 5;
    ok, columns := SeedAndReload(store, board, ids, fault, q);
  }

  /**
   * The seeding path of `LoadColumns` once its select (query `q`) found no
   * columns: queries `q + 1` to `q + 3` insert the defaults and `q + 4`
   * selects them again.
   */
  method SeedAndReload(store: KanbanStore, board: BoardRow, ids: seq<string>, fault: Option<Fault>, q: nat)
    returns (ok: bool, columns: seq<ColumnRow>)
    requires store.Valid()
    requires IsBoardId(store.boards, board.id)
    requires |ids| == 3 && Distinct(ids)
    requires forall i :: 0 <= i < 3 ==> !HasId(store.columns, ids[i])
    requires ChildrenOf(store.columns, board.id) == [] && !Fails(fault, q)
    modifies store
    ensures store.Valid()
    ensures store.boards == old(store.boards) && store.tasks == old(store.tasks)
    ensures ok <==> !(fault.Some? && q < fault.value.query < q + 5)
    ensures store.columns == old(store.columns) + DefaultColumns(board.id, ids)[..SeedCount(fault, q)]
    ensures ok ==>
      && store.columns == old(store.columns) + DefaultColumns(board.id, ids)
      && columns == ByPosition(ChildrenOf(store.columns, board.id)) && ChildrenOf(store.columns, board.id) != []
  {
    columns := [];
    ok := SeedDefaultColumns(store, board.id, ids, fault, q + 1);
    SeedCountAfterSelect(fault, q, ok);
    if !ok {
      return;
    }
    SeededChildren(old(store.columns), board.id, ids);
    // the columns again
    if Fails(fault, q + 4) {
      return false, columns;
    }
    columns := ByPosition(ChildrenOf(store.columns, board.id));
    return true, columns;
  }

  /**
   * The handler. `newBoardId` and `newColumnIds` are the keys the database
   * generates for rows it inserts, and `fault` the store query that throws,
   * if any. The handler runs no transaction: a failure part-way leaves the
   * rows already inserted.
   */
  method Get(store: KanbanStore, header: Option<string>, newBoardId: string, newColumnIds: seq<string>,
             fault: Option<Fault>) returns (r: Response<Payload>)
    requires store.Valid()
    requires FreshIds(store, newBoardId, newColumnIds)
    modifies store
    ensures store.Valid()
    ensures store.tasks == old(store.tasks)
    ensures GetDeviceId(header).None? ==>
      r == ErrorResponse(MissingDeviceIdMessage) && store.boards == old(store.boards) && store.columns == old(store.columns)
    ensures GetDeviceId(header).Some? ==>
      var deviceId := GetDeviceId(header).value;
      && store.boards == BootBoards(old(store.boards), deviceId, newBoardId, fault)
      && store.columns == BootColumns(old(store.boards), old(store.columns), deviceId, newBoardId, newColumnIds, fault)
    ensures GetDeviceId(header).Some? ==>
      (r.Reply? <==> !(fault.Some? && fault.value.query < BootQueries(old(store.boards), old(store.columns), GetDeviceId(header).value, newBoardId)))
    ensures GetDeviceId(header).Some? && !r.Reply? ==> r == ErrorResponse(FaultMessage(fault), 500)
    ensures GetDeviceId(header).Some? && r.Reply? ==>
      var deviceId := GetDeviceId(header).value;
      var board := BootBoard(old(store.boards), deviceId, newBoardId);
      && r == Reply(Board(ViewOf(board, store.columns, store.tasks)))
      && Booted(store.boards, store.columns, deviceId) && BoardOf(store.boards, deviceId) == Some(board)
  {
    var device := GetDeviceId(header);
    if device.None? {
      return ErrorResponse(MissingDeviceIdMessage, 400);
    }
    r := Boot(store, device.value, newBoardId, newColumnIds, fault);
  }

  /**
   * The handler once the caller's device id is known: find or create the
   * board, seed its columns when it has none, and reply with its view.
   */
  method Boot(store: KanbanStore, deviceId: string, newBoardId: string, newColumnIds: seq<string>, fault: Option<Fault>)
    returns (r: Response<Payload>)
    requires store.Valid()
    requires FreshIds(store, newBoardId, newColumnIds)
    modifies store
    ensures store.Valid()
    ensures store.tasks == old(store.tasks)
    ensures store.boards == BootBoards(old(store.boards), deviceId, newBoardId, fault)
    ensures store.columns == BootColumns(old(store.boards), old(store.columns), deviceId, newBoardId, newColumnIds, fault)
    ensures r.Reply? <==> !(fault.Some? && fault.value.query < BootQueries(old(store.boards), old(store.columns), deviceId, newBoardId))
    ensures !r.Reply? ==> r == ErrorResponse(FaultMessage(fault), 500)
    ensures r.Reply? ==>
      var board := BootBoard(old(store.boards), deviceId, newBoardId);
      && r == Reply(Board(ViewOf(board, store.columns, store.tasks)))
      && Booted(store.boards, store.columns, deviceId) && BoardOf(store.boards, deviceId) == Some(board)
  {
    var ok, board, q := FindOrCreateBoard(store, deviceId, newBoardId, fault);
    if !ok {
      return ErrorResponse(FaultMessage(fault), 500);
    }
    assert IsBoardId(store.boards, board.id) by {
      var i :| 0 <= i < |store.boards| && store.boards[i] == BoardOf(store.boards, deviceId).value;
    }
    r := LoadAndReply(store, board, newColumnIds, fault, q);
  }

  /**
   * The handler once its board exists: load (and if need be seed) the
   * board's columns from query `q` on, then reply with the board's view.
   */
  method LoadAndReply(store: KanbanStore, board: BoardRow, ids: seq<string>, fault: Option<Fault>, q: nat)
    returns (r: Response<Payload>)
    requires store.Valid()
    requires IsBoardId(store.boards, board.id)
    requires |ids| == 3 && Distinct(ids)
    requires forall i :: 0 <= i < 3 ==> !HasId(store.columns, ids[i])
    modifies store
    ensures store.Valid()
    ensures store.boards == old(store.boards) && store.tasks == old(store.tasks)
    ensures ChildrenOf(old(store.columns), board.id) != [] ==> store.columns == old(store.columns)
    ensures ChildrenOf(old(store.columns), board.id) == [] && r.Reply? ==>
      store.columns == old(store.columns) + DefaultColumns(board.id, ids)
    ensures ChildrenOf(old(store.columns), board.id) == [] ==>
      store.columns == old(store.columns) + DefaultColumns(board.id, ids)[..SeedCount(fault, q)]
    ensures r.Reply? <==> !(fault.Some? && q <= fault.value.query < q + ColumnQueries(old(store.columns), board.id) + 1)
    ensures !r.Reply? ==> r == ErrorResponse(FaultMessage(fault), 500)
    ensures r.Reply? ==> r == Reply(Board(ViewOf(board, store.columns, store.tasks))) && ChildrenOf(store.columns, board.id) != []
  {
    var ok, columns, next := LoadColumns(store, board, ids, fault, q);
    if !ok {
      return ErrorResponse(FaultMessage(fault), 500);
    }
    r := ReplyWithTasks(store, board, columns, fault, next);
  }

  /**
   * The handler's last step: query `q` selects the tasks of the board's
   * columns, which are grouped under the columns for the reply.
   */
  method ReplyWithTasks(store: KanbanStore, board: BoardRow, columns: seq<ColumnRow>, fault: Option<Fault>, q: nat)
    returns (r: Response<Payload>)
    requires columns == ByPosition(ChildrenOf(store.columns, board.id))
    ensures Fails(fault, q) ==> r == ErrorResponse(FaultMessage(fault), 500)
    ensures !Fails(fault, q) ==> r == Reply(Board(ViewOf(board, store.columns, store.tasks)))
  {
    if Fails(fault, q) {
      return ErrorResponse(FaultMessage(fault), 500);
    }
    var tasks := ByPosition(BoardTasks(store.columns, store.tasks, board.id));
    var tasksByColumn := GroupTasksByColumn(columns, tasks);
    return Reply(Board(BoardView(board, columns, tasksByColumn)));
  }

  /** Ids unused before the seeding and distinct from the seeded ones stay unused. */
  lemma SeedingKeepsOtherIdsFresh(columns: seq<ColumnRow>, boardId: string, ids: seq<string>, k: nat, others: seq<string>)
    requires |ids| == 3 && k <= 3
    requires forall i :: 0 <= i < |others| ==> !HasId(columns, others[i])
    requires forall i, j :: 0 <= i < |others| && 0 <= j < 3 ==> others[i] != ids[j]
    ensures forall i :: 0 <= i < |others| ==> !HasId(columns + DefaultColumns(boardId, ids)[..k], others[i])
  {
    var after := columns + DefaultColumns(boardId, ids)[..k];
    forall i, j | 0 <= i < |others| && 0 <= j < |after|
      ensures after[j].id != others[i]
    {
      if j < |columns| {
        assert after[j] == columns[j];
      } else {
        assert after[j] == DefaultColumns(boardId, ids)[j - |columns|];
      }
    }
  }

  /** The board a boot works on never has a key that was unused before it, other than its own new one. */
  lemma BootBoardIdIsNot(boards: seq<BoardRow>, deviceId: string, newBoardId: string, id: string)
    requires !IsBoardId(boards, id) && newBoardId != id
    ensures BootBoard(boards, deviceId, newBoardId).id != id
  {
    var found := BoardOf(boards, deviceId);
    if found.Some? {
      var i :| 0 <= i < |boards| && boards[i] == found.value;
    }
  }

  /** A board key unused before a boot stays unused after it, unless the boot inserted it. */
  lemma BootKeepsBoardIdFresh(boards: seq<BoardRow>, after: seq<BoardRow>, board: BoardRow, id: string)
    requires !IsBoardId(boards, id) && board.id != id
    requires after == boards || after == boards + [board]
    ensures !IsBoardId(after, id)
  {
    forall j | 0 <= j < |after|
      ensures after[j].id != id
    {
      if j < |boards| {
        assert after[j] == boards[j];
      }
    }
  }

  /** A fault-free boot uses none of the keys of a second boot, when the two sets of keys are disjoint. */
  lemma BootLeavesOtherKeysFresh(boards: seq<BoardRow>, columns: seq<ColumnRow>, deviceId: string,
                                 boardId1: string, ids1: seq<string>, boardId2: string, ids2: seq<string>)
    requires |ids1| == 3 && |ids2| == 3
    requires !IsBoardId(boards, boardId2) && boardId1 != boardId2
    requires forall i :: 0 <= i < 3 ==> !HasId(columns, ids2[i])
    requires forall i, j :: 0 <= i < 3 && 0 <= j < 3 ==> ids1[i] != ids2[j]
    ensures !IsBoardId(BootBoards(boards, deviceId, boardId1, None), boardId2)
    ensures forall i :: 0 <= i < 3 ==> !HasId(BootColumns(boards, columns, deviceId, boardId1, ids1, None), ids2[i])
  {
    var board := BootBoard(boards, deviceId, boardId1);
    BootTablesWithoutFault(boards, columns, deviceId, boardId1, ids1, None);
    var k := if ChildrenOf(columns, board.id) == [] then 3 else 0;
    SeedingKeepsOtherIdsFresh(columns, board.id, ids1, k, ids2);
    BootBoardIdIsNot(boards, deviceId, boardId1, boardId2);
    BootKeepsBoardIdFresh(boards, BootBoards(boards, deviceId, boardId1, None), board, boardId2);
  }

  /** On a board that is already booted, a boot with any new key works on the device's board. */
  lemma BootedBoardIsKept(boards: seq<BoardRow>, deviceId: string, board: BoardRow, newBoardId: string)
    requires BoardOf(boards, deviceId) == Some(board)
    ensures BootBoard(boards, deviceId, newBoardId) == board
  {
  }

  /**
   * Booting twice in a row: the second call inserts nothing (none of its
   * fresh keys is used) and, when it succeeds, replies exactly as the first.
   */
  method BootTwice(store: KanbanStore, header: Option<string>,
                   boardId1: string, columnIds1: seq<string>, boardId2: string, columnIds2: seq<string>,
                   fault2: Option<Fault>) returns (r1: Response<Payload>, r2: Response<Payload>)
    requires store.Valid()
    requires FreshIds(store, boardId1, columnIds1) && FreshIds(store, boardId2, columnIds2)
    requires boardId1 != boardId2
    requires forall i, j :: 0 <= i < 3 && 0 <= j < 3 ==> columnIds1[i] != columnIds2[j]
    modifies store
    ensures r1.Reply? ==> !IsBoardId(store.boards, boardId2) && forall i :: 0 <= i < 3 ==> !HasId(store.columns, columnIds2[i])
    ensures r1.Reply? && fault2.None? ==> r2 == r1
  {
    ghost var boards0, columns0 := store.boards, store.columns;
    r1 := Get(store, header, boardId1, columnIds1, None);
    if GetDeviceId(header).None? {
      r2 := Get(store, header, boardId2, columnIds2, fault2);
      return;
    }
    ghost var deviceId := GetDeviceId(header).value;
    ghost var board := BootBoard(boards0, deviceId, boardId1);
    BootLeavesOtherKeysFresh(boards0, columns0, deviceId, boardId1, columnIds1, boardId2, columnIds2);
    ghost var boards1, columns1, tasks1 := store.boards, store.columns, store.tasks;
    BootedBoardIsKept(boards1, deviceId, board, boardId2);
    BootedTablesUnchanged(boards1, columns1, deviceId, boardId2, columnIds2, fault2);
    r2 := Get(store, header, boardId2, columnIds2, fault2);
    assert store.boards == boards1 && store.columns == columns1 && store.tasks == tasks1;
  }
}
