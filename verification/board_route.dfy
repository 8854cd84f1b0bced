/** `GET /api/kb/board`: the caller's board, its columns and their tasks; reads only. */
module BoardRoute {
  import opened Common
  import opened ApiHelpers
  import opened Tables
  import opened Store

  /** The handler. `fault` is the store query that throws, if any. */
  method Get(store: KanbanStore, header: Option<string>, fault: Option<Fault>) returns (r: Response<Payload>)
    ensures GetDeviceId(header).None? ==> r == ErrorResponse(MissingDeviceIdMessage)
    ensures GetDeviceId(header).Some? ==>
      var board := BoardOf(store.boards, GetDeviceId(header).value);
      if Fails(fault, 0) then r == ErrorResponse(FaultMessage(fault), 500)
      else if board.None? then r == ErrorResponse("Board not found for this device", 404)
      else if Fails(fault, 1) || Fails(fault, 2) then r == ErrorResponse(FaultMessage(fault), 500)
      else r == Reply(Board(ViewOf(board.value, store.columns, store.tasks)))
  {
    var device := GetDeviceId(header);
    if device.None? {
      return ErrorResponse(MissingDeviceIdMessage, 400);
    }
    // query 0: the caller's board
    if Fails(fault, 0) {
      return ErrorResponse(FaultMessage(fault), 500);
    }
    var board := BoardOf(store.boards, device.value);
    if board.None? {
      return ErrorResponse("Board not found for this device", 404);
    }
    // query 1: the board's columns in position order
    if Fails(fault, 1) {
      return ErrorResponse(FaultMessage(fault), 500);
    }
    var columns := ByPosition(ChildrenOf(store.columns, board.value.id));
    // query 2: the tasks of those columns in position order
    if Fails(fault, 2) {
      return ErrorResponse(FaultMessage(fault), 500);
    }
    var tasks := ByPosition(BoardTasks(store.columns, store.tasks, board.value.id));
    var tasksByColumn := GroupTasksByColumn(columns, tasks);
    return Reply(Board(BoardView(board.value, columns, tasksByColumn)));
  }
}
