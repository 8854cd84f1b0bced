/** `POST /api/kb/columns`: create a column at the end of the caller's board. */
module ColumnsRoute {
  import opened Common
  import opened ApiHelpers
  import opened Tables
  import opened Store

  /**
   * The handler. `newId` is the key the database generates for the new row
   * and `fault` the store query that throws, if any.
   */
  method Post(store: KanbanStore, header: Option<string>, title: Json, newId: string, fault: Option<Fault>)
    returns (r: Response<Payload>)
    requires store.Valid()
    requires !HasId(store.columns, newId)
    modifies store
    ensures store.Valid()
    ensures store.boards == old(store.boards) && store.tasks == old(store.tasks)
    ensures !r.Reply? ==> store.columns == old(store.columns)
    ensures GetDeviceId(header).None? ==> r == ErrorResponse(MissingDeviceIdMessage)
    ensures GetDeviceId(header).Some? ==>
      var board := BoardOf(old(store.boards), GetDeviceId(header).value);
      if !NonEmptyString(title) then r == ErrorResponse("Missing or invalid title")
      else if Fails(fault, 0) then r == ErrorResponse(FaultMessage(fault), 500)
      else if board.None? then r == ErrorResponse("Board not found for this device", 404)
      else if Fails(fault, 1) || Fails(fault, 2) then r == ErrorResponse(FaultMessage(fault), 500)
      else
        var row := Child(newId, board.value.id, NextChildPosition(old(store.columns), board.value.id),
                         ColumnData(title.s));
        r == Reply(ColumnCreated(row)) && store.columns == old(store.columns) + [row]
    ensures r.Reply? ==> r.payload.ColumnCreated?
    ensures r.Reply? ==>
      var c := r.payload.column;
      && BoardOf(store.boards, GetDeviceId(header).value).Some?
      && c.parent == BoardOf(store.boards, GetDeviceId(header).value).value.id
      && (forall x :: x in old(store.columns) && x.parent == c.parent ==> x.position < c.position)
      && (DenseUnder(old(store.columns), c.parent) ==>
            c.position == |ChildrenOf(old(store.columns), c.parent)| && DenseUnder(store.columns, c.parent))
  {
    var device := GetDeviceId(header);
    if device.None? {
      return ErrorResponse(MissingDeviceIdMessage, 400);
    }
    var deviceId := device.value;
    if !NonEmptyString(title) {
      return ErrorResponse("Missing or invalid title", 400);
    }
    // query 0: the caller's board
    if Fails(fault, 0) {
      return ErrorResponse(FaultMessage(fault), 500);
    }
    var board := BoardOf(store.boards, deviceId);
    if board.None? {
      return ErrorResponse("Board not found for this device", 404);
    }
    // query 1: the largest position on the board
    if Fails(fault, 1) {
      return ErrorResponse(FaultMessage(fault), 500);
    }
    var position := NextChildPosition(store.columns, board.value.id);
    // query 2: the insert
    if Fails(fault, 2) {
      return ErrorResponse(FaultMessage(fault), 500);
    }
    var row := store.InsertColumn(newId, board.value.id, title.s, position);
    NextChildPositionIsAbove(old(store.columns), board.value.id);
    AppendAtNextPosition(old(store.columns), row);
    return Reply(ColumnCreated(row));
  }
}
