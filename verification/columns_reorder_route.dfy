/** `PATCH /api/kb/columns/reorder`: rewrite the positions of the caller's board's columns. */
module ColumnsReorderRoute {
  import opened Common
  import opened Positions
  import opened ApiHelpers
  import opened Tables
  import opened Store

  /**
   * The handler. `fault` is the store query that throws, if any; the
   * handler does not catch it, so the reply is `Crash`.
   */
  method Patch(store: KanbanStore, header: Option<string>, orderedIds: Json, fault: Option<Fault>)
    returns (r: Response<Payload>)
    requires store.Valid()
    requires orderedIds.JArray? ==> Distinct(orderedIds.items)
    modifies store
    ensures store.Valid()
    ensures store.boards == old(store.boards) && store.tasks == old(store.tasks)
    ensures !r.Reply? ==> store.columns == old(store.columns)
    ensures GetDeviceId(header).None? ==> r == ErrorReply(400, "Missing device id")
    ensures GetDeviceId(header).Some? ==>
      var board := BoardOf(old(store.boards), GetDeviceId(header).value);
      if !orderedIds.JArray? || |orderedIds.items| == 0 then r == ErrorReply(400, "ordered_ids required")
      else if Fails(fault, 0) then r == Crash
      else if board.None? then r == ErrorReply(404, "Board not found")
      else if Fails(fault, 1) then r == Crash
      else r == Reply(Success) && store.columns == Reordered(old(store.columns), board.value.id, orderedIds.items)
  {
    var device := GetDeviceId(header);
    if device.None? {
      return ErrorReply(400, "Missing device id");
    }
    if !orderedIds.JArray? || |orderedIds.items| == 0 {
      return ErrorReply(400, "ordered_ids required");
    }
    // query 0: the caller's board
    if Fails(fault, 0) {
      return Crash;
    }
    var board := BoardOf(store.boards, device.value);
    if board.None? {
      return ErrorReply(404, "Board not found");
    }
    // query 1: the update
    if Fails(fault, 1) {
      return Crash;
    }
    store.UpdateColumnPositions(board.value.id, orderedIds.items);
    return Reply(Success);
  }
}
