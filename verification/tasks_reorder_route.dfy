/** `PATCH /api/kb/tasks/reorder`: rewrite the positions of one of the caller's columns' tasks. */
module TasksReorderRoute {
  import opened Common
  import opened Positions
  import opened ApiHelpers
  import opened Tables
  import opened Store

  /**
   * The handler. `fault` is the store query that throws, if any; the
   * handler does not catch it, so the reply is `Crash`.
   */
  method Patch(store: KanbanStore, header: Option<string>, columnId: Json, orderedIds: Json, fault: Option<Fault>)
    returns (r: Response<Payload>)
    requires store.Valid()
    requires orderedIds.JArray? ==> Distinct(orderedIds.items)
    modifies store
    ensures store.Valid()
    ensures store.boards == old(store.boards) && store.columns == old(store.columns)
    ensures !r.Reply? ==> store.tasks == old(store.tasks)
    ensures GetDeviceId(header).None? ==> r == ErrorReply(400, "Missing device id")
    ensures GetDeviceId(header).Some? ==>
      if !Truthy(columnId) || !orderedIds.JArray? || |orderedIds.items| == 0 then
        r == ErrorReply(400, "column_id and ordered_ids required")
      else if Fails(fault, 0) then r == Crash
      else if !(columnId.JStr? && OwnsColumn(old(store.boards), old(store.columns), GetDeviceId(header).value, columnId.s)) then
        r == ErrorReply(404, "Not found")
      else if Fails(fault, 1) then r == Crash
      else r == Reply(Success) && store.tasks == Reordered(old(store.tasks), columnId.s, orderedIds.items)
  {
    var device := GetDeviceId(header);
    if device.None? {
      return ErrorReply(400, "Missing device id");
    }
    if !Truthy(columnId) || !orderedIds.JArray? || |orderedIds.items| == 0 {
      return ErrorReply(400, "column_id and ordered_ids required");
    }
    // query 0: the ownership join
    if Fails(fault, 0) {
      return Crash;
    }
    if !(columnId.JStr? && OwnsColumn(store.boards, store.columns, device.value, columnId.s)) {
      return ErrorReply(404, "Not found");
    }
    // query 1: the update
    if Fails(fault, 1) {
      return Crash;
    }
    store.UpdateTaskPositions(columnId.s, orderedIds.items);
    return Reply(Success);
  }
}
