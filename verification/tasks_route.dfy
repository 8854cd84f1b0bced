/** `POST /api/kb/tasks`: create a task at the end of one of the caller's columns. */
module TasksRoute {
  import opened Common
  import opened ApiHelpers
  import opened Tables
  import opened Store

  /** `description || null`, for a description that is a string or absent. */
  function StoredDescription(description: Json): (d: Option<string>)
    requires description.JStr? || !Truthy(description)
    ensures d.Some? <==> NonEmptyString(description)
    ensures d.Some? ==> d.value == description.s
  {
    if Truthy(description) then Some(description.s) else None
  }

  /**
   * The handler. The body fields arrive already parsed; `newId` is the key
   * the database generates for the new row and `fault` the store query
   * that throws, if any.
   */
  method Post(store: KanbanStore, header: Option<string>, columnId: Json, title: Json, description: Json,
              newId: string, fault: Option<Fault>) returns (r: Response<Payload>)
    requires store.Valid()
    requires !HasId(store.tasks, newId)
    requires description.JStr? || !Truthy(description)
    modifies store
    ensures store.Valid()
    ensures store.boards == old(store.boards) && store.columns == old(store.columns)
    ensures !r.Reply? ==> store.tasks == old(store.tasks)
    ensures GetDeviceId(header).None? ==> r == ErrorResponse(MissingDeviceIdMessage)
    ensures GetDeviceId(header).Some? ==>
      if !NonEmptyString(columnId) then r == ErrorResponse("Missing or invalid columnId")
      else if !NonEmptyString(title) then r == ErrorResponse("Missing or invalid title")
      else if Fails(fault, 0) then r == ErrorResponse(FaultMessage(fault), 500)
      else if !OwnsColumn(old(store.boards), old(store.columns), GetDeviceId(header).value, columnId.s) then
        r == ErrorResponse("Column not found or access denied", 404)
      else if Fails(fault, 1) || Fails(fault, 2) then r == ErrorResponse(FaultMessage(fault), 500)
      else
        var row := Child(newId, columnId.s, NextChildPosition(old(store.tasks), columnId.s),
                         TaskData(title.s, StoredDescription(description)));
        r == Reply(TaskCreated(row)) && store.tasks == old(store.tasks) + [row]
    ensures r.Reply? ==> r.payload.TaskCreated?
    ensures r.Reply? ==>
      var t := r.payload.task;
      && (forall x :: x in old(store.tasks) && x.parent == t.parent ==> x.position < t.position)
      && (DenseUnder(old(store.tasks), t.parent) ==>
            t.position == |ChildrenOf(old(store.tasks), t.parent)| && DenseUnder(store.tasks, t.parent))
  {
    var device := GetDeviceId(header);
    if device.None? {
      return ErrorResponse(MissingDeviceIdMessage, 400);
    }
    var deviceId := device.value;
    if !NonEmptyString(columnId) {
      return ErrorResponse("Missing or invalid columnId", 400);
    }
    if !NonEmptyString(title) {
      return ErrorResponse("Missing or invalid title", 400);
    }
    // query 0: the ownership join
    if Fails(fault, 0) {
      return ErrorResponse(FaultMessage(fault), 500);
    }
    if !OwnsColumn(store.boards, store.columns, deviceId, columnId.s) {
      return ErrorResponse("Column not found or access denied", 404);
    }
    // query 1: the largest position in the column
    if Fails(fault, 1) {
      return ErrorResponse(FaultMessage(fault), 500);
    }
    var position := NextChildPosition(store.tasks, columnId.s);
    // query 2: the insert
    if Fails(fault, 2) {
      return ErrorResponse(FaultMessage(fault), 500);
    }
    var row := store.InsertTask(newId, columnId.s, title.s, StoredDescription(description), position);
    NextChildPositionIsAbove(old(store.tasks), columnId.s);
    AppendAtNextPosition(old(store.tasks), row);
    return Reply(TaskCreated(row));
  }
}
