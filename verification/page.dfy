/**
 * The home page's board state and its handlers. Each handler computes the
 * new board with the list operations of `Kanban` and assigns it. The
 * browser's `prompt`, `confirm` and `Date.now()` reach the handlers as
 * parameters.
 */
module Page {
  import opened Common
  import opened Kanban

  class Home {
    var boardData: BoardData

    constructor ()
      ensures boardData == InitialData
    {
      boardData := InitialData;
    }

    /**
     * Dropping task `activeId` over the droppable `over`: the task moves to
     * the column named by `over`'s id unless nothing is under the pointer,
     * the task is unknown, or it is already in that column.
     */
    method HandleDragEnd(activeId: string, over: Option<string>)
      modifies this
      ensures boardData.columns == old(boardData.columns)
      ensures
        var found := FindTask(old(boardData.tasks), activeId);
        if over.None? || found.None? || found.value.columnId == over.value then boardData == old(boardData)
        else boardData.tasks == MoveTask(old(boardData.tasks), activeId, over.value)
      ensures over.Some? && HasColumn(boardData.columns, over.value) && RefsValid(old(boardData)) && IdsDistinct(old(boardData)) ==>
        RefsValid(boardData) && IdsDistinct(boardData)
    ensures over.Some? && FindTask(old(boardData.tasks), activeId).Some? && !HasColumn(boardData.columns, over.value)
            && RefsValid(old(boardData)) ==>
      !RefsValid(boardData)
    {
      if over.None? {
        return;
      }
      var found := FindTask(boardData.tasks, activeId);
      if found.None? {
        return;
      }
      ghost var i :| 0 <= i < |boardData.tasks| && boardData.tasks[i] == found.value;
      if found.value.columnId == over.value {
        assert RefsValid(boardData) ==> HasColumn(boardData.columns, boardData.tasks[i].columnId);
        return;
      }
      if HasColumn(boardData.columns, over.value) && RefsValid(boardData) && IdsDistinct(boardData) {
        MoveTaskKeepsWellFormed(boardData, activeId, over.value);
      }
      if !HasColumn(boardData.columns, over.value) {
        MoveToUnknownColumn(boardData, activeId, over.value, i);
      }
      boardData := boardData.(tasks := MoveTask(boardData.tasks, activeId, over.value));
    }

    /**
     * Adding a task to `columnId` with the answer `title` to the prompt
     * (`None` when it was cancelled) and `newId` the text of the current
     * time: a cancelled or empty answer adds nothing; otherwise the task is
     * appended with the number of tasks already in that column as position.
     */
    method HandleAddTask(columnId: string, title: Option<string>, newId: string)
      modifies this
      ensures boardData.columns == old(boardData.columns)
      ensures title.None? || title.value == "" ==> boardData == old(boardData)
      ensures title.Some? && title.value != "" ==>
        boardData.tasks == old(boardData.tasks) + [Task(newId, title.value, columnId, |TasksIn(old(boardData.tasks), columnId)|)]
      ensures DensePerColumn(old(boardData)) ==> DensePerColumn(boardData)
      ensures HasColumn(boardData.columns, columnId) && (forall i :: 0 <= i < |old(boardData.tasks)| ==> old(boardData.tasks)[i].id != newId)
              && RefsValid(old(boardData)) && IdsDistinct(old(boardData)) ==>
        RefsValid(boardData) && IdsDistinct(boardData)
    {
      if title.None? || title.value == "" {
        return;
      }
      var task := Task(newId, title.value, columnId, |TasksIn(boardData.tasks, columnId)|);
      if DensePerColumn(boardData) {
        AppendAtCountKeepsDense(boardData, task);
      }
      if HasColumn(boardData.columns, columnId) && RefsValid(boardData) && IdsDistinct(boardData)
         && forall i :: 0 <= i < |boardData.tasks| ==> boardData.tasks[i].id != newId {
        AppendKeepsWellFormed(boardData, task);
      }
      boardData := boardData.(tasks := boardData.tasks + [task]);
    }

    /** Deleting `taskId` once `confirmed` removes every task with that id and keeps the others in order. */
    method HandleDeleteTask(taskId: string, confirmed: bool)
      modifies this
      ensures boardData == if confirmed then old(boardData).(tasks := RemoveTask(old(boardData.tasks), taskId)) else old(boardData)
      ensures RefsValid(old(boardData)) && IdsDistinct(old(boardData)) ==> RefsValid(boardData) && IdsDistinct(boardData)
    {
      if confirmed {
        if RefsValid(boardData) && IdsDistinct(boardData) {
          RemoveTaskKeepsWellFormed(boardData, taskId);
        }
        boardData := boardData.(tasks := RemoveTask(boardData.tasks, taskId));
      }
    }
  }
}
