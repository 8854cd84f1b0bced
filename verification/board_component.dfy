/**
 * The drag-and-drop board: the board it shows (owned by its parent and
 * replaced through `setBoardData`) and the task being dragged.
 */
module BoardComponent {
  import opened Common
  import opened Kanban

  /**
   * The column a drop over `overId` aims at: the column of the task with
   * that id when there is one, otherwise `overId` itself.
   */
  function DropTarget(tasks: seq<Task>, overId: string): (target: string)
    ensures FindTask(tasks, overId).Some? ==> target == FindTask(tasks, overId).value.columnId
    ensures FindTask(tasks, overId).None? ==> target == overId
  {
    match FindTask(tasks, overId)
    case Some(t) => t.columnId
    case None => overId
  }

  /** Dropping over a task or over a column of a board whose references are valid aims at one of its columns. */
  lemma DropTargetIsAColumn(b: BoardData, overId: string)
    requires RefsValid(b)
    requires HasColumn(b.columns, overId) || exists i :: 0 <= i < |b.tasks| && b.tasks[i].id == overId
    ensures HasColumn(b.columns, DropTarget(b.tasks, overId))
  {
    var found := FindTask(b.tasks, overId);
    if found.Some? {
      var i :| 0 <= i < |b.tasks| && b.tasks[i] == found.value && (forall j :: 0 <= j < i ==> b.tasks[j].id != overId);
      assert HasColumn(b.columns, b.tasks[i].columnId);
    }
  }

  class BoardState {
    var boardData: BoardData
    var activeTask: Option<Task>

    constructor (boardData: BoardData)
      ensures this.boardData == boardData && activeTask.None?
    {
      this.boardData := boardData;
      activeTask := None;
    }

    /** Starting to drag `activeId` remembers that task; an unknown id leaves the active task as it was. */
    method HandleDragStart(activeId: string)
      modifies this
      ensures boardData == old(boardData)
      ensures activeTask == if FindTask(boardData.tasks, activeId).Some? then FindTask(boardData.tasks, activeId) else old(activeTask)
    {
      var task := FindTask(boardData.tasks, activeId);
      if task.Some? {
        activeTask := task;
      }
    }

    /**
     * Dragging `activeId` over `over`: when `over` is a column other than
     * the task's, the task moves into it; in every other case nothing
     * changes.
     */
    method HandleDragOver(activeId: string, over: Option<string>)
      modifies this
      ensures activeTask == old(activeTask)
      ensures boardData.columns == old(boardData.columns)
      ensures
        var found := FindTask(old(boardData.tasks), activeId);
        if over.Some? && found.Some? && HasColumn(old(boardData.columns), over.value) && found.value.columnId != over.value
        then boardData.tasks == MoveTask(old(boardData.tasks), activeId, over.value)
        else boardData == old(boardData)
      ensures RefsValid(old(boardData)) && IdsDistinct(old(boardData)) ==> RefsValid(boardData) && IdsDistinct(boardData)
    {
      if over.None? {
        return;
      }
      var found := FindTask(boardData.tasks, activeId);
      if found.None? {
        return;
      }
      if HasColumn(boardData.columns, over.value) && found.value.columnId != over.value {
        if RefsValid(boardData) && IdsDistinct(boardData) {
          MoveTaskKeepsWellFormed(boardData, activeId, over.value);
        }
        boardData := boardData.(tasks := MoveTask(boardData.tasks, activeId, over.value));
      }
    }

    /**
     * Dropping `activeId` over `over`: the task moves to the drop target
     * unless nothing is under the pointer, the task is unknown, or it is
     * already there. Every exit clears the active task.
     */
    method HandleDragEnd(activeId: string, over: Option<string>)
      modifies this
      ensures activeTask.None?
      ensures boardData.columns == old(boardData.columns)
      ensures
        var found := FindTask(old(boardData.tasks), activeId);
        if over.Some? && found.Some? && found.value.columnId != DropTarget(old(boardData.tasks), over.value)
        then boardData.tasks == MoveTask(old(boardData.tasks), activeId, DropTarget(old(boardData.tasks), over.value))
        else boardData == old(boardData)
      ensures over.Some? && RefsValid(old(boardData)) && IdsDistinct(old(boardData))
              && (HasColumn(old(boardData.columns), over.value)
                  || exists i :: 0 <= i < |old(boardData.tasks)| && old(boardData.tasks)[i].id == over.value) ==>
        RefsValid(boardData) && IdsDistinct(boardData)
    {
      if over.None? {
        activeTask := None;
        return;
      }
      var dragged := FindTask(boardData.tasks, activeId);
      if dragged.None? {
        activeTask := None;
        return;
      }
      var target := over.value;
      var overTask := FindTask(boardData.tasks, over.value);
      if overTask.Some? {
        target := overTask.value.columnId;
      }
      if dragged.value.columnId != target {
        if RefsValid(boardData) && IdsDistinct(boardData)
           && (HasColumn(boardData.columns, over.value) || exists i :: 0 <= i < |boardData.tasks| && boardData.tasks[i].id == over.value) {
          DropTargetIsAColumn(boardData, over.value);
          MoveTaskKeepsWellFormed(boardData, activeId, target);
        }
        boardData := boardData.(tasks := MoveTask(boardData.tasks, activeId, target));
      }
      activeTask := None;
    }
  }
}
