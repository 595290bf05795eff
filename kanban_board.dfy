/** The kanban board component (`components/KanbanBoard.tsx`): the per-column
    view resolved through the id lookup, the drag-and-drop protocol as a small
    state machine, and the add-task form. */
module KanbanBoard {
  import opened Types
  import opened Collections
  import opened Board

  /** `tasksById.get(id)` where `tasksById = new Map(tasks.map(t => [t.id, t]))`:
      a later task with the same id overwrites an earlier one, so the lookup
      finds the last task with that id. */
  function LookupTask(tasks: seq<KanbanTask>, id: string): (r: Option<KanbanTask>)
    ensures r.None? <==> forall i :: 0 <= i < |tasks| ==> tasks[i].id != id
    ensures r.Some? ==> exists i :: (0 <= i < |tasks| && tasks[i] == r.value && r.value.id == id
      && forall j :: i < j < |tasks| ==> tasks[j].id != id)
    decreases |tasks|
  {
    if |tasks| == 0 then None
    else if tasks[|tasks| - 1].id == id then Some(tasks[|tasks| - 1])
    else
      var r := LookupTask(tasks[..|tasks| - 1], id);
      assert forall j :: 0 <= j < |tasks| - 1 ==> tasks[..|tasks| - 1][j] == tasks[j];
      r
  }

  /** An id that `tasksById` has an entry for. */
  function Resolves(tasks: seq<KanbanTask>): string -> bool
  {
    id => LookupTask(tasks, id).Some?
  }

  /** `column.taskIds.map(id => tasksById.get(id)!).filter(Boolean)`: the
      column's tasks in list order; ids that resolve to no task are dropped.
      The view is the lookup of each resolvable id, taken in list order. */
  function ColumnTasks(taskIds: seq<string>, tasks: seq<KanbanTask>): (r: seq<KanbanTask>)
    ensures |r| <= |taskIds|
    ensures forall k :: 0 <= k < |r| ==> r[k] in tasks && r[k].id in taskIds
    ensures var rs := Filter(taskIds, Resolves(tasks));
      && |r| == |rs|
      && forall k :: 0 <= k < |r| ==> r[k] == LookupTask(tasks, rs[k]).value
  {
    if |taskIds| == 0 then []
    else
      var rest := ColumnTasks(taskIds[1..], tasks);
      var rs := Filter(taskIds[1..], Resolves(tasks));
      match LookupTask(tasks, taskIds[0])
      case Some(t) =>
        assert Filter(taskIds, Resolves(tasks)) == [taskIds[0]] + rs;
        [t] + rest
      case None =>
        assert Filter(taskIds, Resolves(tasks)) == rs;
        rest
  }

  /** When every id resolves, the view has one task per id, in list order. */
  lemma ResolvedColumnTasks(taskIds: seq<string>, tasks: seq<KanbanTask>)
    requires forall k :: 0 <= k < |taskIds| ==> LookupTask(tasks, taskIds[k]).Some?
    ensures var v := ColumnTasks(taskIds, tasks);
      |v| == |taskIds| && forall k :: 0 <= k < |v| ==> v[k] == LookupTask(tasks, taskIds[k]).value
  {
    FilterKeepsAll(taskIds, Resolves(tasks));
  }

  /** On a board that keeps single ownership nothing is dropped from a column
      view: its k-th card is the task listed k-th, and that task names the
      column. So the index a drag starts from is an index into `taskIds`. */
  lemma ColumnViewOfValidBoard(cols: Columns, tasks: seq<KanbanTask>, c: KanbanColumnId)
    requires BoardInvariant(cols, tasks)
    ensures var v := ColumnTasks(cols[c].taskIds, tasks);
      && |v| == |cols[c].taskIds|
      && forall k :: 0 <= k < |v| ==> v[k].id == cols[c].taskIds[k] && v[k].column == c
  {
    var ids := cols[c].taskIds;
    forall k | 0 <= k < |ids|
      ensures LookupTask(tasks, ids[k]).Some?
      ensures LookupTask(tasks, ids[k]).value.id == ids[k] && LookupTask(tasks, ids[k]).value.column == c
    {
      ListedIdsOwned(cols, tasks, c, k);
      var t := LookupTask(tasks, ids[k]).value;
      var i :| 0 <= i < |tasks| && tasks[i] == t && t.id == ids[k];
      ExactlyOneColumn(cols, tasks, i, c);
    }
    ResolvedColumnTasks(ids, tasks);
  }

  /** What `handleDragStart` records: the task, its column and its position. */
  datatype DragItem = DragItem(taskId: string, sourceColId: KanbanColumnId, index: nat)

  /** The arguments `handleDrop` passes to `onUpdateTaskStatus`. */
  datatype MoveRequest = MoveRequest(
    taskId: string, sourceColId: KanbanColumnId, destColId: KanbanColumnId, sourceIndex: nat, destIndex: nat)

  /** The drop index: the end of the destination list by default; a drop on a
      card gives that card's index within its wrapper element, which holds
      only the card, so 0. */
  function DropIndex(cols: Columns, destColId: KanbanColumnId, onCard: bool): (i: nat)
    requires WellFormedColumns(cols)
    ensures onCard ==> i == 0
    ensures !onCard ==> i == |cols[destColId].taskIds|
  {
    if onCard then 0 else |cols[destColId].taskIds|
  }

  /** The drag state of the board: the recorded drag item, the id of the card
      shown as being dragged, and the column under the pointer. */
  class DragController {
    var dragItem: Option<DragItem>
    var draggedTaskId: Option<string>
    var isDraggingOverCol: Option<KanbanColumnId>

    /** A card is shown as dragged exactly while a drag item is recorded, and it is that item's card. */
    predicate Valid()
      reads this
    {
      && (dragItem.None? <==> draggedTaskId.None?)
      && (dragItem.Some? ==> draggedTaskId == Some(dragItem.value.taskId))
    }

    predicate Idle()
      reads this
    {
      dragItem.None? && draggedTaskId.None? && isDraggingOverCol.None?
    }

    constructor()
      ensures Valid() && Idle()
    {
      dragItem, draggedTaskId, isDraggingOverCol := None, None, None;
    }

    /** `handleDragStart`: record the grabbed card. */
    method DragStart(taskId: string, sourceColId: KanbanColumnId, index: nat)
      modifies this`dragItem, this`draggedTaskId
      ensures Valid()
      ensures dragItem == Some(DragItem(taskId, sourceColId, index)) && draggedTaskId == Some(taskId)
    {
      dragItem := Some(DragItem(taskId, sourceColId, index));
      draggedTaskId := Some(taskId);
    }

    /** `handleDragEnter`: highlight the column under the pointer. */
    method DragEnter(destColId: KanbanColumnId)
      modifies this`isDraggingOverCol
      ensures isDraggingOverCol == Some(destColId)
    {
      isDraggingOverCol := Some(destColId);
    }

    /** `handleDragLeave`: clear the highlight. */
    method DragLeave()
      modifies this`isDraggingOverCol
      ensures isDraggingOverCol == None
    {
      isDraggingOverCol := None;
    }

    /** `handleDrop`: forward the recorded drag, if any, as a move to the drop
        column, then return to the idle state. */
    method Drop(destColumnId: KanbanColumnId, columns: Columns, onCard: bool) returns (request: Option<MoveRequest>)
      requires Valid() && WellFormedColumns(columns)
      modifies this
      ensures Valid() && Idle()
      ensures old(dragItem).None? ==> request.None?
      ensures old(dragItem).Some? ==>
        request == Some(MoveRequest(old(dragItem).value.taskId, old(dragItem).value.sourceColId, destColumnId,
                                    old(dragItem).value.index, DropIndex(columns, destColumnId, onCard)))
    {
      var destIndex := DropIndex(columns, destColumnId, onCard);
      request := None;
      if dragItem.Some? {
        var item := dragItem.value;
        request := Some(MoveRequest(item.taskId, item.sourceColId, destColumnId, item.index, destIndex));
      }
      dragItem := None;
      draggedTaskId := None;
      isDraggingOverCol := None;
    }
  }

  /** The add-task form in the "todo" column. */
  class AddTaskForm {
    var title: string
    var assigneeId: string
    var priority: TaskPriority
    var dueDate: string

    constructor()
      ensures title == "" && assigneeId == "" && priority == Media && dueDate == ""
    {
      title, assigneeId, priority, dueDate := "", "", Media, "";
    }

    /** `handleSubmit`: with title, assignee and due date all filled in, emit
        the task and clear the form (priority back to "Média"); otherwise emit
        nothing and keep the form. */
    method Submit() returns (added: Option<NewTask>)
      modifies this
      ensures old(title) != "" && old(assigneeId) != "" && old(dueDate) != "" ==>
        && added == Some(NewTask(old(title), old(assigneeId), old(priority), old(dueDate)))
        && title == "" && assigneeId == "" && priority == Media && dueDate == ""
      ensures !(old(title) != "" && old(assigneeId) != "" && old(dueDate) != "") ==>
        added == None && unchanged(this)
    {
      if title != "" && assigneeId != "" && dueDate != "" {
        added := Some(NewTask(title, assigneeId, priority, dueDate));
        title, assigneeId, priority, dueDate := "", "", Media, "";
      } else {
        added := None;
      }
    }
  }
}
