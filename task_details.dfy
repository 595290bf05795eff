/** The task edit dialog (`components/TaskDetailsModal.tsx`): a form seeded
    from a task and the validated record it saves. */
module TaskDetails {
  import opened Types
  import opened Collections
  import opened Board

  /** What `handleSubmit` hands to `onSave`: nothing unless title, assignee and
      due date are all filled in; otherwise the task with the four form values
      over it, keeping its id and its column. */
  function EditedTask(task: KanbanTask, title: string, assigneeId: string, priority: TaskPriority, dueDate: string)
    : (saved: Option<KanbanTask>)
    ensures saved.Some? <==> title != "" && assigneeId != "" && dueDate != ""
    ensures saved.Some? ==> saved.value.id == task.id && saved.value.column == task.column
    ensures saved.Some? ==>
      saved.value.title == title && saved.value.assigneeId == assigneeId
      && saved.value.priority == priority && saved.value.dueDate == dueDate
  {
    if title != "" && assigneeId != "" && dueDate != "" then
      Some(task.(title := title, assigneeId := assigneeId, priority := priority, dueDate := dueDate))
    else None
  }

  /** Saving the form untouched gives the task back. */
  lemma UneditedSaveIsIdentity(task: KanbanTask)
    requires task.title != "" && task.assigneeId != "" && task.dueDate != ""
    ensures EditedTask(task, task.title, task.assigneeId, task.priority, task.dueDate) == Some(task)
  {
  }

  /** Putting a saved task back in place of the original keeps single
      ownership: the edit changes neither the id nor the column. */
  lemma EditKeepsBoardInvariant(cols: Columns, tasks: seq<KanbanTask>, i: nat, saved: KanbanTask)
    requires BoardInvariant(cols, tasks) && i < |tasks|
    requires exists title, assigneeId, priority, dueDate ::
      EditedTask(tasks[i], title, assigneeId, priority, dueDate) == Some(saved)
    ensures BoardInvariant(cols, tasks[i := saved])
  {
    var tasks' := tasks[i := saved];
    assert TaskIds(tasks') == TaskIds(tasks);
    forall j | 0 <= j < |tasks'|
      ensures tasks'[j].id in cols[tasks'[j].column].taskIds
    {
      if j != i {
        assert tasks'[j] == tasks[j];
      }
    }
  }

  /** The dialog's form state: the task being edited and the four fields. */
  class TaskDetailsForm {
    var task: KanbanTask
    var title: string
    var assigneeId: string
    var priority: TaskPriority
    var dueDate: string

    /** The fields show the values of the task being edited. */
    predicate Synced()
      reads this
    {
      title == task.title && assigneeId == task.assigneeId && priority == task.priority && dueDate == task.dueDate
    }

    constructor(t: KanbanTask)
      ensures task == t && Synced()
    {
      task := t;
      title, assigneeId, priority, dueDate := t.title, t.assigneeId, t.priority, t.dueDate;
    }

    /** The effect that re-seeds the fields whenever the task changes. */
    method SyncFrom(t: KanbanTask)
      modifies this
      ensures task == t && Synced()
    {
      task := t;
      title, assigneeId, priority, dueDate := t.title, t.assigneeId, t.priority, t.dueDate;
    }

    /** `handleSubmit`: the record to save, if the form is complete; the form is not changed. */
    method Submit() returns (saved: Option<KanbanTask>)
      ensures saved == EditedTask(task, title, assigneeId, priority, dueDate)
      ensures saved.Some? ==> saved.value.id == task.id && saved.value.column == task.column
    {
      if title != "" && assigneeId != "" && dueDate != "" {
        saved := Some(task.(title := title, assigneeId := assigneeId, priority := priority, dueDate := dueDate));
      } else {
        saved := None;
      }
    }
  }
}
