/** The board's columns and its drag-and-drop and create handlers
    (src/components/task/TaskBoard.tsx). The board shows the three status
    columns of the store's filtered view; the handlers decide, from the
    dragged id and the drop target, which single store call to make. */
module TaskBoardUi {
  import opened Wrappers
  import opened Seqs
  import opened Types
  import opened TaskStore

  datatype Column = Column(id: TaskStatus, title: string, color: string)

  /** `COLUMNS`. */
  const Columns: seq<Column> := [
    Column(ToDo, "To Do", "bg-gray-50 border-gray-200"),
    Column(InProgress, "In Progress", "bg-blue-50 border-blue-200"),
    Column(Done, "Done", "bg-green-50 border-green-200")]

  /** The columns are the three statuses in their declared order, each
      titled with its status name. */
  lemma ColumnsAreStatuses()
    ensures |Columns| == |AllStatuses| == 3
    ensures forall i :: 0 <= i < 3 ==> Columns[i].id == AllStatuses[i] && Columns[i].title == Columns[i].id.Name()
  {
  }

  /** The tasks on the board: the columns' tasks, column after column
      (`COLUMNS.flatMap(column => getTasksByStatus(column.id))`). */
  function BoardTasks(ts: seq<Task>, f: TaskFilters): (r: seq<Task>)
    ensures multiset(r) == multiset(FilteredTasks(ts, f))
  {
    ColumnsPartitionFiltered(ts, f);
    TasksByStatus(ts, f, Columns[0].id) + TasksByStatus(ts, f, Columns[1].id) + TasksByStatus(ts, f, Columns[2].id)
  }

  /** `find(task => task.id === id)`: the first task with that id. */
  function FindById(s: seq<Task>, id: string): (r: Option<Task>)
    ensures r.None? <==> forall i :: 0 <= i < |s| ==> s[i].id != id
    ensures r.Some? ==> exists k :: 0 <= k < |s| && s[k] == r.value && r.value.id == id
                                    && forall i :: 0 <= i < k ==> s[i].id != id
  {
    if s == [] then None
    else if s[0].id == id then Some(s[0])
    else
      var r := FindById(s[1..], id);
      assert forall i :: 1 <= i < |s| ==> s[i] == s[1..][i - 1];
      r
  }

  /** `COLUMNS.find(column => column.id === overId)`. */
  function ColumnWithId(overId: string): (r: Option<TaskStatus>)
    ensures r.Some? ==> r.value.Name() == overId
    ensures r.None? ==> forall s: TaskStatus :: s.Name() != overId
  {
    if Columns[0].id.Name() == overId then Some(Columns[0].id)
    else if Columns[1].id.Name() == overId then Some(Columns[1].id)
    else if Columns[2].id.Name() == overId then Some(Columns[2].id)
    else None
  }

  /** The status a drop gives the dragged task, or None when the drop makes
      no store call: no target; a column target gives that column; a task
      target other than the dragged one gives that task's status. */
  function DropStatus(board: seq<Task>, activeId: string, over: Option<string>): (r: Option<TaskStatus>)
    ensures over.None? ==> r.None?
    ensures over.Some? && ColumnWithId(over.value).Some? ==> r == ColumnWithId(over.value)
    ensures over.Some? && ColumnWithId(over.value).None? ==>
      r == (if FindById(board, over.value).Some? && activeId != over.value
            then Some(FindById(board, over.value).value.status) else None)
  {
    if over.None? then None
    else
      var overId := over.value;
      var overColumn := ColumnWithId(overId);
      if overColumn.Some? then overColumn
      else
        var overTask := FindById(board, overId);
        if overTask.Some? && activeId != overId then Some(overTask.value.status) else None
  }

  /** Dropping a task onto itself, or onto an id that is neither a column
      nor a task on the board, changes nothing; dropping onto a task on the
      board takes over that task's status, which is its column's. */
  lemma DropOntoTasks(ts: seq<Task>, f: TaskFilters, activeId: string, overId: string)
    requires ColumnWithId(overId).None?
    ensures activeId == overId ==> DropStatus(BoardTasks(ts, f), activeId, Some(overId)).None?
    ensures (forall i :: 0 <= i < |ts| ==> ts[i].id != overId) ==>
      DropStatus(BoardTasks(ts, f), activeId, Some(overId)).None?
    ensures activeId != overId && FindById(BoardTasks(ts, f), overId).Some? ==>
      && DropStatus(BoardTasks(ts, f), activeId, Some(overId)) == Some(FindById(BoardTasks(ts, f), overId).value.status)
      && FindById(BoardTasks(ts, f), overId).value in FilteredTasks(ts, f)
  {
    var board := BoardTasks(ts, f);
    if forall i :: 0 <= i < |ts| ==> ts[i].id != overId {
      forall k | 0 <= k < |board| ensures board[k].id != overId {
        assert board[k] in multiset(FilteredTasks(ts, f));
        FilterMembers(ts, (t: Task) => Matches(f, t));
      }
    }
    if FindById(board, overId).Some? {
      var k :| 0 <= k < |board| && board[k] == FindById(board, overId).value;
      assert board[k] in multiset(FilteredTasks(ts, f));
    }
  }

  /** The task list after a drop: unchanged without a store call, otherwise
      `updateTaskStatus(activeId, status)`. */
  function AfterDrop(ts: seq<Task>, f: TaskFilters, activeId: string, over: Option<string>, now: string): (r: seq<Task>)
    ensures |r| == |ts|
    ensures forall i :: 0 <= i < |ts| && ts[i].id != activeId ==> r[i] == ts[i]
    ensures DropStatus(BoardTasks(ts, f), activeId, over).None? ==> r == ts
    ensures DropStatus(BoardTasks(ts, f), activeId, over).Some? ==>
      forall i :: 0 <= i < |ts| && ts[i].id == activeId ==>
        r[i] == ts[i].(status := DropStatus(BoardTasks(ts, f), activeId, over).value, updatedAt := now)
  {
    var d := DropStatus(BoardTasks(ts, f), activeId, over);
    if d.Some? then SetStatusById(ts, activeId, d.value, now) else ts
  }

  /** The board: the create dialog's visibility and the task being dragged,
      over the store. */
  class Board {
    const store: Store
    var isCreateModalOpen: bool
    var activeTask: Option<Task>

    constructor (store: Store)
      ensures this.store == store && !isCreateModalOpen && activeTask == None
    {
      this.store := store;
      isCreateModalOpen := false;
      activeTask := None;
    }

    /** The columns' tasks, column after column, as the store returns them. */
    method VisibleTasks() returns (r: seq<Task>)
      ensures r == BoardTasks(store.tasks, store.filters)
    {
      var toDo := store.GetTasksByStatus(Columns[0].id);
      var inProgress := store.GetTasksByStatus(Columns[1].id);
      var done := store.GetTasksByStatus(Columns[2].id);
      r := toDo + inProgress + done;
    }

    /** `handleDragStart`: records the dragged task when it is on the board,
        nothing otherwise. */
    method HandleDragStart(activeId: string)
      modifies this
      ensures activeTask == FindById(BoardTasks(store.tasks, store.filters), activeId)
      ensures isCreateModalOpen == old(isCreateModalOpen)
    {
      var board := VisibleTasks();
      activeTask := FindById(board, activeId);
    }

    /** `handleDragEnd`: clears the dragged task and makes at most one store
        call, a status change of the dragged id. */
    method HandleDragEnd(activeId: string, over: Option<string>, now: string)
      modifies this, store
      ensures activeTask == None && isCreateModalOpen == old(isCreateModalOpen)
      ensures store.tasks == AfterDrop(old(store.tasks), old(store.filters), activeId, over, now)
      ensures store.filters == old(store.filters) && store.isLoading == old(store.isLoading)
      ensures DropStatus(BoardTasks(old(store.tasks), old(store.filters)), activeId, over).Some? ==> store.error == None
      ensures DropStatus(BoardTasks(old(store.tasks), old(store.filters)), activeId, over).None? ==>
        store.error == old(store.error)
    {
      activeTask := None;
      if over.None? {
        return;
      }
      var overId := over.value;
      var overColumn := ColumnWithId(overId);
      if overColumn.Some? {
        store.UpdateTaskStatus(activeId, overColumn.value, now);
        return;
      }
      var board := VisibleTasks();
      var overTask := FindById(board, overId);
      if overTask.Some? && activeId != overId {
        store.UpdateTaskStatus(activeId, overTask.value.status, now);
      }
    }

    /** `handleCreateTask`: one `addTask` with the form values, then the
        dialog closes. */
    method HandleCreateTask(data: TaskFormData, id: string, createdAt: string, updatedAt: string)
      modifies this, store
      ensures store.tasks == old(store.tasks) + [NewTask(data, id, createdAt, updatedAt)]
      ensures store.filters == old(store.filters) && store.error == None && store.isLoading == old(store.isLoading)
      ensures !isCreateModalOpen && activeTask == old(activeTask)
    {
      store.AddTask(data, id, createdAt, updatedAt);
      isCreateModalOpen := false;
    }
  }
}
