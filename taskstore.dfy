/** The in-memory task store (src/app/store/taskStore.ts): a task list and a
    filter record that the actions replace, and the filtered views the board
    displays. The clock (`new Date().toISOString()`) and `uuidv4()` are
    parameters: each reading of the clock and each fresh id is passed in. */
module TaskStore {
  import opened Wrappers
  import opened Seqs
  import opened JsString
  import opened Types

  /** `Partial<TaskFormValues>`: a present key (Some) overwrites the task's
      field. For the optional fields the present value may itself be
      `undefined` (Some(None)), which clears the field. */
  datatype TaskPatch = TaskPatch(
    title: Option<string>,
    description: Option<Option<string>>,
    status: Option<TaskStatus>,
    priority: Option<TaskPriority>,
    dueDate: Option<Option<string>>,
    assignee: Option<Option<string>>)

  /** `Partial<TaskFilters>`: a present key overwrites the filter field, even
      when its value is `undefined` (Some(None)). */
  datatype FiltersPatch = FiltersPatch(
    status: Option<Option<seq<TaskStatus>>>,
    priority: Option<Option<seq<TaskPriority>>>,
    search: Option<Option<string>>)

  /** The task `addTask` builds: a fresh id, the form fields, and two clock
      readings. */
  function NewTask(data: TaskFormData, id: string, createdAt: string, updatedAt: string): Task {
    Task(id, data.title, data.description, data.status, data.priority,
         data.dueDate, data.assignee, createdAt, updatedAt)
  }

  /** The four seed tasks, with their four generated ids, the eight clock
      readings taken while the list is built (a creation and an update
      reading per task, in order), and the date two days ahead, which only
      the second task carries as its due date. */
  function InitialTasks(ids: seq<string>, stamps: seq<string>, inTwoDays: string): (r: seq<Task>)
    requires |ids| == 4 && |stamps| == 8
    ensures |r| == 4
    ensures forall i :: 0 <= i < 4 ==>
      && r[i].id == ids[i]
      && r[i].createdAt == stamps[2 * i] && r[i].updatedAt == stamps[2 * i + 1]
      && (r[i].dueDate.Some? <==> i == 1)
    ensures r[1].dueDate == Some(inTwoDays)
  {
    [ Task(ids[0], "Setup project structure",
           Some("Initialize Next.js project with all required dependencies"),
           Done, High, None, Some("John Doe"), stamps[0], stamps[1]),
      Task(ids[1], "Implement task CRUD operations",
           Some("Create, read, update, and delete functionality for tasks"),
           InProgress, High, Some(inTwoDays), Some("Jane Smith"), stamps[2], stamps[3]),
      Task(ids[2], "Add drag and drop functionality",
           Some("Implement drag and drop between task columns"),
           ToDo, Medium, None, Some("Bob Johnson"), stamps[4], stamps[5]),
      Task(ids[3], "Create recipe page",
           Some("Implement bonus recipe feature with API integration"),
           ToDo, Low, None, None, stamps[6], stamps[7]) ]
  }

  /** `{ ...task, ...patch, updatedAt: now }`. */
  function ApplyPatch(t: Task, p: TaskPatch, now: string): (r: Task)
    ensures r.id == t.id && r.createdAt == t.createdAt && r.updatedAt == now
    ensures r.title == (if p.title.Some? then p.title.value else t.title)
    ensures r.description == (if p.description.Some? then p.description.value else t.description)
    ensures r.status == (if p.status.Some? then p.status.value else t.status)
    ensures r.priority == (if p.priority.Some? then p.priority.value else t.priority)
    ensures r.dueDate == (if p.dueDate.Some? then p.dueDate.value else t.dueDate)
    ensures r.assignee == (if p.assignee.Some? then p.assignee.value else t.assignee)
  {
    t.(title := p.title.GetOr(t.title),
       description := p.description.GetOr(t.description),
       status := p.status.GetOr(t.status),
       priority := p.priority.GetOr(t.priority),
       dueDate := p.dueDate.GetOr(t.dueDate),
       assignee := p.assignee.GetOr(t.assignee),
       updatedAt := now)
  }

  /** Applying the same patch again changes nothing but the timestamp. */
  lemma ApplyPatchIdempotent(t: Task, p: TaskPatch, now1: string, now2: string)
    ensures ApplyPatch(ApplyPatch(t, p, now1), p, now2) == ApplyPatch(t, p, now2)
  {
  }

  /** The list after `updateTask(id, p)`. */
  function UpdateById(ts: seq<Task>, id: string, p: TaskPatch, now: string): (r: seq<Task>)
    ensures |r| == |ts|
    ensures forall i :: 0 <= i < |ts| && ts[i].id == id ==> r[i] == ApplyPatch(ts[i], p, now)
    ensures forall i :: 0 <= i < |ts| && ts[i].id != id ==> r[i] == ts[i]
  {
    Map(ts, (t: Task) => if t.id == id then ApplyPatch(t, p, now) else t)
  }

  function Ids(ts: seq<Task>): seq<string> {
    Map(ts, (t: Task) => t.id)
  }

  predicate HasId(ts: seq<Task>, id: string) {
    exists i :: 0 <= i < |ts| && ts[i].id == id
  }

  /** Updating keeps the ids in their order, so the length and order of the
      list are kept; with an unknown id the list is unchanged. */
  lemma UpdateKeepsIds(ts: seq<Task>, id: string, p: TaskPatch, now: string)
    ensures Ids(UpdateById(ts, id, p, now)) == Ids(ts)
    ensures !HasId(ts, id) ==> UpdateById(ts, id, p, now) == ts
  {
    var r := UpdateById(ts, id, p, now);
    assert forall i :: 0 <= i < |ts| ==> Ids(r)[i] == Ids(ts)[i];
    if !HasId(ts, id) {
      assert forall i :: 0 <= i < |ts| ==> r[i] == ts[i];
    }
  }

  /** The list after `deleteTask(id)`. */
  function DeleteById(ts: seq<Task>, id: string): (r: seq<Task>)
    ensures IsSubseq(r, ts)
    ensures forall i :: 0 <= i < |r| ==> r[i].id != id
    ensures forall i :: 0 <= i < |ts| && ts[i].id != id ==> ts[i] in r
    ensures forall t :: multiset(r)[t] == (if t.id != id then multiset(ts)[t] else 0)
  {
    FilterCount(ts, (t: Task) => t.id != id);
    FilterIsSubseq(ts, (t: Task) => t.id != id);
    FilterKeeps(ts, (t: Task) => t.id != id);
    Filter(ts, (t: Task) => t.id != id)
  }

  /** Deleting is idempotent, and deleting an unknown id changes nothing. */
  lemma DeleteIdempotent(ts: seq<Task>, id: string)
    ensures DeleteById(DeleteById(ts, id), id) == DeleteById(ts, id)
    ensures !HasId(ts, id) ==> DeleteById(ts, id) == ts
  {
    FilterIdempotent(ts, (t: Task) => t.id != id);
    if !HasId(ts, id) {
      FilterAll(ts, (t: Task) => t.id != id);
    }
  }

  /** The list after `updateTaskStatus(id, status)`. */
  function SetStatusById(ts: seq<Task>, id: string, status: TaskStatus, now: string): (r: seq<Task>)
    ensures |r| == |ts|
    ensures forall i :: 0 <= i < |ts| && ts[i].id == id ==> r[i] == ts[i].(status := status, updatedAt := now)
    ensures forall i :: 0 <= i < |ts| && ts[i].id != id ==> r[i] == ts[i]
  {
    Map(ts, (t: Task) => if t.id == id then t.(status := status, updatedAt := now) else t)
  }

  /** A status change touches only `status` and `updatedAt` of the tasks with
      that id; setting the same status twice is the same as setting it once
      with the later timestamp. */
  lemma SetStatusOnlyStatusAndTime(ts: seq<Task>, id: string, s: TaskStatus, now1: string, now2: string)
    ensures forall i :: 0 <= i < |ts| ==>
      SetStatusById(ts, id, s, now1)[i].(status := ts[i].status, updatedAt := ts[i].updatedAt) == ts[i]
    ensures forall i :: 0 <= i < |ts| && ts[i].id == id ==> SetStatusById(ts, id, s, now1)[i].status == s
    ensures SetStatusById(SetStatusById(ts, id, s, now1), id, s, now2) == SetStatusById(ts, id, s, now2)
  {
    var once := SetStatusById(ts, id, s, now1);
    var twice := SetStatusById(once, id, s, now2);
    assert forall i :: 0 <= i < |ts| ==> twice[i] == SetStatusById(ts, id, s, now2)[i];
  }

  /** `{ ...filters, ...p }`. */
  function MergeFilters(f: TaskFilters, p: FiltersPatch): (r: TaskFilters)
    ensures r.status == (if p.status.Some? then p.status.value else f.status)
    ensures r.priority == (if p.priority.Some? then p.priority.value else f.priority)
    ensures r.search == (if p.search.Some? then p.search.value else f.search)
  {
    TaskFilters(p.status.GetOr(f.status), p.priority.GetOr(f.priority), p.search.GetOr(f.search))
  }

  /** Merging the same patch twice is merging it once; merging `{}` changes
      nothing. */
  lemma MergeFiltersIdempotent(f: TaskFilters, p: FiltersPatch)
    ensures MergeFilters(MergeFilters(f, p), p) == MergeFilters(f, p)
    ensures MergeFilters(f, FiltersPatch(None, None, None)) == f
  {
  }

  // The three filter dimensions. An absent or empty list, and an absent or
  // empty search string, impose no constraint.

  predicate StatusOk(f: TaskFilters, t: Task) {
    f.status.None? || |f.status.value| == 0 || t.status in f.status.value
  }

  predicate PriorityOk(f: TaskFilters, t: Task) {
    f.priority.None? || |f.priority.value| == 0 || t.priority in f.priority.value
  }

  /** `q` (already lower-cased) occurs in the lower-cased title, description
      or assignee. */
  predicate SearchHit(t: Task, q: string) {
    || Includes(Lower(t.title), q)
    || (t.description.Some? && Includes(Lower(t.description.value), q))
    || (t.assignee.Some? && Includes(Lower(t.assignee.value), q))
  }

  predicate SearchOk(f: TaskFilters, t: Task) {
    f.search.None? || f.search.value == "" || SearchHit(t, Lower(f.search.value))
  }

  predicate Matches(f: TaskFilters, t: Task) {
    StatusOk(f, t) && PriorityOk(f, t) && SearchOk(f, t)
  }

  predicate NoConstraints(f: TaskFilters) {
    && (f.status.None? || |f.status.value| == 0)
    && (f.priority.None? || |f.priority.value| == 0)
    && (f.search.None? || f.search.value == "")
  }

  /** The filtered view, in one pass: the tasks, in list order, that meet all
      three dimensions. */
  function FilteredTasks(ts: seq<Task>, f: TaskFilters): (r: seq<Task>)
    ensures IsSubseq(r, ts)
    ensures forall i :: 0 <= i < |r| ==> Matches(f, r[i])
    ensures forall i :: 0 <= i < |ts| && Matches(f, ts[i]) ==> ts[i] in r
    ensures forall t :: multiset(r)[t] == (if Matches(f, t) then multiset(ts)[t] else 0)
  {
    FilterCount(ts, (t: Task) => Matches(f, t));
    FilterIsSubseq(ts, (t: Task) => Matches(f, t));
    FilterKeeps(ts, (t: Task) => Matches(f, t));
    Filter(ts, (t: Task) => Matches(f, t))
  }

  lemma NoConstraintsShowsAll(ts: seq<Task>, f: TaskFilters)
    requires NoConstraints(f)
    ensures FilteredTasks(ts, f) == ts
  {
    FilterAll(ts, (t: Task) => Matches(f, t));
  }

  /** A column: the filtered view restricted to one status. */
  function TasksByStatus(ts: seq<Task>, f: TaskFilters, s: TaskStatus): (r: seq<Task>)
    ensures IsSubseq(r, FilteredTasks(ts, f))
    ensures forall i :: 0 <= i < |r| ==> r[i].status == s && Matches(f, r[i])
  {
    var shown := FilteredTasks(ts, f);
    FilterIsSubseq(shown, (t: Task) => t.status == s);
    FilterFilter(ts, (t: Task) => Matches(f, t), (t: Task) => t.status == s,
                 (t: Task) => Matches(f, t) && t.status == s);
    Filter(shown, (t: Task) => t.status == s)
  }

  /** Every task that meets the filters and has status `s` is in column `s`. */
  lemma ColumnHoldsMatching(ts: seq<Task>, f: TaskFilters, s: TaskStatus)
    ensures forall i :: 0 <= i < |ts| && Matches(f, ts[i]) && ts[i].status == s ==> ts[i] in TasksByStatus(ts, f, s)
  {
    FilterFilter(ts, (t: Task) => Matches(f, t), (t: Task) => t.status == s,
                 (t: Task) => Matches(f, t) && t.status == s);
    FilterKeeps(ts, (t: Task) => Matches(f, t) && t.status == s);
  }

  /** The three columns together hold the filtered view, each task once. */
  lemma ColumnsPartitionFiltered(ts: seq<Task>, f: TaskFilters)
    ensures multiset(TasksByStatus(ts, f, ToDo)) + multiset(TasksByStatus(ts, f, InProgress))
          + multiset(TasksByStatus(ts, f, Done)) == multiset(FilteredTasks(ts, f))
  {
    FilterSplit3(FilteredTasks(ts, f), (t: Task) => t.status == ToDo,
                 (t: Task) => t.status == InProgress, (t: Task) => t.status == Done);
  }

  /** The board as first shown: tasks three and four in To Do, the second
      in In Progress, the first in Done. */
  lemma SeedColumns(ids: seq<string>, stamps: seq<string>, inTwoDays: string)
    requires |ids| == 4 && |stamps| == 8
    ensures var ts := InitialTasks(ids, stamps, inTwoDays);
      && TasksByStatus(ts, NoFilters, ToDo) == [ts[2], ts[3]]
      && TasksByStatus(ts, NoFilters, InProgress) == [ts[1]]
      && TasksByStatus(ts, NoFilters, Done) == [ts[0]]
  {
    var ts := InitialTasks(ids, stamps, inTwoDays);
    NoConstraintsShowsAll(ts, NoFilters);
    assert SeedShaped(ts);
    SeedToDo(ts);
    SeedInProgress(ts);
    SeedDone(ts);
  }

  // The columns of any four tasks with the seed's statuses, one column at a
  // time.

  predicate SeedShaped(ts: seq<Task>) {
    |ts| == 4 && ts[0].status == Done && ts[1].status == InProgress && ts[2].status == ToDo && ts[3].status == ToDo
  }

  lemma SeedToDo(ts: seq<Task>)
    requires SeedShaped(ts)
    ensures Filter(ts, (t: Task) => t.status == ToDo) == [ts[2], ts[3]]
  {
    assert ts[1..][1..] == ts[2..] && ts[2..][1..] == ts[3..] && ts[3..][1..] == [];
    assert Filter(ts[3..], (t: Task) => t.status == ToDo) == [ts[3]];
    assert Filter(ts[2..], (t: Task) => t.status == ToDo) == [ts[2], ts[3]];
  }

  lemma SeedInProgress(ts: seq<Task>)
    requires SeedShaped(ts)
    ensures Filter(ts, (t: Task) => t.status == InProgress) == [ts[1]]
  {
    assert ts[1..][1..] == ts[2..] && ts[2..][1..] == ts[3..] && ts[3..][1..] == [];
    assert Filter(ts[3..], (t: Task) => t.status == InProgress) == [];
    assert Filter(ts[2..], (t: Task) => t.status == InProgress) == [];
  }

  lemma SeedDone(ts: seq<Task>)
    requires SeedShaped(ts)
    ensures Filter(ts, (t: Task) => t.status == Done) == [ts[0]]
  {
    assert ts[1..][1..] == ts[2..] && ts[2..][1..] == ts[3..] && ts[3..][1..] == [];
    assert Filter(ts[3..], (t: Task) => t.status == Done) == [];
    assert Filter(ts[2..], (t: Task) => t.status == Done) == [];
    assert Filter(ts[1..], (t: Task) => t.status == Done) == [];
  }

  /** A task added with a fresh id shows up exactly once in an unfiltered
      view. */
  lemma AddedTaskShownOnce(ts: seq<Task>, f: TaskFilters, data: TaskFormData, id: string, c1: string, c2: string)
    requires !HasId(ts, id)
    requires NoConstraints(f)
    ensures multiset(FilteredTasks(ts + [NewTask(data, id, c1, c2)], f))[NewTask(data, id, c1, c2)] == 1
  {
    var t := NewTask(data, id, c1, c2);
    NoConstraintsShowsAll(ts + [t], f);
    assert t !in ts;
    assert multiset(ts)[t] == 0;
    assert multiset(ts + [t]) == multiset(ts) + multiset{t};
  }

  class Store {
    var tasks: seq<Task>
    var filters: TaskFilters
    var isLoading: bool
    var error: Option<string>

    /** The store as created: the seed tasks and no filters. */
    constructor (ids: seq<string>, stamps: seq<string>, inTwoDays: string)
      requires |ids| == 4 && |stamps| == 8
      ensures tasks == InitialTasks(ids, stamps, inTwoDays)
      ensures filters == NoFilters && !isLoading && error == None
    {
      tasks := InitialTasks(ids, stamps, inTwoDays);
      filters := NoFilters;
      isLoading := false;
      error := None;
    }

    /** Appends one task built from the form, clears `error`. */
    method AddTask(data: TaskFormData, id: string, createdAt: string, updatedAt: string)
      modifies this
      ensures |tasks| == |old(tasks)| + 1 && tasks[..|old(tasks)|] == old(tasks)
      ensures tasks[|old(tasks)|] == NewTask(data, id, createdAt, updatedAt)
      ensures filters == old(filters) && isLoading == old(isLoading) && error == None
    {
      tasks := tasks + [NewTask(data, id, createdAt, updatedAt)];
      error := None;
    }

    method UpdateTask(id: string, patch: TaskPatch, now: string)
      modifies this
      ensures tasks == UpdateById(old(tasks), id, patch, now)
      ensures filters == old(filters) && isLoading == old(isLoading) && error == None
    {
      tasks := UpdateById(tasks, id, patch, now);
      error := None;
    }

    method DeleteTask(id: string)
      modifies this
      ensures tasks == DeleteById(old(tasks), id)
      ensures filters == old(filters) && isLoading == old(isLoading) && error == None
    {
      tasks := DeleteById(tasks, id);
      error := None;
    }

    method UpdateTaskStatus(id: string, status: TaskStatus, now: string)
      modifies this
      ensures tasks == SetStatusById(old(tasks), id, status, now)
      ensures filters == old(filters) && isLoading == old(isLoading) && error == None
    {
      tasks := SetStatusById(tasks, id, status, now);
      error := None;
    }

    /** Merges into the filters; the tasks and `error` are left alone. */
    method SetFilters(p: FiltersPatch)
      modifies this
      ensures filters == MergeFilters(old(filters), p)
      ensures tasks == old(tasks) && isLoading == old(isLoading) && error == old(error)
    {
      filters := MergeFilters(filters, p);
    }

    method ClearFilters()
      modifies this
      ensures filters == NoFilters
      ensures tasks == old(tasks) && isLoading == old(isLoading) && error == old(error)
    {
      filters := NoFilters;
    }

    /** `getFilteredTasks`: three guarded filter steps over a copy of the
        list, equal to the one-pass view. */
    method GetFilteredTasks() returns (r: seq<Task>)
      ensures r == FilteredTasks(tasks, filters)
    {
      var f := filters;
      ghost var ts := tasks;
      ghost var sOk := (t: Task) => StatusOk(f, t);
      ghost var pOk := (t: Task) => PriorityOk(f, t);
      ghost var spOk := (t: Task) => StatusOk(f, t) && PriorityOk(f, t);
      ghost var qOk := (t: Task) => SearchOk(f, t);
      r := tasks;

      if f.status.Some? && |f.status.value| > 0 {
        var wanted := f.status.value;
        FilterExt(r, (t: Task) => t.status in wanted, sOk);
        r := Filter(r, (t: Task) => t.status in wanted);
      } else {
        FilterAll(r, sOk);
      }
      assert r == Filter(ts, sOk);

      if f.priority.Some? && |f.priority.value| > 0 {
        var wanted := f.priority.value;
        FilterExt(r, (t: Task) => t.priority in wanted, pOk);
        r := Filter(r, (t: Task) => t.priority in wanted);
      } else {
        FilterAll(r, pOk);
      }
      FilterFilter(ts, sOk, pOk, spOk);
      assert r == Filter(ts, spOk);

      if f.search.Some? && f.search.value != "" {
        var searchLower := Lower(f.search.value);
        FilterExt(r, (t: Task) => SearchHit(t, searchLower), qOk);
        r := Filter(r, (t: Task) => SearchHit(t, searchLower));
      } else {
        FilterAll(r, qOk);
      }
      FilterFilter(ts, spOk, qOk, (t: Task) => Matches(f, t));
    }

    /** `getTasksByStatus`: the filtered view narrowed to one status. */
    method GetTasksByStatus(status: TaskStatus) returns (r: seq<Task>)
      ensures r == TasksByStatus(tasks, filters, status)
    {
      var shown := GetFilteredTasks();
      r := Filter(shown, (t: Task) => t.status == status);
    }
  }
}
