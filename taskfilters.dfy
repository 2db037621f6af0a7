/** The decision rules of the filter bar (src/components/task/TaskFilters.tsx):
    toggling a status or priority in the selection, the search box, clearing,
    the sort selector and the active-filter badge. The panel's own state
    (search input, sort choice) is a class; the filters live in the store. */
module TaskFiltersUi {
  import opened Wrappers
  import opened Seqs
  import opened Types
  import opened TaskStore

  /** The selection after toggling `x`: every occurrence removed when it is
      selected, otherwise appended; an empty selection is stored as absent. */
  function Toggle<T(==)>(current: Option<seq<T>>, x: T): (r: Option<seq<T>>)
    ensures r.None? || |r.value| > 0
    ensures x in current.GetOr([]) ==>
      && IsSubseq(r.GetOr([]), current.GetOr([]))
      && (forall i :: 0 <= i < |r.GetOr([])| ==> r.GetOr([])[i] != x)
    ensures x !in current.GetOr([]) ==> r == Some(current.GetOr([]) + [x])
    ensures x in current.GetOr([]) ==>
      r == (if |Filter(current.value, y => y != x)| > 0 then Some(Filter(current.value, y => y != x)) else None)
  {
    var selected := current.GetOr([]);
    var next := if x in selected then Filter(selected, y => y != x) else selected + [x];
    FilterIsSubseq(selected, y => y != x);
    if |next| > 0 then Some(next) else None
  }

  /** Removing `x` keeps every other selected value. */
  lemma ToggleKeepsOthers<T>(current: Option<seq<T>>, x: T)
    ensures forall i :: 0 <= i < |current.GetOr([])| && current.GetOr([])[i] != x ==>
      current.GetOr([])[i] in Toggle(current, x).GetOr([])
  {
    FilterKeeps(current.GetOr([]), y => y != x);
  }

  /** Toggling a value that is not selected, twice, restores the selection
      (an explicit empty list excepted, which comes back absent). */
  lemma ToggleTwice<T>(current: Option<seq<T>>, x: T)
    requires x !in current.GetOr([])
    requires current != Some([])
    ensures Toggle(Toggle(current, x), x) == current
  {
    var selected := current.GetOr([]);
    FilterSnoc(selected, x, y => y != x);
    FilterAll(selected, y => y != x);
    var once := selected + [x];
    assert Toggle(current, x) == Some(once);
    assert x in once && Toggle(current, x).GetOr([]) == once;
    assert Filter(once, y => y != x) == selected;
    if selected == [] {
      assert current == None;
    } else {
      assert current == Some(selected);
    }
  }

  /** A selection without duplicates stays without duplicates. */
  lemma ToggleKeepsDistinct<T>(current: Option<seq<T>>, x: T)
    requires Distinct(current.GetOr([]))
    ensures Distinct(Toggle(current, x).GetOr([]))
  {
    FilterDistinct(current.GetOr([]), y => y != x);
  }

  /** The patch `handleStatusToggle` hands to `setFilters`. */
  function StatusTogglePatch(f: TaskFilters, s: TaskStatus): (p: FiltersPatch)
    ensures p.status == Some(Toggle(f.status, s)) && p.priority.None? && p.search.None?
  {
    FiltersPatch(Some(Toggle(f.status, s)), None, None)
  }

  function PriorityTogglePatch(f: TaskFilters, q: TaskPriority): (p: FiltersPatch)
    ensures p.priority == Some(Toggle(f.priority, q)) && p.status.None? && p.search.None?
  {
    FiltersPatch(None, Some(Toggle(f.priority, q)), None)
  }

  /** `{ search: value || undefined }`. */
  function SearchPatch(value: string): (p: FiltersPatch)
    ensures p.status.None? && p.priority.None?
    ensures p.search == Some(if value == "" then None else Some(value))
  {
    FiltersPatch(None, None, Some(if value == "" then None else Some(value)))
  }

  /** `activeFilterCount`: the number of selected statuses and priorities,
      plus one for a non-empty search. */
  function ActiveCount(f: TaskFilters): (n: nat)
    ensures n >= |f.status.GetOr([])| + |f.priority.GetOr([])|
  {
    |f.status.GetOr([])| + |f.priority.GetOr([])| + (if f.search.Some? && f.search.value != "" then 1 else 0)
  }

  /** The badge shows 0 exactly when no filter constrains the view. */
  lemma ActiveCountZeroIff(f: TaskFilters)
    ensures ActiveCount(f) == 0 <==> NoConstraints(f)
  {
  }

  /** Selecting one more status raises the count by one. */
  lemma ToggleOnCountsOne(f: TaskFilters, s: TaskStatus)
    requires s !in f.status.GetOr([])
    ensures ActiveCount(MergeFilters(f, StatusTogglePatch(f, s))) == ActiveCount(f) + 1
  {
  }

  /** Selecting one more priority raises the count by one. */
  lemma PriorityToggleOnCountsOne(f: TaskFilters, q: TaskPriority)
    requires q !in f.priority.GetOr([])
    ensures ActiveCount(MergeFilters(f, PriorityTogglePatch(f, q))) == ActiveCount(f) + 1
  {
  }

  /** Deselecting a status or a priority of a duplicate-free selection
      lowers the count by one. */
  lemma ToggleOffCountsDown(f: TaskFilters, s: TaskStatus, q: TaskPriority)
    requires Distinct(f.status.GetOr([])) && Distinct(f.priority.GetOr([]))
    ensures s in f.status.GetOr([]) ==>
      ActiveCount(MergeFilters(f, StatusTogglePatch(f, s))) == ActiveCount(f) - 1
    ensures q in f.priority.GetOr([]) ==>
      ActiveCount(MergeFilters(f, PriorityTogglePatch(f, q))) == ActiveCount(f) - 1
  {
    if s in f.status.GetOr([]) {
      FilterOutDistinct(f.status.GetOr([]), s);
    }
    if q in f.priority.GetOr([]) {
      FilterOutDistinct(f.priority.GetOr([]), q);
    }
  }

  /** The search box adds one to the count exactly when it holds text, on top
      of the selected statuses and priorities. */
  lemma SearchCountsOne(f: TaskFilters, value: string)
    ensures ActiveCount(MergeFilters(f, SearchPatch(value)))
         == |f.status.GetOr([])| + |f.priority.GetOr([])| + (if value != "" then 1 else 0)
  {
  }

  /** "Showing N tasks": every task, whatever the filters. */
  function ShowingCount(tasks: seq<Task>): (n: nat)
    ensures n == |tasks|
  {
    FilterAll(tasks, (t: Task) => true);
    |Filter(tasks, (t: Task) => true)|
  }

  datatype SortOption = DueDate | Priority | CreatedAt | Title
  datatype SortDirection = Asc | Desc

  datatype SortState = SortState(option: SortOption, direction: SortDirection)

  const InitialSort: SortState := SortState(CreatedAt, Desc)

  /** `handleSort`: the current option flips the direction; another option
      is selected ascending. */
  function NextSort(st: SortState, option: SortOption): (r: SortState)
    ensures r.option == option
    ensures option == st.option ==> r.direction != st.direction
    ensures option != st.option ==> r.direction == Asc
  {
    if st.option == option then SortState(option, if st.direction == Asc then Desc else Asc)
    else SortState(option, Asc)
  }

  /** Choosing the same option twice restores the state; choosing an option
      always ends on that option, whatever came before. */
  lemma NextSortTwice(st: SortState, option: SortOption)
    ensures NextSort(NextSort(st, st.option), st.option) == st
    ensures NextSort(NextSort(st, option), option).option == option
    ensures option != st.option ==> NextSort(NextSort(st, option), option) == SortState(option, Desc)
  {
  }

  /** The filter bar: its search input and sort choice, over the store. */
  class FilterPanel {
    const store: Store
    var searchInput: string
    var sort: SortState

    /** The search input starts from the stored search, the sort from
        created-at, descending. */
    constructor (store: Store)
      ensures this.store == store
      ensures searchInput == store.filters.search.GetOr("") && sort == InitialSort
    {
      this.store := store;
      searchInput := store.filters.search.GetOr("");
      sort := InitialSort;
    }

    method HandleSearchChange(value: string)
      modifies this, store
      ensures searchInput == value && sort == old(sort)
      ensures store.filters == MergeFilters(old(store.filters), SearchPatch(value))
      ensures store.tasks == old(store.tasks) && store.error == old(store.error) && store.isLoading == old(store.isLoading)
    {
      searchInput := value;
      store.SetFilters(SearchPatch(value));
    }

    method HandleStatusToggle(s: TaskStatus)
      modifies store
      ensures store.filters == old(store.filters).(status := Toggle(old(store.filters.status), s))
      ensures store.tasks == old(store.tasks) && store.error == old(store.error) && store.isLoading == old(store.isLoading)
    {
      store.SetFilters(StatusTogglePatch(store.filters, s));
    }

    method HandlePriorityToggle(q: TaskPriority)
      modifies store
      ensures store.filters == old(store.filters).(priority := Toggle(old(store.filters.priority), q))
      ensures store.tasks == old(store.tasks) && store.error == old(store.error) && store.isLoading == old(store.isLoading)
    {
      store.SetFilters(PriorityTogglePatch(store.filters, q));
    }

    method HandleClearFilters()
      modifies this, store
      ensures searchInput == "" && sort == old(sort)
      ensures store.filters == NoFilters
      ensures store.tasks == old(store.tasks) && store.error == old(store.error) && store.isLoading == old(store.isLoading)
    {
      searchInput := "";
      store.ClearFilters();
    }

    method HandleSort(option: SortOption)
      modifies this
      ensures sort == NextSort(old(sort), option) && searchInput == old(searchInput)
    {
      if sort.option == option {
        sort := sort.(direction := if sort.direction == Asc then Desc else Asc);
      } else {
        sort := SortState(option, Asc);
      }
    }

    /** The badge's number for the store's current filters. */
    function ActiveFilterCount(): (n: nat)
      reads store
      ensures n == 0 <==> NoConstraints(store.filters)
    {
      ActiveCountZeroIff(store.filters);
      ActiveCount(store.filters)
    }
  }
}
