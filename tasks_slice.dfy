/**
  The tasks slice of the client store: a cache of the task list, one detail
  record, loading and error flags, filters and a page cursor. Every reducer
  case of the slice is one method that updates the store in place.
 */
module TasksSlice {
  import opened Js
  import opened Types
  import Lists

  datatype TaskFilters = TaskFilters(search: string, status: string)

  /** `Partial<TaskFilters>`: a key that is absent leaves the current value. */
  datatype FiltersPatch = FiltersPatch(search: Option<string>, status: Option<string>)

  const InitialFilters := TaskFilters("", "all")

  /** `{ ...filters, ...patch }`. */
  function MergeFilters(f: TaskFilters, patch: FiltersPatch): (r: TaskFilters)
    ensures r.search == (if patch.search.Some? then patch.search.value else f.search)
    ensures r.status == (if patch.status.Some? then patch.status.value else f.status)
  {
    TaskFilters(
      if patch.search.Some? then patch.search.value else f.search,
      if patch.status.Some? then patch.status.value else f.status)
  }

  predicate HasId(t: Task, id: string) { t.id == id }

  /** Number of cached tasks carrying `id`. */
  function Matching(tasks: seq<Task>, id: string): nat
  {
    Lists.Count(tasks, (t: Task) => HasId(t, id))
  }

  /** `tasks.filter(t => t.id !== id)`. */
  function WithoutId(tasks: seq<Task>, id: string): seq<Task>
  {
    Lists.FilterOut(tasks, (t: Task) => HasId(t, id))
  }

  class TasksStore {
    var tasks: seq<Task>
    var currentTask: Option<Task>
    var loading: bool
    var error: Option<string>
    var filters: TaskFilters
    var totalTasks: int
    var currentPage: int
    var itemsPerPage: int

    /** The counter agrees with the cached list. */
    predicate CounterInSync()
      reads this
    {
      totalTasks == |tasks|
    }

    /** `initialState`. */
    constructor ()
      ensures tasks == [] && currentTask == None && !loading && error == None
      ensures filters == InitialFilters && totalTasks == 0
      ensures currentPage == 1 && itemsPerPage == 10
      ensures CounterInSync()
    {
      tasks := [];
      currentTask := None;
      loading := false;
      error := None;
      filters := InitialFilters;
      totalTasks := 0;
      currentPage := 1;
      itemsPerPage := 10;
    }

    method ClearError()
      modifies this
      ensures error == None
      ensures tasks == old(tasks) && currentTask == old(currentTask) && loading == old(loading)
      ensures filters == old(filters) && totalTasks == old(totalTasks)
      ensures currentPage == old(currentPage) && itemsPerPage == old(itemsPerPage)
    {
      error := None;
    }

    method SetFilters(patch: FiltersPatch)
      modifies this
      ensures filters == MergeFilters(old(filters), patch)
      ensures patch == FiltersPatch(None, None) ==> filters == old(filters)
      ensures tasks == old(tasks) && currentTask == old(currentTask) && loading == old(loading)
      ensures error == old(error) && totalTasks == old(totalTasks)
      ensures currentPage == old(currentPage) && itemsPerPage == old(itemsPerPage)
    {
      filters := MergeFilters(filters, patch);
    }

    method ClearFilters()
      modifies this
      ensures filters == InitialFilters
      ensures tasks == old(tasks) && currentTask == old(currentTask) && loading == old(loading)
      ensures error == old(error) && totalTasks == old(totalTasks)
      ensures currentPage == old(currentPage) && itemsPerPage == old(itemsPerPage)
    {
      filters := TaskFilters("", "all");
    }

    method SetCurrentPage(page: int)
      modifies this
      ensures currentPage == page
      ensures tasks == old(tasks) && currentTask == old(currentTask) && loading == old(loading)
      ensures error == old(error) && filters == old(filters) && totalTasks == old(totalTasks)
      ensures itemsPerPage == old(itemsPerPage)
    {
      currentPage := page;
    }

    method SetItemsPerPage(size: int)
      modifies this
      ensures itemsPerPage == size && currentPage == 1
      ensures tasks == old(tasks) && currentTask == old(currentTask) && loading == old(loading)
      ensures error == old(error) && filters == old(filters) && totalTasks == old(totalTasks)
    {
      itemsPerPage := size;
      currentPage := 1;
    }

    method ClearCurrentTask()
      modifies this
      ensures currentTask == None
      ensures tasks == old(tasks) && loading == old(loading) && error == old(error)
      ensures filters == old(filters) && totalTasks == old(totalTasks)
      ensures currentPage == old(currentPage) && itemsPerPage == old(itemsPerPage)
    {
      currentTask := None;
    }

    /** The `pending` case of fetchTasks, fetchTaskById, createTask, updateTask
        and deleteTask (toggleTaskCompleted and fetchTasksByUser have none). */
    method Pending()
      modifies this
      ensures loading && error == None
      ensures tasks == old(tasks) && currentTask == old(currentTask)
      ensures totalTasks == old(totalTasks) && filters == old(filters)
      ensures currentPage == old(currentPage) && itemsPerPage == old(itemsPerPage)
    {
      loading := true;
      error := None;
    }

    /** The `rejected` case of the same five thunks; the payload is the
        message `handleApiError` produced. */
    method Rejected(payload: string)
      modifies this
      ensures !loading && error == Some(payload)
      ensures tasks == old(tasks) && currentTask == old(currentTask)
      ensures totalTasks == old(totalTasks) && filters == old(filters)
      ensures currentPage == old(currentPage) && itemsPerPage == old(itemsPerPage)
    {
      loading := false;
      error := Some(payload);
    }

    method FetchTasksFulfilled(payload: seq<Task>)
      modifies this
      ensures !loading && tasks == payload && totalTasks == |payload|
      ensures CounterInSync()
      ensures currentTask == old(currentTask) && error == old(error) && filters == old(filters)
      ensures currentPage == old(currentPage) && itemsPerPage == old(itemsPerPage)
    {
      loading := false;
      tasks := payload;
      totalTasks := |payload|;
    }

    method FetchTaskByIdFulfilled(payload: Task)
      modifies this
      ensures !loading && currentTask == Some(payload)
      ensures tasks == old(tasks) && error == old(error) && filters == old(filters)
      ensures totalTasks == old(totalTasks)
      ensures currentPage == old(currentPage) && itemsPerPage == old(itemsPerPage)
    {
      loading := false;
      currentTask := Some(payload);
    }

    method CreateTaskFulfilled(payload: Task)
      modifies this
      ensures !loading
      ensures tasks == [payload] + old(tasks)
      ensures |tasks| == |old(tasks)| + 1 && tasks[0] == payload
      ensures forall j :: 0 <= j < |old(tasks)| ==> tasks[j + 1] == old(tasks)[j]
      ensures totalTasks == old(totalTasks) + 1
      ensures old(CounterInSync()) ==> CounterInSync()
      ensures currentTask == old(currentTask) && error == old(error) && filters == old(filters)
      ensures currentPage == old(currentPage) && itemsPerPage == old(itemsPerPage)
    {
      loading := false;
      tasks := [payload] + tasks;
      totalTasks := totalTasks + 1;
    }

    /** Shared by updateTask.fulfilled and toggleTaskCompleted.fulfilled:
        `const index = tasks.findIndex(...); if (index !== -1) tasks[index] = payload`. */
    method ReplaceCached(payload: Task)
      modifies this`tasks
      ensures |tasks| == |old(tasks)|
      ensures (forall j :: 0 <= j < |old(tasks)| ==> old(tasks)[j].id != payload.id) ==> tasks == old(tasks)
      ensures forall j :: 0 <= j < |tasks| ==>
        tasks[j] == if j == Lists.FindIndex(old(tasks), (t: Task) => HasId(t, payload.id)) then payload else old(tasks)[j]
    {
      tasks := Lists.ReplaceFirst(tasks, (t: Task) => HasId(t, payload.id), payload);
    }

    method UpdateTaskFulfilled(payload: Task)
      modifies this
      ensures !loading
      ensures tasks == Lists.ReplaceFirst(old(tasks), (t: Task) => HasId(t, payload.id), payload)
      ensures |tasks| == |old(tasks)|
      ensures currentTask == if old(currentTask).Some? && old(currentTask).value.id == payload.id
                             then Some(payload) else old(currentTask)
      ensures old(CounterInSync()) ==> CounterInSync()
      ensures error == old(error) && totalTasks == old(totalTasks) && filters == old(filters)
      ensures currentPage == old(currentPage) && itemsPerPage == old(itemsPerPage)
    {
      loading := false;
      ReplaceCached(payload);
      if currentTask.Some? && currentTask.value.id == payload.id {
        currentTask := Some(payload);
      }
    }

    method ToggleTaskCompletedFulfilled(payload: Task)
      modifies this
      ensures tasks == Lists.ReplaceFirst(old(tasks), (t: Task) => HasId(t, payload.id), payload)
      ensures |tasks| == |old(tasks)|
      ensures loading == old(loading) && error == old(error) && currentTask == old(currentTask)
      ensures totalTasks == old(totalTasks) && filters == old(filters)
      ensures currentPage == old(currentPage) && itemsPerPage == old(itemsPerPage)
    {
      ReplaceCached(payload);
    }

    method DeleteTaskFulfilled(id: string)
      modifies this
      ensures !loading
      ensures tasks == WithoutId(old(tasks), id)
      ensures forall j :: 0 <= j < |tasks| ==> tasks[j].id != id
      ensures |tasks| == |old(tasks)| - Matching(old(tasks), id)
      ensures totalTasks == old(totalTasks) - 1
      ensures old(CounterInSync()) ==> (CounterInSync() <==> Matching(old(tasks), id) == 1)
      ensures currentTask == if old(currentTask).Some? && old(currentTask).value.id == id
                             then None else old(currentTask)
      ensures error == old(error) && filters == old(filters)
      ensures currentPage == old(currentPage) && itemsPerPage == old(itemsPerPage)
    {
      loading := false;
      tasks := WithoutId(tasks, id);
      totalTasks := totalTasks - 1;
      if currentTask.Some? && currentTask.value.id == id {
        currentTask := None;
      }
    }

    method FetchTasksByUserFulfilled(payload: seq<Task>)
      modifies this
      ensures !loading && tasks == payload
      ensures totalTasks == old(totalTasks)
      ensures currentTask == old(currentTask) && error == old(error) && filters == old(filters)
      ensures currentPage == old(currentPage) && itemsPerPage == old(itemsPerPage)
    {
      loading := false;
      tasks := payload;
    }
  }

  /** Deleting an id the cache does not hold still decrements the counter, so a
      store whose counter agreed with its list no longer does. */
  method DeleteOfAbsentIdDesyncs() returns (inSync: bool)
    ensures !inSync
  {
    var store := new TasksStore();
    store.DeleteTaskFulfilled("missing");
    inSync := store.CounterInSync();
  }

  /** fetchTasksByUser replaces the list but keeps the counter of the last full
      fetch. */
  method FetchByUserLeavesCounterStale(all: seq<Task>, mine: seq<Task>) returns (total: int, shown: nat)
    ensures total == |all| && shown == |mine|
  {
    var store := new TasksStore();
    store.FetchTasksFulfilled(all);
    store.FetchTasksByUserFulfilled(mine);
    total, shown := store.totalTasks, |store.tasks|;
  }
}
