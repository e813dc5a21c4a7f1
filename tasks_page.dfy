/**
  The task list page: the search filter over titles and descriptions, the
  visible page of the filtered list, the assignee shown on each row, the
  status toggle, and the rows of the spreadsheet export.
 */
module TasksPage {
  import opened Js
  import opened Types
  import Lists
  import Paging
  import Dashboard
  import TaskCard
  import ExportUtils

  /** `title.toLowerCase().includes(term.toLowerCase()) || description...`. */
  predicate TaskMatches(t: Task, term: string)
  {
    Contains(Lower(t.title), Lower(term)) || Contains(Lower(t.description), Lower(term))
  }

  function FilterTasks(tasks: seq<Task>, term: string): (r: seq<Task>)
    ensures |r| <= |tasks|
    ensures forall j :: 0 <= j < |r| ==> TaskMatches(r[j], term) && r[j] in tasks
    ensures forall j :: 0 <= j < |tasks| && TaskMatches(tasks[j], term) ==> tasks[j] in r
  {
    Lists.Filter(tasks, (t: Task) => TaskMatches(t, term))
  }

  /** An empty search keeps every task, in order. */
  lemma EmptySearchKeepsAll(tasks: seq<Task>)
    ensures FilterTasks(tasks, "") == tasks
  {
    forall j | 0 <= j < |tasks| ensures TaskMatches(tasks[j], "") {
      ContainsEmpty(Lower(tasks[j].title));
    }
    Lists.FilterAll(tasks, (t: Task) => TaskMatches(t, ""));
  }

  /** The filter keeps the order of the list: filtering two parts one after
      the other is filtering their concatenation. */
  lemma FilterTasksAppend(a: seq<Task>, b: seq<Task>, term: string)
    ensures FilterTasks(a + b, term) == FilterTasks(a, term) + FilterTasks(b, term)
  {
    Lists.FilterConcat(a, b, (t: Task) => TaskMatches(t, term));
  }

  /** The search ignores the case of ASCII letters in the term. */
  lemma SearchIgnoresCase(t: Task, term: string)
    ensures TaskMatches(t, term) <==> TaskMatches(t, Lower(term))
  {
    LowerIdempotent(term);
  }

  lemma LowerIdempotent(s: string)
    ensures Lower(Lower(s)) == Lower(s)
  {
  }

  /** `paginatedTasks`: the rows the table receives, at most a page of
      matching tasks of the store. */
  function VisibleTasks(tasks: seq<Task>, term: string, page: int, size: int): (r: seq<Task>)
    ensures page >= 1 && size >= 1 ==> |r| <= size
    ensures forall i :: 0 <= i < |r| ==> r[i] in tasks && TaskMatches(r[i], term)
  {
    Paging.PageOf(FilterTasks(tasks, term), page, size)
  }

  /** `totalPages`: enough pages for every matching task, and none when no
      task matches. */
  function TotalPages(tasks: seq<Task>, term: string, size: int): (r: nat)
    requires size > 0
    ensures r == 0 <==> forall j :: 0 <= j < |tasks| ==> !TaskMatches(tasks[j], term)
    ensures |FilterTasks(tasks, term)| <= r * size
    ensures r > 0 ==> (r - 1) * size < |FilterTasks(tasks, term)|
  {
    Lists.FilterLength(tasks, (t: Task) => TaskMatches(t, term));
    Paging.PageCount(|FilterTasks(tasks, term)|, size)
  }

  /** Every row the table shows is a task of the store that matches the
      search, and the row numbered `n` is the `n`-th task of the filtered list. */
  lemma VisibleRows(tasks: seq<Task>, term: string, page: int, size: int, i: int)
    requires page >= 1 && size >= 1 && 0 <= i < |VisibleTasks(tasks, term, page, size)|
    ensures VisibleTasks(tasks, term, page, size)[i] in tasks
    ensures TaskMatches(VisibleTasks(tasks, term, page, size)[i], term)
    ensures FilterTasks(tasks, term)[Paging.RowNumber(page, size, i) - 1] == VisibleTasks(tasks, term, page, size)[i]
  {
    Paging.RowNumberNamesRow(FilterTasks(tasks, term), page, size, i);
  }

  /** The table looks the assignee up by `assignedUserId` itself, so a task
      without one has no assigned user; the first user with the id is taken. */
  function AssignedUser(t: Task, users: seq<User>): (r: Option<User>)
    ensures r.Some? ==> exists i :: (0 <= i < |users| && users[i] == r.value &&
      t.assignedUserId == Some(users[i].id) &&
      forall j :: 0 <= j < i ==> t.assignedUserId != Some(users[j].id))
    ensures r.None? <==> forall j :: 0 <= j < |users| ==> t.assignedUserId != Some(users[j].id)
  {
    Lists.Find(users, (u: User) => t.assignedUserId == Some(u.id))
  }

  /** `getUserDisplayName` of the table: the chain over the user found by
      `assignedUserId` itself, "Unknown User" when no user has that id (or
      the task has none) and the task names nobody itself. */
  function UserDisplayName(t: Task, users: seq<User>): (r: string)
    ensures r != ""
    ensures Present(t.user_name) ==> r == t.user_name.value
    ensures !Present(t.user_name) && Present(t.userName) ==> r == t.userName.value
    ensures (!Present(t.user_name) && !Present(t.userName) &&
             forall j :: 0 <= j < |users| ==> t.assignedUserId != Some(users[j].id)) ==>
      r == "Unknown User"
    ensures AssignedUser(t, users).Some? ==> r == TaskCard.DisplayName(t, AssignedUser(t, users))
  {
    TaskCard.DisplayName(t, AssignedUser(t, users))
  }

  /** The table and the card show the same assignee whenever the task names
      one. */
  lemma DisplayNamesAgree(t: Task, users: seq<User>)
    requires Present(t.assignedUserId)
    ensures UserDisplayName(t, users) == TaskCard.UserDisplayName(t, users)
  {
    Lists.FindSame(users, (u: User) => t.assignedUserId == Some(u.id),
                   (u: User) => u.id == OrElse(t.assignedUserId, ""));
  }

  /** `handleToggleTaskCompletion`: nothing when the id is not in the list;
      otherwise a copy of the first task with that id whose three completion
      flags all read `!currentStatus`. */
  function ToggledTask(tasks: seq<Task>, id: string, currentStatus: bool): (r: Option<Task>)
    ensures r.None? <==> forall j :: 0 <= j < |tasks| ==> tasks[j].id != id
    ensures r.Some? ==> r.value.id == id
    ensures r.Some? ==> r.value.completed == Some(!currentStatus)
    ensures r.Some? ==> r.value.is_completed == Some(!currentStatus) && r.value.isCompleted == Some(!currentStatus)
    ensures r.Some? ==> Dashboard.GetTaskStatus(r.value) == !currentStatus
    ensures r.Some? ==> exists j :: (0 <= j < |tasks| && tasks[j].id == id &&
      (forall k :: 0 <= k < j ==> tasks[k].id != id) &&
      r.value.(completed := tasks[j].completed, is_completed := tasks[j].is_completed,
               isCompleted := tasks[j].isCompleted) == tasks[j])
  {
    match Lists.Find(tasks, (t: Task) => t.id == id)
    case None => None
    case Some(t) =>
      var j := Lists.FindIndex(tasks, (t: Task) => t.id == id);
      assert tasks[j] == t;
      Some(t.(completed := Some(!currentStatus), is_completed := Some(!currentStatus),
              isCompleted := Some(!currentStatus)))
  }

  /** Toggling from the status the card reports flips it. */
  lemma ToggleFlipsStatus(tasks: seq<Task>, t: Task)
    requires t in tasks && forall j :: 0 <= j < |tasks| && tasks[j].id == t.id ==> tasks[j] == t
    ensures ToggledTask(tasks, t.id, TaskCard.ToggleArgs(t).1).Some?
    ensures Dashboard.GetTaskStatus(ToggledTask(tasks, t.id, TaskCard.ToggleArgs(t).1).value) == !Dashboard.GetTaskStatus(t)
  {
  }

  /** `task.createdAt ? formatDate(task.createdAt) : task.created_at ? ... : "N/A"`. */
  function StampText(a: Option<string>, b: Option<string>, render: string -> string): (r: string)
    ensures !Present(a) && !Present(b) ==> r == "N/A"
    ensures Present(a) ==> r == render(a.value)
    ensures !Present(a) && Present(b) ==> r == render(b.value)
  {
    if Present(a) then TaskCard.FormatDate(a.value, render)
    else if Present(b) then TaskCard.FormatDate(b.value, render)
    else "N/A"
  }

  const ExportKeys: seq<string> := ["Serial No", "Task ID", "Title", "Description", "Assigned User",
    "Start Date", "End Date", "Status", "Priority", "Created Date", "Updated Date"]

  /** One spreadsheet row for the task at position `index` of the filtered list. */
  function ExportRow(t: Task, index: nat, users: seq<User>, render: string -> string): (r: Fields)
    ensures |r| == 11 && Keys(r) == ExportKeys
    ensures r[0].1 == Num(index + 1) && r[1].1 == Str(t.id)
    ensures r[2].1 == Str(t.title) && r[3].1 == Str(t.description)
    ensures r[4].1 == Str(UserDisplayName(t, users))
    ensures r[5].1 == Str(TaskCard.FormatDate(TaskCard.StartDate(t), render))
    ensures r[6].1 == Str(TaskCard.FormatDate(TaskCard.EndDate(t), render))
    ensures r[7].1 == Str(if Dashboard.GetTaskStatus(t) then "Completed" else "Not Completed")
    ensures r[8].1 == Str(OrElse(t.priority, "Normal"))
    ensures r[9].1 == Str(StampText(t.createdAt, t.created_at, render))
    ensures r[10].1 == Str(StampText(t.updatedAt, t.updated_at, render))
  {
    [ ("Serial No", Num(index + 1)),
      ("Task ID", Str(t.id)),
      ("Title", Str(t.title)),
      ("Description", Str(t.description)),
      ("Assigned User", Str(UserDisplayName(t, users))),
      ("Start Date", Str(TaskCard.FormatDate(TaskCard.StartDate(t), render))),
      ("End Date", Str(TaskCard.FormatDate(TaskCard.EndDate(t), render))),
      ("Status", Str(if Dashboard.GetTaskStatus(t) then "Completed" else "Not Completed")),
      ("Priority", Str(OrElse(t.priority, "Normal"))),
      ("Created Date", Str(StampText(t.createdAt, t.created_at, render))),
      ("Updated Date", Str(StampText(t.updatedAt, t.updated_at, render))) ]
  }

  /** `filteredTasks.map((task, index) => ...)`: every filtered task, in
      order, numbered from 1. */
  function ExportRows(filtered: seq<Task>, users: seq<User>, render: string -> string): (r: seq<Fields>)
    ensures |r| == |filtered|
    ensures forall i :: 0 <= i < |r| ==> r[i] == ExportRow(filtered[i], i, users, render)
  {
    seq(|filtered|, (i: int) requires 0 <= i < |filtered| => ExportRow(filtered[i], i, users, render))
  }

  /** The exported serial numbers run 1, 2, ... in filter order, and every
      row has the same eleven columns, so the sheet gets eleven widths. */
  lemma ExportNumbering(filtered: seq<Task>, users: seq<User>, render: string -> string)
    requires filtered != []
    ensures forall i :: 0 <= i < |filtered| ==> Get(ExportRows(filtered, users, render)[i], "Serial No") == Num(i + 1)
    ensures |ExportUtils.ColumnWidths(ExportRows(filtered, users, render))| == 11
  {
    var rows := ExportRows(filtered, users, render);
    forall i | 0 <= i < |filtered| ensures Get(rows[i], "Serial No") == Num(i + 1) {
      assert rows[i][0] == ("Serial No", Num(i + 1));
    }
  }

  /** `tasks-export-${new Date().toISOString().split("T")[0]}`; `iso` stands
      for the ISO rendering of the clock. */
  function ExportName(iso: string): (r: string)
    ensures |r| >= 13 && r[..13] == "tasks-export-"
    ensures 'T' !in r[13..]
    ensures 'T' !in iso ==> r == "tasks-export-" + iso
  {
    "tasks-export-" + Split(iso, 'T')[0]
  }

  /** The written file is named after the calendar day of the ISO time stamp. */
  lemma ExportFileName(day: string, time: string)
    requires 'T' !in day
    ensures ExportUtils.FileName(ExportName(day + "T" + time)) == "tasks-export-" + day + ".xlsx"
  {
    SplitPrefix(day, 'T', time);
  }
}
