/**
  The dashboard figures: counts and completion rate over the task list, the
  tasks of the last seven days, and the card records the dashboard renders.
 */
module Dashboard {
  import opened Js
  import opened Types
  import Lists

  /** A task is complete when any of its three spellings of the flag is true. */
  function GetTaskStatus(t: Task): (r: bool)
    ensures r <==> t.completed == Some(true) || t.is_completed == Some(true) || t.isCompleted == Some(true)
  {
    Flag(t.completed) || Flag(t.is_completed) || Flag(t.isCompleted)
  }

  /** The first non-empty of the start and creation dates, in both spellings. */
  function GetTaskDate(t: Task): (r: Option<string>)
    ensures r.None? <==> !Present(t.startDate) && !Present(t.start_date) && !Present(t.createdAt) && !Present(t.created_at)
    ensures r.Some? ==> r.value != ""
    ensures r.Some? ==> r in [t.startDate, t.start_date, t.createdAt, t.created_at]
    ensures Present(t.startDate) ==> r == t.startDate
    ensures !Present(t.startDate) && Present(t.start_date) ==> r == t.start_date
    ensures !Present(t.startDate) && !Present(t.start_date) && Present(t.createdAt) ==> r == t.createdAt
  {
    if Present(t.startDate) then t.startDate
    else if Present(t.start_date) then t.start_date
    else if Present(t.createdAt) then t.createdAt
    else if Present(t.created_at) then t.created_at
    else None
  }

  predicate IsPending(t: Task)
  {
    !GetTaskStatus(t)
  }

  datatype TaskStats = TaskStats(
    totalTasks: int,
    completedTasks: int,
    pendingTasks: int,
    completionRate: real,
    tasksThisWeek: int
  )

  /** A task dated at or after `since`; `parse` stands for `new Date(...)` and
      yields `None` for an invalid date, which compares false. */
  predicate DatedSince(t: Task, since: int, parse: string -> Option<int>)
  {
    var d := GetTaskDate(t);
    d.Some? && parse(d.value).Some? && parse(d.value).value >= since
  }

  predicate HasDate(t: Task)
  {
    GetTaskDate(t).Some?
  }

  /** `weekAgo` is the instant `oneWeekAgo` holds once `setDate(getDate() - 7)`
      has stepped the current local date back seven calendar days; the clock
      and the time zone supply it. */
  function TasksThisWeek(tasks: seq<Task>, weekAgo: int, parse: string -> Option<int>): (r: nat)
    ensures r <= |tasks|
    ensures r == Lists.Count(tasks, (t: Task) => DatedSince(t, weekAgo, parse))
  {
    var kept := Lists.Filter(tasks, (t: Task) => DatedSince(t, weekAgo, parse));
    Lists.FilterLength(tasks, (t: Task) => DatedSince(t, weekAgo, parse));
    |kept|
  }

  /** A task without a date is never counted: the count is bounded by the
      number of dated tasks. */
  lemma TasksThisWeekDated(tasks: seq<Task>, weekAgo: int, parse: string -> Option<int>)
    ensures TasksThisWeek(tasks, weekAgo, parse) <= Lists.Count(tasks, HasDate)
    ensures (forall j :: 0 <= j < |tasks| ==> !HasDate(tasks[j])) ==> TasksThisWeek(tasks, weekAgo, parse) == 0
  {
    Lists.CountMonotone(tasks, (t: Task) => DatedSince(t, weekAgo, parse), HasDate);
  }

  /** `total > 0 ? (completed / total) * 100 : 0`, in exact arithmetic. */
  function CompletionRate(completed: nat, total: nat): (r: real)
    ensures total == 0 ==> r == 0.0
    ensures total > 0 ==> r * total as real == 100.0 * completed as real
    ensures completed <= total ==> 0.0 <= r <= 100.0
    ensures completed <= total ==> (r == 100.0 <==> total > 0 && completed == total)
  {
    if total > 0 then
      var r := completed as real / total as real * 100.0;
      RateFacts(completed, total, r);
      r
    else 0.0
  }

  lemma RateFacts(completed: nat, total: nat, r: real)
    requires total > 0 && r == completed as real / total as real * 100.0
    ensures r * total as real == 100.0 * completed as real
    ensures completed <= total ==> 0.0 <= r <= 100.0
    ensures completed <= total ==> (r == 100.0 <==> completed == total)
  {
    var q := completed as real / total as real;
    assert q * total as real == completed as real;
    if completed <= total {
      assert q <= 1.0;
    }
  }

  function CalculateTaskStats(tasks: seq<Task>, weekAgo: int, parse: string -> Option<int>): (r: TaskStats)
    ensures r.totalTasks == |tasks|
    ensures r.completedTasks == Lists.Count(tasks, GetTaskStatus)
    ensures 0 <= r.completedTasks <= r.totalTasks
    ensures r.completedTasks + r.pendingTasks == r.totalTasks
    ensures r.pendingTasks == Lists.Count(tasks, IsPending)
    ensures r.completionRate == CompletionRate(r.completedTasks, r.totalTasks)
    ensures 0.0 <= r.completionRate <= 100.0
    ensures r.completionRate == 100.0 <==> r.totalTasks > 0 && r.pendingTasks == 0
    ensures r.tasksThisWeek == TasksThisWeek(tasks, weekAgo, parse)
  {
    var completed := |Lists.Filter(tasks, GetTaskStatus)|;
    Lists.FilterLength(tasks, GetTaskStatus);
    Lists.CountComplement(tasks, GetTaskStatus, IsPending);
    var total := |tasks|;
    var rate := CompletionRate(completed, total);
    assert 0.0 <= rate <= 100.0 && (rate == 100.0 <==> total > 0 && completed == total);
    TaskStats(total, completed, total - completed, rate, TasksThisWeek(tasks, weekAgo, parse))
  }

  datatype StatCard = StatCard(title: string, value: int, color: string, bgColor: string, description: string)

  function GenerateStatsData(stats: TaskStats, userCount: int): (r: seq<StatCard>)
    ensures |r| == 4
    ensures r[0].title == "Total Tasks" && r[0].value == stats.totalTasks
    ensures r[1].title == "Completed" && r[1].value == stats.completedTasks
    ensures r[2].title == "Total Users" && r[2].value == userCount
    ensures r[3].title == "Pending" && r[3].value == stats.pendingTasks
  {
    [ StatCard("Total Tasks", stats.totalTasks, "#4A90E2", "rgba(74, 144, 226, 0.1)", "All tasks in system"),
      StatCard("Completed", stats.completedTasks, "#51cf66", "rgba(81, 207, 102, 0.1)", "Successfully finished"),
      StatCard("Total Users", userCount, "#7c3aed", "rgba(124, 58, 237, 0.1)", "Active users"),
      StatCard("Pending", stats.pendingTasks, "#ff8c42", "rgba(255, 140, 66, 0.1)", "Awaiting completion") ]
  }

  /** The value of an additional stat: a count, or the completion rate that is
      shown as a percentage with one decimal. */
  datatype StatValue = Count(n: int) | Percent(rate: real)

  datatype AdditionalStat = AdditionalStat(title: string, value: StatValue, color: string)

  function GenerateAdditionalStats(stats: TaskStats): (r: seq<AdditionalStat>)
    ensures |r| == 2
    ensures r[0].title == "This Week" && r[0].value == Count(stats.tasksThisWeek)
    ensures r[1].title == "Completion Rate" && r[1].value == Percent(stats.completionRate)
  {
    [ AdditionalStat("This Week", Count(stats.tasksThisWeek), "#20c997"),
      AdditionalStat("Completion Rate", Percent(stats.completionRate), "#6c757d") ]
  }
}
