/**
  The task card: whom the task is assigned to, its status, its two dates and
  the status toggle in its menu.
 */
module TaskCard {
  import opened Js
  import opened Types
  import Lists
  import Dashboard

  /** `${a || ""} ${b || ""}`.trim(), over the fields of a user that may be
      missing altogether: empty exactly when both parts are missing or white
      space only, and otherwise without white space at either end. */
  function NameParts(first: Option<string>, last: Option<string>): (r: string)
    ensures r == "" <==> AllSpace(OrElse(first, "")) && AllSpace(OrElse(last, ""))
    ensures r != "" ==> !IsSpace(r[0]) && !IsSpace(r[|r| - 1])
  {
    SpacedPairBlank(OrElse(first, ""), OrElse(last, ""));
    Trim(OrElse(first, "") + " " + OrElse(last, ""))
  }

  predicate AllSpace(s: string)
  {
    forall i :: 0 <= i < |s| ==> IsSpace(s[i])
  }

  /** Two parts joined by a space trim to nothing exactly when both are white
      space only. */
  lemma SpacedPairBlank(a: string, b: string)
    ensures Blank(a + " " + b) <==> AllSpace(a) && AllSpace(b)
  {
    var s := a + " " + b;
    BlankIffAllSpace(s);
    if AllSpace(a) && AllSpace(b) {
      forall i | 0 <= i < |s| ensures IsSpace(s[i]) {
        if i < |a| {
          assert s[i] == a[i];
        } else if i > |a| {
          assert s[i] == b[i - |a| - 1];
        }
      }
    }
    if Blank(s) {
      forall i | 0 <= i < |a| ensures IsSpace(a[i]) { assert s[i] == a[i]; }
      forall i | 0 <= i < |b| ensures IsSpace(b[i]) { assert s[|a| + 1 + i] == b[i]; }
    }
  }

  /** The display-name chain shared by the card and the task table: the name
      stored on the task, then the assignee user's name, then the user's
      first and last name in either spelling, then "Unknown User". */
  function DisplayName(t: Task, assignee: Option<User>): (r: string)
    ensures r != ""
    ensures Present(t.user_name) ==> r == t.user_name.value
    ensures !Present(t.user_name) && Present(t.userName) ==> r == t.userName.value
    ensures !Present(t.user_name) && !Present(t.userName) && assignee.Some? && Present(assignee.value.name) ==>
      r == assignee.value.name.value
    ensures !Present(t.user_name) && !Present(t.userName) && assignee.Some? && !Present(assignee.value.name) ==>
      var u := assignee.value;
      (NameParts(u.first_name, u.last_name) != "" ==> r == NameParts(u.first_name, u.last_name)) &&
      (NameParts(u.first_name, u.last_name) == "" && NameParts(u.firstName, u.lastName) != "" ==>
         r == NameParts(u.firstName, u.lastName)) &&
      (NameParts(u.first_name, u.last_name) == "" && NameParts(u.firstName, u.lastName) == "" ==>
         r == "Unknown User")
    ensures assignee.None? && !Present(t.user_name) && !Present(t.userName) ==> r == "Unknown User"
  {
    var first := if assignee.Some? then assignee.value.first_name else None;
    var last := if assignee.Some? then assignee.value.last_name else None;
    var first2 := if assignee.Some? then assignee.value.firstName else None;
    var last2 := if assignee.Some? then assignee.value.lastName else None;
    if Present(t.user_name) then t.user_name.value
    else if Present(t.userName) then t.userName.value
    else if assignee.Some? && Present(assignee.value.name) then assignee.value.name.value
    else if NameParts(first, last) != "" then NameParts(first, last)
    else if NameParts(first2, last2) != "" then NameParts(first2, last2)
    else "Unknown User"
  }

  /** A user whose name parts are all missing or white space shows as
      "Unknown User". */
  lemma NamelessUserIsUnknown(t: Task, u: User)
    requires !Present(t.user_name) && !Present(t.userName) && !Present(u.name)
    requires AllSpace(OrElse(u.first_name, "")) && AllSpace(OrElse(u.last_name, ""))
    requires AllSpace(OrElse(u.firstName, "")) && AllSpace(OrElse(u.lastName, ""))
    ensures DisplayName(t, Some(u)) == "Unknown User"
  {
  }

  /** The card looks the assignee up by `assignedUserId || ""` and takes the
      first user with that id. */
  function AssignedUser(t: Task, users: seq<User>): (r: Option<User>)
    ensures r.Some? ==> exists i :: (0 <= i < |users| && users[i] == r.value &&
      users[i].id == OrElse(t.assignedUserId, "") &&
      forall j :: 0 <= j < i ==> users[j].id != OrElse(t.assignedUserId, ""))
    ensures r.None? <==> forall j :: 0 <= j < |users| ==> users[j].id != OrElse(t.assignedUserId, "")
  {
    Lists.Find(users, (u: User) => u.id == OrElse(t.assignedUserId, ""))
  }

  /** `getUserDisplayName` of the card: the chain over the user found by
      `assignedUserId || ""`, "Unknown User" when no user has that id and the
      task names nobody itself. */
  function UserDisplayName(t: Task, users: seq<User>): (r: string)
    ensures r != ""
    ensures Present(t.user_name) ==> r == t.user_name.value
    ensures !Present(t.user_name) && Present(t.userName) ==> r == t.userName.value
    ensures (!Present(t.user_name) && !Present(t.userName) &&
             forall j :: 0 <= j < |users| ==> users[j].id != OrElse(t.assignedUserId, "")) ==>
      r == "Unknown User"
    ensures AssignedUser(t, users).Some? ==> r == DisplayName(t, AssignedUser(t, users))
  {
    DisplayName(t, AssignedUser(t, users))
  }

  /** `startDate || start_date || ""`. */
  function StartDate(t: Task): (r: string)
    ensures r == "" <==> !Present(t.startDate) && !Present(t.start_date)
    ensures Present(t.startDate) ==> r == t.startDate.value
    ensures !Present(t.startDate) && Present(t.start_date) ==> r == t.start_date.value
  {
    OrElse(t.startDate, OrElse(t.start_date, ""))
  }

  /** `endDate || end_date || ""`. */
  function EndDate(t: Task): (r: string)
    ensures r == "" <==> !Present(t.endDate) && !Present(t.end_date)
    ensures Present(t.endDate) ==> r == t.endDate.value
    ensures !Present(t.endDate) && Present(t.end_date) ==> r == t.end_date.value
  {
    OrElse(t.endDate, OrElse(t.end_date, ""))
  }

  /** `formatDate`: an empty date shows "N/A"; `render` stands for the
      locale formatting of any other string (including "Invalid Date"). */
  function FormatDate(date: string, render: string -> string): (r: string)
    ensures date == "" ==> r == "N/A"
    ensures date != "" ==> r == render(date)
  {
    if date == "" then "N/A" else render(date)
  }

  /** The label of the toggle item in the card's menu. */
  function ToggleLabel(t: Task): (r: string)
    ensures r == "Mark As Pending" <==> Dashboard.GetTaskStatus(t)
    ensures r == "Mark As Completed" <==> !Dashboard.GetTaskStatus(t)
  {
    if Dashboard.GetTaskStatus(t) then "Mark As Pending" else "Mark As Completed"
  }

  /** The arguments the toggle item passes to `onToggleStatus`: the task id
      and the status the task has now, not the one it is to get. */
  function ToggleArgs(t: Task): (r: (string, bool))
    ensures r.0 == t.id
    ensures r.1 == Dashboard.GetTaskStatus(t)
    ensures (ToggleLabel(t) == "Mark As Pending") == r.1
  {
    (t.id, Dashboard.GetTaskStatus(t))
  }
}
