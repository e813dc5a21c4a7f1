/**
  The title the header shows for the current location: the first path
  segment names the section, the second the form within it.
 */
module Header {
  import opened Js
  import Lists

  /** The pages the header can name. */
  datatype Page = Dashboard | TaskList | AddTask | EditTask | UserList | AddUser | EditUser

  /** The page named by the segments of a path without its leading
      character: the first segment is the section, the second the form. */
  function Route(segments: seq<string>): (r: Page)
    requires segments != []
    ensures segments[0] != "tasks" && segments[0] != "users" ==> r == Dashboard
    ensures r in {TaskList, AddTask, EditTask} <==> segments[0] == "tasks"
    ensures r in {UserList, AddUser, EditUser} <==> segments[0] == "users"
    ensures segments[0] == "tasks" ==> ((r == AddTask) <==> SubPage(segments, "add"))
    ensures segments[0] == "tasks" ==> ((r == EditTask) <==> SubPage(segments, "edit"))
    ensures segments[0] == "users" ==> ((r == AddUser) <==> SubPage(segments, "add"))
    ensures segments[0] == "users" ==> ((r == EditUser) <==> SubPage(segments, "edit"))
  {
    if segments[0] == "tasks" then
      if |segments| > 1 && segments[1] == "add" then AddTask
      else if |segments| > 1 && segments[1] == "edit" then EditTask
      else TaskList
    else if segments[0] == "users" then
      if |segments| > 1 && segments[1] == "add" then AddUser
      else if |segments| > 1 && segments[1] == "edit" then EditUser
      else UserList
    else Dashboard
  }

  /** The second segment is there and names the form `sub`. */
  predicate SubPage(segments: seq<string>, sub: string)
  {
    |segments| > 1 && segments[1] == sub
  }

  /** The text the header shows for a page. */
  function TitleText(p: Page): string
  {
    match p
    case Dashboard => "Dashboard"
    case TaskList => "Tasks"
    case AddTask => "Add Task"
    case EditTask => "Edit Task"
    case UserList => "Users"
    case AddUser => "Add User"
    case EditUser => "Edit User"
  }

  /** `pathname.slice(1).split("/")`. */
  function Segments(pathname: string): (r: seq<string>)
    ensures r != []
  {
    Split(Lists.Slice(pathname, 1, |pathname|), '/')
  }

  /** The page `getPageTitle` picks: any section other than the two lists,
      the root included, is the dashboard. */
  function PageFor(pathname: string): Page
  {
    Route(Segments(pathname))
  }

  /** `getPageTitle(pathname)`: the section picks the list title, and a
      second segment "add" or "edit" the form title within it. */
  function PageTitle(pathname: string): (r: string)
    ensures var segments := Segments(pathname);
      segments[0] != "tasks" && segments[0] != "users" ==> r == "Dashboard"
    ensures var segments := Segments(pathname);
      segments[0] == "tasks" ==>
        (SubPage(segments, "add") ==> r == "Add Task") &&
        (SubPage(segments, "edit") ==> r == "Edit Task") &&
        (!SubPage(segments, "add") && !SubPage(segments, "edit") ==> r == "Tasks")
    ensures var segments := Segments(pathname);
      segments[0] == "users" ==>
        (SubPage(segments, "add") ==> r == "Add User") &&
        (SubPage(segments, "edit") ==> r == "Edit User") &&
        (!SubPage(segments, "add") && !SubPage(segments, "edit") ==> r == "Users")
  {
    TitleText(PageFor(pathname))
  }

  /** Slicing off the leading "/". */
  lemma AfterSlash(rest: string)
    ensures Segments("/" + rest) == Split(rest, '/')
  {
    assert Lists.Slice("/" + rest, 1, |"/" + rest|) == rest;
  }

  /** A path written as "/" followed by slash-free segments splits back into
      those segments. */
  lemma SegmentsOfPath(parts: seq<string>)
    requires parts != [] && forall j :: 0 <= j < |parts| ==> '/' !in parts[j]
    ensures Segments("/" + Join(parts, '/')) == parts
  {
    AfterSlash(Join(parts, '/'));
    SplitJoin(parts, '/');
  }

  /** Only the first two segments decide the page: what follows the
      sub-page, such as the id of an edit route, does not change it. */
  lemma DeeperSegmentsIgnored(parts: seq<string>)
    requires |parts| >= 2 && forall j :: 0 <= j < |parts| ==> '/' !in parts[j]
    ensures PageFor("/" + Join(parts, '/')) == Route([parts[0], parts[1]])
  {
    SegmentsOfPath(parts);
    RouteFirstTwo(parts);
  }

  lemma RouteFirstTwo(parts: seq<string>)
    requires |parts| >= 2
    ensures Route(parts) == Route([parts[0], parts[1]])
  {
    var two := [parts[0], parts[1]];
    assert two[0] == parts[0] && two[1] == parts[1];
  }

  /** A section other than the two list pages shows the dashboard title, and
      so does the root. */
  lemma OtherSectionsAreDashboard(parts: seq<string>)
    requires parts != [] && forall j :: 0 <= j < |parts| ==> '/' !in parts[j]
    requires parts[0] != "tasks" && parts[0] != "users"
    ensures PageFor("/" + Join(parts, '/')) == Dashboard
  {
    SegmentsOfPath(parts);
  }

  /** The root route is the dashboard. */
  lemma RootRoute()
    ensures PageFor("/") == Dashboard
  {
    assert Join([""], '/') == "";
    OtherSectionsAreDashboard([""]);
    assert "/" == "/" + "";
  }

  /** The routes `/tasks` and `/users` name the two list pages. */
  lemma ListRoute(section: string)
    requires '/' !in section
    ensures section == "tasks" ==> PageFor("/" + section) == TaskList
    ensures section == "users" ==> PageFor("/" + section) == UserList
  {
    assert Join([section], '/') == section;
    SegmentsOfPath([section]);
  }

  /** The routes `/tasks/add` and `/users/add` name the two creation forms. */
  lemma AddRoute(section: string)
    requires '/' !in section
    ensures section == "tasks" ==> PageFor("/" + section + "/add") == AddTask
    ensures section == "users" ==> PageFor("/" + section + "/add") == AddUser
  {
    assert Join([section, "add"], '/') == section + "/add";
    assert "/" + section + "/add" == "/" + (section + "/add");
    SegmentsOfPath([section, "add"]);
  }

  /** The routes `/tasks/edit/:id` and `/users/edit/:id` name the two edit
      forms, whatever the id. */
  lemma EditRoute(section: string, id: string)
    requires '/' !in section && '/' !in id
    ensures section == "tasks" ==> PageFor("/" + section + "/edit/" + id) == EditTask
    ensures section == "users" ==> PageFor("/" + section + "/edit/" + id) == EditUser
  {
    assert Join(["edit", id], '/') == "edit/" + id;
    assert Join([section, "edit", id], '/') == section + "/" + Join(["edit", id], '/');
    assert "/" + section + "/edit/" + id == "/" + (section + "/" + ("edit/" + id));
    SegmentsOfPath([section, "edit", id]);
    var parts := [section, "edit", id];
    assert parts[0] == section && parts[1] == "edit";
  }
}
