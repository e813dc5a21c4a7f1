/**
  The task creation form: its field validators and the options of its user
  selector. A validator gives the message to show, or `None` when the field
  is valid.
 */
module AddTask {
  import opened Js
  import opened Types
  import UsersSlice

  /** The values the form submits. */
  datatype TaskForm = TaskForm(title: string, description: string, completed: bool,
                               startDate: string, endDate: string, assignedUserId: string)

  /** `!value.trim() ? message : null`: a message exactly for a value made of
      white space only. */
  function RequiredText(value: string, message: string): (r: Option<string>)
    ensures r.Some? ==> r.value == message
    ensures r.Some? <==> forall i :: 0 <= i < |value| ==> IsSpace(value[i])
  {
    BlankIffAllSpace(value);
    if Blank(value) then Some(message) else None
  }

  /** `!value ? message : null`: only the empty string is refused. */
  function Required(value: string, message: string): (r: Option<string>)
    ensures r.Some? <==> value == ""
    ensures r.Some? ==> r.value == message
  {
    if value == "" then Some(message) else None
  }

  function ValidateTitle(value: string): (r: Option<string>)
    ensures r.Some? ==> r.value == "Title is required"
    ensures r.Some? <==> forall i :: 0 <= i < |value| ==> IsSpace(value[i])
  {
    RequiredText(value, "Title is required")
  }

  function ValidateDescription(value: string): (r: Option<string>)
    ensures r.Some? ==> r.value == "Description is required"
    ensures r.Some? <==> forall i :: 0 <= i < |value| ==> IsSpace(value[i])
  {
    RequiredText(value, "Description is required")
  }

  /** A user id of white space only is still a choice: only "" is refused. */
  function ValidateAssignee(value: string): (r: Option<string>)
    ensures r.Some? <==> value == ""
    ensures r.Some? ==> r.value == "Please select a user"
  {
    Required(value, "Please select a user")
  }

  function ValidateStartDate(value: string): (r: Option<string>)
    ensures r.Some? <==> value == ""
    ensures r.Some? ==> r.value == "Start date is required"
  {
    Required(value, "Start date is required")
  }

  /** `new Date(a) < new Date(b)`; `parse` stands for the date parser and
      yields `None` for an invalid date, which compares false either way. */
  predicate Before(a: string, b: string, parse: string -> Option<int>)
  {
    parse(a).Some? && parse(b).Some? && parse(a).value < parse(b).value
  }

  /** The end date is required first; only then, and only when a start date
      is given, an end strictly before the start is refused. */
  function ValidateEndDate(value: string, startDate: string, parse: string -> Option<int>): (r: Option<string>)
    ensures value == "" ==> r == Some("End date is required")
    ensures value != "" && startDate == "" ==> r.None?
    ensures value != "" ==> (r.Some? <==> startDate != "" && Before(value, startDate, parse))
    ensures value != "" && r.Some? ==> r.value == "End date must be after start date"
  {
    if value == "" then Some("End date is required")
    else if startDate != "" && Before(value, startDate, parse) then Some("End date must be after start date")
    else None
  }

  /** An end on the start day, or on any later day, passes. */
  lemma EndNotBeforeStartPasses(value: string, startDate: string, parse: string -> Option<int>)
    requires value != "" && parse(value).Some? && parse(startDate).Some?
    requires parse(value).value >= parse(startDate).value
    ensures ValidateEndDate(value, startDate, parse).None?
  {
  }

  /** The message of every field, or `None` for a valid one. */
  datatype TaskErrors = TaskErrors(title: Option<string>, description: Option<string>,
                                   assignedUserId: Option<string>, startDate: Option<string>,
                                   endDate: Option<string>)

  predicate NoErrors(e: TaskErrors)
  {
    e.title.None? && e.description.None? && e.assignedUserId.None? && e.startDate.None? && e.endDate.None?
  }

  function Validate(f: TaskForm, parse: string -> Option<int>): (r: TaskErrors)
    ensures r.title == ValidateTitle(f.title) && r.description == ValidateDescription(f.description)
    ensures r.assignedUserId == ValidateAssignee(f.assignedUserId)
    ensures r.startDate == ValidateStartDate(f.startDate)
    ensures r.endDate == ValidateEndDate(f.endDate, f.startDate, parse)
  {
    TaskErrors(ValidateTitle(f.title), ValidateDescription(f.description), ValidateAssignee(f.assignedUserId),
               ValidateStartDate(f.startDate), ValidateEndDate(f.endDate, f.startDate, parse))
  }

  /** The form is accepted exactly when the title and description have a
      visible character, a user and both dates are chosen, and the end is not
      before the start. */
  lemma AcceptedForms(f: TaskForm, parse: string -> Option<int>)
    ensures NoErrors(Validate(f, parse)) <==>
      (exists i :: 0 <= i < |f.title| && !IsSpace(f.title[i])) &&
      (exists i :: 0 <= i < |f.description| && !IsSpace(f.description[i])) &&
      f.assignedUserId != "" && f.startDate != "" && f.endDate != "" &&
      !Before(f.endDate, f.startDate, parse)
  {
  }

  /** The label of a user in the selector: the user's name, or the first and
      last name the way the store writes them. */
  function UserLabel(u: User): (r: string)
    ensures Present(u.name) ==> r == u.name.value
    ensures !Present(u.name) ==> r == UsersSlice.FullName(u)
    ensures r != ""
  {
    if Present(u.name) then u.name.value
    else
      var full := UsersSlice.FullName(u);
      assert full[|Interp(u.first_name)|] == ' ';
      full
  }

  datatype UserOption = UserOption(value: string, caption: string)

  /** One option per user, in list order, carrying the user's id. */
  function UserOptions(users: seq<User>): (r: seq<UserOption>)
    ensures |r| == |users|
    ensures forall i :: 0 <= i < |r| ==> r[i].value == users[i].id && r[i].caption == UserLabel(users[i])
  {
    seq(|users|, (i: int) requires 0 <= i < |users| => UserOption(users[i].id, UserLabel(users[i])))
  }
}
