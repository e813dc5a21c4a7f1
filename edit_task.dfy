/**
  The task edit form: the same title, description and user validators as
  the creation form, no date validation at all, and user options that also
  carry the avatar.
 */
module EditTask {
  import opened Js
  import opened Types
  import AddTask

  /** The messages of the three validated fields. */
  datatype EditErrors = EditErrors(title: Option<string>, description: Option<string>,
                                   assignedUserId: Option<string>)

  predicate NoErrors(e: EditErrors)
  {
    e.title.None? && e.description.None? && e.assignedUserId.None?
  }

  /** The edit form holds a whole task; only three of its fields are checked. */
  function Validate(t: Task): (r: EditErrors)
    ensures r.title == AddTask.ValidateTitle(t.title)
    ensures r.description == AddTask.ValidateDescription(t.description)
    ensures r.assignedUserId == AddTask.ValidateAssignee(OrElse(t.assignedUserId, ""))
  {
    EditErrors(AddTask.ValidateTitle(t.title), AddTask.ValidateDescription(t.description),
               AddTask.ValidateAssignee(OrElse(t.assignedUserId, "")))
  }

  /** The dates never affect the edit form's verdict: an end before the start
      is accepted, where the creation form refuses it. */
  lemma DatesNotValidated(t: Task, startDate: string, endDate: string, parse: string -> Option<int>)
    requires Present(t.assignedUserId)
    requires AddTask.Before(endDate, startDate, parse) && startDate != "" && endDate != ""
    ensures Validate(t.(startDate := Some(startDate), endDate := Some(endDate))) == Validate(t)
    ensures AddTask.ValidateEndDate(endDate, startDate, parse).Some?
    ensures NoErrors(Validate(t)) ==>
      !AddTask.NoErrors(AddTask.Validate(AddTask.TaskForm(t.title, t.description, false, startDate, endDate,
                                                          t.assignedUserId.value), parse))
  {
  }

  /** The edit form is accepted exactly when the title and description have a
      visible character and a user is chosen. */
  lemma AcceptedTasks(t: Task)
    ensures NoErrors(Validate(t)) <==>
      (exists i :: 0 <= i < |t.title| && !IsSpace(t.title[i])) &&
      (exists i :: 0 <= i < |t.description| && !IsSpace(t.description[i])) &&
      Present(t.assignedUserId)
  {
  }

  datatype UserOption = UserOption(value: string, caption: string, avatar: Option<string>)

  /** One option per user, labelled as on the creation form, with the avatar. */
  function UserOptions(users: seq<User>): (r: seq<UserOption>)
    ensures |r| == |users|
    ensures forall i :: 0 <= i < |r| ==> r[i].value == users[i].id && r[i].avatar == users[i].avatar
    ensures forall i :: 0 <= i < |r| ==> r[i].caption == AddTask.UserOptions(users)[i].caption
  {
    seq(|users|, (i: int) requires 0 <= i < |users| =>
      UserOption(users[i].id, AddTask.UserLabel(users[i]), users[i].avatar))
  }
}
