/**
  The user edit form: the creation form's validators, the prefill from the
  store's current user, and the guard that keeps a submission without a
  route id from reaching the store.
 */
module EditUser {
  import opened Js
  import opened Types
  import AddUser
  import Api

  /** `form.setValues(...)` once the current user is loaded: each field
      becomes the user's value, a missing one "". Before that the form keeps
      what it holds. */
  function Prefill(current: Option<User>, form: AddUser.UserForm): (r: AddUser.UserForm)
    ensures current.None? ==> r == form
    ensures current.Some? ==> r.first_name == OrElse(current.value.first_name, "")
    ensures current.Some? ==> r.last_name == OrElse(current.value.last_name, "")
    ensures current.Some? ==> r.email == OrElse(current.value.email, "")
  {
    match current
    case None => form
    case Some(u) => AddUser.UserForm(OrElse(u.first_name, ""), OrElse(u.last_name, ""), OrElse(u.email, ""))
  }

  /** A user loaded without a name part gets the "required" message for it
      as soon as the form is validated. */
  lemma MissingNamePrefillsInvalid(u: User, form: AddUser.UserForm)
    requires !Present(u.first_name)
    ensures AddUser.Validate(Prefill(Some(u), form)).first_name == Some("First name is required")
  {
  }

  /** A loaded user whose address matches the pattern passes the address check
      unchanged. */
  lemma PrefilledEmailKept(u: User, form: AddUser.UserForm)
    requires u.email.Some? && AddUser.MatchesEmailPattern(u.email.value)
    ensures AddUser.Validate(Prefill(Some(u), form)).email.None?
  {
    AddUser.EmailMessages(u.email.value);
    assert Prefill(Some(u), form).email == u.email.value;
  }

  /** `handleSubmit`: without a route id nothing is dispatched; otherwise the
      update is sent for that id with the form's values. */
  function Submit(id: Option<string>, values: AddUser.UserForm): (r: Option<(string, AddUser.UserForm)>)
    ensures r.None? <==> !Present(id)
    ensures r.Some? ==> r.value == (id.value, values)
  {
    if Present(id) then Some((id.value, values)) else None
  }

  /** The form's values as the object the update sends. */
  function Body(values: AddUser.UserForm): (r: Fields)
    ensures Keys(r) == ["first_name", "last_name", "email"]
    ensures Get(r, "first_name") == Str(values.first_name) && Get(r, "last_name") == Str(values.last_name)
    ensures Get(r, "email") == Str(values.email)
  {
    var r := [("first_name", Str(values.first_name)), ("last_name", Str(values.last_name)), ("email", Str(values.email))];
    assert |r[0].0| == 10 && |r[1].0| == 9 && |r[2].0| == 5;
    LookupAt(r, "last_name", 1);
    LookupAt(r, "email", 2);
    r
  }

  /** Every submission the guard lets through passes the service's own id
      check, so the "ID is required" error never reaches this form. */
  lemma SubmitPassesIdCheck(id: Option<string>, values: AddUser.UserForm)
    requires Submit(id, values).Some?
    ensures Api.UsersUpdate(Submit(id, values).value.0, Body(Submit(id, values).value.1)).Ok?
  {
  }
}
