/**
  The users slice of the client store, and the normalisation its thunks apply
  to the users the API returns (a display name, and a made-up address for
  users without one).
 */
module UsersSlice {
  import opened Js
  import opened Types
  import Lists

  datatype UserFilters = UserFilters(search: string, status: string)

  datatype FiltersPatch = FiltersPatch(search: Option<string>, status: Option<string>)

  const InitialFilters := UserFilters("", "all")

  function MergeFilters(f: UserFilters, patch: FiltersPatch): (r: UserFilters)
    ensures r.search == (if patch.search.Some? then patch.search.value else f.search)
    ensures r.status == (if patch.status.Some? then patch.status.value else f.status)
  {
    UserFilters(
      if patch.search.Some? then patch.search.value else f.search,
      if patch.status.Some? then patch.status.value else f.status)
  }

  /** `${first_name} ${last_name}`. */
  function FullName(u: User): string
  {
    Interp(u.first_name) + " " + Interp(u.last_name)
  }

  /** The address made up for a user without one. */
  function DerivedEmail(first: string, last: string): string
  {
    Lower(first) + "." + Lower(last) + "@example.com"
  }

  /** The per-user map of fetchUsers and fetchUserById. `None` stands for the
      TypeError `first_name.toLowerCase()` throws when the address is missing and
      a name part is undefined; the thunk then rejects. */
  function FetchedUser(u: User): (r: Option<User>)
    ensures r.None? <==> !Present(u.email) && (u.first_name.None? || u.last_name.None?)
    ensures r.Some? ==> r.value.name == Some(FullName(u))
    ensures r.Some? && Present(u.email) ==> r.value.email == u.email
    ensures r.Some? && !Present(u.email) ==>
      r.value.email == Some(DerivedEmail(u.first_name.value, u.last_name.value))
    ensures r.Some? ==> r.value.(name := u.name, email := u.email) == u
  {
    if Present(u.email) then Some(u.(name := Some(FullName(u))))
    else if u.first_name.None? || u.last_name.None? then None
    else Some(u.(name := Some(FullName(u)),
                 email := Some(DerivedEmail(u.first_name.value, u.last_name.value))))
  }

  /** After normalisation every user has a non-empty address. */
  lemma FetchedUserHasEmail(u: User)
    requires FetchedUser(u).Some?
    ensures Present(FetchedUser(u).value.email)
  {
    var e := DerivedEmail(Interp(u.first_name), Interp(u.last_name));
    assert e[|e| - 1] == 'm';
  }

  /** `users.map(...)` with the per-user normalisation: the whole list, or the
      failure of the first user that throws. */
  function FetchedUsers(users: seq<User>): (r: Option<seq<User>>)
    ensures r.Some? <==> forall j :: 0 <= j < |users| ==> FetchedUser(users[j]).Some?
    ensures r.Some? ==> |r.value| == |users|
    ensures r.Some? ==> forall j :: 0 <= j < |users| ==> r.value[j] == FetchedUser(users[j]).value
  {
    if users == [] then Some([])
    else
      match FetchedUser(users[0])
      case None => None
      case Some(u) =>
        match FetchedUsers(users[1..])
        case None => None
        case Some(rest) => Some([u] + rest)
  }

  /** The map of searchUsers, createUser and updateUser: only the display name
      is derived; a missing address stays missing. */
  function WithName(u: User): (r: User)
    ensures r.name == Some(FullName(u))
    ensures r.email == u.email
    ensures r.(name := u.name) == u
  {
    u.(name := Some(FullName(u)))
  }

  predicate HasId(u: User, id: string) { u.id == id }

  class UsersStore {
    var users: seq<User>
    var currentUser: Option<User>
    var loading: bool
    var error: Option<string>
    var filters: UserFilters
    var totalUsers: int
    var currentPage: int
    var itemsPerPage: int

    predicate CounterInSync()
      reads this
    {
      totalUsers == |users|
    }

    constructor ()
      ensures users == [] && currentUser == None && !loading && error == None
      ensures filters == InitialFilters && totalUsers == 0
      ensures currentPage == 1 && itemsPerPage == 10
      ensures CounterInSync()
    {
      users := [];
      currentUser := None;
      loading := false;
      error := None;
      filters := InitialFilters;
      totalUsers := 0;
      currentPage := 1;
      itemsPerPage := 10;
    }

    method ClearError()
      modifies this
      ensures error == None
      ensures users == old(users) && currentUser == old(currentUser) && loading == old(loading)
      ensures filters == old(filters) && totalUsers == old(totalUsers)
      ensures currentPage == old(currentPage) && itemsPerPage == old(itemsPerPage)
    {
      error := None;
    }

    method SetFilters(patch: FiltersPatch)
      modifies this
      ensures filters == MergeFilters(old(filters), patch)
      ensures users == old(users) && currentUser == old(currentUser) && loading == old(loading)
      ensures error == old(error) && totalUsers == old(totalUsers)
      ensures currentPage == old(currentPage) && itemsPerPage == old(itemsPerPage)
    {
      filters := MergeFilters(filters, patch);
    }

    method ClearFilters()
      modifies this
      ensures filters == InitialFilters
      ensures users == old(users) && currentUser == old(currentUser) && loading == old(loading)
      ensures error == old(error) && totalUsers == old(totalUsers)
      ensures currentPage == old(currentPage) && itemsPerPage == old(itemsPerPage)
    {
      filters := UserFilters("", "all");
    }

    method SetCurrentPage(page: int)
      modifies this
      ensures currentPage == page
      ensures users == old(users) && currentUser == old(currentUser) && loading == old(loading)
      ensures error == old(error) && filters == old(filters) && totalUsers == old(totalUsers)
      ensures itemsPerPage == old(itemsPerPage)
    {
      currentPage := page;
    }

    method SetItemsPerPage(size: int)
      modifies this
      ensures itemsPerPage == size && currentPage == 1
      ensures users == old(users) && currentUser == old(currentUser) && loading == old(loading)
      ensures error == old(error) && filters == old(filters) && totalUsers == old(totalUsers)
    {
      itemsPerPage := size;
      currentPage := 1;
    }

    method ClearCurrentUser()
      modifies this
      ensures currentUser == None
      ensures users == old(users) && loading == old(loading) && error == old(error)
      ensures filters == old(filters) && totalUsers == old(totalUsers)
      ensures currentPage == old(currentPage) && itemsPerPage == old(itemsPerPage)
    {
      currentUser := None;
    }

    /** The `pending` case of fetchUsers, fetchUserById, createUser, updateUser
        and deleteUser (searchUsers has none). */
    method Pending()
      modifies this
      ensures loading && error == None
      ensures users == old(users) && currentUser == old(currentUser)
      ensures totalUsers == old(totalUsers) && filters == old(filters)
      ensures currentPage == old(currentPage) && itemsPerPage == old(itemsPerPage)
    {
      loading := true;
      error := None;
    }

    /** The `rejected` case of the same five thunks. */
    method Rejected(payload: string)
      modifies this
      ensures !loading && error == Some(payload)
      ensures users == old(users) && currentUser == old(currentUser)
      ensures totalUsers == old(totalUsers) && filters == old(filters)
      ensures currentPage == old(currentPage) && itemsPerPage == old(itemsPerPage)
    {
      loading := false;
      error := Some(payload);
    }

    method FetchUsersFulfilled(payload: seq<User>)
      modifies this
      ensures !loading && users == payload && totalUsers == |payload|
      ensures CounterInSync()
      ensures currentUser == old(currentUser) && error == old(error) && filters == old(filters)
      ensures currentPage == old(currentPage) && itemsPerPage == old(itemsPerPage)
    {
      loading := false;
      users := payload;
      totalUsers := |payload|;
    }

    method FetchUserByIdFulfilled(payload: User)
      modifies this
      ensures !loading && currentUser == Some(payload)
      ensures users == old(users) && error == old(error) && filters == old(filters)
      ensures totalUsers == old(totalUsers)
      ensures currentPage == old(currentPage) && itemsPerPage == old(itemsPerPage)
    {
      loading := false;
      currentUser := Some(payload);
    }

    method SearchUsersFulfilled(payload: seq<User>)
      modifies this
      ensures users == payload
      ensures totalUsers == old(totalUsers) && loading == old(loading) && error == old(error)
      ensures currentUser == old(currentUser) && filters == old(filters)
      ensures currentPage == old(currentPage) && itemsPerPage == old(itemsPerPage)
    {
      users := payload;
    }

    method CreateUserFulfilled(payload: User)
      modifies this
      ensures !loading
      ensures users == [payload] + old(users)
      ensures totalUsers == old(totalUsers) + 1
      ensures old(CounterInSync()) ==> CounterInSync()
      ensures currentUser == old(currentUser) && error == old(error) && filters == old(filters)
      ensures currentPage == old(currentPage) && itemsPerPage == old(itemsPerPage)
    {
      loading := false;
      users := [payload] + users;
      totalUsers := totalUsers + 1;
    }

    method UpdateUserFulfilled(payload: User)
      modifies this
      ensures !loading
      ensures users == Lists.ReplaceFirst(old(users), (u: User) => HasId(u, payload.id), payload)
      ensures |users| == |old(users)|
      ensures (forall j :: 0 <= j < |old(users)| ==> old(users)[j].id != payload.id) ==> users == old(users)
      ensures currentUser == if old(currentUser).Some? && old(currentUser).value.id == payload.id
                             then Some(payload) else old(currentUser)
      ensures error == old(error) && totalUsers == old(totalUsers) && filters == old(filters)
      ensures currentPage == old(currentPage) && itemsPerPage == old(itemsPerPage)
    {
      loading := false;
      users := Lists.ReplaceFirst(users, (u: User) => HasId(u, payload.id), payload);
      if currentUser.Some? && currentUser.value.id == payload.id {
        currentUser := Some(payload);
      }
    }

    method DeleteUserFulfilled(id: string)
      modifies this
      ensures !loading
      ensures users == Lists.FilterOut(old(users), (u: User) => HasId(u, id))
      ensures forall j :: 0 <= j < |users| ==> users[j].id != id
      ensures totalUsers == old(totalUsers) - 1
      ensures old(CounterInSync()) ==>
        (CounterInSync() <==> Lists.Count(old(users), (u: User) => HasId(u, id)) == 1)
      ensures currentUser == if old(currentUser).Some? && old(currentUser).value.id == id
                             then None else old(currentUser)
      ensures error == old(error) && filters == old(filters)
      ensures currentPage == old(currentPage) && itemsPerPage == old(itemsPerPage)
    {
      loading := false;
      users := Lists.FilterOut(users, (u: User) => HasId(u, id));
      totalUsers := totalUsers - 1;
      if currentUser.Some? && currentUser.value.id == id {
        currentUser := None;
      }
    }
  }
}
