/**
  The user list page: the search filter over names, address and id, the
  visible page, the spreadsheet export and the message shown after a
  deletion.
 */
module UsersPage {
  import opened Js
  import opened Types
  import Lists
  import Paging
  import UsersSlice
  import ExportUtils

  /** `field?.toLowerCase().includes(term)`: a missing field never matches. */
  predicate FieldMatches(field: Option<string>, term: string)
  {
    field.Some? && Contains(Lower(field.value), term)
  }

  /** The test applied to each user once the term is lower-cased. */
  predicate UserMatches(u: User, term: string)
  {
    FieldMatches(u.first_name, term) || FieldMatches(u.last_name, term)
    || FieldMatches(u.email, term) || Contains(Lower(u.id), term)
  }

  /** `filterUsers`: an empty term returns the list itself; any other keeps
      the users with a field containing the lower-cased term. */
  function FilterUsers(users: seq<User>, searchTerm: string): (r: seq<User>)
    ensures searchTerm == "" ==> r == users
    ensures |r| <= |users|
    ensures searchTerm != "" ==> forall j :: 0 <= j < |r| ==> UserMatches(r[j], Lower(searchTerm)) && r[j] in users
    ensures searchTerm != "" ==> forall j :: 0 <= j < |users| && UserMatches(users[j], Lower(searchTerm)) ==> users[j] in r
  {
    if searchTerm == "" then users
    else Lists.Filter(users, (u: User) => UserMatches(u, Lower(searchTerm)))
  }

  /** A user none of whose searched fields is present is found only through
      its id. */
  lemma MissingFieldsNeverMatch(u: User, searchTerm: string)
    requires searchTerm != ""
    requires u.first_name.None? && u.last_name.None? && u.email.None?
    ensures u in FilterUsers([u], searchTerm) <==> Contains(Lower(u.id), Lower(searchTerm))
  {
    if Contains(Lower(u.id), Lower(searchTerm)) {
      assert FilterUsers([u], searchTerm) == [u];
    }
  }

  /** The filter keeps the order of the list. */
  lemma FilterUsersAppend(a: seq<User>, b: seq<User>, searchTerm: string)
    ensures FilterUsers(a + b, searchTerm) == FilterUsers(a, searchTerm) + FilterUsers(b, searchTerm)
  {
    if searchTerm != "" {
      Lists.FilterConcat(a, b, (u: User) => UserMatches(u, Lower(searchTerm)));
    }
  }

  /** `paginatedUsers`: `filteredUsers.slice(startIndex, startIndex + itemsPerPage)`. */
  function VisibleUsers(users: seq<User>, searchTerm: string, page: int, size: int): (r: seq<User>)
    ensures page >= 1 && size >= 1 ==> |r| <= size
    ensures page >= 1 && size >= 1 ==> forall i :: 0 <= i < |r| ==>
      Paging.StartIndex(page, size) + i < |FilterUsers(users, searchTerm)| &&
      r[i] == FilterUsers(users, searchTerm)[Paging.StartIndex(page, size) + i]
    ensures page >= 1 && size >= 1 ==>
      |r| == Paging.Min(size, |FilterUsers(users, searchTerm)| - Paging.Min(Paging.StartIndex(page, size), |FilterUsers(users, searchTerm)|))
  {
    var filtered := FilterUsers(users, searchTerm);
    if page >= 1 && size >= 1 then Paging.PageContents(filtered, page, size); Paging.PageOf(filtered, page, size)
    else Paging.PageOf(filtered, page, size)
  }

  /** `totalPages`: enough pages for every filtered user, and none when the
      filter keeps nobody. */
  function TotalPages(users: seq<User>, searchTerm: string, size: int): (r: nat)
    requires size > 0
    ensures r == 0 <==> FilterUsers(users, searchTerm) == []
    ensures |FilterUsers(users, searchTerm)| <= r * size
    ensures r > 0 ==> (r - 1) * size < |FilterUsers(users, searchTerm)|
  {
    Paging.PageCount(|FilterUsers(users, searchTerm)|, size)
  }

  /** Going through the pages one by one shows every filtered user once. */
  lemma PagesShowAllUsers(users: seq<User>, searchTerm: string, size: int)
    requires size >= 1
    ensures Paging.Pages(FilterUsers(users, searchTerm), size, 1, TotalPages(users, searchTerm, size)) ==
      FilterUsers(users, searchTerm)
  {
    Paging.PagesCover(FilterUsers(users, searchTerm), size);
  }

  const ExportKeys: seq<string> := ["Serial No", "User ID", "First Name", "Last Name", "Email Address"]

  /** One spreadsheet row; a missing name part or address is written as "". */
  function ExportRow(u: User, index: nat): (r: Fields)
    ensures Keys(r) == ExportKeys
    ensures r[0].1 == Num(index + 1) && r[1].1 == Str(u.id)
    ensures r[2].1 == Str(OrElse(u.first_name, "")) && r[3].1 == Str(OrElse(u.last_name, ""))
    ensures r[4].1 == Str(OrElse(u.email, ""))
  {
    [ ("Serial No", Num(index + 1)),
      ("User ID", Str(u.id)),
      ("First Name", Str(OrElse(u.first_name, ""))),
      ("Last Name", Str(OrElse(u.last_name, ""))),
      ("Email Address", Str(OrElse(u.email, ""))) ]
  }

  function ExportRows(filtered: seq<User>): (r: seq<Fields>)
    ensures |r| == |filtered|
    ensures forall i :: 0 <= i < |r| ==> r[i] == ExportRow(filtered[i], i)
  {
    seq(|filtered|, (i: int) requires 0 <= i < |filtered| => ExportRow(filtered[i], i))
  }

  /** The sheet gets five columns, the first as wide as the longest serial
      number or "Serial No"; a user without an address gives an empty cell
      that does not widen its column. */
  lemma ExportWidths(filtered: seq<User>)
    requires filtered != []
    ensures |ExportUtils.ColumnWidths(ExportRows(filtered))| == 5
    ensures forall i :: 0 <= i < |filtered| && !Present(filtered[i].email) ==>
      ExportUtils.ValueText(Get(ExportRows(filtered)[i], "Email Address")) == ""
  {
    var rows := ExportRows(filtered);
    assert |Keys(rows[0])| == 5;
    forall i | 0 <= i < |filtered| && !Present(filtered[i].email)
      ensures ExportUtils.ValueText(Get(rows[i], "Email Address")) == ""
    {
      EmailCell(filtered[i], i);
    }
  }

  /** The "Email Address" cell of a row is the user's address or "". */
  lemma EmailCell(u: User, index: nat)
    ensures Get(ExportRow(u, index), "Email Address") == Str(OrElse(u.email, ""))
  {
    var r := ExportRow(u, index);
    assert |"Email Address"| == 13;
    assert |r[0].0| == 9 && |r[1].0| == 7 && |r[2].0| == 10 && |r[3].0| == 9;
    assert r[4].0 == "Email Address";
    LookupAt(r, "Email Address", 4);
  }

  /** `users-export-${date}`. */
  function ExportName(iso: string): (r: string)
    ensures |r| >= 13 && r[..13] == "users-export-"
    ensures 'T' !in r[13..]
    ensures 'T' !in iso ==> r == "users-export-" + iso
  {
    "users-export-" + Split(iso, 'T')[0]
  }

  lemma ExportFileName(day: string, time: string)
    requires 'T' !in day
    ensures ExportUtils.FileName(ExportName(day + "T" + time)) == "users-export-" + day + ".xlsx"
  {
    SplitPrefix(day, 'T', time);
  }

  /** The name in the "has been successfully deleted" message: the same
      `${first_name} ${last_name}` the store derives, so a missing part shows
      as "undefined". */
  function DeletionMessage(u: User): (r: string)
    ensures r == UsersSlice.FullName(u) + " has been successfully deleted"
    ensures u.first_name.None? ==> r[..9] == "undefined"
  {
    UsersSlice.FullName(u) + " has been successfully deleted"
  }
}
