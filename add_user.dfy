/**
  The user creation form: two required names and an address that must be
  given and must look like an e-mail address, as the unanchored pattern
  `\S+@\S+\.\S+` decides.
 */
module AddUser {
  import opened Js
  import AddTask
  import UsersSlice

  /** The values the form submits. */
  datatype UserForm = UserForm(first_name: string, last_name: string, email: string)

  function ValidateFirstName(value: string): (r: Option<string>)
    ensures r.Some? ==> r.value == "First name is required"
    ensures r.Some? <==> forall i :: 0 <= i < |value| ==> IsSpace(value[i])
  {
    AddTask.RequiredText(value, "First name is required")
  }

  function ValidateLastName(value: string): (r: Option<string>)
    ensures r.Some? ==> r.value == "Last name is required"
    ensures r.Some? <==> forall i :: 0 <= i < |value| ==> IsSpace(value[i])
  {
    AddTask.RequiredText(value, "Last name is required")
  }

  /** `s[a..b]` is a non-empty run of characters `\S` matches. */
  predicate NonSpaceRun(s: string, a: int, b: int)
    requires 0 <= a <= b <= |s|
  {
    a < b && forall i :: a <= i < b ==> !IsSpace(s[i])
  }

  /** The pattern matches `s[i..m]`, with the "@" at `j` and the "." at `k`. */
  predicate MatchAt(s: string, i: int, j: int, k: int, m: int)
  {
    0 <= i < j < k < m <= |s| && NonSpaceRun(s, i, j) && s[j] == '@' &&
    NonSpaceRun(s, j + 1, k) && s[k] == '.' && NonSpaceRun(s, k + 1, m)
  }

  /** `/\S+@\S+\.\S+/.test(s)`: a match anywhere in the string. */
  ghost predicate MatchesEmailPattern(s: string)
  {
    exists i, j, k, m :: MatchAt(s, i, j, k, m)
  }

  /** The test as a search for the shortest match: an "@" with a visible
      character before it, a visible run up to a ".", and a visible character
      after that. */
  predicate EmailCheck(s: string)
  {
    exists j, k :: 1 <= j < |s| && j + 1 < k < |s| - 1 && ShortMatchAt(s, j, k)
  }

  /** A match of one character, "@" at `j`, a run, "." at `k`, one character. */
  predicate ShortMatchAt(s: string, j: int, k: int)
  {
    MatchAt(s, j - 1, j, k, k + 2)
  }

  /** Every match can be shrunk to one character on each side, so the search
      finds a match exactly when there is one. */
  lemma ShortestMatch(s: string)
    ensures MatchesEmailPattern(s) <==> EmailCheck(s)
  {
    if MatchesEmailPattern(s) {
      var i, j, k, m :| MatchAt(s, i, j, k, m);
      assert ShortMatchAt(s, j, k);
    }
  }

  /** A string without an "@", or without a ".", never matches. */
  lemma NeedsAtAndDot(s: string)
    requires '@' !in s || '.' !in s
    ensures !MatchesEmailPattern(s)
  {
  }

  /** An address whose local part ends, and whose top-level part starts, with
      a visible character, around a visible host name, matches. */
  lemma AddressMatches(local: string, host: string, top: string)
    requires local != [] && !IsSpace(local[|local| - 1])
    requires host != [] && forall i :: 0 <= i < |host| ==> !IsSpace(host[i])
    requires top != [] && !IsSpace(top[0])
    ensures MatchesEmailPattern(local + "@" + host + "." + top)
  {
    var s := local + "@" + host + "." + top;
    var j := |local|;
    var k := |local| + 1 + |host|;
    assert s[j - 1] == local[|local| - 1] && s[j] == '@';
    forall i | j + 1 <= i < k ensures !IsSpace(s[i]) { assert s[i] == host[i - j - 1]; }
    assert s[k] == '.' && s[k + 1] == top[0];
    assert MatchAt(s, j - 1, j, k, k + 2);
  }

  /** The pattern is not anchored: text around a match does not spoil it. */
  lemma MatchInContext(before: string, s: string, after: string)
    requires MatchesEmailPattern(s)
    ensures MatchesEmailPattern(before + s + after)
  {
    var i, j, k, m :| MatchAt(s, i, j, k, m);
    var t := before + s + after;
    var d := |before|;
    forall x | 0 <= x < |s| ensures t[d + x] == s[x] { }
    assert MatchAt(t, d + i, d + j, d + k, d + m);
  }

  /** The address is required first; the format message is given only for a
      non-blank address the pattern does not match. */
  function ValidateEmail(value: string): (r: Option<string>)
    ensures Blank(value) ==> r == Some("Email is required")
    ensures !Blank(value) ==> (r.None? <==> MatchesEmailPattern(value))
    ensures !Blank(value) && r.Some? ==> r.value == "Please enter a valid email"
  {
    ShortestMatch(value);
    if Blank(value) then Some("Email is required")
    else if !EmailCheck(value) then Some("Please enter a valid email")
    else None
  }

  /** A blank address never gets the format message, and a matching one is
      never blank and has at least five characters, as "a@b.c" does: the two
      refusals cannot be confused. */
  lemma EmailMessages(value: string)
    ensures ValidateEmail(value) == Some("Please enter a valid email") ==> !Blank(value)
    ensures MatchesEmailPattern(value) ==> ValidateEmail(value).None?
    ensures MatchesEmailPattern(value) ==> |value| >= 5
  {
    BlankIffAllSpace(value);
    if MatchesEmailPattern(value) {
      var i, j, k, m :| MatchAt(value, i, j, k, m);
      assert !IsSpace(value[i]);
    }
  }

  datatype UserErrors = UserErrors(first_name: Option<string>, last_name: Option<string>, email: Option<string>)

  function Validate(f: UserForm): (r: UserErrors)
    ensures r.first_name == ValidateFirstName(f.first_name) && r.last_name == ValidateLastName(f.last_name)
    ensures r.email == ValidateEmail(f.email)
  {
    UserErrors(ValidateFirstName(f.first_name), ValidateLastName(f.last_name), ValidateEmail(f.email))
  }

  /** The address the store makes up for a user without one passes the form's
      check whenever the last name is empty or ends in a visible character. */
  lemma DerivedEmailAccepted(first: string, last: string)
    requires last == [] || !IsSpace(last[|last| - 1])
    ensures ValidateEmail(UsersSlice.DerivedEmail(first, last)).None?
  {
    var local := Lower(first) + "." + Lower(last);
    LocalPartEndsVisible(first, last);
    ExampleHost();
    AddressMatches(local, "example", "com");
    DerivedEmailShape(first, last);
    EmailMessages(UsersSlice.DerivedEmail(first, last));
  }

  lemma DerivedEmailShape(first: string, last: string)
    ensures UsersSlice.DerivedEmail(first, last) == (Lower(first) + "." + Lower(last)) + "@" + "example" + "." + "com"
  {
  }

  lemma LocalPartEndsVisible(first: string, last: string)
    requires last == [] || !IsSpace(last[|last| - 1])
    ensures var local := Lower(first) + "." + Lower(last);
      local != [] && !IsSpace(local[|local| - 1])
  {
    var local := Lower(first) + "." + Lower(last);
    if last != [] {
      assert local[|local| - 1] == Lower(last)[|last| - 1];
      LowerKeepsVisible(last[|last| - 1]);
    } else {
      assert local[|local| - 1] == '.';
    }
  }

  lemma LowerKeepsVisible(c: char)
    requires !IsSpace(c)
    ensures !IsSpace(LowerChar(c))
  {
  }

  lemma ExampleHost()
    ensures forall i :: 0 <= i < |"example"| ==> !IsSpace("example"[i])
    ensures !IsSpace("com"[0])
  {
  }
}
