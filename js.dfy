/**
  The small part of JavaScript's value semantics that the dashboard relies on:
  optional fields, the falsy test behind `a || b`, template-string interpolation,
  `toLowerCase` (ASCII only), `trim`, `includes`, and decimal rendering and
  parsing of integers.
 */
module Js {

  datatype Option<T> = None | Some(value: T)

  datatype Result<T, E> = Ok(value: T) | Err(error: E)

  /** A JavaScript value as the export and table code see it. */
  datatype JsValue = Undefined | Null | Bool(b: bool) | Num(n: int) | Str(s: string)

  /** `v` is truthy: not undefined, null, false, 0 or "". */
  predicate Truthy(v: JsValue)
  {
    match v
    case Undefined => false
    case Null => false
    case Bool(b) => b
    case Num(n) => n != 0
    case Str(s) => s != ""
  }

  /** A flat object, fields in insertion order (the order `Object.keys` lists). */
  type Fields = seq<(string, JsValue)>

  /** First value stored under `key`. */
  function Lookup<V>(fields: seq<(string, V)>, key: string): Option<V>
  {
    if fields == [] then None
    else if fields[0].0 == key then Some(fields[0].1)
    else Lookup(fields[1..], key)
  }

  /** The lookup finds the first field carrying the key. */
  lemma {:induction false} LookupAt<V>(fields: seq<(string, V)>, key: string, k: nat)
    requires k < |fields| && fields[k].0 == key
    requires forall j :: 0 <= j < k ==> fields[j].0 != key
    ensures Lookup(fields, key) == Some(fields[k].1)
  {
    if k > 0 {
      LookupAt(fields[1..], key, k - 1);
    }
  }

  /** `Object.keys(obj)`. */
  function Keys(fields: Fields): (r: seq<string>)
    ensures |r| == |fields|
    ensures forall i :: 0 <= i < |r| ==> r[i] == fields[i].0
  {
    seq(|fields|, (i: int) requires 0 <= i < |fields| => fields[i].0)
  }

  /** `obj[key]`: a missing key reads as `undefined`. */
  function Get(fields: Fields, key: string): JsValue
  {
    match Lookup(fields, key)
    case None => Undefined
    case Some(v) => v
  }

  /** An optional string field is truthy when it is present and not empty. */
  predicate Present(o: Option<string>)
  {
    o.Some? && o.value != ""
  }

  /** `o || d` for an optional string field. */
  function OrElse(o: Option<string>, d: string): (r: string)
    ensures Present(o) ==> r == o.value
    ensures !Present(o) ==> r == d
  {
    if Present(o) then o.value else d
  }

  /** `${o}` inside a template string: a missing field prints as "undefined". */
  function Interp(o: Option<string>): string
  {
    match o
    case None => "undefined"
    case Some(s) => s
  }

  /** An optional boolean flag is truthy only when it is present and true. */
  predicate Flag(o: Option<bool>)
  {
    o == Some(true)
  }

  // ---------------------------------------------------------------------------
  // Characters and strings

  /** The characters of JavaScript's WhiteSpace and LineTerminator productions:
      what `trim` removes and what `\s` matches. */
  predicate IsSpace(c: char)
  {
    c == ' ' || c == '\t' || c == '\n' || c == '\r' || c == '\U{000B}' || c == '\U{000C}'
    || c == '\U{00A0}' || c == '\U{1680}' || ('\U{2000}' <= c <= '\U{200A}')
    || c == '\U{2028}' || c == '\U{2029}' || c == '\U{202F}' || c == '\U{205F}'
    || c == '\U{3000}' || c == '\U{FEFF}'
  }

  function LowerChar(c: char): char
  {
    if 'A' <= c <= 'Z' then (c as int + 32) as char else c
  }

  /** `toLowerCase`, restricted to ASCII letters. */
  function Lower(s: string): (r: string)
    ensures |r| == |s|
    ensures forall i :: 0 <= i < |s| ==> r[i] == LowerChar(s[i])
  {
    if s == [] then [] else [LowerChar(s[0])] + Lower(s[1..])
  }

  lemma {:induction false} LowerConcat(a: string, b: string)
    ensures Lower(a + b) == Lower(a) + Lower(b)
  {
    assert |Lower(a + b)| == |Lower(a) + Lower(b)|;
    forall i | 0 <= i < |a + b| ensures Lower(a + b)[i] == (Lower(a) + Lower(b))[i] {
      if i < |a| {
        assert (a + b)[i] == a[i];
      } else {
        assert (a + b)[i] == b[i - |a|];
      }
    }
  }

  function TrimStart(s: string): (r: string)
    ensures |r| <= |s| && r == s[|s| - |r|..]
    ensures r != [] ==> !IsSpace(r[0])
    ensures forall i :: 0 <= i < |s| - |r| ==> IsSpace(s[i])
  {
    if s != [] && IsSpace(s[0]) then TrimStart(s[1..]) else s
  }

  function TrimEnd(s: string): (r: string)
    ensures |r| <= |s| && r == s[..|r|]
    ensures r != [] ==> !IsSpace(r[|r| - 1])
    ensures forall i :: |r| <= i < |s| ==> IsSpace(s[i])
  {
    if s != [] && IsSpace(s[|s| - 1]) then TrimEnd(s[..|s| - 1]) else s
  }

  /** `trim`: both ends lose their white space. */
  function Trim(s: string): string
  {
    TrimEnd(TrimStart(s))
  }

  /** `!s.trim()`: the string is empty after trimming. */
  predicate Blank(s: string)
  {
    Trim(s) == ""
  }

  /** A string trims to nothing exactly when it consists of white space only. */
  lemma BlankIffAllSpace(s: string)
    ensures Blank(s) <==> forall i :: 0 <= i < |s| ==> IsSpace(s[i])
  {
    var t := TrimStart(s);
    assert |t| > 0 ==> t[0] == s[|s| - |t|];
    assert |TrimEnd(t)| > 0 ==> TrimEnd(t)[0] == t[0];
  }

  /** `s.includes(sub)`: `sub` is a prefix of some suffix of `s`. */
  predicate Contains(s: string, sub: string)
    decreases |s|
  {
    sub <= s || (s != [] && Contains(s[1..], sub))
  }

  /** `sub` starts at some position of `s`. */
  predicate Occurs(s: string, sub: string)
  {
    exists i :: 0 <= i <= |s| - |sub| && sub <= s[i..]
  }

  lemma {:induction false} ContainsIff(s: string, sub: string)
    ensures Contains(s, sub) <==> Occurs(s, sub)
    decreases |s|
  {
    if s == [] {
      if sub == [] {
        assert sub <= s[0..];
      }
    } else {
      ContainsIff(s[1..], sub);
      if sub <= s {
        assert s[0..] == s;
      }
      if Contains(s[1..], sub) {
        var i :| 0 <= i <= |s[1..]| - |sub| && sub <= s[1..][i..];
        assert s[1..][i..] == s[i + 1..];
      }
      if Occurs(s, sub) {
        var i :| 0 <= i <= |s| - |sub| && sub <= s[i..];
        if i == 0 {
          assert s[0..] == s;
        } else {
          assert s[1..][i - 1..] == s[i..];
        }
      }
    }
  }

  lemma ContainsEmpty(s: string)
    ensures Contains(s, "")
  {
  }

  /** A witness position shows an occurrence. */
  lemma ContainsAt(s: string, sub: string, i: nat)
    requires i + |sub| <= |s| && s[i..i + |sub|] == sub
    ensures Contains(s, sub)
  {
    assert sub <= s[i..];
    ContainsIff(s, sub);
  }

  /** A string cannot occur where one of its characters never does. */
  lemma NotContainsWithout(s: string, sub: string, k: nat)
    requires k < |sub| && sub[k] !in s
    ensures !Contains(s, sub)
  {
    forall i | 0 <= i <= |s| - |sub| ensures !(sub <= s[i..]) {
      assert s[i + k] in s;
    }
    ContainsIff(s, sub);
  }

  /** An occurrence that overlaps the separator shares a character with it. */
  lemma OverlapShares(a: string, sep: string, b: string, sub: string, i: nat)
    requires sep != [] && sub != [] && i + |sub| <= |a + sep + b| && sub <= (a + sep + b)[i..]
    requires i < |a| + |sep| && i + |sub| > |a|
    ensures exists k :: 0 <= k < |sub| && sub[k] in sep
  {
    var s := a + sep + b;
    var p := if i < |a| then |a| else i;
    assert s[i..][p - i] == sub[p - i] && s[p] == sep[p - |a|];
    assert sep[p - |a|] in sep;
  }

  /** An occurrence that ends inside the left part of a string shows in it. */
  lemma OccursLeft(a: string, rest: string, sub: string, i: nat)
    requires i + |sub| <= |a| && sub <= (a + rest)[i..]
    ensures Contains(a, sub)
  {
    assert a[i..i + |sub|] == (a + rest)[i..i + |sub|];
    ContainsAt(a, sub, i);
  }

  /** An occurrence that starts inside the right part of a string shows in it. */
  lemma OccursRight(left: string, b: string, sub: string, i: nat)
    requires |left| <= i && i + |sub| <= |left + b| && sub <= (left + b)[i..]
    ensures Contains(b, sub)
  {
    assert b[i - |left|..i - |left| + |sub|] == (left + b)[i..i + |sub|];
    ContainsAt(b, sub, i - |left|);
  }

  /** An occurrence of `sub` in `a + sep + b` lies inside `a` or inside `b` when
      `sub` shares no character with the separator. */
  lemma ContainsAcross(a: string, sep: string, b: string, sub: string)
    requires sep != []
    requires forall k :: 0 <= k < |sub| ==> sub[k] !in sep
    ensures Contains(a + sep + b, sub) ==> Contains(a, sub) || Contains(b, sub)
  {
    var s := a + sep + b;
    ContainsIff(s, sub);
    if Contains(s, sub) && sub != [] {
      var i :| 0 <= i <= |s| - |sub| && sub <= s[i..];
      if i + |sub| <= |a| {
        assert s == a + (sep + b);
        OccursLeft(a, sep + b, sub, i);
      } else if i >= |a| + |sep| {
        OccursRight(a + sep, b, sub, i);
      } else {
        OverlapShares(a, sep, b, sub, i);
      }
    }
  }

  /** `s.indexOf(c)` for a single character. */
  function IndexOf(s: string, c: char): (r: int)
    ensures -1 <= r < |s|
    ensures r >= 0 ==> s[r] == c && c !in s[..r]
    ensures r == -1 <==> c !in s
  {
    if s == [] then -1
    else if s[0] == c then 0
    else
      var k := IndexOf(s[1..], c);
      assert s[1..][..if k < 0 then 0 else k] == s[1..if k < 0 then 1 else k + 1];
      if k == -1 then -1 else k + 1
  }

  /** A string without the separator is one piece. */
  lemma SplitNone(s: string, sep: char)
    requires sep !in s
    ensures Split(s, sep) == [s]
  {
  }

  /** The first `c` of `a + [c] + b` is the one after `a`. */
  lemma IndexOfAfter(a: string, c: char, b: string)
    requires c !in a
    ensures IndexOf(a + [c] + b, c) == |a|
    ensures (a + [c] + b)[..|a|] == a && (a + [c] + b)[|a| + 1..] == b
  {
    var s := a + [c] + b;
    var r := IndexOf(s, c);
    assert s[|a|] == c;
    forall j | 0 <= j < |a| ensures s[j] != c {
      assert s[j] == a[j] && a[j] in a;
    }
  }

  /** `parts.join(sep)`. */
  function Join(parts: seq<string>, sep: char): string
  {
    if parts == [] then ""
    else if |parts| == 1 then parts[0]
    else parts[0] + [sep] + Join(parts[1..], sep)
  }

  /** `s.split(sep)` for a one-character separator: the pieces between
      separators, so joining them again gives back `s`. */
  function Split(s: string, sep: char): (r: seq<string>)
    ensures r != []
    ensures forall j :: 0 <= j < |r| ==> sep !in r[j]
    ensures Join(r, sep) == s
    decreases |s|
  {
    var i := IndexOf(s, sep);
    if i < 0 then [s]
    else
      var rest := Split(s[i + 1..], sep);
      var r := [s[..i]] + rest;
      assert r[0] == s[..i] && r[1..] == rest;
      assert s == s[..i] + [sep] + s[i + 1..];
      r
  }

  /** Splitting undoes joining pieces that hold no separator. */
  lemma {:induction false} SplitJoin(parts: seq<string>, sep: char)
    requires parts != []
    requires forall j :: 0 <= j < |parts| ==> sep !in parts[j]
    ensures Split(Join(parts, sep), sep) == parts
    decreases |parts|
  {
    if |parts| == 1 {
      SplitNone(parts[0], sep);
    } else {
      var p, rest := parts[0], parts[1..];
      assert Join(parts, sep) == p + [sep] + Join(rest, sep);
      SplitPrefix(p, sep, Join(rest, sep));
      SplitJoin(rest, sep);
      assert parts == [p] + rest;
    }
  }

  lemma {:induction false} JoinAppend(parts: seq<string>, last: string, sep: char)
    requires parts != []
    ensures Join(parts + [last], sep) == Join(parts, sep) + [sep] + last
    decreases |parts|
  {
    if |parts| == 1 {
      assert parts + [last] == [parts[0], last];
    } else {
      assert (parts + [last])[1..] == parts[1..] + [last];
      JoinAppend(parts[1..], last, sep);
    }
  }

  /** A separator-free piece before the first separator is the first piece. */
  lemma SplitPrefix(a: string, sep: char, rest: string)
    requires sep !in a
    ensures Split(a + [sep] + rest, sep) == [a] + Split(rest, sep)
  {
    IndexOfAfter(a, sep, rest);
  }

  /** Appending a separator and a separator-free piece adds one piece. */
  lemma SplitAppend(s: string, sep: char, last: string)
    requires sep !in last
    ensures Split(s + [sep] + last, sep) == Split(s, sep) + [last]
  {
    var parts := Split(s, sep);
    JoinAppend(parts, last, sep);
    SplitJoin(parts + [last], sep);
  }

  // ---------------------------------------------------------------------------
  // Decimal numbers

  predicate IsDigit(c: char)
  {
    '0' <= c <= '9'
  }

  function DigitChar(d: nat): (c: char)
    requires d < 10
    ensures IsDigit(c)
  {
    ('0' as int + d) as char
  }

  function DigitValue(c: char): (d: nat)
    requires IsDigit(c)
    ensures d < 10
  {
    c as int - '0' as int
  }

  /** `n.toString()` for a non-negative integer. */
  function NatToString(n: nat): (r: string)
    ensures r != []
    ensures forall i :: 0 <= i < |r| ==> IsDigit(r[i])
    decreases n
  {
    if n < 10 then [DigitChar(n)] else NatToString(n / 10) + [DigitChar(n % 10)]
  }

  /** `n.toString()` for any integer. */
  function IntToString(n: int): string
  {
    if n < 0 then "-" + NatToString(-n) else NatToString(n)
  }

  /** The value of a string of decimal digits, as `parseInt` reads it. */
  function ParseDigits(s: string): nat
    requires forall i :: 0 <= i < |s| ==> IsDigit(s[i])
  {
    if s == [] then 0 else ParseDigits(s[..|s| - 1]) * 10 + DigitValue(s[|s| - 1])
  }

  /** Rendering a number in decimal and reading it back gives the number. */
  lemma {:induction false} ParseNatToString(n: nat)
    ensures ParseDigits(NatToString(n)) == n
    decreases n
  {
    var s := NatToString(n);
    if n >= 10 {
      ParseNatToString(n / 10);
      assert s[..|s| - 1] == NatToString(n / 10);
    }
  }

  /** `String(v)` for the values a spreadsheet row holds. */
  function ToStr(v: JsValue): string
  {
    match v
    case Undefined => "undefined"
    case Null => "null"
    case Bool(b) => if b then "true" else "false"
    case Num(n) => IntToString(n)
    case Str(s) => s
  }
}
