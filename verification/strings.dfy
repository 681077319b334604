/** Character and string primitives the proxy relies on: Python's
    `str.lower()` restricted to Latin-1 text, `startswith`/`endswith`,
    and the searches (`find`, `rfind`) that `urllib.parse` uses. */
module Strings {
  import opened Wrappers

  /** Python's `str.lower()` on one Latin-1 character: ASCII capitals and the
      Latin-1 capitals U+00C0..U+00DE (except the multiplication sign U+00D7)
      move up by 0x20; everything else is unchanged. */
  function LowerChar(c: char): char {
    if 'A' <= c <= 'Z' || ('À' <= c <= 'Þ' && c != '×') then
      (c as int + 0x20) as char
    else
      c
  }

  /** `s.lower()`, character by character. */
  function Lower(s: string): string {
    seq(|s|, i requires 0 <= i < |s| => LowerChar(s[i]))
  }

  /** `s.startswith(p)` */
  predicate StartsWith(s: string, p: string) {
    |p| <= |s| && s[..|p|] == p
  }

  /** `s.endswith(p)` */
  predicate EndsWith(s: string, p: string) {
    |p| <= |s| && s[|s| - |p|..] == p
  }

  /** The first position at or after `from` holding any character of `cs`,
      or None when there is none. */
  function IndexOfAny(s: string, cs: set<char>, from: nat): (r: Option<nat>)
    requires from <= |s|
    ensures r.None? ==> forall j :: from <= j < |s| ==> s[j] !in cs
    ensures r.Some? ==> from <= r.value < |s| && s[r.value] in cs
    ensures r.Some? ==> forall j :: from <= j < r.value ==> s[j] !in cs
    decreases |s| - from
  {
    if from == |s| then None
    else if s[from] in cs then Some(from)
    else IndexOfAny(s, cs, from + 1)
  }

  /** The first position at or after `from` holding `c` (`s.find(c, from)`),
      or None when there is none. */
  function IndexOf(s: string, c: char, from: nat): (r: Option<nat>)
    requires from <= |s|
    ensures r.None? ==> forall j :: from <= j < |s| ==> s[j] != c
    ensures r.Some? ==> from <= r.value < |s| && s[r.value] == c
    ensures r.Some? ==> forall j :: from <= j < r.value ==> s[j] != c
  {
    IndexOfAny(s, {c}, from)
  }

  /** The last position before `upto` holding `c` (`s.rfind(c)` when
      `upto == |s|`), or None when there is none. */
  function LastIndexOf(s: string, c: char, upto: nat): (r: Option<nat>)
    requires upto <= |s|
    ensures r.None? ==> forall j :: 0 <= j < upto ==> s[j] != c
    ensures r.Some? ==> r.value < upto && s[r.value] == c
    ensures r.Some? ==> forall j :: r.value < j < upto ==> s[j] != c
  {
    if upto == 0 then None
    else if s[upto - 1] == c then Some(upto - 1)
    else LastIndexOf(s, c, upto - 1)
  }

  /** An optional position moved `n` places to the right. */
  function Shift(o: Option<nat>, n: nat): Option<nat> {
    match o
    case None => None
    case Some(i) => Some(i + n)
  }

  /** Searching `a + b` from a point after which `a` holds none of `cs` finds
      exactly what searching `b` alone finds, moved past `a`. */
  lemma IndexOfAnyConcat(a: string, b: string, cs: set<char>, from: nat)
    requires from <= |a|
    requires forall j :: from <= j < |a| ==> a[j] !in cs
    ensures IndexOfAny(a + b, cs, from) == Shift(IndexOfAny(b, cs, 0), |a|)
  {
    var s := a + b;
    match IndexOfAny(b, cs, 0)
    case None =>
      forall j | from <= j < |s| ensures s[j] !in cs {
        if j >= |a| { assert s[j] == b[j - |a|]; }
      }
    case Some(i) =>
      assert s[|a| + i] in cs;
      forall j | from <= j < |a| + i ensures s[j] !in cs {
        if j >= |a| { assert s[j] == b[j - |a|]; }
      }
  }
}
