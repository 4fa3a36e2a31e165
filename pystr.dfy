/**
 * The few Python `str` operations the simulator's own bookkeeping relies on:
 * `isspace`, `strip`, `startswith`, `replace`, `split(sep)` and `split(sep, 1)`.
 * Strings are sequences of Unicode code points, as in Python 3.
 */
module PyStr {

  /** Python's `str.isspace` for a single code point. */
  predicate IsSpace(c: char) {
    c in Whitespace
  }

  /** The code points for which Python's `str.isspace` holds. */
  const Whitespace: set<char> := {
    '\t', '\n', '\U{0B}', '\U{0C}', '\r', '\U{1C}', '\U{1D}', '\U{1E}', '\U{1F}', ' ',
    '\U{85}', '\U{A0}', '\U{1680}', '\U{2000}', '\U{2001}', '\U{2002}', '\U{2003}',
    '\U{2004}', '\U{2005}', '\U{2006}', '\U{2007}', '\U{2008}', '\U{2009}', '\U{200A}',
    '\U{2028}', '\U{2029}', '\U{202F}', '\U{205F}', '\U{3000}' }

  /** `s.lstrip()`: drops the maximal whitespace prefix. */
  function StripLeft(s: string): (r: string)
    ensures |r| <= |s| && r == s[|s| - |r|..]
    ensures r == [] || !IsSpace(r[0])
    ensures forall i :: 0 <= i < |s| - |r| ==> IsSpace(s[i])
  {
    if s != [] && IsSpace(s[0]) then
      var r := StripLeft(s[1..]);
      SpacesThenTail(s, |s| - 1 - |r|);
      assert s[1..][|s| - 1 - |r|..] == s[|s| - |r|..];
      r
    else s
  }

  /** A whitespace head followed by `n` whitespace characters of the tail is `n + 1` of them. */
  lemma SpacesThenTail(s: string, n: nat)
    requires s != [] && IsSpace(s[0]) && n < |s|
    requires forall i :: 0 <= i < n ==> IsSpace(s[1..][i])
    ensures forall i :: 0 <= i < n + 1 ==> IsSpace(s[i])
  {
    forall i | 1 <= i < n + 1 ensures IsSpace(s[i]) {
      assert s[i] == s[1..][i - 1];
    }
  }

  /** `s.rstrip()`: drops the maximal whitespace suffix. */
  function StripRight(s: string): (r: string)
    ensures |r| <= |s| && r == s[..|r|]
    ensures r == [] || !IsSpace(r[|r| - 1])
    ensures forall i :: |r| <= i < |s| ==> IsSpace(s[i])
  {
    if s != [] && IsSpace(s[|s| - 1]) then StripRight(s[..|s| - 1]) else s
  }

  /** `s.strip()`. */
  function Strip(s: string): string {
    StripRight(StripLeft(s))
  }

  /**
   * `s.strip()` keeps a contiguous part of `s`, everything cut off on either
   * side is whitespace, and the kept part neither starts nor ends with it.
   */
  lemma StripIsMaximalTrim(s: string)
    ensures exists i, j :: TrimmedAt(s, Strip(s), i, j)
    ensures Strip(s) == [] || (!IsSpace(Strip(s)[0]) && !IsSpace(Strip(s)[|Strip(s)| - 1]))
  {
    StripSlice(s);
    TrimmedOfParts(s, Strip(s), |s| - |StripLeft(s)|);
    StripEnds(s);
  }

  /**
   * `t` is `s[i..j]`, and everything before `i` and from `j` on is
   * whitespace.
   */
  predicate TrimmedAt(s: string, t: string, i: int, j: int) {
    && 0 <= i <= j <= |s| && t == s[i..j]
    && (forall k :: 0 <= k < i ==> IsSpace(s[k]))
    && (forall k :: j <= k < |s| ==> IsSpace(s[k]))
  }

  /** An infix with whitespace before and after it is trimmed out of `s`. */
  lemma TrimmedOfParts(s: string, t: string, i: nat)
    requires i + |t| <= |s| && t == s[i..i + |t|]
    requires forall k :: 0 <= k < i ==> IsSpace(s[k])
    requires forall k :: i + |t| <= k < |s| ==> IsSpace(s[k])
    ensures TrimmedAt(s, t, i, i + |t|)
  {
  }

  /** Where `s.strip()` sits inside `s`, and that what follows it is whitespace. */
  lemma StripSlice(s: string)
    ensures var i := |s| - |StripLeft(s)|;
      && i + |Strip(s)| <= |s|
      && Strip(s) == s[i..i + |Strip(s)|]
      && forall k :: i + |Strip(s)| <= k < |s| ==> IsSpace(s[k])
  {
    var l := StripLeft(s);
    var r := StripRight(l);
    var i := |s| - |l|;
    PrefixOfSuffix(s, i, |r|);
    ShiftSpaces(s, i, |r|);
  }

  /** `s.strip()` is the part of `s` that starts after the leading whitespace. */
  lemma StripInfix(s: string)
    ensures InfixAt(s, |s| - |StripLeft(s)|, Strip(s))
  {
    StripSlice(s);
    InfixOfSlice(s, |s| - |StripLeft(s)|, Strip(s));
  }

  /** A slice of `s` starting at `i` is an infix there. */
  lemma InfixOfSlice(s: string, i: nat, t: string)
    requires i + |t| <= |s| && t == s[i..i + |t|]
    ensures InfixAt(s, i, t)
  {
  }

  /** `t` occurs in `s` starting at index `i`. */
  predicate InfixAt(s: string, i: nat, t: string) {
    i + |t| <= |s| && s[i..i + |t|] == t
  }

  /** A prefix of a suffix is an infix. */
  lemma PrefixOfSuffix<T>(s: seq<T>, i: nat, n: nat)
    requires i + n <= |s|
    ensures s[i..][..n] == s[i..i + n]
  {
  }

  /** The whitespace after a prefix of a suffix of `s` is whitespace of `s`. */
  lemma ShiftSpaces(s: string, i: nat, n: nat)
    requires i + n <= |s|
    requires forall k :: n <= k < |s[i..]| ==> IsSpace(s[i..][k])
    ensures forall k :: i + n <= k < |s| ==> IsSpace(s[k])
  {
    forall k | i + n <= k < |s| ensures IsSpace(s[k]) {
      assert s[k] == s[i..][k - i];
    }
  }

  /** `s.strip()` neither starts nor ends with whitespace. */
  lemma StripEnds(s: string)
    ensures Strip(s) == [] || (!IsSpace(Strip(s)[0]) && !IsSpace(Strip(s)[|Strip(s)| - 1]))
  {
    var l := StripLeft(s);
    var r := StripRight(l);
    if r != [] {
      assert r[0] == l[0];
    }
  }

  /** `s.startswith(p)`. */
  predicate StartsWith(s: string, p: string) {
    |p| <= |s| && s[..|p|] == p
  }

  /** `p` occurs in `s` starting at index `i`. */
  predicate OccursAt(s: string, p: string, i: int) {
    0 <= i && i + |p| <= |s| && s[i..i + |p|] == p
  }

  /** `p in s` for a non-empty `p`. */
  predicate Occurs(s: string, p: string) {
    exists i :: 0 <= i <= |s| && OccursAt(s, p, i)
  }

  /**
   * `s.replace(old, new)` for a non-empty `old`: every non-overlapping
   * occurrence, scanning from the left, is replaced.
   */
  function Replace(s: string, pat: string, repl: string): string
    requires pat != []
    decreases |s|
  {
    if |s| < |pat| then s
    else if s[..|pat|] == pat then repl + Replace(s[|pat|..], pat, repl)
    else [s[0]] + Replace(s[1..], pat, repl)
  }

  /** Deleting occurrences never lengthens a string; it shortens it exactly when one occurs. */
  lemma {:induction false} DeleteShortens(s: string, pat: string)
    requires pat != []
    ensures |Replace(s, pat, "")| <= |s|
    ensures Occurs(s, pat) ==> |Replace(s, pat, "")| < |s|
    decreases |s|
  {
    if |s| < |pat| {
    } else if s[..|pat|] == pat {
      DeleteShortens(s[|pat|..], pat);
    } else {
      DeleteShortens(s[1..], pat);
      if Occurs(s, pat) {
        var i :| 0 <= i <= |s| && OccursAt(s, pat, i);
        assert 1 <= i && i + |pat| <= |s|;
        assert OccursAt(s[1..], pat, i - 1) by {
          assert s[1..][i - 1..i - 1 + |pat|] == s[i..i + |pat|];
        }
      }
    }
  }

  /** A string in which `pat` does not occur is returned unchanged. */
  lemma {:induction false} ReplaceAbsent(s: string, pat: string, repl: string)
    requires pat != []
    requires !Occurs(s, pat)
    ensures Replace(s, pat, repl) == s
    decreases |s|
  {
    if |s| >= |pat| {
      assert !OccursAt(s, pat, 0);
      assert !Occurs(s[1..], pat) by {
        forall i | OccursAt(s[1..], pat, i) ensures false {
          assert s[1..][i..i + |pat|] == s[i + 1..i + 1 + |pat|];
          assert OccursAt(s, pat, i + 1);
        }
      }
      ReplaceAbsent(s[1..], pat, repl);
    }
  }

  /** Deleting `pat` leaves `s` unchanged exactly when `pat` does not occur in it. */
  lemma DeleteIsIdentityIff(s: string, pat: string)
    requires pat != []
    ensures Replace(s, pat, "") == s <==> !Occurs(s, pat)
  {
    DeleteShortens(s, pat);
    if !Occurs(s, pat) {
      ReplaceAbsent(s, pat, "");
    }
  }

  /** Position of the first `c` in `s`. */
  function IndexOf(s: string, c: char): (i: nat)
    requires c in s
    ensures i < |s| && s[i] == c && c !in s[..i]
  {
    if s[0] == c then 0 else 1 + IndexOf(s[1..], c)
  }

  /** `s.split(sep)` for a one-character separator. */
  function Split(s: string, sep: char): (parts: seq<string>)
    ensures |parts| >= 1
    ensures forall k :: 0 <= k < |parts| ==> sep !in parts[k]
    decreases |s|
  {
    if sep !in s then [s]
    else
      var i := IndexOf(s, sep);
      [s[..i]] + Split(s[i + 1..], sep)
  }

  /** The first part of `s.split(sep)` is everything before the first separator. */
  lemma SplitHead(s: string, sep: char, k: nat)
    requires k <= |s| && sep !in s[..k] && (k == |s| || s[k] == sep)
    ensures Split(s, sep)[0] == s[..k]
  {
    if k == |s| {
      assert s[..k] == s;
    }
  }

  /** The first part of `s.split(sep)` is a prefix of `s`. */
  lemma SplitHeadIsPrefix(s: string, sep: char)
    ensures StartsWith(s, Split(s, sep)[0])
  {
    if sep in s {
      var i := IndexOf(s, sep);
      assert Split(s, sep) == [s[..i]] + Split(s[i + 1..], sep);
    } else {
      assert s[..|s|] == s;
    }
  }

  /** Text that the first line of `s.strip()` starts with occurs in `s`. */
  lemma {:induction false} FirstLineStartOccurs(s: string, p: string)
    requires StartsWith(Split(Strip(s), '\n')[0], p)
    ensures Occurs(s, p)
  {
    var st := Strip(s);
    var first := Split(st, '\n')[0];
    SplitHeadIsPrefix(st, '\n');
    StartsWithTrans(st, first, p);
    StripInfix(s);
    StartOfInfixOccurs(s, |s| - |StripLeft(s)|, st, p);
  }

  /** What a prefix of `t` starts with, `t` starts with. */
  lemma StartsWithTrans(t: string, first: string, p: string)
    requires StartsWith(t, first) && StartsWith(first, p)
    ensures StartsWith(t, p)
  {
    assert t[..|p|] == first[..|p|];
  }

  /** What an infix of `s` starts with occurs in `s`. */
  lemma StartOfInfixOccurs(s: string, i: nat, t: string, p: string)
    requires InfixAt(s, i, t) && StartsWith(t, p)
    ensures Occurs(s, p)
  {
    assert s[i..i + |p|] == t[..|p|];
    assert OccursAt(s, p, i);
  }

  /** `sep.join(parts)`. */
  function Join(parts: seq<string>, sep: char): string
    decreases |parts|
  {
    if parts == [] then ""
    else if |parts| == 1 then parts[0]
    else parts[0] + [sep] + Join(parts[1..], sep)
  }

  /** A separator present in `s` splits it into at least two parts. */
  lemma SplitAtSeparator(s: string, sep: char)
    requires sep in s
    ensures |Split(s, sep)| >= 2
  {
    var i := IndexOf(s, sep);
    assert Split(s, sep) == [s[..i]] + Split(s[i + 1..], sep);
  }

  /** Splitting and joining again gives the original string back. */
  lemma {:induction false} JoinSplit(s: string, sep: char)
    ensures Join(Split(s, sep), sep) == s
    decreases |s|
  {
    if sep in s {
      var i := IndexOf(s, sep);
      var rest := Split(s[i + 1..], sep);
      JoinSplit(s[i + 1..], sep);
      assert Split(s, sep) == [s[..i]] + rest;
      JoinCons(s[..i], rest, sep);
      SplitAround(s, i);
    }
  }

  /** Joining a head in front of at least one more part. */
  lemma JoinCons(head: string, rest: seq<string>, sep: char)
    requires |rest| >= 1
    ensures Join([head] + rest, sep) == head + [sep] + Join(rest, sep)
  {
    assert ([head] + rest)[0] == head && ([head] + rest)[1..] == rest;
  }

  /** A sequence is what comes before index `i`, the element there, and what follows. */
  lemma SplitAround<T>(s: seq<T>, i: nat)
    requires i < |s|
    ensures s == s[..i] + [s[i]] + s[i + 1..]
  {
  }

  /** Joining separator-free parts and splitting again gives the parts back. */
  lemma {:induction false} SplitJoin(parts: seq<string>, sep: char)
    requires |parts| >= 1
    requires forall k :: 0 <= k < |parts| ==> sep !in parts[k]
    ensures Split(Join(parts, sep), sep) == parts
    decreases |parts|
  {
    if |parts| > 1 {
      var tail := Join(parts[1..], sep);
      var s := parts[0] + [sep] + tail;
      assert sep in s by { assert s[|parts[0]|] == sep; }
      var i := IndexOf(s, sep);
      assert s[..i] == parts[0];
      assert s[i + 1..] == tail;
      SplitJoin(parts[1..], sep);
    }
  }

  /** `s.split(sep, 1)` when `sep` occurs: the text before and after its first occurrence. */
  function SplitOnce(s: string, sep: char): (r: (string, string))
    requires sep in s
    ensures s == r.0 + [sep] + r.1 && sep !in r.0
  {
    var i := IndexOf(s, sep);
    assert s == s[..i] + [sep] + s[i + 1..];
    (s[..i], s[i + 1..])
  }

  /** A character other than the separator that no part contains is not in their join. */
  lemma {:induction false} JoinAvoids(parts: seq<string>, sep: char, c: char)
    requires c != sep && forall k :: 0 <= k < |parts| ==> c !in parts[k]
    ensures c !in Join(parts, sep)
    decreases |parts|
  {
    if |parts| > 1 {
      JoinAvoids(parts[1..], sep, c);
    }
  }

  /** `s.split(sep, 1)` of a text whose first separator follows `a`. */
  lemma SplitOnceOf(a: string, b: string, sep: char)
    requires sep !in a
    ensures sep in a + [sep] + b
    ensures SplitOnce(a + [sep] + b, sep) == (a, b)
  {
    var s := a + [sep] + b;
    assert s[|a|] == sep;
    var i := IndexOf(s, sep);
    assert s[..|a|] == a;
  }
}
