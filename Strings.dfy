/** Python's `str.split(sep)`, `sep.join(parts)` and the prefix, suffix and
    substring tests, on strings as sequences of characters. */
module Strings {

  /** `s.split(sep)`: the pieces of `s` between occurrences of `sep`; never
      empty (`"".split(".") == [""]`). */
  function Split(s: string, sep: char): (r: seq<string>)
    ensures |r| >= 1
    ensures forall i | 0 <= i < |r| :: sep !in r[i]
    decreases |s|
  {
    if |s| == 0 then [""]
    else
      var rest := Split(s[1..], sep);
      if s[0] == sep then [""] + rest
      else [[s[0]] + rest[0]] + rest[1..]
  }

  /** `sep.join(parts)`. */
  function Join(parts: seq<string>, sep: char): string
    decreases |parts|
  {
    if |parts| == 0 then ""
    else if |parts| == 1 then parts[0]
    else parts[0] + [sep] + Join(parts[1..], sep)
  }

  predicate NoSep(parts: seq<string>, sep: char) {
    forall i | 0 <= i < |parts| :: sep !in parts[i]
  }

  lemma {:induction false} SplitPiece(p: string, sep: char, tail: seq<string>, s: string)
    requires sep !in p
    requires Split(s, sep) == tail
    ensures Split(p + [sep] + s, sep) == [p] + tail
    decreases |p|
  {
    if |p| == 0 {
      assert (p + [sep] + s)[1..] == s;
    } else {
      SplitPiece(p[1..], sep, tail, s);
      assert (p + [sep] + s)[1..] == p[1..] + [sep] + s;
      assert [p[0]] + p[1..] == p;
    }
  }

  lemma {:induction false} SplitNoSep(p: string, sep: char)
    requires sep !in p
    ensures Split(p, sep) == [p]
    decreases |p|
  {
    if |p| > 0 {
      SplitNoSep(p[1..], sep);
      assert [p[0]] + p[1..] == p;
    }
  }

  /** Splitting a join of separator-free pieces gives the pieces back. */
  lemma {:induction false} SplitJoin(parts: seq<string>, sep: char)
    requires |parts| >= 1 && NoSep(parts, sep)
    ensures Split(Join(parts, sep), sep) == parts
    decreases |parts|
  {
    if |parts| == 1 {
      SplitNoSep(parts[0], sep);
    } else {
      SplitJoin(parts[1..], sep);
      SplitPiece(parts[0], sep, parts[1..], Join(parts[1..], sep));
      assert [parts[0]] + parts[1..] == parts;
    }
  }

  /** `s.startswith(p)`. */
  predicate StartsWith(s: string, p: string) {
    |p| <= |s| && s[..|p|] == p
  }

  /** `s.endswith(p)`. */
  predicate EndsWith(s: string, p: string) {
    |p| <= |s| && s[|s| - |p|..] == p
  }

  /** `t in s` for two strings. */
  predicate Substring(t: string, s: string)
    decreases |s|
  {
    StartsWith(s, t) || (|s| > 0 && Substring(t, s[1..]))
  }

  /** Lexicographic comparison by code point, as Python orders strings:
      -1, 0 or 1. */
  function Compare(s: string, t: string): (r: int)
    ensures -1 <= r <= 1
    ensures r == 0 <==> s == t
    decreases |s|
  {
    if |s| == 0 && |t| == 0 then 0
    else if |s| == 0 then -1
    else if |t| == 0 then 1
    else if s[0] < t[0] then -1
    else if s[0] > t[0] then 1
    else
      var r := Compare(s[1..], t[1..]);
      assert r == 0 ==> s == [s[0]] + s[1..] == [t[0]] + t[1..] == t;
      r
  }

  lemma {:induction false} CompareAntisymmetric(s: string, t: string)
    ensures Compare(t, s) == -Compare(s, t)
    decreases |s|
  {
    if |s| > 0 && |t| > 0 && s[0] == t[0] {
      CompareAntisymmetric(s[1..], t[1..]);
    }
  }
}
