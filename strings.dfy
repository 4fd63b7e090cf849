/**
 * String helpers with Java's meaning: `Collectors.joining(sep)`, splitting at every separator,
 * splitting at the first separator only (`split(sep, 2)`), `endsWith` and ASCII `toLowerCase`.
 */
module Strings {
  import opened Wrappers

  /** `Collectors.joining([sep])`. */
  function Join(sep: char, xs: seq<string>): string {
    if |xs| == 0 then ""
    else if |xs| == 1 then xs[0]
    else xs[0] + [sep] + Join(sep, xs[1..])
  }

  /** Splits at every `sep`, keeping empty pieces; the inverse of `Join`. */
  function Split(s: string, sep: char): (r: seq<string>)
    ensures |r| >= 1
  {
    if s == [] then [""]
    else
      var rest := Split(s[1..], sep);
      if s[0] == sep then [""] + rest else [[s[0]] + rest[0]] + rest[1..]
  }

  /** `s.split(sep, 2)` on a non-empty string: the text before the first `sep`, and the text
      after it when `sep` occurs (which may contain further `sep`s). */
  function SplitFirst(s: string, sep: char): (r: (string, Option<string>))
    ensures sep !in r.0
    ensures r.1.None? ==> r.0 == s
    ensures r.1.Some? ==> s == r.0 + [sep] + r.1.value
  {
    if s == [] then ("", None)
    else if s[0] == sep then ("", Some(s[1..]))
    else
      var tail := SplitFirst(s[1..], sep);
      ([s[0]] + tail.0, tail.1)
  }

  predicate EndsWith(s: string, suffix: string) {
    |suffix| <= |s| && s[|s| - |suffix|..] == suffix
  }

  function LowerChar(c: char): char {
    if 'A' <= c <= 'Z' then (c as int - 'A' as int + 'a' as int) as char else c
  }

  /** `toLowerCase()`, on the ASCII letters. */
  function ToLower(s: string): (r: string)
    ensures |r| == |s|
    ensures forall k :: 0 <= k < |s| ==> r[k] == LowerChar(s[k])
  {
    if s == [] then [] else [LowerChar(s[0])] + ToLower(s[1..])
  }

  lemma ToLowerIdempotent(s: string)
    ensures ToLower(ToLower(s)) == ToLower(s)
  {
  }

  lemma {:induction false} SplitNoSeparatorPrefix(a: string, t: string, sep: char)
    requires sep !in a
    ensures Split(a + t, sep) == [a + Split(t, sep)[0]] + Split(t, sep)[1..]
  {
    if a != [] {
      assert (a + t)[1..] == a[1..] + t;
      assert (a + t)[0] == a[0];
      SplitNoSeparatorPrefix(a[1..], t, sep);
      assert [a[0]] + (a[1..] + Split(t, sep)[0]) == a + Split(t, sep)[0];
    } else {
      var r := Split(t, sep);
      assert a + t == t;
      assert a + r[0] == r[0];
      assert r == [r[0]] + r[1..];
    }
  }

  /** Splitting a joined list gives the list back when no piece contains the separator. */
  lemma {:induction false} SplitJoin(xs: seq<string>, sep: char)
    requires |xs| >= 1
    requires forall x :: x in xs ==> sep !in x
    ensures Split(Join(sep, xs), sep) == xs
  {
    if |xs| == 1 {
      SplitNoSeparatorPrefix(xs[0], "", sep);
      assert xs[0] + "" == xs[0];
    } else {
      var rest := Join(sep, xs[1..]);
      SplitJoin(xs[1..], sep);
      assert Join(sep, xs) == xs[0] + ([sep] + rest);
      var tail := [sep] + rest;
      SplitNoSeparatorPrefix(xs[0], tail, sep);
      assert tail[0] == sep && tail[1..] == rest;
      var st := Split(tail, sep);
      assert st == [""] + xs[1..];
      assert st[0] == "" && st[1..] == xs[1..];
      assert xs[0] + st[0] == xs[0];
      assert xs == [xs[0]] + xs[1..];
    }
  }
}
