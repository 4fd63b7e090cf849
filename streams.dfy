/**
 * Java stream `filter` on finite sequences, the subsequence relation, and the facts about
 * them that the selection code relies on.
 */
module Streams {

  /** `stream.filter(keep)`: the elements that satisfy `keep`, in their original order. */
  function Filter<T>(xs: seq<T>, keep: T -> bool): (r: seq<T>)
    ensures |r| <= |xs|
  {
    if xs == [] then [] else (if keep(xs[0]) then [xs[0]] else []) + Filter(xs[1..], keep)
  }

  /** `a` can be obtained from `b` by deleting elements (order kept). */
  predicate IsSubsequence<T(==)>(a: seq<T>, b: seq<T>)
    decreases |b|
  {
    if a == [] then true
    else if b == [] then false
    else if a[0] == b[0] then IsSubsequence(a[1..], b[1..])
    else IsSubsequence(a, b[1..])
  }

  /** No element occurs twice. */
  predicate Distinct<T(==)>(xs: seq<T>) {
    forall j, k :: 0 <= j < k < |xs| ==> xs[j] != xs[k]
  }

  /** `xs` lists the elements of `s`, each exactly once: an iteration order of a set. */
  predicate Enumerates<T(==)>(xs: seq<T>, s: set<T>) {
    (forall x :: x in xs ==> x in s) && (forall x :: x in s ==> x in xs) && Distinct(xs)
  }

  /** `set.stream()` (and a for-each over a set): the elements of `s` in some order, each
      once. */
  method StreamOf<T(==)>(s: set<T>) returns (xs: seq<T>)
    ensures Enumerates(xs, s)
  {
    xs := [];
    var rest := s;
    while rest != {}
      invariant rest <= s
      invariant forall x :: x in xs ==> x in s && x !in rest
      invariant forall x :: x in s ==> x in xs || x in rest
      invariant Distinct(xs)
      decreases |rest|
    {
      var x :| x in rest;
      xs := xs + [x];
      rest := rest - {x};
    }
  }

  lemma {:induction false} FilterAppend<T>(a: seq<T>, b: seq<T>, keep: T -> bool)
    ensures Filter(a + b, keep) == Filter(a, keep) + Filter(b, keep)
  {
    if a == [] {
      assert a + b == b;
    } else {
      var ab := a + b;
      assert ab[0] == a[0] && ab[1..] == a[1..] + b;
      FilterAppend(a[1..], b, keep);
      var h := if keep(a[0]) then [a[0]] else [];
      calc {
        Filter(ab, keep);
        h + Filter(ab[1..], keep);
        h + (Filter(a[1..], keep) + Filter(b, keep));
        (h + Filter(a[1..], keep)) + Filter(b, keep);
      }
    }
  }

  /** Every kept element occurs in the input and satisfies the predicate. */
  lemma {:induction false} FilterSound<T>(xs: seq<T>, keep: T -> bool)
    ensures forall x :: x in Filter(xs, keep) ==> x in xs && keep(x)
  {
    if xs != [] {
      FilterSound(xs[1..], keep);
    }
  }

  /** Each element is kept exactly as often as it occurs, when it satisfies the predicate,
      and never otherwise. */
  lemma {:induction false} FilterCount<T>(xs: seq<T>, keep: T -> bool, x: T)
    ensures multiset(Filter(xs, keep))[x] == if keep(x) then multiset(xs)[x] else 0
  {
    if xs != [] {
      FilterCount(xs[1..], keep, x);
      assert xs == [xs[0]] + xs[1..];
    }
  }

  lemma FilterComplete<T>(xs: seq<T>, keep: T -> bool)
    ensures forall x :: x in xs && keep(x) ==> x in Filter(xs, keep)
  {
    forall x | x in xs && keep(x) ensures x in Filter(xs, keep) {
      FilterCount(xs, keep, x);
    }
  }

  lemma {:induction false} FilterIsSubsequence<T>(xs: seq<T>, keep: T -> bool)
    ensures IsSubsequence(Filter(xs, keep), xs)
  {
    if xs != [] {
      FilterIsSubsequence(xs[1..], keep);
      if keep(xs[0]) {
        assert Filter(xs, keep) == [xs[0]] + Filter(xs[1..], keep);
        assert Filter(xs, keep)[1..] == Filter(xs[1..], keep);
      } else {
        assert Filter(xs, keep) == Filter(xs[1..], keep);
        SubsequenceDropHead(Filter(xs[1..], keep), xs);
      }
    }
  }

  /** A subsequence of the tail is a subsequence of the whole. */
  lemma {:induction false} SubsequenceDropHead<T>(a: seq<T>, b: seq<T>)
    requires b != [] && IsSubsequence(a, b[1..])
    ensures IsSubsequence(a, b)
    decreases |b|, 0
  {
    if a != [] && a[0] == b[0] {
      // b[1..] matches a from some later position, so b[1..] matches a[1..] as well
      SubsequenceTail(a, b[1..]);
    }
  }

  lemma {:induction false} SubsequenceTail<T>(a: seq<T>, b: seq<T>)
    requires a != [] && IsSubsequence(a, b)
    ensures IsSubsequence(a[1..], b)
    decreases |b|, 1
  {
    if b != [] {
      if a[0] == b[0] {
        if a[1..] != [] {
          SubsequenceDropHead(a[1..], b);
        }
      } else {
        SubsequenceTail(a, b[1..]);
        if a[1..] != [] {
          SubsequenceDropHead(a[1..], b);
        }
      }
    }
  }

  lemma {:induction false} FilterKeepAll<T>(xs: seq<T>, keep: T -> bool)
    requires forall x :: x in xs ==> keep(x)
    ensures Filter(xs, keep) == xs
  {
    if xs != [] {
      FilterKeepAll(xs[1..], keep);
      assert xs == [xs[0]] + xs[1..];
    }
  }

  lemma {:induction false} FilterKeepNone<T>(xs: seq<T>, keep: T -> bool)
    requires forall x :: x in xs ==> !keep(x)
    ensures Filter(xs, keep) == []
  {
    if xs != [] {
      FilterKeepNone(xs[1..], keep);
    }
  }

  /** Two filters commute. */
  lemma {:induction false} FilterCommute<T>(xs: seq<T>, p: T -> bool, q: T -> bool)
    ensures Filter(Filter(xs, p), q) == Filter(Filter(xs, q), p)
  {
    if xs != [] {
      FilterCommute(xs[1..], p, q);
      var h := [xs[0]];
      var pl := if p(xs[0]) then h else [];
      var ql := if q(xs[0]) then h else [];
      FilterAppend(pl, Filter(xs[1..], p), q);
      FilterAppend(ql, Filter(xs[1..], q), p);
      assert Filter(pl, q) == Filter(ql, p);
    }
  }

  lemma {:induction false} SubsequenceTransitive<T>(a: seq<T>, b: seq<T>, c: seq<T>)
    requires IsSubsequence(a, b) && IsSubsequence(b, c)
    ensures IsSubsequence(a, c)
    decreases |c|
  {
    if a != [] && c != [] {
      if b[0] == c[0] {
        if a[0] == b[0] {
          SubsequenceTransitive(a[1..], b[1..], c[1..]);
        } else {
          SubsequenceTransitive(a, b[1..], c[1..]);
          SubsequenceDropHead(a, c);
        }
      } else {
        SubsequenceTransitive(a, b, c[1..]);
        SubsequenceDropHead(a, c);
      }
    }
  }
}
