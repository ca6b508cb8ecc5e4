/** `Array.prototype.filter` and `map` over sequences, and the order-preservation facts
    the pages and the catalog client rely on. */
module Seqs {

  /** `s.filter(p)`: the elements satisfying `p`, in their original order. */
  function Filter<T>(p: T -> bool, s: seq<T>): (r: seq<T>)
    ensures |r| <= |s|
  {
    if s == [] then [] else (if p(s[0]) then [s[0]] else []) + Filter(p, s[1..])
  }

  /** `s.map(f)`. */
  function Map<T, U>(f: T -> U, s: seq<T>): seq<U> {
    seq(|s|, i requires 0 <= i < |s| => f(s[i]))
  }

  /** `a` is `b` with some elements deleted and the rest kept in order. */
  predicate IsSubsequence<T(==)>(a: seq<T>, b: seq<T>)
    decreases |b|
  {
    a == [] || (|b| > 0 && ((a[0] == b[0] && IsSubsequence(a[1..], b[1..])) || IsSubsequence(a, b[1..])))
  }

  /** An element is kept exactly when it is in the input and satisfies the predicate. */
  lemma {:induction false} FilterMembership<T>(p: T -> bool, s: seq<T>, x: T)
    ensures x in Filter(p, s) <==> x in s && p(x)
  {
    if s != [] {
      FilterMembership(p, s[1..], x);
      assert s == [s[0]] + s[1..];
    }
  }

  /** The filtered sequence keeps the input's order. */
  lemma {:induction false} FilterIsSubsequence<T>(p: T -> bool, s: seq<T>)
    ensures IsSubsequence(Filter(p, s), s)
  {
    if s != [] {
      FilterIsSubsequence(p, s[1..]);
      var r := Filter(p, s);
      if p(s[0]) {
        assert r[0] == s[0] && r[1..] == Filter(p, s[1..]);
      } else {
        assert r == Filter(p, s[1..]);
      }
    }
  }

  /** Filtering twice with the same predicate is filtering once. */
  lemma {:induction false} FilterIdempotent<T>(p: T -> bool, s: seq<T>)
    ensures Filter(p, Filter(p, s)) == Filter(p, s)
  {
    if s != [] {
      FilterIdempotent(p, s[1..]);
      var r := Filter(p, s);
      if p(s[0]) {
        assert r[0] == s[0] && r[1..] == Filter(p, s[1..]);
        assert Filter(p, r) == [r[0]] + Filter(p, r[1..]);
      } else {
        assert r == Filter(p, s[1..]);
      }
    }
  }

  /** The filter keeps everything exactly when every element satisfies the predicate. */
  lemma {:induction false} FilterKeepsAll<T>(p: T -> bool, s: seq<T>)
    ensures Filter(p, s) == s <==> forall i :: 0 <= i < |s| ==> p(s[i])
  {
    if s != [] {
      FilterKeepsAll(p, s[1..]);
      if !p(s[0]) {
        assert |Filter(p, s)| <= |s[1..]| < |s|;
      }
      assert forall i :: 1 <= i < |s| ==> s[i] == s[1..][i - 1];
    }
  }

  /** The filter keeps nothing exactly when no element satisfies the predicate. */
  lemma {:induction false} FilterEmpty<T>(p: T -> bool, s: seq<T>)
    ensures Filter(p, s) == [] <==> forall i :: 0 <= i < |s| ==> !p(s[i])
  {
    if s != [] {
      FilterEmpty(p, s[1..]);
      assert forall i :: 1 <= i < |s| ==> s[i] == s[1..][i - 1];
    }
  }

  /** Filtering a concatenation filters each part, in order. */
  lemma {:induction false} FilterConcat<T>(p: T -> bool, a: seq<T>, b: seq<T>)
    ensures Filter(p, a + b) == Filter(p, a) + Filter(p, b)
  {
    if a != [] {
      assert (a + b)[1..] == a[1..] + b;
      FilterConcat(p, a[1..], b);
    } else {
      assert a + b == b;
    }
  }

  /** Two predicates that agree on every element select the same elements. */
  lemma {:induction false} FilterAgreeing<T>(p: T -> bool, q: T -> bool, s: seq<T>)
    requires forall i :: 0 <= i < |s| ==> p(s[i]) == q(s[i])
    ensures Filter(p, s) == Filter(q, s)
  {
    if s != [] {
      assert forall i :: 0 <= i < |s[1..]| ==> s[1..][i] == s[i + 1];
      FilterAgreeing(p, q, s[1..]);
    }
  }

  /** `filter` keeps every copy of a selected element and no copy of the others. */
  lemma {:induction false} FilterCount<T>(p: T -> bool, s: seq<T>, x: T)
    ensures multiset(Filter(p, s))[x] == if p(x) then multiset(s)[x] else 0
  {
    if s != [] {
      FilterCount(p, s[1..], x);
      assert s == [s[0]] + s[1..];
      assert multiset(s) == multiset([s[0]]) + multiset(s[1..]);
      assert multiset(Filter(p, s)) == multiset(if p(s[0]) then [s[0]] else []) + multiset(Filter(p, s[1..]));
    }
  }

  /** `FilterCount` for every element at once. */
  lemma FilterCounts<T>(p: T -> bool, s: seq<T>)
    ensures forall x :: multiset(Filter(p, s))[x] == if p(x) then multiset(s)[x] else 0
  {
    forall x ensures multiset(Filter(p, s))[x] == if p(x) then multiset(s)[x] else 0 {
      FilterCount(p, s, x);
    }
  }

  /** A subsequence holds no more copies of anything than the sequence it comes from. */
  lemma {:induction false} SubsequenceCount<T>(a: seq<T>, b: seq<T>)
    requires IsSubsequence(a, b)
    ensures multiset(a) <= multiset(b)
    decreases |b|
  {
    if a != [] {
      assert b == [b[0]] + b[1..];
      if a[0] == b[0] && IsSubsequence(a[1..], b[1..]) {
        SubsequenceCount(a[1..], b[1..]);
        assert a == [a[0]] + a[1..];
      } else {
        SubsequenceCount(a, b[1..]);
      }
    }
  }

  /** Order and counts determine the filter: a subsequence of `s` holding every copy of the
      elements satisfying `p` and none of the others is `Filter(p, s)`. */
  lemma {:induction false} FilterUnique<T>(p: T -> bool, s: seq<T>, r: seq<T>)
    requires IsSubsequence(r, s)
    requires forall x :: multiset(r)[x] == if p(x) then multiset(s)[x] else 0
    ensures r == Filter(p, s)
    decreases |s|
  {
    if s != [] {
      var h, t := s[0], s[1..];
      assert s == [h] + t;
      assert multiset(s) == multiset([h]) + multiset(t);
      if r != [] && r[0] == h && IsSubsequence(r[1..], t) {
        assert r == [h] + r[1..];
        assert multiset(r) == multiset([h]) + multiset(r[1..]);
        assert p(h) by { assert multiset(r)[h] > 0; }
        forall x ensures multiset(r[1..])[x] == if p(x) then multiset(t)[x] else 0 {
          assert multiset(r)[x] == (if x == h then 1 else 0) + multiset(r[1..])[x];
        }
        FilterUnique(p, t, r[1..]);
      } else {
        assert IsSubsequence(r, t);
        SubsequenceCount(r, t);
        if p(h) {
          assert false;
        }
        forall x ensures multiset(r)[x] == if p(x) then multiset(t)[x] else 0 {
          if x == h { assert multiset(r)[h] == 0; }
        }
        FilterUnique(p, t, r);
      }
    }
  }

  /** Mapping keeps subsequences: what the filter selected stays in input order after `map`. */
  lemma {:induction false} MapSubsequence<T, U>(f: T -> U, a: seq<T>, b: seq<T>)
    requires IsSubsequence(a, b)
    ensures IsSubsequence(Map(f, a), Map(f, b))
    decreases |b|
  {
    if a != [] {
      assert Map(f, b)[1..] == Map(f, b[1..]);
      if a[0] == b[0] && IsSubsequence(a[1..], b[1..]) {
        assert Map(f, a)[1..] == Map(f, a[1..]);
        MapSubsequence(f, a[1..], b[1..]);
      } else {
        MapSubsequence(f, a, b[1..]);
      }
    }
  }
}
