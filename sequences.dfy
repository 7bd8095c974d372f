/** Array operations the components call (`filter`, `indexOf`) and the
    subsequence relation used to state what filtering keeps. */
module Sequences {

  /** `a` is obtained from `b` by deleting elements, keeping the order of the rest. */
  predicate IsSubsequence<T(==)>(a: seq<T>, b: seq<T>)
    decreases |b|
  {
    a == [] || (b != [] && ((a[0] == b[0] && IsSubsequence(a[1..], b[1..])) || IsSubsequence(a, b[1..])))
  }

  /** `Array.prototype.filter`: the elements of `s` that satisfy `p`, in order. */
  function FilterSeq<T(!new)>(s: seq<T>, p: T -> bool): (r: seq<T>)
    ensures |r| <= |s|
    ensures forall x :: x in r <==> x in s && p(x)
  {
    if s == [] then []
    else if p(s[0]) then [s[0]] + FilterSeq(s[1..], p)
    else FilterSeq(s[1..], p)
  }

  /** Filtering a list that starts with `x`. */
  lemma FilterCons<T(!new)>(x: T, s: seq<T>, p: T -> bool)
    ensures FilterSeq([x] + s, p) == (if p(x) then [x] else []) + FilterSeq(s, p)
  {
    assert ([x] + s)[1..] == s;
  }

  /** The conjunction of two element predicates. */
  function Both<T>(p: T -> bool, q: T -> bool): T -> bool
  {
    x => p(x) && q(x)
  }

  /** Filtering keeps a subsequence: nothing is added and order is kept. */
  lemma {:induction false} FilterIsSubsequence<T(!new)>(s: seq<T>, p: T -> bool)
    ensures IsSubsequence(FilterSeq(s, p), s)
  {
    if s != [] {
      FilterIsSubsequence(s[1..], p);
      var r := FilterSeq(s[1..], p);
      if p(s[0]) {
        assert FilterSeq(s, p) == [s[0]] + r;
        assert ([s[0]] + r)[1..] == r;
      } else {
        assert FilterSeq(s, p) == r;
      }
    }
  }

  /** Filtering by `p` and then by `q` is filtering once by their conjunction. */
  lemma {:induction false} FilterThenFilter<T(!new)>(s: seq<T>, p: T -> bool, q: T -> bool)
    ensures FilterSeq(FilterSeq(s, p), q) == FilterSeq(s, Both(p, q))
  {
    if s != [] {
      FilterThenFilter(s[1..], p, q);
      if p(s[0]) {
        var r := FilterSeq(s[1..], p);
        assert FilterSeq(s, p) == [s[0]] + r;
        assert ([s[0]] + r)[1..] == r;
      }
    }
  }

  /** Two predicates that agree on the elements of `s` filter `s` alike. */
  lemma {:induction false} FilterAgrees<T(!new)>(s: seq<T>, p: T -> bool, q: T -> bool)
    requires forall x :: x in s ==> p(x) == q(x)
    ensures FilterSeq(s, p) == FilterSeq(s, q)
  {
    if s != [] {
      assert forall x :: x in s[1..] ==> x in s;
      FilterAgrees(s[1..], p, q);
    }
  }

  /** The order in which two filters run does not change the result. */
  lemma FilterCommutes<T(!new)>(s: seq<T>, p: T -> bool, q: T -> bool)
    ensures FilterSeq(FilterSeq(s, p), q) == FilterSeq(FilterSeq(s, q), p)
  {
    FilterThenFilter(s, p, q);
    FilterThenFilter(s, q, p);
    FilterAgrees(s, Both(p, q), Both(q, p));
  }

  /** Filtering returns the input itself exactly when every element passes. */
  lemma {:induction false} FilterIdentityIff<T(!new)>(s: seq<T>, p: T -> bool)
    ensures FilterSeq(s, p) == s <==> forall x :: x in s ==> p(x)
  {
    if s != [] {
      FilterIdentityIff(s[1..], p);
      if forall x :: x in s ==> p(x) {
        assert forall x :: x in s[1..] ==> x in s;
      } else {
        var x :| x in s && !p(x);
        assert x !in FilterSeq(s, p);
      }
    }
  }

  /** `Array.prototype.indexOf`: the first index holding `x`, or -1. */
  function IndexOf<T(==)>(s: seq<T>, x: T): (r: int)
    ensures -1 <= r < |s|
    ensures r == -1 <==> x !in s
    ensures 0 <= r ==> s[r] == x && x !in s[..r]
  {
    if s == [] then -1
    else if s[0] == x then 0
    else
      var k := IndexOf(s[1..], x);
      if k == -1 then -1
      else
        assert s[..k + 1] == [s[0]] + s[1..][..k];
        k + 1
  }

  /** In a table without repeated entries, the entry at `i` is found at `i`. */
  lemma IndexOfDistinct<T>(s: seq<T>, i: nat)
    requires i < |s|
    requires forall j, k :: 0 <= j < k < |s| ==> s[j] != s[k]
    ensures IndexOf(s, s[i]) == i
  {
    assert s[i] in s;
  }
}
