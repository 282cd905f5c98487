/** Sequence helpers shared by the cart, the catalog filter and the cursor render. */
module Seqs {

  /** `a` is obtained from `b` by deleting elements, keeping the order of the rest. */
  predicate IsSubsequence<T(==)>(a: seq<T>, b: seq<T>)
    decreases |b|
  {
    if a == [] then true
    else if b == [] then false
    else (a[0] == b[0] && IsSubsequence(a[1..], b[1..])) || IsSubsequence(a, b[1..])
  }

  /** Every element of a subsequence is an element of the whole. */
  lemma {:induction false} SubsequenceMembers<T>(a: seq<T>, b: seq<T>, x: T)
    requires IsSubsequence(a, b)
    requires x in a
    ensures x in b
    decreases |b|
  {
    if a[0] == b[0] && IsSubsequence(a[1..], b[1..]) {
      if x != a[0] {
        SubsequenceMembers(a[1..], b[1..], x);
      }
    } else {
      SubsequenceMembers(a, b[1..], x);
    }
  }

  /** `Array.prototype.filter`: the elements of `s` that satisfy `keep`, in their original order. */
  function Filter<T(==,!new)>(s: seq<T>, keep: T -> bool): (r: seq<T>)
    ensures |r| <= |s|
    ensures forall x :: multiset(r)[x] == if keep(x) then multiset(s)[x] else 0
    ensures forall i :: 0 <= i < |r| ==> keep(r[i])
    ensures (forall i :: 0 <= i < |s| ==> keep(s[i])) ==> r == s
  {
    if s == [] then []
    else
      var rest := Filter(s[1..], keep);
      assert s == [s[0]] + s[1..];
      assert multiset(s) == multiset([s[0]]) + multiset(s[1..]);
      if keep(s[0]) then
        var r := [s[0]] + rest;
        assert r[1..] == rest;
        assert forall i :: 0 < i < |r| ==> r[i] == rest[i - 1];
        assert multiset(r) == multiset([s[0]]) + multiset(rest);
        r
      else
        rest
  }

  /** A filtered sequence keeps the surviving elements in their original order. */
  lemma {:induction false} FilterIsSubsequence<T(!new)>(s: seq<T>, keep: T -> bool)
    ensures IsSubsequence(Filter(s, keep), s)
  {
    if s != [] {
      FilterIsSubsequence(s[1..], keep);
      var rest := Filter(s[1..], keep);
      if keep(s[0]) {
        assert Filter(s, keep) == [s[0]] + rest;
        assert ([s[0]] + rest)[1..] == rest;
      } else {
        assert Filter(s, keep) == rest;
      }
    }
  }

  /** The elements of a filtered sequence are exactly the elements of the input that are kept. */
  lemma FilterMembers<T(!new)>(s: seq<T>, keep: T -> bool)
    ensures forall x :: x in Filter(s, keep) <==> x in s && keep(x)
  {
    var r := Filter(s, keep);
    forall x ensures x in r <==> x in s && keep(x) {
      assert x in r <==> multiset(r)[x] > 0;
      assert x in s <==> multiset(s)[x] > 0;
    }
  }
}
