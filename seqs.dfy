/** Order-preserving selection over sequences: the model of JavaScript's
    `Array.prototype.filter`, which every list view of the application uses. */
module Seqs {

  /** The elements of `s` that satisfy `p`, in their original order. */
  function Filter<T(!new)>(s: seq<T>, p: T -> bool): (r: seq<T>)
    ensures |r| <= |s|
    ensures forall x :: x in r <==> x in s && p(x)
  {
    if s == [] then []
    else
      var rest := Filter(s[1..], p);
      assert forall x :: x in s <==> x == s[0] || x in s[1..];
      if p(s[0]) then [s[0]] + rest else rest
  }

  /** `a` can be obtained from `b` by deleting elements (greedy matching). */
  predicate IsSubsequence<T(==)>(a: seq<T>, b: seq<T>)
    decreases |b|
  {
    if a == [] then true
    else if b == [] then false
    else if a[0] == b[0] then IsSubsequence(a[1..], b[1..])
    else IsSubsequence(a, b[1..])
  }

  /** A subsequence is never longer than the sequence and only holds its elements. */
  lemma {:induction false} SubsequenceBounds<T(!new)>(a: seq<T>, b: seq<T>)
    requires IsSubsequence(a, b)
    ensures |a| <= |b|
    ensures forall x :: x in a ==> x in b
    decreases |b|
  {
    if a == [] {
    } else if a[0] == b[0] {
      SubsequenceBounds(a[1..], b[1..]);
      assert forall x :: x in a ==> x == a[0] || x in a[1..];
    } else {
      SubsequenceBounds(a, b[1..]);
    }
  }

  /** Filtering keeps the original relative order. */
  lemma {:induction false} FilterIsSubsequence<T(!new)>(s: seq<T>, p: T -> bool)
    ensures IsSubsequence(Filter(s, p), s)
  {
    if s != [] {
      FilterIsSubsequence(s[1..], p);
      var rest := Filter(s[1..], p);
      if !p(s[0]) && rest != [] {
        assert rest[0] in rest;
      }
    }
  }

  /** A stronger predicate selects a subsequence of what a weaker one selects. */
  lemma {:induction false} FilterStronger<T(!new)>(s: seq<T>, q: T -> bool, p: T -> bool)
    requires forall x :: x in s && q(x) ==> p(x)
    ensures IsSubsequence(Filter(s, q), Filter(s, p))
  {
    if s != [] {
      FilterStronger(s[1..], q, p);
      var a := Filter(s[1..], q);
      if p(s[0]) && !q(s[0]) && a != [] {
        assert a[0] in a;
      }
    }
  }

  /** Each element occurs in the result as often as in the input when it
      satisfies the predicate, and not at all otherwise. */
  lemma {:induction false} FilterMultiplicity<T(!new)>(s: seq<T>, p: T -> bool)
    ensures forall x :: multiset(Filter(s, p))[x] == if p(x) then multiset(s)[x] else 0
  {
    if s != [] {
      FilterMultiplicity(s[1..], p);
      assert s == [s[0]] + s[1..];
      assert multiset(s) == multiset([s[0]]) + multiset(s[1..]);
      var rest := Filter(s[1..], p);
      if p(s[0]) {
        assert multiset(Filter(s, p)) == multiset([s[0]]) + multiset(rest);
      }
    }
  }

  /** Filtering distributes over concatenation. */
  lemma {:induction false} FilterAppend<T(!new)>(a: seq<T>, b: seq<T>, p: T -> bool)
    ensures Filter(a + b, p) == Filter(a, p) + Filter(b, p)
  {
    if a == [] {
      assert a + b == b;
    } else {
      FilterAppend(a[1..], b, p);
      assert (a + b)[1..] == a[1..] + b;
      assert (a + b)[0] == a[0];
    }
  }

  /** A predicate that holds of every element keeps the whole sequence. */
  lemma {:induction false} FilterKeepsAll<T(!new)>(s: seq<T>, p: T -> bool)
    requires forall x :: x in s ==> p(x)
    ensures Filter(s, p) == s
  {
    if s != [] {
      assert s[0] in s;
      FilterKeepsAll(s[1..], p);
      assert [s[0]] + s[1..] == s;
    }
  }

  /** Two predicates that agree on the elements select the same result. */
  lemma {:induction false} FilterCongruent<T(!new)>(s: seq<T>, p: T -> bool, q: T -> bool)
    requires forall x :: x in s ==> p(x) == q(x)
    ensures Filter(s, p) == Filter(s, q)
  {
    if s != [] {
      assert s[0] in s;
      FilterCongruent(s[1..], p, q);
    }
  }

  /** The negation of a predicate, as a value. */
  function Not<T(!new)>(p: T -> bool): T -> bool {
    x => !p(x)
  }

  /** A predicate and its negation split the input: every element lands in
      exactly one of the two results. */
  lemma {:induction false} FilterPartition<T(!new)>(s: seq<T>, p: T -> bool)
    ensures |Filter(s, p)| + |Filter(s, Not(p))| == |s|
    ensures multiset(Filter(s, p)) + multiset(Filter(s, Not(p))) == multiset(s)
  {
    if s != [] {
      FilterPartition(s[1..], p);
      assert s == [s[0]] + s[1..];
      assert multiset(s) == multiset([s[0]]) + multiset(s[1..]);
    }
  }
}
