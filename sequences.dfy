/** Order-preserving filtering of a list, the `Array.prototype.filter` that
    the board uses to drop a deleted task, to pick assignable users and to
    fill the status buckets. */
module Sequences {

  /** `a` can be obtained from `b` by deleting elements: `a`'s elements occur
      in `b` in the same relative order. */
  ghost predicate IsSubsequence<T>(a: seq<T>, b: seq<T>)
  {
    if a == [] then true
    else if b == [] then false
    else if a[|a| - 1] == b[|b| - 1] then IsSubsequence(a[..|a| - 1], b[..|b| - 1])
    else IsSubsequence(a, b[..|b| - 1])
  }

  /** The elements of `s` that satisfy `p`, in their original order. What
      that means is stated by the lemmas below. */
  function Filter<T>(s: seq<T>, p: T -> bool): (r: seq<T>)
    ensures |r| <= |s|
  {
    if s == [] then []
    else
      var kept := Filter(s[..|s| - 1], p);
      if p(s[|s| - 1]) then kept + [s[|s| - 1]] else kept
  }

  /** The filter keeps exactly the elements that satisfy `p`, each as often
      as it occurs, and drops every other one. */
  lemma {:induction false} FilterMembers<T(!new)>(s: seq<T>, p: T -> bool)
    ensures forall x :: x in Filter(s, p) <==> x in s && p(x)
    ensures forall x :: multiset(Filter(s, p))[x] == if p(x) then multiset(s)[x] else 0
  {
    if s != [] {
      var init, last := s[..|s| - 1], s[|s| - 1];
      assert s == init + [last];
      FilterMembers(init, p);
    }
  }

  /** The filter keeps the relative order of what it keeps. */
  lemma {:induction false} FilterOrder<T>(s: seq<T>, p: T -> bool)
    ensures IsSubsequence(Filter(s, p), s)
  {
    if s != [] {
      var init, last := s[..|s| - 1], s[|s| - 1];
      var kept := Filter(init, p);
      FilterOrder(init, p);
      if p(last) {
        assert (kept + [last])[..|kept|] == kept;
      } else if kept != [] {
        FilterKeepsOnly(init, p, |kept| - 1);
      }
    }
  }

  /** Every element the filter keeps satisfies `p`. */
  lemma {:induction false} FilterKeepsOnly<T>(s: seq<T>, p: T -> bool, i: nat)
    requires i < |Filter(s, p)|
    ensures p(Filter(s, p)[i])
  {
    var init, last := s[..|s| - 1], s[|s| - 1];
    var kept := Filter(init, p);
    if i < |kept| {
      FilterKeepsOnly(init, p, i);
    }
  }

  /** Filtering distributes over appending one element, the step of a loop
      that visits a list front to back. */
  lemma {:induction false} FilterSnoc<T>(s: seq<T>, x: T, p: T -> bool)
    ensures Filter(s + [x], p) == Filter(s, p) + (if p(x) then [x] else [])
  {
    assert (s + [x])[..|s|] == s;
  }

  /** Predicates that can never hold together split a list: the sizes of the
      three filtered lists add up to the whole when every element satisfies
      one of them. */
  lemma {:induction false} FilterPartition<T>(s: seq<T>, p: T -> bool, q: T -> bool, o: T -> bool)
    requires forall x :: x in s ==> (p(x) && !q(x) && !o(x)) || (!p(x) && q(x) && !o(x)) || (!p(x) && !q(x) && o(x))
    ensures |Filter(s, p)| + |Filter(s, q)| + |Filter(s, o)| == |s|
  {
    if s != [] {
      var init := s[..|s| - 1];
      assert s == init + [s[|s| - 1]];
      FilterPartition(init, p, q, o);
      FilterSnoc(init, s[|s| - 1], p);
      FilterSnoc(init, s[|s| - 1], q);
      FilterSnoc(init, s[|s| - 1], o);
    }
  }
}
