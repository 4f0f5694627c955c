/**
 `Array.prototype.filter` on lists, and what it means for a list to be split
 into two lists that each keep the original order.
 */
module Filtering {

  /** `s.filter(p)`: the elements of `s` that satisfy `p`, in their order in
      `s`. Defined from the last element back, as the list grows by appends. */
  function Filter<T(!new)>(s: seq<T>, p: T -> bool): (r: seq<T>)
    ensures |r| <= |s|
    ensures forall x :: x in r <==> x in s && p(x)
  {
    if s == [] then []
    else
      var init := Filter(s[..|s| - 1], p);
      if p(s[|s| - 1]) then init + [s[|s| - 1]] else init
  }

  /** The complement of a test. */
  function Not<T(!new)>(p: T -> bool): T -> bool {
    x => !p(x)
  }

  /** `s` is a merge of `a` and `b`: each element of `s` comes from exactly one
      of the two, and each of the two keeps its elements in the order of `s`. */
  predicate Interleaves<T(==,!new)>(s: seq<T>, a: seq<T>, b: seq<T>)
    decreases |s|
  {
    if s == [] then a == [] && b == []
    else
      (a != [] && a[|a| - 1] == s[|s| - 1] && Interleaves(s[..|s| - 1], a[..|a| - 1], b)) ||
      (b != [] && b[|b| - 1] == s[|s| - 1] && Interleaves(s[..|s| - 1], a, b[..|b| - 1]))
  }

  /** A merge loses and invents nothing: `s` holds exactly the elements of `a`
      and `b`, counted with multiplicity. */
  lemma {:induction false} InterleavesCounts<T(!new)>(s: seq<T>, a: seq<T>, b: seq<T>)
    requires Interleaves(s, a, b)
    ensures |s| == |a| + |b|
    ensures multiset(s) == multiset(a) + multiset(b)
    decreases |s|
  {
    if s != [] {
      var s', x := s[..|s| - 1], s[|s| - 1];
      assert s == s' + [x];
      if a != [] && a[|a| - 1] == x && Interleaves(s', a[..|a| - 1], b) {
        InterleavesCounts(s', a[..|a| - 1], b);
        assert a == a[..|a| - 1] + [x];
      } else {
        InterleavesCounts(s', a, b[..|b| - 1]);
        assert b == b[..|b| - 1] + [x];
      }
    }
  }

  /** Filtering by `p` and by its complement splits `s` into two lists whose
      merge is `s`. */
  lemma {:induction false} FilterSplits<T(!new)>(s: seq<T>, p: T -> bool)
    ensures Interleaves(s, Filter(s, p), Filter(s, Not(p)))
    decreases |s|
  {
    if s != [] {
      FilterSplits(s[..|s| - 1], p);
      var x := s[|s| - 1];
      if p(x) {
        assert Filter(s, p)[..|Filter(s, p)| - 1] == Filter(s[..|s| - 1], p);
      } else {
        assert Filter(s, Not(p))[..|Filter(s, Not(p))| - 1] == Filter(s[..|s| - 1], Not(p));
      }
    }
  }

  /** The split is unique: any merge into a list of elements satisfying `p`
      and a list of elements failing `p` is the one `Filter` gives. */
  lemma {:induction false} FilterUnique<T(!new)>(s: seq<T>, a: seq<T>, b: seq<T>, p: T -> bool)
    requires Interleaves(s, a, b)
    requires forall x :: x in a ==> p(x)
    requires forall x :: x in b ==> !p(x)
    ensures a == Filter(s, p) && b == Filter(s, Not(p))
    decreases |s|
  {
    if s != [] {
      var s', x := s[..|s| - 1], s[|s| - 1];
      if a != [] && a[|a| - 1] == x && Interleaves(s', a[..|a| - 1], b) {
        var a' := a[..|a| - 1];
        assert a == a' + [x];
        assert p(x);
        FilterUnique(s', a', b, p);
        assert Filter(s, p) == Filter(s', p) + [x];
        assert Filter(s, Not(p)) == Filter(s', Not(p));
      } else {
        var b' := b[..|b| - 1];
        assert b != [] && b[|b| - 1] == x && Interleaves(s', a, b');
        assert b == b' + [x];
        assert !p(x);
        FilterUnique(s', a, b', p);
        assert Filter(s, p) == Filter(s', p);
        assert Filter(s, Not(p)) == Filter(s', Not(p)) + [x];
      }
    }
  }

  /** Filtering keeps the whole list exactly when every element passes. */
  lemma {:induction false} FilterIdentity<T(!new)>(s: seq<T>, p: T -> bool)
    ensures Filter(s, p) == s <==> forall x :: x in s ==> p(x)
    decreases |s|
  {
    if s != [] {
      FilterIdentity(s[..|s| - 1], p);
      if forall x :: x in s ==> p(x) {
        assert forall x :: x in s[..|s| - 1] ==> x in s;
        assert s == s[..|s| - 1] + [s[|s| - 1]];
      }
    }
  }

  /** Filtering twice by the same test is filtering once. */
  lemma FilterIdempotent<T(!new)>(s: seq<T>, p: T -> bool)
    ensures Filter(Filter(s, p), p) == Filter(s, p)
  {
    FilterIdentity(Filter(s, p), p);
  }

  /** Two filters can be applied in either order. */
  lemma {:induction false} FilterCommutes<T(!new)>(s: seq<T>, p: T -> bool, q: T -> bool)
    ensures Filter(Filter(s, p), q) == Filter(Filter(s, q), p)
    decreases |s|
  {
    if s != [] {
      var s', x := s[..|s| - 1], s[|s| - 1];
      FilterCommutes(s', p, q);
      FilterAppend(Filter(s', p), x, q);
      FilterAppend(Filter(s', q), x, p);
    }
  }

  /** Filtering a list extended by one element. */
  lemma FilterAppend<T(!new)>(s: seq<T>, x: T, p: T -> bool)
    ensures Filter(s + [x], p) == if p(x) then Filter(s, p) + [x] else Filter(s, p)
  {
    assert (s + [x])[..|s|] == s;
  }
}
