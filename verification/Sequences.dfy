/** Filtering and mapping sequences. */
module Sequences {
  function Filter<T(!new)>(s: seq<T>, keep: T -> bool): (r: seq<T>)
    ensures forall x :: x in r <==> x in s && keep(x)
  {
    if s == [] then []
    else if keep(s[0]) then [s[0]] + Filter(s[1..], keep)
    else Filter(s[1..], keep)
  }

  function Map<T, U>(s: seq<T>, f: T -> U): (r: seq<U>)
    ensures |r| == |s| && forall i :: 0 <= i < |s| ==> r[i] == f(s[i])
  {
    if s == [] then [] else [f(s[0])] + Map(s[1..], f)
  }

  lemma {:induction false} FilterAppend<T(!new)>(s: seq<T>, x: T, keep: T -> bool)
    ensures Filter(s + [x], keep) == Filter(s, keep) + if keep(x) then [x] else []
  {
    if s == [] {
      assert s + [x] == [x];
      assert Filter([x][1..], keep) == [];
    } else {
      FilterAppend(s[1..], x, keep);
      assert (s + [x])[1..] == s[1..] + [x];
    }
  }

  lemma {:induction false} FilterAgain<T(!new)>(s: seq<T>, p: T -> bool, q: T -> bool, keep: T -> bool)
    requires forall x <- s :: keep(x) ==> (p(x) <==> q(x))
    ensures Filter(Filter(s, p), keep) == Filter(Filter(s, q), keep)
  {
    if s != [] {
      FilterAgain(s[1..], p, q, keep);
      var fp, fq := Filter(s[1..], p), Filter(s[1..], q);
      assert ([s[0]] + fp)[1..] == fp && ([s[0]] + fq)[1..] == fq;
    }
  }

  lemma {:induction false} FilterConcat<T(!new)>(s: seq<T>, t: seq<T>, keep: T -> bool)
    ensures Filter(s + t, keep) == Filter(s, keep) + Filter(t, keep)
  {
    if s == [] {
      assert s + t == t;
    } else {
      FilterConcat(s[1..], t, keep);
      assert (s + t)[1..] == s[1..] + t;
    }
  }

  lemma {:induction false} FilterMap<T(!new), U(!new)>(s: seq<T>, f: T -> U, keep: U -> bool, kept: T -> bool)
    requires forall x <- s :: kept(x) == keep(f(x))
    ensures Filter(Map(s, f), keep) == Map(Filter(s, kept), f)
  {
    if s != [] {
      FilterMap(s[1..], f, keep, kept);
      assert Map(s, f)[1..] == Map(s[1..], f);
      var rest := Filter(s[1..], kept);
      assert ([s[0]] + rest)[1..] == rest;
    }
  }

  lemma {:induction false} FilterCounts<T(!new)>(s: seq<T>, keep: T -> bool, p: T)
    ensures multiset(Filter(s, keep))[p] == if keep(p) then multiset(s)[p] else 0
  {
    if s != [] {
      FilterCounts(s[1..], keep, p);
      assert s == [s[0]] + s[1..];
    }
  }

  /** Filtering twice is filtering by both. */
  lemma {:induction false} FilterBoth<T(!new)>(s: seq<T>, p: T -> bool, q: T -> bool, both: T -> bool)
    requires forall x <- s :: both(x) <==> p(x) && q(x)
    ensures Filter(Filter(s, p), q) == Filter(s, both)
  {
    if s != [] {
      FilterBoth(s[1..], p, q, both);
      var rest := Filter(s[1..], p);
      assert ([s[0]] + rest)[1..] == rest;
    }
  }

  /** A filter and its complement split a sequence. */
  lemma {:induction false} FilterSplits<T(!new)>(s: seq<T>, p: T -> bool, q: T -> bool)
    requires forall x <- s :: p(x) <==> !q(x)
    ensures multiset(Filter(s, p)) + multiset(Filter(s, q)) == multiset(s)
    ensures |Filter(s, p)| + |Filter(s, q)| == |s|
  {
    if s != [] {
      FilterSplits(s[1..], p, q);
      assert s == [s[0]] + s[1..];
    }
  }
}
