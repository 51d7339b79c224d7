/** List operations the pages build on: `Array.prototype.filter` and "is a subsequence of". */
module Seqs {

  /** The elements of `xs` that satisfy `p`, in their original order (`xs.filter(p)`). */
  function Filter<T>(p: T -> bool, xs: seq<T>): (r: seq<T>)
    ensures |r| <= |xs|
    ensures forall i :: 0 <= i < |r| ==> p(r[i])
    ensures multiset(r) <= multiset(xs)
  {
    if xs == [] then []
    else
      assert xs == [xs[0]] + xs[1..];
      if p(xs[0]) then [xs[0]] + Filter(p, xs[1..]) else Filter(p, xs[1..])
  }

  /** An element survives the filter exactly when it is in `xs` and satisfies `p`. */
  lemma {:induction false} FilterMembership<T>(p: T -> bool, xs: seq<T>, x: T)
    ensures x in Filter(p, xs) <==> x in xs && p(x)
  {
    if xs != [] {
      FilterMembership(p, xs[1..], x);
    }
  }

  /** The filter keeps every copy of an element that satisfies `p`, and no copy of one that does not. */
  lemma {:induction false} FilterCount<T>(p: T -> bool, xs: seq<T>, x: T)
    ensures multiset(Filter(p, xs))[x] == if p(x) then multiset(xs)[x] else 0
  {
    if xs != [] {
      FilterCount(p, xs[1..], x);
      assert xs == [xs[0]] + xs[1..];
    }
  }

  lemma FilterMembers<T>(p: T -> bool, xs: seq<T>)
    ensures forall x :: x in Filter(p, xs) <==> x in xs && p(x)
  {
    forall x ensures x in Filter(p, xs) <==> x in xs && p(x) {
      FilterMembership(p, xs, x);
    }
  }

  /** `xs` is obtained from `ys` by deleting zero or more elements. */
  predicate IsSubseq<T(==)>(xs: seq<T>, ys: seq<T>)
    decreases |ys|
  {
    if xs == [] then true
    else if ys == [] then false
    else (xs[0] == ys[0] && IsSubseq(xs[1..], ys[1..])) || IsSubseq(xs, ys[1..])
  }

  lemma {:induction false} SubseqReflexive<T>(xs: seq<T>)
    ensures IsSubseq(xs, xs)
  {
    if xs != [] {
      SubseqReflexive(xs[1..]);
    }
  }

  /** Filtering keeps the relative order of the survivors. */
  lemma {:induction false} FilterIsSubseq<T>(p: T -> bool, xs: seq<T>)
    ensures IsSubseq(Filter(p, xs), xs)
  {
    if xs != [] {
      FilterIsSubseq(p, xs[1..]);
    }
  }

  /** Filtering a concatenation filters each part. */
  lemma {:induction false} FilterConcat<T>(p: T -> bool, xs: seq<T>, ys: seq<T>)
    ensures Filter(p, xs + ys) == Filter(p, xs) + Filter(p, ys)
  {
    if xs == [] {
      assert xs + ys == ys;
    } else {
      assert (xs + ys)[0] == xs[0];
      assert (xs + ys)[1..] == xs[1..] + ys;
      FilterConcat(p, xs[1..], ys);
    }
  }

  /** A filter whose predicate holds everywhere on `xs` returns `xs` itself. */
  lemma {:induction false} FilterKeepsAll<T>(p: T -> bool, xs: seq<T>)
    requires forall x :: x in xs ==> p(x)
    ensures Filter(p, xs) == xs
  {
    if xs != [] {
      FilterKeepsAll(p, xs[1..]);
    }
  }

  /** Two predicates that agree on every element of `xs` filter it the same way. */
  lemma {:induction false} FilterAgree<T>(p: T -> bool, q: T -> bool, xs: seq<T>)
    requires forall x :: x in xs ==> (p(x) <==> q(x))
    ensures Filter(p, xs) == Filter(q, xs)
  {
    if xs != [] {
      FilterAgree(p, q, xs[1..]);
    }
  }

  /** Two filters in a row are one filter by the conjunction. */
  lemma {:induction false} FilterFilter<T>(p: T -> bool, q: T -> bool, both: T -> bool, xs: seq<T>)
    requires forall x :: both(x) <==> p(x) && q(x)
    ensures Filter(q, Filter(p, xs)) == Filter(both, xs)
  {
    if xs != [] {
      FilterFilter(p, q, both, xs[1..]);
    }
  }

  /** A filter applied to its own result changes nothing. */
  lemma FilterIdempotent<T>(p: T -> bool, xs: seq<T>)
    ensures Filter(p, Filter(p, xs)) == Filter(p, xs)
  {
    FilterKeepsAll(p, Filter(p, xs));
  }

  /** Filtering a prefix of `xs` yields a prefix of the filtered `xs`. */
  lemma FilterPrefix<T>(p: T -> bool, xs: seq<T>, k: nat)
    requires k <= |xs|
    ensures Filter(p, xs[..k]) <= Filter(p, xs)
  {
    assert xs == xs[..k] + xs[k..];
    FilterConcat(p, xs[..k], xs[k..]);
  }
}
