/** Cardinality facts used by the conservation results. */
module Counting {
  ghost predicate Distinct<T(!new)>(xs: seq<T>)
  {
    forall i, j | 0 <= i < j < |xs| :: xs[i] != xs[j]
  }

  /** A sequence without repetition is no longer than a set that holds its elements. */
  lemma {:induction false} DistinctWithin<T(!new)>(xs: seq<T>, s: set<T>)
    requires Distinct(xs) && forall i | 0 <= i < |xs| :: xs[i] in s
    ensures |xs| <= |s|
    decreases |xs|
  {
    if xs != [] {
      var last := xs[|xs| - 1];
      DistinctWithin(xs[..|xs| - 1], s - {last});
    }
  }

  /** An injective function keeps the size of a set. */
  lemma {:induction false} InjectiveImage<X(!new), Y(!new)>(s: set<X>, f: X -> Y, image: set<Y>)
    requires forall x, y | x in s && y in s && f(x) == f(y) :: x == y
    requires forall x | x in s :: f(x) in image
    ensures |s| <= |image|
    decreases s
  {
    if s != {} {
      var x :| x in s;
      InjectiveImage(s - {x}, f, image - {f(x)});
    }
  }

  /** A part is no larger than the whole. */
  lemma {:induction false} SubsetSize<T>(small: set<T>, large: set<T>)
    requires small <= large
    ensures |small| <= |large|
    decreases small
  {
    if small != {} {
      var x :| x in small;
      SubsetSize(small - {x}, large - {x});
    }
  }
}
