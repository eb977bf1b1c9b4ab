/** Stable sorting by a text key, and when it has only one possible result. */
module KeyedSort {
  import opened TextTools

  // ---------- the order of texts ----------

  lemma {:induction false} LessIsTransitive(a: string, b: string, c: string)
    requires Less(a, b) && Less(b, c)
    ensures Less(a, c)
    decreases |a|
  {
    if a != "" && a[0] == b[0] && b[0] == c[0] { LessIsTransitive(a[1..], b[1..], c[1..]); }
  }

  lemma {:induction false} LessIsTotal(a: string, b: string)
    ensures Less(a, b) || a == b || Less(b, a)
    decreases |a|
  {
    if a != "" && b != "" && a[0] == b[0] {
      LessIsTotal(a[1..], b[1..]);
      if a[1..] == b[1..] { assert a == [a[0]] + a[1..] && b == [b[0]] + b[1..]; }
    }
  }

  lemma LessIsAsymmetric(a: string, b: string)
    requires Less(a, b)
    ensures !Less(b, a)
  {
    if Less(b, a) {
      LessIsTransitive(a, b, a);
      LessIsIrreflexive(a);
    }
  }

  // ---------- sorting ----------

  function Keys<T>(key: T -> string, xs: seq<T>): (keys: seq<string>)
    ensures |keys| == |xs|
  {
    seq(|xs|, i requires 0 <= i < |xs| => key(xs[i]))
  }

  /** Past every item that does not sort after it, so equal keys keep their order. */
  function Insert<T>(key: T -> string, x: T, xs: seq<T>): seq<T>
  {
    if xs == [] || !Less(key(x), key(xs[|xs| - 1])) then xs + [x]
    else Insert(key, x, xs[..|xs| - 1]) + [xs[|xs| - 1]]
  }

  function SortBy<T>(key: T -> string, xs: seq<T>): seq<T>
  {
    if xs == [] then [] else Insert(key, xs[|xs| - 1], SortBy(key, xs[..|xs| - 1]))
  }

  predicate Ordered<T>(key: T -> string, xs: seq<T>)
  {
    forall i, j | 0 <= i < j < |xs| :: !Less(key(xs[j]), key(xs[i]))
  }

  lemma {:induction false} InsertKeepsItems<T>(key: T -> string, x: T, xs: seq<T>)
    ensures multiset(Insert(key, x, xs)) == multiset(xs) + multiset{x}
    decreases |xs|
  {
    if xs != [] && Less(key(x), key(xs[|xs| - 1])) {
      InsertKeepsItems(key, x, xs[..|xs| - 1]);
      assert xs == xs[..|xs| - 1] + [xs[|xs| - 1]];
    }
  }

  lemma {:induction false} SortKeepsItems<T>(key: T -> string, xs: seq<T>)
    ensures multiset(SortBy(key, xs)) == multiset(xs)
    decreases |xs|
  {
    if xs != [] {
      SortKeepsItems(key, xs[..|xs| - 1]);
      InsertKeepsItems(key, xs[|xs| - 1], SortBy(key, xs[..|xs| - 1]));
      assert xs == xs[..|xs| - 1] + [xs[|xs| - 1]];
    }
  }

  lemma NotLessChains(a: string, b: string, c: string)
    requires !Less(b, a) && !Less(c, b)
    ensures !Less(c, a)
  {
    if Less(c, a) {
      LessIsTotal(a, b);
      if Less(a, b) { LessIsTransitive(c, a, b); }
    }
  }

  lemma InsertedItem<T>(key: T -> string, x: T, xs: seq<T>, y: T)
    requires y in Insert(key, x, xs)
    ensures y == x || y in xs
  {
    InsertKeepsItems(key, x, xs);
    assert y in multiset(Insert(key, x, xs));
  }

  lemma {:induction false} InsertKeepsOrder<T>(key: T -> string, x: T, xs: seq<T>)
    requires Ordered(key, xs)
    ensures Ordered(key, Insert(key, x, xs))
    decreases |xs|
  {
    if xs == [] {
    } else if Less(key(x), key(xs[|xs| - 1])) {
      var n := |xs| - 1;
      InsertKeepsOrder(key, x, xs[..n]);
      var front := Insert(key, x, xs[..n]);
      LessIsAsymmetric(key(x), key(xs[n]));
      forall i | 0 <= i < |front| ensures !Less(key(xs[n]), key(front[i])) {
        InsertedItem(key, x, xs[..n], front[i]);
      }
    } else {
      forall i | 0 <= i < |xs| ensures !Less(key(x), key(xs[i])) {
        if i < |xs| - 1 { NotLessChains(key(xs[i]), key(xs[|xs| - 1]), key(x)); }
      }
    }
  }

  lemma {:induction false} SortOrders<T>(key: T -> string, xs: seq<T>)
    ensures Ordered(key, SortBy(key, xs))
    decreases |xs|
  {
    if xs != [] {
      SortOrders(key, xs[..|xs| - 1]);
      InsertKeepsOrder(key, xs[|xs| - 1], SortBy(key, xs[..|xs| - 1]));
    }
  }

  // ---------- uniqueness ----------

  /** Two strictly ascending arrangements of the same items are the same arrangement. */
  lemma {:induction false} AscendingIsTheOnlyOrder<T>(key: T -> string, xs: seq<T>, ys: seq<T>)
    requires Ascending(Keys(key, xs)) && Ascending(Keys(key, ys)) && multiset(xs) == multiset(ys)
    ensures xs == ys
    decreases |xs|
  {
    assert |multiset(xs)| == |multiset(ys)|;
    if xs != [] {
      var n := |xs| - 1;
      var x, y := xs[n], ys[n];
      LastIsGreatest(key, xs, y);
      LastIsGreatest(key, ys, x);
      if key(x) != key(y) { LessIsAsymmetric(key(x), key(y)); }
      SameKeySameItem(key, ys, x);
      WithoutLast(xs, ys);
      assert Keys(key, xs[..n]) == Keys(key, xs)[..n] && Keys(key, ys[..n]) == Keys(key, ys)[..n];
      AscendingIsTheOnlyOrder(key, xs[..n], ys[..n]);
    }
  }

  lemma WithoutLast<T>(xs: seq<T>, ys: seq<T>)
    requires xs != [] && multiset(xs) == multiset(ys) && |xs| == |ys| && xs[|xs| - 1] == ys[|ys| - 1]
    ensures multiset(xs[..|xs| - 1]) == multiset(ys[..|ys| - 1])
    ensures xs == xs[..|xs| - 1] + [xs[|xs| - 1]] && ys == ys[..|ys| - 1] + [ys[|ys| - 1]]
  {
    var n := |xs| - 1;
    assert xs == xs[..n] + [xs[n]] && ys == ys[..n] + [ys[n]];
    assert multiset(xs) - multiset{xs[n]} == multiset(xs[..n]);
    assert multiset(ys) - multiset{ys[n]} == multiset(ys[..n]);
  }

  lemma LastIsGreatest<T>(key: T -> string, xs: seq<T>, y: T)
    requires xs != [] && Ascending(Keys(key, xs)) && y in multiset(xs)
    ensures key(y) == key(xs[|xs| - 1]) || Less(key(y), key(xs[|xs| - 1]))
  {
    var i :| 0 <= i < |xs| && xs[i] == y;
    if i < |xs| - 1 { assert Less(Keys(key, xs)[i], Keys(key, xs)[|xs| - 1]); }
  }

  lemma SameKeySameItem<T>(key: T -> string, ys: seq<T>, x: T)
    requires ys != [] && Ascending(Keys(key, ys)) && x in multiset(ys) && key(x) == key(ys[|ys| - 1])
    ensures x == ys[|ys| - 1]
  {
    var i :| 0 <= i < |ys| && ys[i] == x;
    if i < |ys| - 1 {
      assert Less(Keys(key, ys)[i], Keys(key, ys)[|ys| - 1]);
      LessIsIrreflexive(key(x));
    }
  }

  /** Sorting gives strictly ascending keys exactly when the keys are distinct. */
  lemma SortedIsAscending<T>(key: T -> string, xs: seq<T>)
    ensures Ascending(Keys(key, SortBy(key, xs))) <==> Unique(Keys(key, SortBy(key, xs)))
  {
    SortOrders(key, xs);
    var s := SortBy(key, xs);
    if Unique(Keys(key, s)) {
      forall i, j | 0 <= i < j < |s| ensures Less(Keys(key, s)[i], Keys(key, s)[j]) {
        LessIsTotal(key(s[i]), key(s[j]));
        assert Keys(key, s)[i] != Keys(key, s)[j];
      }
    } else if Ascending(Keys(key, s)) {
      AscendingIsUnique(Keys(key, s));
    }
  }

  /** Whether the sorted keys ascend strictly depends on the items alone, and then so does the sorted sequence. */
  lemma SortingForgetsOrder<T>(key: T -> string, xs: seq<T>, ys: seq<T>)
    requires multiset(xs) == multiset(ys) && Ascending(Keys(key, SortBy(key, xs)))
    ensures SortBy(key, ys) == SortBy(key, xs)
  {
    var s, t := SortBy(key, xs), SortBy(key, ys);
    SortKeepsItems(key, xs);
    SortKeepsItems(key, ys);
    AscendingIsUnique(Keys(key, s));
    UniqueIsAboutItems(key, s, t);
    SortedIsAscending(key, ys);
    AscendingIsTheOnlyOrder(key, s, t);
  }

  lemma {:induction false} UniqueIsAboutItems<T>(key: T -> string, xs: seq<T>, ys: seq<T>)
    requires multiset(xs) == multiset(ys) && Unique(Keys(key, xs))
    ensures Unique(Keys(key, ys))
  {
    forall i, j | 0 <= i < j < |ys| ensures Keys(key, ys)[i] != Keys(key, ys)[j] {
      if key(ys[i]) == key(ys[j]) {
        assert ys[i] in multiset(ys) && ys[j] in multiset(ys);
        var p :| 0 <= p < |xs| && xs[p] == ys[i];
        var q :| 0 <= q < |xs| && xs[q] == ys[j];
        if ys[i] == ys[j] {
          TwiceCounted(ys, i, j);
          OnceCounted(key, xs, p);
        } else {
          KeysDiffer(key, xs, p, q);
        }
      }
    }
  }

  lemma KeysDiffer<T>(key: T -> string, xs: seq<T>, p: nat, q: nat)
    requires p < |xs| && q < |xs| && p != q && Unique(Keys(key, xs))
    ensures key(xs[p]) != key(xs[q])
  {
    assert Keys(key, xs)[p] != Keys(key, xs)[q];
  }

  lemma TwiceCounted<T>(ys: seq<T>, i: nat, j: nat)
    requires i < j < |ys| && ys[i] == ys[j]
    ensures multiset(ys)[ys[i]] >= 2
  {
    assert ys == ys[..j] + [ys[j]] + ys[j + 1..];
    assert ys[..j][i] in multiset(ys[..j]);
  }

  lemma OnceCounted<T>(key: T -> string, xs: seq<T>, p: nat)
    requires p < |xs| && Unique(Keys(key, xs))
    ensures multiset(xs)[xs[p]] == 1
  {
    assert xs == xs[..p] + [xs[p]] + xs[p + 1..];
    forall i | 0 <= i < |xs| && i != p ensures xs[i] != xs[p] {
      assert Keys(key, xs)[i] != Keys(key, xs)[p];
    }
    assert xs[p] !in multiset(xs[..p]) && xs[p] !in multiset(xs[p + 1..]);
  }
}
